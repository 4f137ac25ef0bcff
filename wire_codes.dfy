/**
 * The string values WLED's JSON API accepts in place of a number: relative
 * steps ("~N" up, "~-N" down), "r" for a random value and "t" to toggle.
 */
module WireCodes {
  import opened Wrappers
  import opened Strings

  /** `"r"`: let the device pick a random value. */
  const RandomCode: string := "r"

  /** `"t"`: toggle a boolean. */
  const ToggleCode: string := "t"

  /** `$"{(forward ? "~" : "~-")}{n}"`: a relative step of n, upwards or downwards. */
  function StepCode(forward: bool, n: int): (s: string)
    ensures |s| >= 2 && s[0] == '~'
    ensures forward ==> s[1..] == IntToString(n)
    ensures !forward ==> s[1] == '-' && s[2..] == IntToString(n)
  {
    var p := if forward then "~" else "~-";
    assert (p + IntToString(n))[|p|..] == IntToString(n);
    p + IntToString(n)
  }

  /**
   * This model's decoder of relative-step strings: the signed change a string
   * written by StepCode stands for (a leading "-" after the "~" is read as a
   * negative decimal first). It decodes StepCode's output; it is not the
   * device firmware's parser.
   */
  function ParseStep(s: string): (r: Option<int>)
    ensures r.Some? ==> |s| >= 2 && s[0] == '~'
  {
    if |s| >= 1 && s[0] == '~' then
      match ParseInt(s[1..])
      case Some(v) => Some(v)
      case None =>
        if |s| >= 2 && s[1] == '-' then
          match ParseInt(s[2..])
          case Some(v) => Some(-v)
          case None => None
        else None
    else None
  }

  /** StepCode is decodable: ParseStep recovers +n forwards and -n backwards, whatever the sign of n. */
  lemma StepCodeRoundTrip(forward: bool, n: int)
    ensures ParseStep(StepCode(forward, n)) == Some(if forward then n else -n)
  {
    var s := StepCode(forward, n);
    ParseIntToString(n);
    if !forward {
      var t := s[1..];
      assert t[0] == '-' && t[1..] == IntToString(n);
      if n >= 0 {
        assert t == "-" + NatToString(n);
        assert AllDigits(t[1..]);
      } else {
        assert t[1] == '-';
        assert !AllDigits(t[1..]) by { assert !IsDigit(t[1..][0]); }
        assert !AllDigits(t) by { assert !IsDigit(t[0]); }
        assert ParseInt(t) == None;
      }
    }
  }

  /** Two step strings that are equal stand for the same signed change. */
  lemma StepCodeDeterminesChange(f1: bool, n1: int, f2: bool, n2: int)
    requires StepCode(f1, n1) == StepCode(f2, n2)
    ensures (if f1 then n1 else -n1) == (if f2 then n2 else -n2)
  {
    StepCodeRoundTrip(f1, n1);
    StepCodeRoundTrip(f2, n2);
  }

  /** Stepping back by n > 0 is written exactly as stepping forward by -n. */
  lemma BackwardIsNegativeForward(n: int)
    requires n > 0
    ensures StepCode(false, n) == StepCode(true, -n)
  {
    assert IntToString(-n) == "-" + NatToString(n);
  }
}
