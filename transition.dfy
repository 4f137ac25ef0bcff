/** SetTransitionDurationAsync. */
module Transition {
  import opened Wrappers
  import opened Numerics
  import opened Json

  /** The default `duration`. */
  const DefaultDuration: Int32 := 4

  /** The largest transition the command sends. */
  const MaxDuration: int := 65535

  /** `{transition: Math.Clamp(duration, 0, 65535)}`. */
  function SetTransitionDuration(duration: Int32): (r: Json)
    ensures HasOnlyKey(r, "transition")
    ensures Field(r, "transition") == Some(JInt(Clamp(duration, 0, MaxDuration)))
  {
    KeysSingle("transition", JInt(Clamp(duration, 0, MaxDuration)));
    JObj([("transition", JInt(Clamp(duration, 0, MaxDuration)))])
  }

  /** A duration in range goes out unchanged, and a longer duration never sends a shorter transition. */
  lemma SentMonotone(d1: Int32, d2: Int32)
    requires d1 <= d2
    ensures Field(SetTransitionDuration(d1), "transition").value.i <= Field(SetTransitionDuration(d2), "transition").value.i
    ensures 0 <= d1 <= MaxDuration ==> Field(SetTransitionDuration(d1), "transition") == Some(JInt(d1))
  {
    ClampMonotone(d1, d2, 0, MaxDuration);
  }

  /** Called without arguments, the command sends a transition of 4 (tenths of a second). */
  lemma DefaultDurationSent()
    ensures Field(SetTransitionDuration(DefaultDuration), "transition") == Some(JInt(4))
  {
  }
}
