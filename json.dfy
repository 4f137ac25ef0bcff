/**
 * JSON values as Newtonsoft's JToken tree holds them: objects keep their
 * properties in insertion order. Put, Add and Merge are the three ways the SDK
 * writes into a JObject (the indexer setter, JObject.Add and JObject.Merge).
 */
module Json {
  import opened Wrappers
  import opened Errors

  datatype Json =
    | JNull
    | JBool(b: bool)
    | JInt(i: int)
    | JStr(s: string)
    | JArr(items: seq<Json>)
    | JObj(props: seq<(string, Json)>)

  /** The properties of a JObject, in order. */
  type Props = seq<(string, Json)>

  /** The keys of an object. */
  function Keys(o: Props): set<string>
  {
    set i | 0 <= i < |o| :: o[i].0
  }

  lemma KeysCons(x: (string, Json), o: Props)
    ensures Keys([x] + o) == {x.0} + Keys(o)
  {
    var xo := [x] + o;
    assert xo[0] == x;
    forall k | k in Keys(o) ensures k in Keys(xo) {
      var i :| 0 <= i < |o| && o[i].0 == k;
      assert xo[i + 1] == o[i];
    }
    forall k | k in Keys(xo) ensures k in {x.0} + Keys(o) {
      var i :| 0 <= i < |xo| && xo[i].0 == k;
      if i > 0 { assert o[i - 1] == xo[i]; }
    }
  }

  /** A one-property object has exactly that key. */
  lemma KeysSingle(k: string, v: Json)
    ensures Keys([(k, v)]) == {k}
  {
    KeysCons((k, v), []);
  }

  /** The value of the first property named `k`, if any. */
  function Lookup(o: Props, k: string): Option<Json>
    decreases |o|
  {
    if o == [] then None
    else if o[0].0 == k then Some(o[0].1)
    else Lookup(o[1..], k)
  }

  /** A key is found exactly when the object has it, and what is found is one of its properties. */
  lemma {:induction false} LookupKeys(o: Props, k: string)
    ensures Lookup(o, k).None? <==> k !in Keys(o)
    ensures Lookup(o, k).Some? ==> exists i :: 0 <= i < |o| && o[i] == (k, Lookup(o, k).value)
    decreases |o|
  {
    if o != [] {
      KeysCons(o[0], o[1..]);
      assert [o[0]] + o[1..] == o;
      if o[0].0 != k {
        LookupKeys(o[1..], k);
        if Lookup(o, k).Some? {
          var i :| 0 <= i < |o[1..]| && o[1..][i] == (k, Lookup(o, k).value);
          assert o[i + 1] == o[1..][i];
        }
      }
    }
  }

  /** The value of property `k` of an object; `None` for a missing key or a non-object. */
  function Field(j: Json, k: string): (r: Option<Json>)
    ensures r.Some? ==> j.JObj? && k in Keys(j.props)
  {
    if j.JObj? then
      LookupKeys(j.props, k);
      Lookup(j.props, k)
    else None
  }

  /** An object whose only property is `k`. */
  predicate HasOnlyKey(j: Json, k: string)
  {
    j.JObj? && Keys(j.props) == {k}
  }

  /**
   * `obj[k] = v`: an existing property keeps its position and takes the new
   * value; a new property goes at the end.
   */
  function Put(o: Props, k: string, v: Json): (r: Props)
    ensures Lookup(r, k) == Some(v)
    ensures forall k' :: k' != k ==> Lookup(r, k') == Lookup(o, k')
    decreases |o|
  {
    if o == [] then [(k, v)]
    else if o[0].0 == k then [(k, v)] + o[1..]
    else
      var rest := Put(o[1..], k, v);
      assert ([o[0]] + rest)[1..] == rest;
      [o[0]] + rest
  }

  /** Writing a property adds its key and no other. */
  lemma {:induction false} PutKeys(o: Props, k: string, v: Json)
    ensures Keys(Put(o, k, v)) == Keys(o) + {k}
    decreases |o|
  {
    if o != [] {
      KeysCons(o[0], o[1..]);
      assert [o[0]] + o[1..] == o;
      if o[0].0 == k {
        KeysCons((k, v), o[1..]);
      } else {
        PutKeys(o[1..], k, v);
        KeysCons(o[0], Put(o[1..], k, v));
      }
    } else {
      KeysSingle(k, v);
    }
  }

  /** Writing a key the object lacks appends it. */
  lemma {:induction false} PutAppends(o: Props, k: string, v: Json)
    requires k !in Keys(o)
    ensures Put(o, k, v) == o + [(k, v)]
    decreases |o|
  {
    if o != [] {
      KeysCons(o[0], o[1..]);
      assert [o[0]] + o[1..] == o;
      PutAppends(o[1..], k, v);
      assert [o[0]] + (o[1..] + [(k, v)]) == o + [(k, v)];
    }
  }

  /** Writing the same key twice leaves the object as the second write alone would: the last value wins. */
  lemma {:induction false} PutTwice(o: Props, k: string, v: Json, w: Json)
    ensures Put(Put(o, k, v), k, w) == Put(o, k, w)
    decreases |o|
  {
    if o != [] && o[0].0 != k {
      var rest := Put(o[1..], k, v);
      assert Put(o, k, v)[1..] == rest;
      PutTwice(o[1..], k, v, w);
    }
  }

  /** Writing a key the object has changes that property in place: the key order is unchanged. */
  lemma {:induction false} PutInPlace(o: Props, k: string, v: Json)
    requires k in Keys(o)
    ensures |Put(o, k, v)| == |o| && forall i :: 0 <= i < |o| ==> Put(o, k, v)[i].0 == o[i].0
    decreases |o|
  {
    KeysCons(o[0], o[1..]);
    assert [o[0]] + o[1..] == o;
    if o[0].0 != k {
      PutInPlace(o[1..], k, v);
      var r := Put(o, k, v);
      forall i | 0 <= i < |o| ensures r[i].0 == o[i].0 {
        if i > 0 { assert r[i] == Put(o[1..], k, v)[i - 1]; }
      }
    }
  }

  /** `JObject.Add(k, v)`: appends, and throws when the key is already present. */
  function Add(o: Props, k: string, v: Json): (r: Result<Props, Error>)
    ensures r.Failure? <==> k in Keys(o)
    ensures r.Failure? ==> r.error == DuplicateProperty(k)
    ensures r.Success? ==> r.value == o + [(k, v)] && Lookup(r.value, k) == Some(v)
  {
    if k in Keys(o) then Failure(DuplicateProperty(k))
    else
      PutAppends(o, k, v);
      Success(o + [(k, v)])
  }

  /**
   * `target.Merge(content)` with Newtonsoft's default settings, property by
   * property in content order: a missing property is added; an object merges
   * into an object and an array is concatenated onto an array; a null value is
   * ignored; any other value replaces the existing one.
   */
  function MergeProps(target: Props, content: Props): (r: Props)
    decreases content, 1
  {
    if content == [] then target
    else
      assert content[0] in content;
      MergeProps(MergeProperty(target, content[0]), content[1..])
  }

  /** Merges one property of the content into the target. */
  function MergeProperty(target: Props, p: (string, Json)): (r: Props)
    ensures Keys(r) == Keys(target) + {p.0}
    ensures forall k' :: k' != p.0 ==> Lookup(r, k') == Lookup(target, k')
    ensures (p.1.JInt? || p.1.JBool? || p.1.JStr?) ==> Lookup(r, p.0) == Some(p.1)
    decreases p, 0
  {
    match Lookup(target, p.0)
    case None =>
      PutKeys(target, p.0, p.1);
      Put(target, p.0, p.1)
    case Some(e) =>
      PutKeys(target, p.0, MergeValue(e, p.1));
      Put(target, p.0, MergeValue(e, p.1))
  }

  function MergeValue(existing: Json, incoming: Json): (r: Json)
    ensures (incoming.JInt? || incoming.JBool? || incoming.JStr?) ==> r == incoming
    decreases incoming
  {
    match (existing, incoming)
    case (JObj(a), JObj(b)) => JObj(MergeProps(a, b))
    case (JArr(a), JArr(b)) => JArr(a + b)
    case (_, JNull) => existing
    case _ => incoming
  }

  /** No key occurs twice, as in every JObject. */
  predicate UniqueKeys(o: Props)
  {
    forall i, j :: 0 <= i < j < |o| ==> o[i].0 != o[j].0
  }

  /** The result of a merge has exactly the keys of both operands. */
  lemma {:induction false} MergeKeys(target: Props, content: Props)
    ensures Keys(MergeProps(target, content)) == Keys(target) + Keys(content)
    decreases content
  {
    if content != [] {
      KeysCons(content[0], content[1..]);
      assert content == [content[0]] + content[1..];
      MergeKeys(MergeProperty(target, content[0]), content[1..]);
    }
  }

  /** A property the merged-in command does not name keeps its value. */
  lemma {:induction false} MergeKeepsUnnamed(target: Props, content: Props, k: string)
    requires k !in Keys(content)
    ensures Lookup(MergeProps(target, content), k) == Lookup(target, k)
    decreases content
  {
    if content != [] {
      KeysCons(content[0], content[1..]);
      assert content == [content[0]] + content[1..];
      MergeKeepsUnnamed(MergeProperty(target, content[0]), content[1..], k);
    }
  }

  /**
   * A scalar in the command whose key it names once replaces (or adds) the
   * property: this is how a command can overwrite a builder's own keys.
   */
  lemma {:induction false} MergeScalarWins(target: Props, content: Props, k: string, v: Json)
    requires Lookup(content, k) == Some(v) && (v.JInt? || v.JBool? || v.JStr?)
    requires UniqueKeys(content)
    ensures Lookup(MergeProps(target, content), k) == Some(v)
    decreases content
  {
    var rest := content[1..];
    assert content == [content[0]] + rest;
    KeysCons(content[0], rest);
    var next := MergeProperty(target, content[0]);
    if content[0].0 == k {
      assert k !in Keys(rest);
      MergeKeepsUnnamed(next, rest, k);
    } else {
      assert UniqueKeys(rest) by {
        forall i, j | 0 <= i < j < |rest| ensures rest[i].0 != rest[j].0 {
          assert rest[i] == content[i + 1] && rest[j] == content[j + 1];
        }
      }
      MergeScalarWins(next, rest, k, v);
    }
  }
}
