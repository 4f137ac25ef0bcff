/**
 * Segment target resolution (GetIds, ClampIds) and the per-segment fan-out of
 * one command object (CreateSegmentsWith).
 */
module SegmentUtils {
  import opened Wrappers
  import opened Errors
  import opened Numerics
  import opened Json
  import opened Models
  import opened ClientAccess

  /** The shape of every segment command: `{"seg": [entries...]}`. */
  function SegCommand(entries: seq<Json>): (r: Json)
    ensures HasOnlyKey(r, "seg")
  {
    KeysSingle("seg", JArr(entries));
    JObj([("seg", JArr(entries))])
  }

  /** The segments whose `sel` flag is set, in their order. */
  function SelectedSegments(segs: seq<SegmentInfo>): (r: seq<SegmentInfo>)
    ensures |r| <= |segs|
    ensures forall s :: s in r <==> s in segs && s.selected
    decreases |segs|
  {
    if segs == [] then []
    else
      var rest := SelectedSegments(segs[1..]);
      assert forall s :: s in segs <==> s == segs[0] || s in segs[1..];
      if segs[0].selected then [segs[0]] + rest else rest
  }

  /** `GetIds(state, selectedOnly)`: the ids of the (selected) segments, in declared order. */
  function GetIds(state: State, selectedOnly: bool): (r: seq<Int32>)
    ensures !selectedOnly ==> |r| == |state.segments|
    ensures !selectedOnly ==> forall i :: 0 <= i < |r| ==> r[i] == state.segments[i].id
    ensures selectedOnly ==> |r| <= |state.segments|
    ensures forall x :: x in r <==> exists s :: s in state.segments && s.id == x && (selectedOnly ==> s.selected)
  {
    var segs := if selectedOnly then SelectedSegments(state.segments) else state.segments;
    var r := seq(|segs|, i requires 0 <= i < |segs| => segs[i].id);
    assert forall x :: x in r <==> exists s :: s in segs && s.id == x by {
      forall x ensures x in r <==> exists s :: s in segs && s.id == x {
        if x in r {
          var i :| 0 <= i < |r| && r[i] == x;
          assert segs[i] in segs;
        }
        if exists s :: s in segs && s.id == x {
          var s :| s in segs && s.id == x;
          var i :| 0 <= i < |segs| && segs[i] == s;
          assert r[i] == x;
        }
      }
    }
    r
  }

  /** What one requested id adds before de-duplication: the main segment for -1, the id itself if it exists. */
  function Contribution(existing: seq<Int32>, main: Int32, id: Int32): seq<Int32>
  {
    (if id == -1 then [main] else []) + (if id in existing then [id] else [])
  }

  /** The list the `foreach` of ClampIds builds. */
  function Collected(existing: seq<Int32>, main: Int32, ids: seq<Int32>): seq<Int32>
    decreases |ids|
  {
    if ids == [] then []
    else Collected(existing, main, ids[..|ids| - 1]) + Contribution(existing, main, ids[|ids| - 1])
  }

  predicate NoDuplicates(s: seq<Int32>)
  {
    forall i, j :: 0 <= i < j < |s| ==> s[i] != s[j]
  }

  /** LINQ `Distinct`: the first occurrence of each element, in order. */
  function Dedup(s: seq<Int32>): (r: seq<Int32>)
    ensures forall x :: x in r <==> x in s
    ensures NoDuplicates(r)
    ensures |r| <= |s|
    decreases |s|
  {
    if s == [] then []
    else
      var init := s[..|s| - 1];
      var last := s[|s| - 1];
      var d := Dedup(init);
      assert forall x :: x in s <==> x in init || x == last by {
        assert s == init + [last];
      }
      if last in d then d else d + [last]
  }

  /** The position of the first occurrence of `x` in `s`. */
  function FirstIndex(s: seq<Int32>, x: Int32): (i: nat)
    requires x in s
    ensures i < |s| && s[i] == x && x !in s[..i]
  {
    if s[0] == x then 0
    else
      var j := FirstIndex(s[1..], x);
      assert s[..j + 1] == [s[0]] + s[1..][..j];
      j + 1
  }

  /** Distinct keeps the elements in the order of their first occurrences. */
  lemma {:induction false} DedupKeepsFirstOccurrenceOrder(s: seq<Int32>, i: nat, j: nat)
    requires i < j < |Dedup(s)|
    ensures FirstIndex(s, Dedup(s)[i]) < FirstIndex(s, Dedup(s)[j])
    decreases |s|
  {
    var init := s[..|s| - 1];
    var last := s[|s| - 1];
    var d := Dedup(init);
    assert s == init + [last];
    var x, y := Dedup(s)[i], Dedup(s)[j];
    if last in d {
      FirstIndexOfPrefix(s, init, x);
      FirstIndexOfPrefix(s, init, y);
      DedupKeepsFirstOccurrenceOrder(init, i, j);
    } else if j < |d| {
      FirstIndexOfPrefix(s, init, x);
      FirstIndexOfPrefix(s, init, y);
      DedupKeepsFirstOccurrenceOrder(init, i, j);
    } else {
      assert y == last && last !in init;
      FirstIndexOfPrefix(s, init, x);
      assert s[..|init|] == init;
      FirstIndexIs(s, y, |init|);
    }
  }

  lemma FirstIndexOfPrefix(s: seq<Int32>, p: seq<Int32>, x: Int32)
    requires |p| <= |s| && p == s[..|p|] && x in p
    ensures x in s && FirstIndex(s, x) == FirstIndex(p, x)
  {
    var k := FirstIndex(p, x);
    assert s[k] == x && s[..k] == p[..k];
    FirstIndexIs(s, x, k);
  }

  /** The first occurrence is the only occurrence with no earlier one. */
  lemma FirstIndexIs(s: seq<Int32>, x: Int32, i: nat)
    requires i < |s| && s[i] == x && x !in s[..i]
    ensures FirstIndex(s, x) == i
  {
    var m := FirstIndex(s, x);
    assert forall j :: 0 <= j < m ==> s[j] != x by {
      assert forall j :: 0 <= j < m ==> s[..m][j] == s[j];
    }
    assert forall j :: 0 <= j < i ==> s[j] != x by {
      assert forall j :: 0 <= j < i ==> s[..i][j] == s[j];
    }
  }

  /** `ClampIds(state, ids)`: the target set of a per-segment command. */
  function ResolveIds(state: State, ids: seq<Int32>): (r: seq<Int32>)
    ensures ids == [] ==> r == GetIds(state, false)
    ensures ids != [] ==> NoDuplicates(r)
  {
    if ids == [] then GetIds(state, false)
    else Dedup(Collected(GetIds(state, false), state.mainSegmentId, ids))
  }

  /** What the unresolved list holds: the main segment for a -1, and every requested id that exists. */
  lemma {:induction false} CollectedMembers(existing: seq<Int32>, main: Int32, ids: seq<Int32>, x: Int32)
    ensures x in Collected(existing, main, ids) <==> (x == main && -1 in ids) || (x in ids && x in existing)
    decreases |ids|
  {
    if ids != [] {
      var init := ids[..|ids| - 1];
      assert ids == init + [ids[|ids| - 1]];
      CollectedMembers(existing, main, init, x);
    }
  }

  /** Without a segment whose id is -1, each requested id adds at most one element. */
  lemma {:induction false} CollectedLength(existing: seq<Int32>, main: Int32, ids: seq<Int32>)
    requires -1 !in existing
    ensures |Collected(existing, main, ids)| <= |ids|
    decreases |ids|
  {
    if ids != [] {
      CollectedLength(existing, main, ids[..|ids| - 1]);
    }
  }

  /**
   * For a non-empty request: an id is targeted iff it is the main segment and
   * -1 was requested, or it was requested and exists; so every target exists
   * or is the main segment.
   */
  lemma ResolveIdsMembers(state: State, ids: seq<Int32>, x: Int32)
    requires ids != []
    ensures x in ResolveIds(state, ids) <==>
              (x == state.mainSegmentId && -1 in ids) || (x in ids && x in GetIds(state, false))
    ensures x in ResolveIds(state, ids) ==> x in GetIds(state, false) || x == state.mainSegmentId
  {
    CollectedMembers(GetIds(state, false), state.mainSegmentId, ids, x);
  }

  /** Targets come in the order their first contributions appear in the request. */
  lemma ResolveIdsOrder(state: State, ids: seq<Int32>, i: nat, j: nat)
    requires ids != [] && i < j < |ResolveIds(state, ids)|
    ensures var c := Collected(GetIds(state, false), state.mainSegmentId, ids);
            var r := ResolveIds(state, ids);
            r[i] in c && r[j] in c && FirstIndex(c, r[i]) < FirstIndex(c, r[j])
  {
    var c := Collected(GetIds(state, false), state.mainSegmentId, ids);
    DedupKeepsFirstOccurrenceOrder(c, i, j);
  }

  /** When no segment has id -1 (device ids are never negative) the target set is no longer than the request. */
  lemma ResolveIdsLength(state: State, ids: seq<Int32>)
    requires ids != [] && -1 !in GetIds(state, false)
    ensures |ResolveIds(state, ids)| <= |ids|
  {
    CollectedLength(GetIds(state, false), state.mainSegmentId, ids);
  }

  /** A segment with id -1 makes a single -1 resolve to two targets: the main segment and -1 itself. */
  lemma ResolveIdsCanOutgrowRequest()
    ensures ResolveIds(State(0, [SegmentInfo(-1, false)]), [-1]) == [0, -1]
  {
    var st := State(0, [SegmentInfo(-1, false)]);
    var existing := GetIds(st, false);
    assert existing == [-1];
    assert [-1][..0] == [];
    assert Collected(existing, 0, [-1]) == [0, -1];
    var c: seq<Int32> := [0, -1];
    assert c[..1] == [0];
    assert [0][..0] == [];
    assert Dedup([0]) == [0];
  }

  /** An empty request targets every segment, in declared order. */
  lemma ResolveAllExample()
    ensures ResolveIds(State(0, [SegmentInfo(0, true), SegmentInfo(2, false), SegmentInfo(5, true)]), []) == [0, 2, 5]
  {
  }

  /** `[-1, 2, 9]` with main segment 2 and segments {0, 2}: -1 and 2 collapse to 2, 9 is dropped. */
  lemma ResolveMainAndUnknownExample()
    ensures ResolveIds(State(2, [SegmentInfo(0, true), SegmentInfo(2, true)]), [-1, 2, 9]) == [2]
  {
    var existing: seq<Int32> := [0, 2];
    var ids: seq<Int32> := [-1, 2, 9];
    assert GetIds(State(2, [SegmentInfo(0, true), SegmentInfo(2, true)]), false) == existing;
    assert ids[..2] == [-1, 2] && ids[..2][..1] == [-1] && ids[..1][..0] == [];
    assert Collected(existing, 2, [-1]) == [2];
    assert Collected(existing, 2, [-1, 2]) == [2, 2];
    assert Collected(existing, 2, ids) == [2, 2];
    var c: seq<Int32> := [2, 2];
    assert c[..1] == [2] && [2][..0] == [];
  }

  /** LINQ `Distinct()` as ClampIds runs it: one pass with a set of the elements already seen. */
  method Distinct(s: seq<Int32>) returns (r: seq<Int32>)
    ensures r == Dedup(s)
  {
    var seen: set<Int32> := {};
    r := [];
    var i := 0;
    while i < |s|
      invariant 0 <= i <= |s|
      invariant r == Dedup(s[..i])
      invariant forall x :: x in seen <==> x in s[..i]
    {
      assert s[..i + 1] == s[..i] + [s[i]];
      DedupSnoc(s[..i], s[i]);
      if s[i] !in seen {
        r := r + [s[i]];
        seen := seen + {s[i]};
      }
      i := i + 1;
    }
    assert s[..|s|] == s;
  }

  /** One more element: Distinct keeps it exactly when it has not been seen. */
  lemma DedupSnoc(s: seq<Int32>, x: Int32)
    ensures Dedup(s + [x]) == if x in s then Dedup(s) else Dedup(s) + [x]
  {
    assert (s + [x])[..|s|] == s;
  }

  /** `ClampIds(state, ids)`: the foreach that collects contributions, then Distinct. */
  method ClampIds(state: State, ids: seq<Int32>) returns (r: seq<Int32>)
    ensures r == ResolveIds(state, ids)
  {
    if |ids| == 0 {
      return GetIds(state, false);
    }
    var result: seq<Int32> := [];
    var existing := GetIds(state, false);
    var i := 0;
    while i < |ids|
      invariant 0 <= i <= |ids|
      invariant result == Collected(existing, state.mainSegmentId, ids[..i])
    {
      var segment := ids[i];
      assert ids[..i + 1][..i] == ids[..i];
      if segment == -1 {
        result := result + [state.mainSegmentId];
      }
      i := i + 1;
      if segment !in existing {
        continue;
      }
      result := result + [segment];
    }
    assert ids[..|ids|] == ids;
    r := Distinct(result);
  }

  /** One entry per id: the command object followed by its `"id"`. */
  function EntriesFor(obj: Props, ids: seq<Int32>): (r: seq<Json>)
    ensures |r| == |ids|
  {
    seq(|ids|, i requires 0 <= i < |ids| => JObj(obj + [("id", JInt(ids[i]))]))
  }

  /**
   * `CreateSegmentsWith(obj, ids)`: `{"seg": [...]}` with one clone of obj per
   * id, each with its `"id"` added; JObject.Add throws if obj already has an
   * `"id"` (only when there is an id to add).
   */
  function SegmentsWith(obj: Props, ids: seq<Int32>): (r: Result<Json, Error>)
    ensures r.Failure? <==> ids != [] && "id" in Keys(obj)
    ensures r.Failure? ==> r.error == DuplicateProperty("id")
    ensures r.Success? ==> r.value == SegCommand(EntriesFor(obj, ids))
  {
    if ids != [] && "id" in Keys(obj) then Failure(DuplicateProperty("id"))
    else Success(SegCommand(EntriesFor(obj, ids)))
  }

  /** Every entry carries the object's own properties unchanged, and the id it was made for. */
  lemma EntriesForLookup(obj: Props, ids: seq<Int32>, i: nat, k: string)
    requires "id" !in Keys(obj) && i < |ids|
    ensures EntriesFor(obj, ids)[i] == JObj(Put(obj, "id", JInt(ids[i])))
    ensures k == "id" ==> Lookup(EntriesFor(obj, ids)[i].props, k) == Some(JInt(ids[i]))
    ensures k != "id" ==> Lookup(EntriesFor(obj, ids)[i].props, k) == Lookup(obj, k)
  {
    PutAppends(obj, "id", JInt(ids[i]));
  }

  method CreateSegmentsWith(obj: Props, ids: seq<Int32>) returns (r: Result<Json, Error>)
    ensures r == SegmentsWith(obj, ids)
  {
    var entries: seq<Json> := [];
    var i := 0;
    while i < |ids|
      invariant 0 <= i <= |ids|
      invariant entries == EntriesFor(obj, ids[..i])
      invariant i > 0 ==> "id" !in Keys(obj)
    {
      var clone := obj;
      var added := Add(clone, "id", JInt(ids[i]));
      if added.Failure? {
        return Failure(added.error);
      }
      entries := entries + [JObj(added.value)];
      i := i + 1;
    }
    assert ids[..|ids|] == ids;
    r := Success(SegCommand(entries));
  }

  /** The client-facing step shared by every per-segment extension: read State, then resolve. */
  function Targets(state: Option<State>, ids: seq<Int32>): (r: Result<seq<Int32>, Error>)
    ensures r.Failure? <==> state.None?
    ensures r.Failure? ==> r.error == StateNotReceived
    ensures r.Success? ==> r.value == ResolveIds(state.value, ids)
  {
    match GetStateOrThrow(state)
    case Failure(e) => Failure(e)
    case Success(s) => Success(ResolveIds(s, ids))
  }

  /**
   * What every per-segment overload sends: nothing but the missing-State error
   * without a State, and otherwise one entry per resolved id, each holding obj's
   * properties and its own id.
   */
  predicate IsFanOut(r: Result<Json, Error>, state: Option<State>, obj: Props, ids: seq<Int32>)
  {
    && (r.Failure? <==> state.None?)
    && (r.Failure? ==> r.error == StateNotReceived)
    && (r.Success? ==> r.value == SegCommand(EntriesFor(obj, ResolveIds(state.value, ids))))
  }

  /** `CreateSegmentsWith(obj, ClampIds(GetStateOrThrow(), ids))`, for an obj without an "id" key. */
  function FanOut(state: Option<State>, obj: Props, ids: seq<Int32>): (r: Result<Json, Error>)
    requires "id" !in Keys(obj)
    ensures IsFanOut(r, state, obj, ids)
  {
    match Targets(state, ids)
    case Failure(e) => Failure(e)
    case Success(t) => SegmentsWith(obj, t)
  }
}
