/** Sequence and set helpers shared by the server-side modules: duplicate
    freedom, the set of elements and first-occurrence removal. */
module Collections {
  predicate Distinct(s: seq<int>)
  {
    s == [] || (s[0] !in s[1..] && Distinct(s[1..]))
  }

  function Members(s: seq<int>): set<int>
  {
    set x | x in s
  }

  /** `list.remove(x)`: drops the first occurrence. */
  function RemoveValue(s: seq<int>, x: int): seq<int>
    requires x in s
  {
    if s[0] == x then s[1..] else [s[0]] + RemoveValue(s[1..], x)
  }

  /** Removing a present value drops exactly one copy of it. */
  lemma {:induction false} RemoveValueCount(s: seq<int>, x: int)
    requires x in s
    ensures multiset(RemoveValue(s, x)) == multiset(s) - multiset{x}
  {
    assert s == [s[0]] + s[1..];
    if s[0] != x {
      RemoveValueCount(s[1..], x);
    }
  }

  lemma CardSubset<T>(a: set<T>, b: set<T>)
    requires a <= b
    ensures |a| <= |b|
    ensures |a| == |b| ==> a == b
  {
    assert b == a + (b - a);
    assert a * (b - a) == {};
    if |a| == |b| {
      assert |b - a| == 0;
    }
  }

  /** A list has at most as many distinct values as entries, and exactly as
      many iff it holds no duplicate. */
  lemma {:induction false} MembersCard(s: seq<int>)
    ensures |Members(s)| <= |s|
    ensures |Members(s)| == |s| <==> Distinct(s)
  {
    if s != [] {
      MembersCard(s[1..]);
      assert Members(s) == {s[0]} + Members(s[1..]);
      if s[0] in s[1..] {
        assert Members(s) == Members(s[1..]);
      } else {
        assert s[0] !in Members(s[1..]);
      }
    }
  }

  /** Setting a many-to-many relation from a list of ids and counting the
      stored rows gives the list's length iff the ids are distinct and all
      exist. */
  lemma StoredCountMatches(ids: seq<int>, existing: set<int>)
    ensures |Members(ids) * existing| <= |ids|
    ensures |Members(ids) * existing| == |ids| <==> Distinct(ids) && Members(ids) <= existing
  {
    MembersCard(ids);
    var m := Members(ids);
    CardSubset(m * existing, m);
    if m <= existing {
      assert m * existing == m;
    }
    if |m * existing| == |ids| {
      assert m * existing == m;
    }
  }

  /** `max(s)` of a non-empty list. */
  function SeqMax(s: seq<int>): (r: int)
    requires |s| > 0
    ensures r in s && forall k :: 0 <= k < |s| ==> s[k] <= r
  {
    if |s| == 1 then s[0]
    else
      var m := SeqMax(s[1..]);
      assert s == [s[0]] + s[1..];
      if s[0] >= m then s[0] else m
  }

  /** `min(s)` of a non-empty list. */
  function SeqMin(s: seq<int>): (r: int)
    requires |s| > 0
    ensures r in s && forall k :: 0 <= k < |s| ==> r <= s[k]
  {
    if |s| == 1 then s[0]
    else
      var m := SeqMin(s[1..]);
      assert s == [s[0]] + s[1..];
      if s[0] <= m then s[0] else m
  }
}
