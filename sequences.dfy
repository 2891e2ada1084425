/** Order-preserving sequence operations shared by the editor and the preview:
    JavaScript's `Array.prototype.filter`, and the map/filter-by-id idiom the
    editor uses on each collection of entries. */
module Sequences {

  /** `sub` can be obtained from `s` by deleting elements, keeping the order of the rest. */
  predicate IsSubsequence<T(==)>(sub: seq<T>, s: seq<T>)
    decreases |s|
  {
    if sub == [] then true
    else if s == [] then false
    else if sub[0] == s[0] then IsSubsequence(sub[1..], s[1..])
    else IsSubsequence(sub, s[1..])
  }

  /** `Array.prototype.filter`: the elements of `s` that satisfy `keep`, in their original order. */
  function Filter<T(==)>(s: seq<T>, keep: T -> bool): (r: seq<T>)
    ensures |r| <= |s|
    ensures forall i :: 0 <= i < |r| ==> keep(r[i])
    ensures IsSubsequence(r, s)
    ensures (forall i :: 0 <= i < |s| ==> keep(s[i])) ==> r == s
    decreases |s|
  {
    if s == [] then []
    else if keep(s[0]) then [s[0]] + Filter(s[1..], keep)
    else Filter(s[1..], keep)
  }

  /** Filtering keeps any property every element of `s` has. */
  lemma {:induction false} FilterPreserves<T>(s: seq<T>, keep: T -> bool, p: T -> bool)
    requires forall i :: 0 <= i < |s| ==> p(s[i])
    ensures forall i :: 0 <= i < |Filter(s, keep)| ==> p(Filter(s, keep)[i])
    decreases |s|
  {
    if s != [] {
      FilterPreserves(s[1..], keep, p);
    }
  }

  /** Every element of a subsequence occurs in the sequence. */
  lemma {:induction false} SubsequenceMembers<T>(sub: seq<T>, s: seq<T>)
    requires IsSubsequence(sub, s)
    ensures forall i :: 0 <= i < |sub| ==> sub[i] in s
    decreases |s|
  {
    if sub != [] {
      if sub[0] == s[0] {
        SubsequenceMembers(sub[1..], s[1..]);
        forall i | 1 <= i < |sub| ensures sub[i] in s {
          assert sub[i] == sub[1..][i - 1];
        }
      } else {
        SubsequenceMembers(sub, s[1..]);
      }
    }
  }

  /** The filtered sequence holds exactly the members of `s` that satisfy `keep`. */
  lemma {:induction false} FilterMembers<T>(s: seq<T>, keep: T -> bool)
    ensures forall i :: 0 <= i < |Filter(s, keep)| ==> Filter(s, keep)[i] in s
    ensures forall i :: 0 <= i < |s| && keep(s[i]) ==> s[i] in Filter(s, keep)
    decreases |s|
  {
    SubsequenceMembers(Filter(s, keep), s);
    if s != [] {
      FilterMembers(s[1..], keep);
      forall i | 1 <= i < |s| && keep(s[i]) ensures s[i] in Filter(s, keep) {
        assert s[i] == s[1..][i - 1];
      }
    }
  }

  /** Filtering keeps every copy of each passing element and no copy of the others. */
  lemma {:induction false} FilterMultiplicity<T>(s: seq<T>, keep: T -> bool)
    ensures forall x :: multiset(Filter(s, keep))[x] == if keep(x) then multiset(s)[x] else 0
    decreases |s|
  {
    if s != [] {
      FilterMultiplicity(s[1..], keep);
      assert s == [s[0]] + s[1..];
    }
  }

  /** Filtering distributes over concatenation, so it never reorders what it keeps. */
  lemma {:induction false} FilterAppend<T>(a: seq<T>, b: seq<T>, keep: T -> bool)
    ensures Filter(a + b, keep) == Filter(a, keep) + Filter(b, keep)
    decreases |a|
  {
    if a != [] {
      assert (a + b)[1..] == a[1..] + b;
      FilterAppend(a[1..], b, keep);
    } else {
      assert a + b == b;
    }
  }

  /** Filtering twice with the same test is filtering once. */
  lemma FilterIdempotent<T>(s: seq<T>, keep: T -> bool)
    ensures Filter(Filter(s, keep), keep) == Filter(s, keep)
  {
  }

  /** No two entries of `s` carry the same identifier. */
  predicate UniqueIds<T>(s: seq<T>, idOf: T -> string)
  {
    forall i, j :: 0 <= i < j < |s| ==> idOf(s[i]) != idOf(s[j])
  }

  /** Some entry of `s` carries identifier `id`. */
  predicate HasId<T>(s: seq<T>, idOf: T -> string, id: string)
  {
    exists i :: 0 <= i < |s| && idOf(s[i]) == id
  }

  /** `s.filter(x => x.id !== id)`: every entry carrying `id` is dropped, the rest keep their order. */
  function RemoveById<T(==)>(s: seq<T>, idOf: T -> string, id: string): (r: seq<T>)
    ensures forall i :: 0 <= i < |r| ==> idOf(r[i]) != id
    ensures forall i :: 0 <= i < |r| ==> r[i] in s
    ensures forall i :: 0 <= i < |s| && idOf(s[i]) != id ==> s[i] in r
    ensures IsSubsequence(r, s)
    ensures !HasId(s, idOf, id) ==> r == s
  {
    FilterMembers(s, x => idOf(x) != id);
    Filter(s, x => idOf(x) != id)
  }

  /** Removal keeps every copy of each entry not carrying `id`, and no copy of the others. */
  lemma RemoveByIdMultiplicity<T(!new)>(s: seq<T>, idOf: T -> string, id: string)
    ensures forall x :: multiset(RemoveById(s, idOf, id))[x] == if idOf(x) != id then multiset(s)[x] else 0
  {
    FilterMultiplicity(s, x => idOf(x) != id);
  }

  /** With unique identifiers, removing an identifier that is present drops exactly one entry. */
  lemma {:induction false} RemoveByIdDropsOne<T>(s: seq<T>, idOf: T -> string, id: string)
    requires UniqueIds(s, idOf) && HasId(s, idOf, id)
    ensures |RemoveById(s, idOf, id)| == |s| - 1
    decreases |s|
  {
    var k :| 0 <= k < |s| && idOf(s[k]) == id;
    if k == 0 {
      assert !HasId(s[1..], idOf, id) by {
        forall j | 0 <= j < |s[1..]| ensures idOf(s[1..][j]) != id {
          assert s[1..][j] == s[j + 1];
        }
      }
      assert RemoveById(s[1..], idOf, id) == s[1..];
    } else {
      assert idOf(s[0]) != id;
      assert idOf(s[1..][k - 1]) == id;
      RemoveByIdDropsOne(s[1..], idOf, id);
    }
  }

  /** Removing entries never introduces a duplicate identifier. */
  lemma {:induction false} RemoveByIdKeepsUnique<T>(s: seq<T>, idOf: T -> string, id: string)
    requires UniqueIds(s, idOf)
    ensures UniqueIds(RemoveById(s, idOf, id), idOf)
    decreases |s|
  {
    if s != [] {
      var tail := s[1..];
      assert UniqueIds(tail, idOf) by {
        forall i, j | 0 <= i < j < |tail| ensures idOf(tail[i]) != idOf(tail[j]) {
          assert tail[i] == s[i + 1] && tail[j] == s[j + 1];
        }
      }
      RemoveByIdKeepsUnique(tail, idOf, id);
      var rest := RemoveById(tail, idOf, id);
      if idOf(s[0]) != id {
        var r := [s[0]] + rest;
        assert RemoveById(s, idOf, id) == r;
        forall i | 0 <= i < |rest| ensures idOf(rest[i]) != idOf(s[0]) {
          var j :| 0 <= j < |tail| && tail[j] == rest[i];
          assert tail[j] == s[j + 1];
        }
        forall i, j | 0 <= i < j < |r| ensures idOf(r[i]) != idOf(r[j]) {
          assert r[j] == rest[j - 1];
          if i > 0 {
            assert r[i] == rest[i - 1];
          }
        }
      } else {
        assert RemoveById(s, idOf, id) == rest;
      }
    }
  }

  /** What removal does to the count and to the uniqueness of identifiers. */
  lemma RemoveByIdFacts<T>(s: seq<T>, idOf: T -> string, id: string)
    ensures UniqueIds(s, idOf) ==> UniqueIds(RemoveById(s, idOf, id), idOf)
    ensures UniqueIds(s, idOf) && HasId(s, idOf, id) ==> |RemoveById(s, idOf, id)| == |s| - 1
  {
    if UniqueIds(s, idOf) {
      RemoveByIdKeepsUnique(s, idOf, id);
      if HasId(s, idOf, id) {
        RemoveByIdDropsOne(s, idOf, id);
      }
    }
  }

  /** `s.map(x => x.id === id ? f(x) : x)`: same length and order; exactly the entries carrying `id` are replaced. */
  function UpdateById<T>(s: seq<T>, idOf: T -> string, id: string, f: T -> T): (r: seq<T>)
    ensures |r| == |s|
    ensures forall i :: 0 <= i < |s| && idOf(s[i]) == id ==> r[i] == f(s[i])
    ensures forall i :: 0 <= i < |s| && idOf(s[i]) != id ==> r[i] == s[i]
    decreases |s|
  {
    if s == [] then []
    else [if idOf(s[0]) == id then f(s[0]) else s[0]] + UpdateById(s[1..], idOf, id, f)
  }

  /** An update that leaves identifiers alone keeps them unique; one that matches nothing changes nothing. */
  lemma UpdateByIdFacts<T>(s: seq<T>, idOf: T -> string, id: string, f: T -> T)
    ensures !HasId(s, idOf, id) ==> UpdateById(s, idOf, id, f) == s
    ensures (forall x :: idOf(f(x)) == idOf(x)) && UniqueIds(s, idOf) ==> UniqueIds(UpdateById(s, idOf, id, f), idOf)
  {
    var r := UpdateById(s, idOf, id, f);
    if !HasId(s, idOf, id) {
      assert forall i :: 0 <= i < |s| ==> r[i] == s[i];
    }
    if forall x :: idOf(f(x)) == idOf(x) {
      assert forall i :: 0 <= i < |s| ==> idOf(r[i]) == idOf(s[i]);
    }
  }

  /** Appending an entry with a fresh identifier keeps identifiers unique. */
  lemma AppendFreshKeepsUnique<T>(s: seq<T>, idOf: T -> string, x: T)
    requires !HasId(s, idOf, idOf(x))
    ensures UniqueIds(s, idOf) ==> UniqueIds(s + [x], idOf)
  {
    var r := s + [x];
    if UniqueIds(s, idOf) {
      forall i, j | 0 <= i < j < |r| ensures idOf(r[i]) != idOf(r[j]) {
        if j == |s| {
          assert r[i] == s[i];
        }
      }
    }
  }
}
