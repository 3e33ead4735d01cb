/** Orderings used by the `.sort(...)` calls of the route handlers: a sorted
    insertion that stands for the store's sort, and the binary (code point)
    order the store uses on strings. */
module Ordering {

  /** `le` relates every pair one way or the other, transitively: what a
      sort key's comparison must be for sorting to make sense. */
  ghost predicate TotalPreorder<T(!new)>(le: (T, T) -> bool) {
    && (forall a, b :: le(a, b) || le(b, a))
    && (forall a, b, c :: le(a, b) && le(b, c) ==> le(a, c))
  }

  predicate Sorted<T>(s: seq<T>, le: (T, T) -> bool) {
    forall i, j :: 0 <= i < j < |s| ==> le(s[i], s[j])
  }

  /** Inserts `x` before the first element it is `le` to. */
  function Insert<T>(s: seq<T>, x: T, le: (T, T) -> bool): (r: seq<T>)
    ensures multiset(r) == multiset(s) + multiset{x}
    ensures |r| == |s| + 1
  {
    if s == [] then [x]
    else if le(x, s[0]) then [x] + s
    else
      assert s == [s[0]] + s[1..];
      [s[0]] + Insert(s[1..], x, le)
  }

  /** Putting a lower bound of a sorted sequence in front keeps it sorted. */
  lemma ConsSorted<T>(h: T, t: seq<T>, le: (T, T) -> bool)
    requires Sorted(t, le)
    requires forall k :: 0 <= k < |t| ==> le(h, t[k])
    ensures Sorted([h] + t, le)
  {
    var r := [h] + t;
    forall i, j | 0 <= i < j < |r| ensures le(r[i], r[j]) {
      assert r[j] == t[j - 1];
      if i > 0 {
        assert r[i] == t[i - 1];
      }
    }
  }

  /** A lower bound of `s` and of `x` is a lower bound of `Insert(s, x, le)`. */
  lemma InsertKeepsLowerBound<T>(s: seq<T>, x: T, le: (T, T) -> bool, h: T)
    requires le(h, x)
    requires forall k :: 0 <= k < |s| ==> le(h, s[k])
    ensures forall k :: 0 <= k < |Insert(s, x, le)| ==> le(h, Insert(s, x, le)[k])
  {
    var r := Insert(s, x, le);
    forall k | 0 <= k < |r| ensures le(h, r[k]) {
      assert r[k] in multiset(r);
      if r[k] != x {
        assert r[k] in multiset(s);
        var i :| 0 <= i < |s| && s[i] == r[k];
      }
    }
  }

  /** Insertion keeps a sequence sorted under any total preorder. */
  lemma {:induction false} InsertSorted<T(!new)>(s: seq<T>, x: T, le: (T, T) -> bool)
    requires TotalPreorder(le)
    requires Sorted(s, le)
    ensures Sorted(Insert(s, x, le), le)
  {
    if s == [] {
    } else if le(x, s[0]) {
      forall k | 0 <= k < |s| ensures le(x, s[k]) {
        if k > 0 {
          assert le(s[0], s[k]);
        }
      }
      ConsSorted(x, s, le);
    } else {
      var tail := s[1..];
      InsertSorted(tail, x, le);
      assert le(s[0], x);
      forall k | 0 <= k < |tail| ensures le(s[0], tail[k]) {
        assert tail[k] == s[k + 1];
      }
      InsertKeepsLowerBound(tail, x, le, s[0]);
      ConsSorted(s[0], Insert(tail, x, le), le);
    }
  }

  /** The elements of `s` from position `skip` on, at most `limit` of them
      (a `.skip(skip).limit(limit)` cursor). */
  function Window<T>(s: seq<T>, skip: nat, limit: nat): (r: seq<T>)
    ensures |r| <= limit
    ensures |r| == if skip >= |s| then 0 else if |s| - skip < limit then |s| - skip else limit
    ensures forall k :: 0 <= k < |r| ==> r[k] == s[skip + k]
  {
    var lo := if skip < |s| then skip else |s|;
    var hi := if lo + limit < |s| then lo + limit else |s|;
    s[lo..hi]
  }

  /** Binary order on strings: the one the document store sorts `name` by. */
  predicate LexLe(a: string, b: string) {
    if a == [] then true
    else if b == [] then false
    else if a[0] != b[0] then a[0] < b[0]
    else LexLe(a[1..], b[1..])
  }

  lemma {:induction false} LexLeTotal(a: string, b: string)
    ensures LexLe(a, b) || LexLe(b, a)
  {
    if a != [] && b != [] && a[0] == b[0] {
      LexLeTotal(a[1..], b[1..]);
    }
  }

  lemma {:induction false} LexLeReflexive(a: string)
    ensures LexLe(a, a)
  {
    if a != [] {
      LexLeReflexive(a[1..]);
    }
  }

  lemma {:induction false} LexLeAntisymmetric(a: string, b: string)
    requires LexLe(a, b) && LexLe(b, a)
    ensures a == b
  {
    if a != [] && b != [] {
      LexLeAntisymmetric(a[1..], b[1..]);
      assert a == [a[0]] + a[1..];
      assert b == [b[0]] + b[1..];
    }
  }

  lemma {:induction false} LexLeTransitive(a: string, b: string, c: string)
    requires LexLe(a, b) && LexLe(b, c)
    ensures LexLe(a, c)
  {
    if a != [] && b != [] && c != [] && a[0] == b[0] && b[0] == c[0] {
      LexLeTransitive(a[1..], b[1..], c[1..]);
    }
  }
}
