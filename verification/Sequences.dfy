/** Filtering and deduplicating sequences: the vocabulary of the batched loaders. */
module Sequences {

  function Last<T>(s: seq<T>): T
    requires s != []
  {
    s[|s| - 1]
  }

  function Front<T>(s: seq<T>): seq<T>
    requires s != []
  {
    s[..|s| - 1]
  }

  /** The elements of `s` that satisfy `p`, in order. */
  function Filter<T>(s: seq<T>, p: T -> bool): seq<T> {
    if s == [] then []
    else if p(Last(s)) then Filter(Front(s), p) + [Last(s)]
    else Filter(Front(s), p)
  }

  lemma {:induction false} FilterMembers<T>(s: seq<T>, p: T -> bool)
    ensures forall i :: 0 <= i < |Filter(s, p)| ==> Filter(s, p)[i] in s && p(Filter(s, p)[i])
    ensures forall i :: 0 <= i < |s| && p(s[i]) ==> s[i] in Filter(s, p)
  {
    if s != [] {
      FilterMembers(Front(s), p);
      assert s == Front(s) + [Last(s)];
    }
  }

  /** `r` lists the elements of `s` at the positions `at`, in the order of `s`. */
  predicate Picks<T(==)>(s: seq<T>, at: seq<nat>, r: seq<T>) {
    && |at| == |r|
    && (forall i, j :: 0 <= i < j < |at| ==> at[i] < at[j])
    && (forall i :: 0 <= i < |at| ==> at[i] < |s| && r[i] == s[at[i]])
  }

  lemma PicksMore<T>(s: seq<T>, at: seq<nat>, r: seq<T>)
    requires s != [] && Picks(Front(s), at, r)
    ensures Picks(s, at, r) && Picks(s, at + [|s| - 1], r + [Last(s)])
    ensures |s| - 1 !in at
  {
  }

  /** Filtering picks, in order, exactly the positions that satisfy `p`. */
  lemma {:induction false} FilterMeans<T>(s: seq<T>, p: T -> bool) returns (at: seq<nat>)
    ensures Picks(s, at, Filter(s, p))
    ensures forall i :: 0 <= i < |s| ==> (p(s[i]) <==> i in at)
  {
    if s == [] {
      at := [];
    } else {
      var n := |s| - 1;
      var before := FilterMeans(Front(s), p);
      PicksMore(s, before, Filter(Front(s), p));
      assert forall i :: 0 <= i < n ==> s[i] == Front(s)[i];
      at := if p(s[n]) then before + [n] else before;
      assert forall i :: 0 <= i < n ==> (i in at <==> i in before);
    }
  }

  /** The elements of `s` without repetition, in the order of their first occurrence. */
  function Dedup<T(==)>(s: seq<T>): seq<T> {
    if s == [] then []
    else if Last(s) in Front(s) then Dedup(Front(s))
    else Dedup(Front(s)) + [Last(s)]
  }

  lemma {:induction false} DedupMembers<T>(s: seq<T>)
    ensures forall x :: x in Dedup(s) <==> x in s
    ensures Distinct(Dedup(s))
  {
    if s != [] {
      DedupMembers(Front(s));
      assert s == Front(s) + [Last(s)];
    }
  }

  /** Position `i` holds the last occurrence of its element. */
  predicate LastOf<T(==)>(s: seq<T>, i: nat)
    requires i < |s|
  {
    forall j :: i < j < |s| ==> s[j] != s[i]
  }

  predicate Distinct<T(==)>(s: seq<T>) {
    forall i, j :: 0 <= i < j < |s| ==> s[i] != s[j]
  }

  lemma {:induction false} FilterAppend<T>(s: seq<T>, x: T, p: T -> bool)
    ensures Filter(s + [x], p) == if p(x) then Filter(s, p) + [x] else Filter(s, p)
  {
    assert Front(s + [x]) == s;
  }

  lemma FilterEmpty<T>(p: T -> bool)
    ensures Filter([], p) == []
  {
  }

  lemma {:induction false} FilterAll<T>(s: seq<T>, p: T -> bool)
    requires forall i :: 0 <= i < |s| ==> p(s[i])
    ensures Filter(s, p) == s
  {
    hide Filter;
    if s == [] {
      FilterEmpty(p);
    } else {
      var before, x := Front(s), Last(s);
      assert forall i :: 0 <= i < |before| ==> before[i] == s[i];
      FilterAll(before, p);
      FilterAppend(before, x, p);
      assert s == before + [x] && p(x);
    }
  }

  lemma {:induction false} FilterTwice<T>(s: seq<T>, p: T -> bool, q: T -> bool)
    requires forall x :: x in s && q(x) ==> p(x)
    ensures Filter(Filter(s, p), q) == Filter(s, q)
  {
    if s != [] {
      assert (forall x :: x in Front(s) ==> x in s) && Last(s) in s;
      FilterTwice(Front(s), p, q);
      FilterAppend(Filter(Front(s), p), Last(s), q);
    }
  }

  // ----- Column lists -----

  /** Appends a column unless it is there. */
  function AddOnce<T(==)>(columns: seq<T>, c: T): seq<T> {
    if c in columns then columns else columns + [c]
  }

  /** A selection compiled for a table with a key: the key leads, followed by the other selected
      columns; no selection means all columns. */
  function KeyFirst<T(==)>(key: T, fields: seq<T>, all: seq<T>): seq<T> {
    if fields == [] then all else [key] + Filter(fields, Not(key))
  }

  function Not<T(==)>(key: T): T -> bool {
    (c: T) => c != key
  }

  /** The key is selected, first and once, with the selected columns and nothing else. */
  lemma KeyFirstColumns<T>(key: T, fields: seq<T>, all: seq<T>)
    requires fields != []
    ensures var cs := KeyFirst(key, fields, all);
      && cs[0] == key && (forall i :: 0 < i < |cs| ==> cs[i] != key)
      && (forall c :: c in cs <==> c == key || c in fields)
  {
    var kept := Filter(fields, Not(key));
    FilterMembers(fields, Not(key));
    forall c
      ensures c in kept <==> c in fields && c != key
    {
      if c in kept {
        var i :| 0 <= i < |kept| && kept[i] == c;
        assert Not(key)(kept[i]);
      }
      if c in fields && c != key {
        var i :| 0 <= i < |fields| && fields[i] == c;
        assert Not(key)(fields[i]);
      }
    }
    assert forall i :: 0 <= i < |kept| ==> kept[i] in kept;
  }
}
