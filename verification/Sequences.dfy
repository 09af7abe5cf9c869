/** Shared vocabulary: optional values, outcomes, and filtering of sequences. */
module Sequences {

  datatype Option<+T> = None | Some(value: T)

  datatype Result<+T> = Ok(value: T) | Err(reason: string)

  /** The elements of `s` satisfying `p`, in order: Python's `[x for x in s if p(x)]`. */
  function Filter<T>(s: seq<T>, p: T -> bool): (r: seq<T>)
    ensures |r| <= |s|
    ensures forall i :: 0 <= i < |r| ==> p(r[i])
  {
    if s == [] then []
    else
      var rest := Filter(s[..|s| - 1], p);
      if p(s[|s| - 1]) then rest + [s[|s| - 1]] else rest
  }

  /** A filtered sequence has exactly the matching elements. */
  lemma {:induction false} FilterMembers<T>(s: seq<T>, p: T -> bool)
    ensures forall x :: x in Filter(s, p) <==> x in s && p(x)
  {
    if s != [] {
      FilterMembers(s[..|s| - 1], p);
      assert s == s[..|s| - 1] + [s[|s| - 1]];
    }
  }

  lemma {:induction false} FilterNone<T>(s: seq<T>, p: T -> bool)
    requires forall x :: x in s ==> !p(x)
    ensures Filter(s, p) == []
  {
    if s != [] {
      FilterNone(s[..|s| - 1], p);
      assert s[|s| - 1] in s;
    }
  }

  lemma FilterSnoc<T>(s: seq<T>, x: T, p: T -> bool)
    ensures Filter(s + [x], p) == if p(x) then Filter(s, p) + [x] else Filter(s, p)
  {
    assert (s + [x])[..|s|] == s;
  }

  lemma {:induction false} FilterConcat<T>(s: seq<T>, t: seq<T>, p: T -> bool)
    ensures Filter(s + t, p) == Filter(s, p) + Filter(t, p)
  {
    hide Filter;
    if t == [] {
      FilterEmpty(p);
      assert s + t == s;
    } else {
      var front, last := t[..|t| - 1], t[|t| - 1];
      FilterConcat(s, front, p);
      assert t == front + [last];
      assert s + t == (s + front) + [last];
      FilterSnoc(s + front, last, p);
      FilterSnoc(front, last, p);
    }
  }

  lemma FilterEmpty<T>(p: T -> bool)
    ensures Filter([], p) == []
  {
  }

  lemma {:induction false} FilterPosition<T>(s: seq<T>, p: T -> bool, k: nat) returns (i: nat)
    requires k < |Filter(s, p)|
    ensures i < |s| && s[i] == Filter(s, p)[k]
  {
    var n := |s| - 1;
    if k < |Filter(s[..n], p)| {
      i := FilterPosition(s[..n], p, k);
    } else {
      i := n;
    }
  }

  /** Filtering keeps the order: any two kept elements stood in the same order before. */
  lemma {:induction false} FilterOrder<T>(s: seq<T>, p: T -> bool, k: nat, l: nat) returns (i: nat, j: nat)
    requires k < l < |Filter(s, p)|
    ensures i < j < |s| && s[i] == Filter(s, p)[k] && s[j] == Filter(s, p)[l]
  {
    var n := |s| - 1;
    var front := s[..n];
    if l < |Filter(front, p)| {
      i, j := FilterOrder(front, p, k, l);
    } else {
      i := FilterPosition(front, p, k);
      j := n;
    }
  }

  lemma {:induction false} FilterAll<T>(s: seq<T>, p: T -> bool)
    requires forall x :: x in s ==> p(x)
    ensures Filter(s, p) == s
  {
    if s != [] {
      FilterAll(s[..|s| - 1], p);
      assert s[|s| - 1] in s;
    }
  }

  /** Two matching positions are kept, in order. */
  lemma {:induction false} KeptPositions<T>(s: seq<T>, p: T -> bool, i: int, j: int) returns (k: int, l: int)
    requires 0 <= i < j < |s| && p(s[i]) && p(s[j])
    ensures 0 <= k < l < |Filter(s, p)| && Filter(s, p)[k] == s[i] && Filter(s, p)[l] == s[j]
  {
    var n := |s| - 1;
    if j < n {
      k, l := KeptPositions(s[..n], p, i, j);
    } else {
      k := KeptPosition(s[..n], p, i);
      l := |Filter(s[..n], p)|;
    }
  }

  lemma {:induction false} KeptPosition<T>(s: seq<T>, p: T -> bool, i: int) returns (k: int)
    requires 0 <= i < |s| && p(s[i])
    ensures 0 <= k < |Filter(s, p)| && Filter(s, p)[k] == s[i]
  {
    var n := |s| - 1;
    if i < n {
      k := KeptPosition(s[..n], p, i);
    } else {
      k := |Filter(s[..n], p)|;
    }
  }

  /** If no two positions of `s` both match, at most one element is kept. */
  lemma FilterAtMostOne<T>(s: seq<T>, p: T -> bool)
    requires forall i, j :: 0 <= i < j < |s| ==> !p(s[i]) || !p(s[j])
    ensures |Filter(s, p)| <= 1
  {
    if |Filter(s, p)| > 1 {
      var i, j := FilterOrder(s, p, 0, 1);
    }
  }

  /** No element is listed twice. */
  ghost predicate Distinct<T(!new)>(s: seq<T>) {
    forall i, j :: 0 <= i < j < |s| ==> s[i] != s[j]
  }

  /** Every finite set can be listed without repetition. */
  lemma {:induction false} ListingExists<T(!new)>(xs: set<T>) returns (s: seq<T>)
    ensures Distinct(s) && forall x :: x in s <==> x in xs
  {
    if xs == {} {
      s := [];
    } else {
      var x :| x in xs;
      var rest := ListingExists(xs - {x});
      s := rest + [x];
    }
  }
}
