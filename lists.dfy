/**
 * List comprehensions of the form `[x for x in xs if keep(x)]`.
 *
 * The selection criteria used by the coordination code are named functions
 * (`Above`, `Below`, `Within`, `Except`) rather than inline lambdas, so that two
 * comprehensions over the same criterion are recognisably the same value.
 */
module Lists {

  /** `[x for x in s if keep(x)]`: keeps order and duplicates. */
  function Filter<T>(s: seq<T>, keep: T -> bool): (r: seq<T>)
    ensures |r| <= |s|
  {
    if s == [] then []
    else (if keep(s[0]) then [s[0]] else []) + Filter(s[1..], keep)
  }

  /** The comprehension holds exactly the elements of `s` that `keep` accepts. */
  lemma {:induction false} FilterMembers<T(!new)>(s: seq<T>, keep: T -> bool)
    ensures forall x :: x in Filter(s, keep) <==> x in s && keep(x)
  {
    if s != [] {
      FilterMembers(s[1..], keep);
      assert s == [s[0]] + s[1..];
    }
  }

  /** Filtering distributes over concatenation: the comprehension keeps list order. */
  lemma {:induction false} FilterAppend<T>(a: seq<T>, b: seq<T>, keep: T -> bool)
    ensures Filter(a + b, keep) == Filter(a, keep) + Filter(b, keep)
  {
    if a == [] {
      assert a + b == b;
    } else {
      var ab := a + b;
      assert ab[0] == a[0];
      assert ab[1..] == a[1..] + b;
      FilterAppend(a[1..], b, keep);
      calc {
        Filter(ab, keep);
        (if keep(a[0]) then [a[0]] else []) + Filter(a[1..] + b, keep);
        (if keep(a[0]) then [a[0]] else []) + (Filter(a[1..], keep) + Filter(b, keep));
        Filter(a, keep) + Filter(b, keep);
      }
    }
  }

  /** Filtering a list one element longer adds that element exactly when it is kept. */
  lemma FilterSnoc<T>(a: seq<T>, x: T, keep: T -> bool)
    ensures Filter(a + [x], keep) == Filter(a, keep) + (if keep(x) then [x] else [])
  {
    FilterAppend(a, [x], keep);
    assert [x][1..] == [];
  }

  /** A list none of whose elements is kept filters to the empty list, and conversely. */
  lemma {:induction false} FilterEmpty<T>(s: seq<T>, keep: T -> bool)
    ensures Filter(s, keep) == [] <==> forall i :: 0 <= i < |s| ==> !keep(s[i])
  {
    if s != [] {
      FilterEmpty(s[1..], keep);
      assert forall i :: 1 <= i < |s| ==> s[i] == s[1..][i - 1];
    }
  }

  /** A list all of whose elements are kept filters to itself. */
  lemma {:induction false} FilterAll<T>(s: seq<T>, keep: T -> bool)
    requires forall i :: 0 <= i < |s| ==> keep(s[i])
    ensures Filter(s, keep) == s
  {
    if s != [] {
      FilterAll(s[1..], keep);
    }
  }

  function Above(bound: int): int -> bool
  {
    x => x > bound
  }

  function Below(bound: int): int -> bool
  {
    x => x < bound
  }

  function Within(ports: set<int>): int -> bool
  {
    x => x in ports
  }

  function Except(port: int): int -> bool
  {
    x => x != port
  }
}
