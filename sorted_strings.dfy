/** The listing of a string set that `sets.String.List()` returns: the
    members in ascending order of Go's string comparison. Go compares strings
    byte by byte in UTF-8; for Unicode scalar values that is the same as
    comparing code points, which is the order of Dafny's `char`. */
module SortedStrings {

  /** Go's `a < b` on strings: lexicographic, a proper prefix first. The
      order is irreflexive. */
  predicate Less(a: string, b: string)
    ensures Less(a, b) ==> a != b
    ensures |a| < |b| && a == b[..|a|] ==> Less(a, b)
    decreases |a|
  {
    if |a| == 0 then |b| > 0
    else |b| > 0 && (a[0] < b[0] || (a[0] == b[0] && Less(a[1..], b[1..])))
  }

  lemma {:induction false} LessTransitive(a: string, b: string, c: string)
    requires Less(a, b) && Less(b, c)
    ensures Less(a, c)
    decreases |a|
  {
    if |a| > 0 && a[0] == b[0] && b[0] == c[0] {
      LessTransitive(a[1..], b[1..], c[1..]);
    }
  }

  /** Any two different strings are ordered one way or the other. */
  lemma {:induction false} LessTotal(a: string, b: string)
    requires a != b
    ensures Less(a, b) || Less(b, a)
    decreases |a|
  {
    if |a| > 0 && |b| > 0 && a[0] == b[0] {
      assert a == [a[0]] + a[1..] && b == [b[0]] + b[1..];
      LessTotal(a[1..], b[1..]);
    }
  }

  lemma LessAsymmetric(a: string, b: string)
    requires Less(a, b)
    ensures !Less(b, a)
  {
    if Less(b, a) {
      LessTransitive(a, b, a);
    }
  }

  /** Each member is below every later one. */
  predicate StrictlySorted(list: seq<string>)
  {
    forall i, j :: 0 <= i < j < |list| ==> Less(list[i], list[j])
  }

  function Elements(list: seq<string>): (s: set<string>)
  {
    set x | x in list
  }

  /** A strictly sorted listing names no string twice. */
  lemma StrictlySortedHasNoDuplicates(list: seq<string>)
    requires StrictlySorted(list)
    ensures forall i, j :: 0 <= i < |list| && 0 <= j < |list| && i != j ==> list[i] != list[j]
  {
    forall i, j | 0 <= i < |list| && 0 <= j < |list| && i != j
      ensures list[i] != list[j]
    {
      if i < j {
        assert Less(list[i], list[j]);
      } else {
        assert Less(list[j], list[i]);
      }
    }
  }

  /** Places `x` among the members of a sorted listing that lacks it. */
  function InsertSorted(list: seq<string>, x: string): (r: seq<string>)
    requires StrictlySorted(list) && x !in list
    ensures StrictlySorted(r)
    ensures Elements(r) == Elements(list) + {x}
    ensures |r| == |list| + 1
  {
    if |list| == 0 then [x]
    else if Less(x, list[0]) then
      assert forall j :: 0 < j < |list| ==> Less(x, list[j]) by {
        forall j | 0 < j < |list| ensures Less(x, list[j]) {
          LessTransitive(x, list[0], list[j]);
        }
      }
      [x] + list
    else
      var rest := InsertSorted(list[1..], x);
      assert Less(list[0], x) by { LessTotal(x, list[0]); }
      assert forall j :: 0 <= j < |rest| ==> Less(list[0], rest[j]) by {
        forall j | 0 <= j < |rest| ensures Less(list[0], rest[j]) {
          assert rest[j] in Elements(rest);
        }
      }
      assert list == [list[0]] + list[1..];
      [list[0]] + rest
  }

  /** The strictly sorted listing of a finite set. */
  ghost function SortSet(s: set<string>): (list: seq<string>)
    ensures StrictlySorted(list)
    ensures Elements(list) == s
    ensures |list| == |s|
    decreases s
  {
    if s == {} then []
    else
      var x :| x in s;
      InsertSorted(SortSet(s - {x}), x)
  }

  /** A set has one strictly sorted listing only. */
  lemma {:induction false} SortedListingUnique(a: seq<string>, b: seq<string>)
    requires StrictlySorted(a) && StrictlySorted(b)
    requires Elements(a) == Elements(b)
    ensures a == b
    decreases |a|
  {
    if |b| > 0 {
      assert b[0] in Elements(b);
    }
    if |a| > 0 {
      assert a[0] in Elements(b);
      assert |b| > 0;
      assert b[0] in Elements(a);
      if a[0] != b[0] {
        var i :| 0 <= i < |b| && b[i] == a[0];
        var j :| 0 <= j < |a| && a[j] == b[0];
        assert i > 0 && j > 0;
        LessAsymmetric(a[0], b[0]);
        assert false;
      }
      StrictlySortedHasNoDuplicates(a);
      StrictlySortedHasNoDuplicates(b);
      assert Elements(a[1..]) == Elements(a) - {a[0]} by {
        assert a == [a[0]] + a[1..];
        forall x | x in a[1..] ensures x != a[0] {
          var k :| 0 <= k < |a[1..]| && a[1..][k] == x;
          assert a[k + 1] == x;
        }
      }
      assert Elements(b[1..]) == Elements(b) - {b[0]} by {
        assert b == [b[0]] + b[1..];
        forall x | x in b[1..] ensures x != b[0] {
          var k :| 0 <= k < |b[1..]| && b[1..][k] == x;
          assert b[k + 1] == x;
        }
      }
      SortedListingUnique(a[1..], b[1..]);
      assert a == [a[0]] + a[1..] && b == [b[0]] + b[1..];
    }
  }

  /** `sets.String.List()`: gathers the members in whatever order the set
      yields them (Go's map iteration order is unspecified) and sorts them;
      the result does not depend on that order. */
  method SortedList(s: set<string>) returns (list: seq<string>)
    ensures list == SortSet(s)
  {
    list := [];
    var rest := s;
    while rest != {}
      invariant rest <= s
      invariant StrictlySorted(list)
      invariant Elements(list) == s - rest
      decreases rest
    {
      var x :| x in rest;
      list := InsertSorted(list, x);
      rest := rest - {x};
    }
    SortedListingUnique(list, SortSet(s));
  }
}
