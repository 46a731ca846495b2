/** Strings in the order in which Go compares them, and enumerations of finite sets of strings. */
module Strings {

  /** Lexicographic order by character. */
  predicate AtMost(a: string, b: string) {
    a == "" || (b != "" && (a[0] < b[0] || (a[0] == b[0] && AtMost(a[1..], b[1..]))))
  }

  lemma AtMostTotal(a: string, b: string)
    ensures AtMost(a, b) || AtMost(b, a)
  {}

  lemma {:induction false} AtMostAntisymmetric(a: string, b: string)
    requires AtMost(a, b) && AtMost(b, a)
    ensures a == b
  {
    if a != "" && b != "" {
      AtMostAntisymmetric(a[1..], b[1..]);
      assert a == [a[0]] + a[1..] && b == [b[0]] + b[1..];
    }
  }

  lemma {:induction false} AtMostTransitive(a: string, b: string, c: string)
    requires AtMost(a, b) && AtMost(b, c)
    ensures AtMost(a, c)
  {
    if a != "" && a[0] == b[0] && b[0] == c[0] {
      AtMostTransitive(a[1..], b[1..], c[1..]);
    }
  }

  /** By position: `a` begins `b`, or at the first difference the character of `a` is the smaller. */
  lemma {:induction false} AtMostExactly(a: string, b: string)
    ensures AtMost(a, b) <==> a <= b || exists k: nat :: DiffersAt(a, b, k) && a[k] < b[k]
  {
    if a != "" && b != "" {
      var c, d := a[1..], b[1..];
      AtMostExactly(c, d);
      assert a == [a[0]] + c && b == [b[0]] + d;
      if a[0] < b[0] {
        assert DiffersAt(a, b, 0);
      } else if a[0] == b[0] {
        if k: nat :| DiffersAt(c, d, k) && c[k] < d[k] {
          assert a[..k + 1] == [a[0]] + c[..k] && b[..k + 1] == [b[0]] + d[..k];
          assert DiffersAt(a, b, k + 1);
        }
        if k: nat :| DiffersAt(a, b, k) && a[k] < b[k] {
          assert c[..k - 1] == a[..k][1..] && d[..k - 1] == b[..k][1..];
          assert DiffersAt(c, d, k - 1);
        }
      } else {
        assert forall k: nat | DiffersAt(a, b, k) && 0 < k :: a[..k][0] == a[0] && b[..k][0] == b[0];
      }
    }
  }

  /** The strings agree before position `k` and differ there. */
  predicate DiffersAt(a: string, b: string, k: nat) {
    k < |a| && k < |b| && a[..k] == b[..k] && a[k] != b[k]
  }

  predicate Ascending(s: seq<string>) {
    forall i, j | 0 <= i < j < |s| :: AtMost(s[i], s[j])
  }

  /** `s` lists the elements of `keys`, each once. */
  ghost predicate Enumerates<T(!new)>(s: seq<T>, keys: set<T>) {
    (forall i, j | 0 <= i < j < |s| :: s[i] != s[j])
    && (forall x :: x in s <==> x in keys)
  }

  lemma EnumeratesMore<T(!new)>(s: seq<T>, keys: set<T>, x: T)
    requires Enumerates(s, keys) && x !in keys
    ensures Enumerates(s + [x], keys + {x})
  {
    assert forall i | 0 <= i < |s| :: s[i] in s;
  }

  lemma {:induction false} EnumeratesSize<T(!new)>(s: seq<T>, keys: set<T>)
    requires Enumerates(s, keys)
    ensures |s| == |keys|
  {
    if s == [] {
      assert keys == {};
    } else {
      var last := s[|s| - 1];
      var front := s[..|s| - 1];
      assert s == front + [last];
      assert last in s;
      assert Enumerates(front, keys - {last});
      EnumeratesSize(front, keys - {last});
    }
  }

  function Insert(x: string, s: seq<string>): seq<string> {
    if s == [] || AtMost(x, s[0]) then [x] + s else [s[0]] + Insert(x, s[1..])
  }

  /** The result of `sort.Strings`. */
  function SortStrings(s: seq<string>): (r: seq<string>)
    ensures Ascending(r) && multiset(r) == multiset(s)
    ensures forall keys | Enumerates(s, keys) :: Enumerates(r, keys)
  {
    if s == [] then []
    else
      var rest := SortStrings(s[1..]);
      InsertAscending(s[0], rest);
      assert s == [s[0]] + s[1..];
      SamePermutation(s, Insert(s[0], rest));
      Insert(s[0], rest)
  }

  lemma {:induction false} InsertAscending(x: string, s: seq<string>)
    requires Ascending(s)
    ensures Ascending(Insert(x, s)) && multiset(Insert(x, s)) == multiset{x} + multiset(s)
  {
    if s == [] {
    } else if AtMost(x, s[0]) {
      forall j | 0 <= j < |s| ensures AtMost(x, s[j]) {
        if 0 < j {
          AtMostTransitive(x, s[0], s[j]);
        }
      }
    } else {
      var r := Insert(x, s[1..]);
      InsertAscending(x, s[1..]);
      AtMostTotal(x, s[0]);
      assert s == [s[0]] + s[1..];
      forall j | 0 <= j < |r| ensures AtMost(s[0], r[j]) {
        assert r[j] in multiset(r);
        if r[j] != x {
          assert r[j] in s[1..];
        }
      }
    }
  }

  lemma SamePermutation<T(!new)>(s: seq<T>, r: seq<T>)
    requires multiset(s) == multiset(r)
    ensures forall keys | Enumerates(s, keys) :: Enumerates(r, keys)
  {
    forall keys | Enumerates(s, keys) ensures Enumerates(r, keys) {
      forall x ensures x in r <==> x in keys {
        assert x in r <==> x in multiset(r);
        assert x in s <==> x in multiset(s);
      }
      forall i, j | 0 <= i < j < |r| ensures r[i] != r[j] {
        if r[i] == r[j] {
          Twice(r, i, j);
          Once(s, r[i]);
        }
      }
    }
  }

  lemma Twice<T>(r: seq<T>, i: nat, j: nat)
    requires i < j < |r| && r[i] == r[j]
    ensures 2 <= multiset(r)[r[i]]
  {
    assert r == r[..i] + [r[i]] + r[i + 1..j] + [r[j]] + r[j + 1..];
  }

  lemma {:induction false} Once<T>(s: seq<T>, x: T)
    requires forall i, j | 0 <= i < j < |s| :: s[i] != s[j]
    ensures multiset(s)[x] <= 1
  {
    if s != [] {
      var front := s[..|s| - 1];
      assert s == front + [s[|s| - 1]];
      Once(front, x);
      if s[|s| - 1] == x {
        assert x !in front;
      }
    }
  }

  lemma InsertKeeps(x: string, s: seq<string>)
    requires Ascending(s) && x !in s
    ensures Ascending(Insert(x, s))
    ensures forall keys | Enumerates(s, keys) :: Enumerates(Insert(x, s), keys + {x})
  {
    InsertAscending(x, s);
    assert multiset(s + [x]) == multiset(Insert(x, s));
    SamePermutation(s + [x], Insert(x, s));
    forall keys | Enumerates(s, keys) ensures Enumerates(Insert(x, s), keys + {x}) {
      EnumeratesMore(s, keys, x);
    }
  }

  /** A finite set has one ascending enumeration, so sorting hides the order in which a map is iterated. */
  lemma {:induction false} AscendingUnique(s: seq<string>, r: seq<string>, keys: set<string>)
    requires Ascending(s) && Ascending(r) && Enumerates(s, keys) && Enumerates(r, keys)
    ensures s == r
    decreases |s|
  {
    EnumeratesSize(s, keys);
    EnumeratesSize(r, keys);
    if s != [] {
      assert s[0] in s && r[0] in r;
      assert s[0] in r && r[0] in s;
      assert AtMost(r[0], s[0]) by { FirstLeast(r, s[0]); }
      assert AtMost(s[0], r[0]) by { FirstLeast(s, r[0]); }
      AtMostAntisymmetric(s[0], r[0]);
      TailEnumerates(s, keys);
      TailEnumerates(r, keys);
      AscendingUnique(s[1..], r[1..], keys - {s[0]});
      assert s == [s[0]] + s[1..] && r == [r[0]] + r[1..];
    }
  }

  lemma AtMostReflexive(a: string)
    ensures AtMost(a, a)
  {}

  lemma FirstLeast(s: seq<string>, x: string)
    requires Ascending(s) && x in s
    ensures AtMost(s[0], x)
  {
    AtMostReflexive(x);
  }

  lemma TailEnumerates(s: seq<string>, keys: set<string>)
    requires s != [] && Enumerates(s, keys)
    ensures Enumerates(s[1..], keys - {s[0]})
  {
    assert s == [s[0]] + s[1..];
  }
}
