/** The order in which the store's iterator visits keys: ascending, byte by
    byte. Keys are compared character by character, which for Unicode scalar
    values is the same order as comparing their UTF-8 bytes. */
module KeyOrder {

  /** `a` comes strictly before `b`: at the first position where they differ
      `a` has the smaller character, or `a` is a proper prefix of `b`. */
  predicate Less(a: string, b: string)
    decreases |a|
  {
    |b| > 0 && (|a| == 0 || a[0] < b[0] || (a[0] == b[0] && Less(a[1..], b[1..])))
  }

  lemma {:induction false} LessIrreflexive(a: string)
    ensures !Less(a, a)
    decreases |a|
  {
    if |a| > 0 {
      LessIrreflexive(a[1..]);
    }
  }

  lemma {:induction false} LessTransitive(a: string, b: string, c: string)
    requires Less(a, b) && Less(b, c)
    ensures Less(a, c)
    decreases |a|
  {
    if |a| > 0 && a[0] == b[0] && b[0] == c[0] {
      LessTransitive(a[1..], b[1..], c[1..]);
    }
  }

  lemma {:induction false} LessTotal(a: string, b: string)
    ensures a == b || Less(a, b) || Less(b, a)
    decreases |a|
  {
    if |a| > 0 && |b| > 0 && a[0] == b[0] {
      LessTotal(a[1..], b[1..]);
      if a[1..] == b[1..] {
        assert a == [a[0]] + a[1..] && b == [b[0]] + b[1..];
      }
    }
  }

  /** `m` is the first of `keys` in key order. */
  predicate IsLeast(m: string, keys: set<string>)
  {
    m in keys && forall x :: x in keys && x != m ==> Less(m, x)
  }

  lemma {:induction false} LeastExists(keys: set<string>)
    requires keys != {}
    ensures exists m :: IsLeast(m, keys)
    decreases keys
  {
    var x :| x in keys;
    if keys == {x} {
      assert IsLeast(x, keys);
    } else {
      var rest := keys - {x};
      LeastExists(rest);
      var m :| IsLeast(m, rest);
      LessTotal(x, m);
      if Less(x, m) {
        forall y | y in keys && y != x
          ensures Less(x, y)
        {
          if y != m {
            LessTransitive(x, m, y);
          }
        }
        assert IsLeast(x, keys);
      } else {
        assert IsLeast(m, keys);
      }
    }
  }

  lemma LeastUnique(keys: set<string>)
    ensures forall m1, m2 :: IsLeast(m1, keys) && IsLeast(m2, keys) ==> m1 == m2
  {
    forall m1, m2 | IsLeast(m1, keys) && IsLeast(m2, keys)
      ensures m1 == m2
    {
      if m1 != m2 {
        LessTransitive(m1, m2, m1);
        LessIrreflexive(m1);
      }
    }
  }

  /** Each key comes strictly before every later one. */
  predicate Ascending(s: seq<string>)
  {
    forall i, j :: 0 <= i < j < |s| ==> Less(s[i], s[j])
  }

  /** An ascending sequence holds no key twice. */
  lemma AscendingDistinct(s: seq<string>)
    requires Ascending(s)
    ensures forall i, j :: 0 <= i < j < |s| ==> s[i] != s[j]
  {
    forall i, j | 0 <= i < j < |s|
      ensures s[i] != s[j]
    {
      LessIrreflexive(s[i]);
    }
  }

  /** The keys of a finite set in ascending order: what the store's iterator
      over the empty prefix yields. */
  function SortedKeys(keys: set<string>): (r: seq<string>)
    ensures Ascending(r)
    ensures forall k :: k in r <==> k in keys
    ensures |r| == |keys|
    decreases keys
  {
    if keys == {} then []
    else
      LeastExists(keys);
      LeastUnique(keys);
      var m :| IsLeast(m, keys);
      [m] + SortedKeys(keys - {m})
  }

  lemma SameKeysSameEmptiness(a: seq<string>, b: seq<string>)
    requires forall k :: k in a <==> k in b
    ensures |a| == 0 <==> |b| == 0
  {
    if |a| > 0 {
      assert a[0] in b;
    }
    if |b| > 0 {
      assert b[0] in a;
    }
  }

  /** Two ascending sequences of the same keys are the same sequence, so the
      iteration order is fixed by the set of keys alone. */
  lemma {:induction false} AscendingUnique(a: seq<string>, b: seq<string>)
    requires Ascending(a) && Ascending(b)
    requires forall k :: k in a <==> k in b
    ensures a == b
    decreases |a|
  {
    SameKeysSameEmptiness(a, b);
    if |a| > 0 {
      if a[0] != b[0] {
        assert b[0] in a && a[0] in b;
        var i :| 0 <= i < |a| && a[i] == b[0];
        var j :| 0 <= j < |b| && b[j] == a[0];
        assert Less(a[0], b[0]);
        assert Less(b[0], a[0]);
        LessTransitive(a[0], b[0], a[0]);
        LessIrreflexive(a[0]);
      }
      AscendingDistinct(a);
      AscendingDistinct(b);
      forall k
        ensures k in a[1..] <==> k in b[1..]
      {
        if k in a[1..] {
          var i :| 0 <= i < |a| - 1 && a[1..][i] == k;
          assert k != a[0] by { assert a[i + 1] == k; }
          assert k in b;
          var j :| 0 <= j < |b| && b[j] == k;
          assert j != 0 && b[1..][j - 1] == k;
        }
        if k in b[1..] {
          var j :| 0 <= j < |b| - 1 && b[1..][j] == k;
          assert k != b[0] by { assert b[j + 1] == k; }
          assert k in a;
          var i :| 0 <= i < |a| && a[i] == k;
          assert i != 0 && a[1..][i - 1] == k;
        }
      }
      AscendingUnique(a[1..], b[1..]);
      assert a == [a[0]] + a[1..] && b == [b[0]] + b[1..];
    }
  }
}
