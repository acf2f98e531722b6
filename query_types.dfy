/** Query discriminators and the result type of the list query, whose text
    form joins the token keys with newlines (`strings.Join(n, "\n")`). */
module QueryTypes {

  const QueryListBrandedTokens := "list"
  const QueryGetBrandedToken := "get"
  const QueryGetTotalSupply := "supply"

  /** The three discriminators are pairwise distinct, so the querier's switch
      picks at most one endpoint. */
  lemma DiscriminatorsDistinct()
    ensures QueryListBrandedTokens != QueryGetBrandedToken
    ensures QueryListBrandedTokens != QueryGetTotalSupply
    ensures QueryGetBrandedToken != QueryGetTotalSupply
  {
  }

  type QueryResFetch = seq<string>

  /** `strings.Join`: the parts in order with `sep` between each two, built up
      from the left as Go's implementation does. */
  function Join(parts: seq<string>, sep: string): string
    decreases |parts|
  {
    if |parts| == 0 then ""
    else if |parts| == 1 then parts[0]
    else Join(parts[..|parts| - 1], sep) + sep + parts[|parts| - 1]
  }

  /** `strings.Split` with a one-character separator: the maximal pieces of
      `s` between separators; the empty string gives one empty piece. */
  function Split(s: string, sep: char): (pieces: seq<string>)
    ensures |pieces| >= 1
    decreases |s|
  {
    if |s| == 0 then [""]
    else
      var rest := Split(s[1..], sep);
      if s[0] == sep then [""] + rest
      else [[s[0]] + rest[0]] + rest[1..]
  }

  /** No part holds the separator. */
  predicate NoneContains(parts: seq<string>, sep: char)
  {
    forall i :: 0 <= i < |parts| ==> sep !in parts[i]
  }

  /** A join of two or more parts is the first part, the separator, and the
      join of the others. */
  lemma {:induction false} JoinHead(parts: seq<string>, sep: string)
    requires |parts| >= 2
    ensures Join(parts, sep) == parts[0] + sep + Join(parts[1..], sep)
    decreases |parts|
  {
    var n := |parts|;
    if n == 2 {
      assert parts[..1] == [parts[0]];
      assert parts[1..] == [parts[1]];
    } else {
      var init := parts[..n - 1];
      JoinHead(init, sep);
      assert init[1..] == parts[1..][..n - 2];
      assert init[0] == parts[0];
      assert parts[1..][n - 2] == parts[n - 1];
      calc {
        Join(parts, sep);
        Join(init, sep) + sep + parts[n - 1];
        parts[0] + sep + Join(init[1..], sep) + sep + parts[n - 1];
        parts[0] + sep + (Join(parts[1..][..n - 2], sep) + sep + parts[1..][n - 2]);
        parts[0] + sep + Join(parts[1..], sep);
      }
    }
  }

  /** `String` of the list query's result. */
  function String(n: QueryResFetch): (s: string)
    ensures |n| == 0 ==> s == ""
    ensures |n| == 1 ==> s == n[0]
    ensures |n| >= 2 ==> s == n[0] + "\n" + String(n[1..])
    ensures |n| >= 1 && NoneContains(n, '\n') ==> Split(s, '\n') == n
  {
    JoinFacts(n, '\n');
    Join(n, "\n")
  }

  /** The facts `String` promises, about `Join` with a newline. */
  lemma JoinFacts(n: seq<string>, sep: char)
    ensures |n| >= 2 ==> Join(n, [sep]) == n[0] + [sep] + Join(n[1..], [sep])
    ensures |n| >= 1 && NoneContains(n, sep) ==> Split(Join(n, [sep]), sep) == n
  {
    if |n| >= 2 {
      JoinHead(n, [sep]);
    }
    if |n| >= 1 && NoneContains(n, sep) {
      SplitJoin(n, sep);
    }
  }

  /** A piece without the separator splits into itself. */
  lemma {:induction false} SplitNoSeparator(a: string, sep: char)
    requires sep !in a
    ensures Split(a, sep) == [a]
    decreases |a|
  {
    if |a| > 0 {
      SplitNoSeparator(a[1..], sep);
      assert [a[0]] + a[1..] == a;
    }
  }

  /** Splitting a piece, the separator and a rest gives the piece and the
      pieces of the rest. */
  lemma {:induction false} SplitCons(a: string, sep: char, b: string)
    requires sep !in a
    ensures Split(a + [sep] + b, sep) == [a] + Split(b, sep)
    decreases |a|
  {
    var s := a + [sep] + b;
    if |a| == 0 {
      assert s == [sep] + b;
      assert s[1..] == b;
    } else {
      assert s[1..] == a[1..] + [sep] + b;
      SplitCons(a[1..], sep, b);
      assert [a[0]] + a[1..] == a;
    }
  }

  /** Splitting a non-empty join whose parts hold no separator gives back
      the parts. */
  lemma {:induction false} SplitJoin(parts: seq<string>, sep: char)
    requires |parts| >= 1 && NoneContains(parts, sep)
    ensures Split(Join(parts, [sep]), sep) == parts
    decreases |parts|
  {
    if |parts| == 1 {
      SplitNoSeparator(parts[0], sep);
    } else {
      JoinHead(parts, [sep]);
      SplitJoin(parts[1..], sep);
      SplitCons(parts[0], sep, Join(parts[1..], [sep]));
      assert [parts[0]] + parts[1..] == parts;
    }
  }
}
