/** Joining lines with a separator, as `Array.prototype.join` does, and the
    reference splitter that takes a joined text apart again. */
module Lines {

  /** `xs.join(sep)`: the elements in order with `sep` between neighbours,
      and no separator before the first or after the last. */
  function Join(xs: seq<string>, sep: string): string
  {
    if |xs| == 0 then ""
    else if |xs| == 1 then xs[0]
    else xs[0] + sep + Join(xs[1..], sep)
  }

  /** The pieces of `s` between occurrences of `c`, in order. */
  function Split(s: string, c: char): (r: seq<string>)
    ensures |r| > 0
    decreases |s|
  {
    if |s| == 0 then [""]
    else
      var rest := Split(s[1..], c);
      if s[0] == c then [""] + rest
      else [[s[0]] + rest[0]] + rest[1..]
  }

  /** There is always one more piece than there are separators, and no
      piece holds a separator. */
  lemma {:induction false} SplitPieces(s: string, c: char)
    ensures |Split(s, c)| == multiset(s)[c] + 1
    ensures forall i :: 0 <= i < |Split(s, c)| ==> c !in Split(s, c)[i]
    decreases |s|
  {
    if |s| > 0 {
      SplitPieces(s[1..], c);
      assert s == [s[0]] + s[1..];
      assert multiset(s) == multiset{s[0]} + multiset(s[1..]);
    }
  }

  lemma JoinCons(x: string, xs: seq<string>, sep: string)
    requires |xs| > 0
    ensures Join([x] + xs, sep) == x + sep + Join(xs, sep)
  {
    assert ([x] + xs)[1..] == xs;
  }

  lemma {:induction false} JoinAppend(a: seq<string>, b: seq<string>, sep: string)
    requires |a| > 0 && |b| > 0
    ensures Join(a + b, sep) == Join(a, sep) + sep + Join(b, sep)
    decreases |a|
  {
    assert (a + b)[0] == a[0];
    assert (a + b)[1..] == a[1..] + b;
    if |a| > 1 {
      JoinAppend(a[1..], b, sep);
    }
  }

  /** Joining one more line appends the separator and that line. */
  lemma JoinSnoc(xs: seq<string>, y: string, sep: string)
    requires |xs| > 0
    ensures Join(xs + [y], sep) == Join(xs, sep) + sep + y
  {
    JoinAppend(xs, [y], sep);
  }

  /** Prefixing the first element prefixes the joined text. */
  lemma JoinPrefixFirst(x: string, xs: seq<string>, sep: string)
    requires |xs| > 0
    ensures Join([x + xs[0]] + xs[1..], sep) == x + Join(xs, sep)
  {
    assert ([x + xs[0]] + xs[1..])[1..] == xs[1..];
  }

  lemma {:induction false} SplitWithoutSeparator(a: string, c: char)
    requires c !in a
    ensures Split(a, c) == [a]
    decreases |a|
  {
    if |a| > 0 {
      SplitWithoutSeparator(a[1..], c);
      assert Split(a, c) == [[a[0]] + a[1..]];
      assert [a[0]] + a[1..] == a;
    }
  }

  /** Splitting distributes over a separator occurrence. */
  lemma {:induction false} SplitAtSeparator(a: string, b: string, c: char)
    ensures Split(a + [c] + b, c) == Split(a, c) + Split(b, c)
    decreases |a|
  {
    var s := a + [c] + b;
    if |a| == 0 {
      assert s[1..] == b;
      assert Split(s, c) == [""] + Split(b, c);
    } else {
      assert s[0] == a[0];
      assert s[1..] == a[1..] + [c] + b;
      SplitAtSeparator(a[1..], b, c);
      var ra := Split(a[1..], c);
      if a[0] == c {
        assert Split(s, c) == [""] + (ra + Split(b, c));
        assert Split(a, c) == [""] + ra;
      } else {
        assert Split(s, c) == [[a[0]] + ra[0]] + (ra + Split(b, c))[1..];
        assert Split(a, c) == [[a[0]] + ra[0]] + ra[1..];
      }
    }
  }

  /** Joined lines that do not contain the separator split back into the
      same lines. */
  lemma {:induction false} SplitJoin(xs: seq<string>, c: char)
    requires |xs| > 0
    requires forall i :: 0 <= i < |xs| ==> c !in xs[i]
    ensures Split(Join(xs, [c]), c) == xs
    decreases |xs|
  {
    SplitWithoutSeparator(xs[0], c);
    if |xs| > 1 {
      SplitJoin(xs[1..], c);
      SplitAtSeparator(xs[0], Join(xs[1..], [c]), c);
      assert [xs[0]] + xs[1..] == xs;
    }
  }

  /** Any text is the join of its pieces. */
  lemma {:induction false} JoinSplit(s: string, c: char)
    ensures Join(Split(s, c), [c]) == s
    decreases |s|
  {
    if |s| > 0 {
      var rest := Split(s[1..], c);
      JoinSplit(s[1..], c);
      if s[0] == c {
        assert Split(s, c) == [""] + rest;
        JoinCons("", rest, [c]);
      } else {
        assert Split(s, c) == [[s[0]] + rest[0]] + rest[1..];
        JoinPrefixFirst([s[0]], rest, [c]);
      }
      assert s == [s[0]] + s[1..];
    }
  }

  /** Lines free of the separator, once joined, hold exactly one separator
      fewer than there are lines. */
  lemma JoinSeparatorCount(xs: seq<string>, c: char)
    requires |xs| > 0
    requires forall i :: 0 <= i < |xs| ==> c !in xs[i]
    ensures multiset(Join(xs, [c]))[c] == |xs| - 1
  {
    SplitJoin(xs, c);
    SplitPieces(Join(xs, [c]), c);
  }
}
