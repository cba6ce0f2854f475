/**
 * The Python string operations the core relies on: `sep.join(items)`,
 * `s.split(c)` for a one-character separator, and `s.lower()` restricted to
 * ASCII letters.
 */
module Strings {

  /** `sep.join(items)`: the items with `sep` between neighbours. */
  function Join(sep: string, items: seq<string>): string
    decreases |items|
  {
    if |items| == 0 then ""
    else if |items| == 1 then items[0]
    else Join(sep, items[..|items| - 1]) + sep + items[|items| - 1]
  }

  /** The pieces of `s` between occurrences of `c`, as `s.split(c)` returns them. */
  function Split(s: string, c: char): (parts: seq<string>)
    ensures |parts| >= 1
    ensures forall i :: 0 <= i < |parts| ==> c !in parts[i]
    decreases |s|
  {
    if |s| == 0 then [""]
    else
      var init := Split(s[..|s| - 1], c);
      var last := s[|s| - 1];
      if last == c then init + [""]
      else init[..|init| - 1] + [init[|init| - 1] + [last]]
  }

  /** The last piece of `s.split(c)`, that is `s.split(c)[-1]`. */
  function LastPiece(s: string, c: char): (r: string)
    ensures c !in r
  {
    var parts := Split(s, c);
    parts[|parts| - 1]
  }

  /** Joining the pieces of a split with the separator gives the string back. */
  lemma {:induction false} JoinSplit(s: string, c: char)
    ensures Join([c], Split(s, c)) == s
    decreases |s|
  {
    if |s| > 0 {
      var p := s[..|s| - 1];
      var init := Split(p, c);
      JoinSplit(p, c);
      if s[|s| - 1] == c {
        assert Split(s, c) == init + [""];
        assert (init + [""])[..|init|] == init;
      } else {
        var parts := Split(s, c);
        assert parts == init[..|init| - 1] + [init[|init| - 1] + [s[|s| - 1]]];
        if |init| > 1 {
          assert parts[..|parts| - 1] == init[..|init| - 1];
        }
      }
      assert p + [s[|s| - 1]] == s;
    }
  }

  /** Appending text without the separator extends the last piece only. */
  lemma {:induction false} SplitAppendPiece(s: string, t: string, c: char)
    requires c !in t
    ensures var parts := Split(s, c);
            Split(s + t, c) == parts[..|parts| - 1] + [parts[|parts| - 1] + t]
    decreases |t|
  {
    if |t| == 0 {
      assert s + t == s;
      var parts := Split(s, c);
      assert parts[|parts| - 1] + t == parts[|parts| - 1];
      assert parts[..|parts| - 1] + [parts[|parts| - 1]] == parts;
    } else {
      var t' := t[..|t| - 1];
      SplitAppendPiece(s, t', c);
      assert (s + t)[..|s + t| - 1] == s + t';
      assert (s + t)[|s + t| - 1] == t[|t| - 1];
      assert t[|t| - 1] in t;
      var parts := Split(s, c);
      var init := Split(s + t', c);
      assert init[..|init| - 1] == parts[..|parts| - 1];
      assert init[|init| - 1] + [t[|t| - 1]] == parts[|parts| - 1] + t;
    }
  }

  /** Splitting a join of separator-free pieces gives the pieces back. */
  lemma {:induction false} SplitJoin(items: seq<string>, c: char)
    requires |items| >= 1
    requires forall i :: 0 <= i < |items| ==> c !in items[i]
    ensures Split(Join([c], items), c) == items
    decreases |items|
  {
    var x := items[|items| - 1];
    if |items| == 1 {
      SplitAppendPiece("", x, c);
      assert "" + x == x;
    } else {
      var init := items[..|items| - 1];
      SplitJoin(init, c);
      var j := Join([c], init);
      assert Split(j + [c], c) == init + [""] by {
        assert (j + [c])[..|j + [c]| - 1] == j;
      }
      SplitAppendPiece(j + [c], x, c);
      assert (init + [""])[..|init|] == init;
      assert "" + x == x;
      assert init + [x] == items;
    }
  }

  /** Without a separator, the whole string is the only piece. */
  lemma {:induction false} SplitWithoutSeparator(s: string, c: char)
    requires c !in s
    ensures Split(s, c) == [s]
    decreases |s|
  {
    if |s| > 0 {
      SplitWithoutSeparator(s[..|s| - 1], c);
      assert s[..|s| - 1] + [s[|s| - 1]] == s;
    }
  }

  /** The last piece is the text after the last separator. */
  lemma {:induction false} LastPieceAfterLastSeparator(s: string, c: char, k: nat)
    requires k < |s| && s[k] == c && c !in s[k + 1..]
    ensures LastPiece(s, c) == s[k + 1..]
    decreases |s|
  {
    var p := s[..|s| - 1];
    if k < |s| - 1 {
      assert p[k] == c && p[k + 1..] == s[k + 1..|s| - 1];
      LastPieceAfterLastSeparator(p, c, k);
      assert s[|s| - 1] in s[k + 1..];
      assert s[k + 1..] == s[k + 1..|s| - 1] + [s[|s| - 1]];
    }
  }

  /** ASCII case folding of one character; every other character is kept. */
  function LowerChar(ch: char): char
  {
    if 'A' <= ch <= 'Z' then (ch as int - 'A' as int + 'a' as int) as char else ch
  }

  /** `s.lower()` for ASCII text. */
  function Lower(s: string): string
  {
    seq(|s|, i requires 0 <= i < |s| => LowerChar(s[i]))
  }

  /** Lower-casing changes no length, leaves no ASCII capital, and is idempotent. */
  lemma LowerNormalises(s: string)
    ensures |Lower(s)| == |s|
    ensures forall i :: 0 <= i < |s| ==> !('A' <= Lower(s)[i] <= 'Z')
    ensures forall i :: 0 <= i < |s| ==> ('A' <= s[i] <= 'Z' || Lower(s)[i] == s[i])
    ensures Lower(Lower(s)) == Lower(s)
  {
  }
}
