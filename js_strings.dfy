/**
 * The JavaScript string built-ins the query translator relies on, for a
 * one-character separator: `s.split(c)` and `parts.join(sep)`, together with
 * independent reference definitions (the text before the first stop
 * character, the index of a character, a character-wise replacement) and the
 * lemmas that connect the built-ins to them.
 */
module JsStrings {

  /** `s.split(sep)`: the pieces between occurrences of `sep`; never empty. */
  function Split(s: string, sep: char): (parts: seq<string>)
    ensures |parts| >= 1
    decreases |s|
  {
    if s == [] then [[]]
    else
      var rest := Split(s[1..], sep);
      if s[0] == sep then [[]] + rest
      else [[s[0]] + rest[0]] + rest[1..]
  }

  /**
   * `parts.join(sep)`: no pieces give the empty string, one piece is itself,
   * and the text always starts with the first piece.
   */
  function Join(parts: seq<string>, sep: string): (r: string)
    ensures parts == [] ==> r == []
    ensures |parts| == 1 ==> r == parts[0]
    ensures parts != [] ==> parts[0] <= r
    decreases |parts|
  {
    if parts == [] then []
    else if |parts| == 1 then parts[0]
    else parts[0] + sep + Join(parts[1..], sep)
  }

  /** The longest prefix of `s` that holds none of the characters in `stops`. */
  function BeforeAny(s: string, stops: set<char>): (r: string)
    ensures r <= s
    ensures forall i :: 0 <= i < |r| ==> r[i] !in stops
    ensures |r| < |s| ==> s[|r|] in stops
    decreases |s|
  {
    if s == [] || s[0] in stops then [] else [s[0]] + BeforeAny(s[1..], stops)
  }

  /** The position of the first occurrence of `c` in `s`. */
  function IndexOf(s: string, c: char): (i: nat)
    requires c in s
    ensures i < |s| && s[i] == c
    ensures c !in s[..i]
    decreases |s|
  {
    if s[0] == c then 0
    else
      var j := IndexOf(s[1..], c);
      assert s[..j + 1] == [s[0]] + s[1..][..j];
      j + 1
  }

  /** Every occurrence of `from` in `s` replaced by `to`, everything else kept. */
  function ReplaceChar(s: string, from: char, to: char): (r: string)
    ensures |r| == |s|
    ensures forall i :: 0 <= i < |s| ==> r[i] == (if s[i] == from then to else s[i])
    decreases |s|
  {
    if s == [] then []
    else [if s[0] == from then to else s[0]] + ReplaceChar(s[1..], from, to)
  }

  /** Joining after a nonempty list with a leading piece. */
  lemma JoinCons(head: string, rest: seq<string>, sep: string)
    requires |rest| >= 1
    ensures Join([head] + rest, sep) == head + sep + Join(rest, sep)
  {
    assert ([head] + rest)[1..] == rest;
  }

  /** Prepending text to the first piece prepends it to the joined string. */
  lemma JoinPrependFirst(c: string, parts: seq<string>, sep: string)
    requires |parts| >= 1
    ensures Join([c + parts[0]] + parts[1..], sep) == c + Join(parts, sep)
  {
    if |parts| > 1 {
      JoinCons(c + parts[0], parts[1..], sep);
      JoinCons(parts[0], parts[1..], sep);
      assert [parts[0]] + parts[1..] == parts;
    }
  }

  /**
   * `s.split(from).join(to)` replaces every `from` by `to`: the idiom the
   * filter uses to turn `+` into spaces.
   */
  lemma {:induction false} JoinSplitIsReplace(s: string, from: char, to: char)
    ensures Join(Split(s, from), [to]) == ReplaceChar(s, from, to)
    decreases |s|
  {
    if s != [] {
      var rest := Split(s[1..], from);
      JoinSplitIsReplace(s[1..], from, to);
      if s[0] == from {
        JoinCons([], rest, [to]);
      } else {
        JoinPrependFirst([s[0]], rest, [to]);
      }
    }
  }

  /** Splitting and joining with the same separator gives back the string. */
  lemma SplitJoinRoundTrip(s: string, sep: char)
    ensures Join(Split(s, sep), [sep]) == s
  {
    JoinSplitIsReplace(s, sep, sep);
    assert ReplaceChar(s, sep, sep) == s;
  }

  /** A string without the separator splits into itself alone. */
  lemma {:induction false} SplitWithoutSeparator(s: string, sep: char)
    requires sep !in s
    ensures Split(s, sep) == [s]
    decreases |s|
  {
    if s != [] {
      assert sep !in s[1..] by { assert forall x :: x in s[1..] ==> x in s; }
      SplitWithoutSeparator(s[1..], sep);
      assert [s[0]] + s[1..] == s;
    }
  }

  /**
   * A string holding the separator splits into the text before its first
   * occurrence followed by the pieces of the text after it.
   */
  lemma {:induction false} SplitAtFirst(s: string, sep: char)
    requires sep in s
    ensures Split(s, sep) == [BeforeAny(s, {sep})] + Split(s[IndexOf(s, sep) + 1..], sep)
    decreases |s|
  {
    if s[0] != sep {
      assert sep in s[1..] by {
        var i :| 0 <= i < |s| && s[i] == sep;
        assert s[1..][i - 1] == sep;
      }
      SplitAtFirst(s[1..], sep);
      assert s[1..][IndexOf(s[1..], sep) + 1..] == s[IndexOf(s, sep) + 1..];
    }
  }

  /** `s.split(sep)[1]` exists exactly when `sep` occurs in `s`. */
  lemma SplitHasSecondPiece(s: string, sep: char)
    ensures |Split(s, sep)| >= 2 <==> sep in s
  {
    if sep in s {
      SplitAtFirst(s, sep);
    } else {
      SplitWithoutSeparator(s, sep);
    }
  }

  /** `s.split(sep)[0]` is the text before the first `sep`. */
  lemma SplitFirstPiece(s: string, sep: char)
    ensures Split(s, sep)[0] == BeforeAny(s, {sep})
  {
    if sep in s {
      SplitAtFirst(s, sep);
    } else {
      SplitWithoutSeparator(s, sep);
      assert BeforeAny(s, {sep}) == s;
    }
  }

  /** Cutting at `a` and then at `b` is cutting at the first of either. */
  lemma {:induction false} BeforeAnyTwice(s: string, a: char, b: char)
    ensures BeforeAny(BeforeAny(s, {a}), {b}) == BeforeAny(s, {a, b})
    decreases |s|
  {
    if s != [] && s[0] != a && s[0] != b {
      BeforeAnyTwice(s[1..], a, b);
      assert BeforeAny(s, {a}) == [s[0]] + BeforeAny(s[1..], {a});
    }
  }

  /**
   * The text before the first stop of `a + b` is `a` when `a` holds no stop
   * character and `b` starts with one.
   */
  lemma {:induction false} BeforeAnyOfConcat(a: string, b: string, stops: set<char>)
    requires forall i :: 0 <= i < |a| ==> a[i] !in stops
    requires b != [] && b[0] in stops
    ensures BeforeAny(a + b, stops) == a
    decreases |a|
  {
    if a != [] {
      assert (a + b)[1..] == a[1..] + b;
      BeforeAnyOfConcat(a[1..], b, stops);
    }
  }

  /** The first `c` of `a + b` is the first of `b` when `a` holds none. */
  lemma {:induction false} IndexOfConcat(a: string, b: string, c: char)
    requires c !in a && c in b
    ensures c in a + b && IndexOf(a + b, c) == |a| + IndexOf(b, c)
    decreases |a|
  {
    if a == [] {
      assert a + b == b;
    } else {
      assert (a + b)[1..] == a[1..] + b;
      assert c !in a[1..] by { assert forall x :: x in a[1..] ==> x in a; }
      IndexOfConcat(a[1..], b, c);
    }
  }
}
