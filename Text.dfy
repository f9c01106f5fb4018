/**
 * The string operations the bot core relies on: Kotlin's `split(" ")`, the
 * `joinToString(" ")` that undoes it, `startsWith("/")`, and lowercasing.
 * Strings are sequences of characters; lowercasing is ASCII only.
 */
module Text {
  import opened Wrappers

  const Space: char := ' '

  /** Index of the first occurrence of `c` in `s`, if any. */
  function IndexOf(s: string, c: char): (r: Option<nat>)
    ensures r.Some? ==> r.value < |s| && s[r.value] == c && c !in s[..r.value]
    ensures r.None? <==> c !in s
  {
    if |s| == 0 then None
    else if s[0] == c then Some(0)
    else
      match IndexOf(s[1..], c)
      case None => None
      case Some(i) =>
        assert s[..i + 1] == [s[0]] + s[1..][..i];
        Some(i + 1)
  }

  /**
   * Kotlin's `s.split(" ")`: cut at every space, keeping the empty tokens that
   * leading, consecutive or trailing spaces produce. There is always at least one token.
   */
  function Split(s: string): (r: seq<string>)
    ensures |r| >= 1
    decreases |s|
  {
    match IndexOf(s, Space)
    case None => [s]
    case Some(i) => [s[..i]] + Split(s[i + 1..])
  }

  /** Kotlin's `joinToString(" ")` on a non-empty list. */
  function Join(ts: seq<string>): string
    requires |ts| >= 1
  {
    if |ts| == 1 then ts[0] else ts[0] + [Space] + Join(ts[1..])
  }

  /** No token produced by `Split` contains a space. */
  lemma {:induction false} SplitTokensHaveNoSpace(s: string)
    ensures forall t :: t in Split(s) ==> Space !in t
    decreases |s|
  {
    match IndexOf(s, Space)
    case None =>
    case Some(i) =>
      SplitTokensHaveNoSpace(s[i + 1..]);
  }

  /** Joining the tokens with single spaces gives back the original text. */
  lemma {:induction false} JoinSplit(s: string)
    ensures Join(Split(s)) == s
    decreases |s|
  {
    match IndexOf(s, Space)
    case None =>
    case Some(i) =>
      var rest := Split(s[i + 1..]);
      assert Split(s) == [s[..i]] + rest;
      assert Split(s)[1..] == rest;
      JoinSplit(s[i + 1..]);
      assert Join(Split(s)) == s[..i] + [Space] + Join(rest);
      assert s == s[..i] + [Space] + s[i + 1..];
  }

  /** `IndexOf` finds a position exactly when it holds `c` and nothing before it does. */
  lemma IndexOfAt(s: string, c: char, i: nat)
    requires i < |s| && s[i] == c && c !in s[..i]
    ensures IndexOf(s, c) == Some(i)
  {
  }

  /** Splitting a join of space-free tokens gives back those tokens. */
  lemma {:induction false} SplitJoin(ts: seq<string>)
    requires |ts| >= 1
    requires forall t :: t in ts ==> Space !in t
    ensures Split(Join(ts)) == ts
  {
    if |ts| == 1 {
      assert IndexOf(ts[0], Space).None?;
    } else {
      var s := Join(ts);
      var rest := Join(ts[1..]);
      assert s == ts[0] + [Space] + rest;
      assert s[..|ts[0]|] == ts[0];
      assert s[|ts[0]| + 1..] == rest;
      assert s[|ts[0]|] == Space;
      IndexOfAt(s, Space, |ts[0]|);
      SplitJoin(ts[1..]);
    }
  }

  /** Text without a space splits into itself alone. */
  lemma SplitWithoutSpace(s: string)
    requires Space !in s
    ensures Split(s) == [s]
  {
  }

  /**
   * The first token is the text before the first space (or the whole text when it
   * has none).
   */
  lemma {:induction false} FirstToken(s: string)
    ensures var t := Split(s)[0];
      && s[..|t|] == t
      && Space !in t
      && (|t| == |s| || s[|t|] == Space)
  {
  }

  /** The first token of `t + rest` is `t` when `t` has no space and `rest` is empty or starts with one. */
  lemma {:induction false} FirstTokenOfPrefixed(t: string, rest: string)
    requires Space !in t
    requires rest == [] || rest[0] == Space
    ensures Split(t + rest)[0] == t
  {
    var s := t + rest;
    assert s[..|t|] == t;
    if rest == [] {
      assert s == t;
      assert IndexOf(s, Space).None?;
    } else {
      assert s[|t|] == Space;
      IndexOfAt(s, Space, |t|);
    }
  }

  /** Decimal digits of a natural number. */
  function NatToString(n: nat): string
    decreases n
  {
    var digit := ['0', '1', '2', '3', '4', '5', '6', '7', '8', '9'][n % 10];
    if n < 10 then [digit] else NatToString(n / 10) + [digit]
  }

  /** An integer in decimal, as a Kotlin string template prints it. */
  function IntToString(i: int): string {
    if i < 0 then "-" + NatToString(-i) else NatToString(i)
  }

  /** ASCII lowercasing of one character. */
  function LowerChar(c: char): (r: char)
    ensures 'A' <= c <= 'Z' ==> r as int == c as int + 32
    ensures !('A' <= c <= 'Z') ==> r == c
  {
    if 'A' <= c <= 'Z' then (c as int + 32) as char else c
  }

  /** Kotlin's `lowercase()`, restricted to ASCII letters. */
  function Lower(s: string): (r: string)
    ensures |r| == |s|
    ensures forall i :: 0 <= i < |s| ==> r[i] == LowerChar(s[i])
  {
    seq(|s|, i requires 0 <= i < |s| => LowerChar(s[i]))
  }

  /** Lowercasing twice is lowercasing once. */
  lemma LowerIdempotent(s: string)
    ensures Lower(Lower(s)) == Lower(s)
  {
    assert forall i :: 0 <= i < |s| ==> LowerChar(LowerChar(s[i])) == LowerChar(s[i]);
  }
}
