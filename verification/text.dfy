/** String operations the handlers rely on, in the sense of Go's `strings`
    package: prefix tests, substring search (`strings.Contains`) and
    `strings.TrimPrefix`. Strings are sequences of characters. */
module Text {

  datatype Option<+T> = None | Some(value: T)

  /** `p` is a prefix of `s`. */
  predicate IsPrefix(p: string, s: string)
  {
    |p| <= |s| && s[..|p|] == p
  }

  /** Reference meaning of "`s` contains `sub`": `sub` starts at some
      position of `s` (position `|s|` admits only the empty string). */
  ghost predicate Occurs(sub: string, s: string)
  {
    exists i :: 0 <= i <= |s| && IsPrefix(sub, s[i..])
  }

  /** Executable substring test: tries each start position of `s` in turn.
      It decides the same question as `strings.Contains`, though not by
      the same algorithm. */
  function Contains(s: string, sub: string): bool
    decreases |s|
  {
    IsPrefix(sub, s) || (|s| > 0 && Contains(s[1..], sub))
  }

  /** The scan finds `sub` exactly when `sub` occurs in `s`. */
  lemma {:induction false} ContainsCorrect(s: string, sub: string)
    ensures Contains(s, sub) <==> Occurs(sub, s)
    decreases |s|
  {
    if IsPrefix(sub, s) {
      assert s[0..] == s;
    } else if |s| == 0 {
      assert forall i :: 0 <= i <= |s| ==> s[i..] == s;
    } else {
      ContainsCorrect(s[1..], sub);
      if Contains(s[1..], sub) {
        var i :| 0 <= i <= |s[1..]| && IsPrefix(sub, s[1..][i..]);
        assert s[1..][i..] == s[i + 1..];
      }
      if Occurs(sub, s) {
        var i :| 0 <= i <= |s| && IsPrefix(sub, s[i..]);
        assert i != 0 by { assert s[0..] == s; }
        assert s[1..][i - 1..] == s[i..];
        assert Occurs(sub, s[1..]);
      }
    }
  }

  /** A non-empty `sub` can only occur in `s` if its first character does. */
  lemma FirstCharOccurs(sub: string, s: string)
    requires |sub| > 0 && Occurs(sub, s)
    ensures sub[0] in s
  {
  }

  /** `strings.TrimPrefix`: `s` without the leading `prefix`, or `s`
      itself when it does not start with `prefix`. */
  function TrimPrefix(s: string, prefix: string): (r: string)
    ensures IsPrefix(prefix, s) ==> prefix + r == s
    ensures !IsPrefix(prefix, s) ==> r == s
    ensures |r| <= |s|
  {
    if IsPrefix(prefix, s) then s[|prefix|..] else s
  }

  /** The text strictly between a leading `open` and a trailing `close`,
      if `s` has that shape. Used to read a value back out of a response
      string built by concatenation. */
  function Between(open: string, close: string, s: string): (r: Option<string>)
    ensures r.Some? ==> open + r.value + close == s
    ensures r.None? ==> |s| < |open| + |close| || !IsPrefix(open, s) || s[|s| - |close|..] != close
  {
    if |open| + |close| <= |s| && IsPrefix(open, s) && s[|s| - |close|..] == close then
      Some(s[|open|..|s| - |close|])
    else
      None
  }

  /** Wrapping `x` in `open` and `close` and reading it back gives `x`. */
  lemma BetweenWrapped(open: string, x: string, close: string)
    ensures Between(open, close, open + x + close) == Some(x)
  {
  }
}
