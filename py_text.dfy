/**
 * The two string operations the shot parser takes from Python:
 * `str.replace(ch, '')` (here `Erase`) and `str.split()` with no
 * separator (here `Split`), plus `Unwords`, which writes tokens back
 * separated by single spaces, as the partner of `Split`.
 */
module PyText {

  /**
   * The characters for which Python's `str.isspace()` holds; `str.split()`
   * splits on runs of them: tab through carriage return, the four
   * information separators, space, NEL, no-break space and the Unicode
   * space separators.
   */
  predicate IsSpace(c: char) {
    || ('\t' <= c <= '\r')
    || ('\U{1C}' <= c <= ' ')
    || c == '\U{85}' || c == '\U{A0}' || c == '\U{1680}'
    || ('\U{2000}' <= c <= '\U{200A}')
    || c == '\U{2028}' || c == '\U{2029}' || c == '\U{202F}' || c == '\U{205F}' || c == '\U{3000}'
  }

  /** A token as `str.split()` produces it: non-empty and free of whitespace. */
  predicate IsToken(t: string) {
    t != [] && forall k :: 0 <= k < |t| ==> !IsSpace(t[k])
  }

  /** `s.replace(ch, '')`: every occurrence of `ch` removed, everything else kept in order. */
  function Erase(s: string, ch: char): (r: string)
    ensures |r| <= |s|
    ensures ch !in r
  {
    if s == [] then []
    else (if s[0] == ch then [] else [s[0]]) + Erase(s[1..], ch)
  }

  /** Erasing `ch` keeps every other character that occurs, and adds none. */
  lemma {:induction false} EraseKeepsOthers(s: string, ch: char)
    ensures forall c :: c != ch ==> (c in Erase(s, ch) <==> c in s)
    decreases |s|
  {
    if s != [] {
      EraseKeepsOthers(s[1..], ch);
      assert s == [s[0]] + s[1..];
    }
  }

  lemma {:induction false} EraseAppend(a: string, b: string, ch: char)
    ensures Erase(a + b, ch) == Erase(a, ch) + Erase(b, ch)
    decreases |a|
  {
    if a == [] {
      assert a + b == b;
    } else {
      assert (a + b)[0] == a[0];
      assert (a + b)[1..] == a[1..] + b;
      EraseAppend(a[1..], b, ch);
    }
  }

  /** Erasing a character that does not occur changes nothing. */
  lemma {:induction false} EraseAbsent(s: string, ch: char)
    requires ch !in s
    ensures Erase(s, ch) == s
    decreases |s|
  {
    if s != [] {
      assert s[1..] + [] == s[1..];
      EraseAbsent(s[1..], ch);
      assert [s[0]] + s[1..] == s;
    }
  }

  /** The length of the run of non-whitespace characters that starts `s`. */
  function TokenEnd(s: string): (n: nat)
    ensures n <= |s|
    ensures forall k :: 0 <= k < n ==> !IsSpace(s[k])
    ensures n < |s| ==> IsSpace(s[n])
  {
    if s == [] || IsSpace(s[0]) then 0 else 1 + TokenEnd(s[1..])
  }

  /** `s.split()`: the maximal runs of non-whitespace characters of `s`, in order. */
  function Split(s: string): (r: seq<string>)
    ensures forall k :: 0 <= k < |r| ==> IsToken(r[k])
    decreases |s|
  {
    if s == [] then []
    else if IsSpace(s[0]) then Split(s[1..])
    else
      var n := TokenEnd(s);
      [s[..n]] + Split(s[n..])
  }

  /** Every character of every token comes from the split string. */
  lemma {:induction false} SplitTokensFromText(s: string)
    ensures forall k, c :: 0 <= k < |Split(s)| && c in Split(s)[k] ==> c in s
    decreases |s|
  {
    if s != [] {
      if IsSpace(s[0]) {
        SplitTokensFromText(s[1..]);
        assert forall c :: c in s[1..] ==> c in s;
      } else {
        var n := TokenEnd(s);
        SplitTokensFromText(s[n..]);
        assert forall c :: c in s[n..] ==> c in s;
        assert forall c :: c in s[..n] ==> c in s;
        var r := Split(s);
        assert r[1..] == Split(s[n..]);
      }
    }
  }

  /** All characters of `s` that are not whitespace, in order. */
  function NonSpace(s: string): string {
    if s == [] then [] else (if IsSpace(s[0]) then [] else [s[0]]) + NonSpace(s[1..])
  }

  function Concat(ts: seq<string>): string {
    if ts == [] then [] else ts[0] + Concat(ts[1..])
  }

  lemma {:induction false} NonSpaceAppend(a: string, b: string)
    ensures NonSpace(a + b) == NonSpace(a) + NonSpace(b)
    decreases |a|
  {
    if a == [] {
      assert a + b == b;
    } else {
      assert (a + b)[0] == a[0];
      assert (a + b)[1..] == a[1..] + b;
      NonSpaceAppend(a[1..], b);
    }
  }

  lemma {:induction false} NonSpaceOfToken(t: string)
    requires forall k :: 0 <= k < |t| ==> !IsSpace(t[k])
    ensures NonSpace(t) == t
    decreases |t|
  {
    if t != [] {
      NonSpaceOfToken(t[1..]);
      assert [t[0]] + t[1..] == t;
    }
  }

  /** Splitting loses nothing but whitespace: the tokens, glued together, are the non-space characters of `s`. */
  lemma {:induction false} SplitKeepsText(s: string)
    ensures Concat(Split(s)) == NonSpace(s)
    decreases |s|
  {
    if s == [] {
    } else if IsSpace(s[0]) {
      SplitKeepsText(s[1..]);
    } else {
      var n := TokenEnd(s);
      SplitKeepsText(s[n..]);
      assert s == s[..n] + s[n..];
      NonSpaceAppend(s[..n], s[n..]);
      NonSpaceOfToken(s[..n]);
      var r := Split(s);
      assert r == [s[..n]] + Split(s[n..]);
      assert r[1..] == Split(s[n..]);
    }
  }

  /** A string splits into no tokens exactly when it is all whitespace. */
  lemma {:induction false} SplitEmptyIff(s: string)
    ensures Split(s) == [] <==> forall k :: 0 <= k < |s| ==> IsSpace(s[k])
    decreases |s|
  {
    if s != [] {
      SplitEmptyIff(s[1..]);
      if IsSpace(s[0]) {
        assert forall k :: 1 <= k < |s| ==> s[k] == s[1..][k - 1];
      }
    }
  }

  /** Tokens written back with one space between them. */
  function Unwords(ts: seq<string>): string {
    if ts == [] then []
    else if |ts| == 1 then ts[0]
    else ts[0] + " " + Unwords(ts[1..])
  }

  lemma {:induction false} TokenEndOfToken(t: string, rest: string)
    requires IsToken(t)
    requires rest == [] || IsSpace(rest[0])
    ensures TokenEnd(t + rest) == |t|
    decreases |t|
  {
    assert (t + rest)[0] == t[0];
    if |t| > 1 {
      assert (t + rest)[1..] == t[1..] + rest;
      TokenEndOfToken(t[1..], rest);
    } else {
      assert (t + rest)[1..] == rest;
    }
  }

  lemma SplitAfterToken(t: string, rest: string)
    requires IsToken(t)
    requires rest == [] || IsSpace(rest[0])
    ensures Split(t + rest) == [t] + Split(rest)
  {
    TokenEndOfToken(t, rest);
    assert (t + rest)[0] == t[0];
    assert (t + rest)[..|t|] == t;
    assert (t + rest)[|t|..] == rest;
  }

  /** Splitting undoes `Unwords` on any list of tokens. */
  lemma SplitUnwords(ts: seq<string>)
    requires forall k :: 0 <= k < |ts| ==> IsToken(ts[k])
    ensures Split(Unwords(ts)) == ts
  {
    SplitUnwordsThen(ts, []);
    assert Unwords(ts) + [] == Unwords(ts);
  }

  /**
   * Tokens written back with single spaces and followed by text that
   * starts with whitespace split into those tokens and then the tokens of
   * the text: a line's trailing newline adds nothing.
   */
  lemma {:induction false} SplitUnwordsThen(ts: seq<string>, rest: string)
    requires forall k :: 0 <= k < |ts| ==> IsToken(ts[k])
    requires rest == [] || IsSpace(rest[0])
    ensures Split(Unwords(ts) + rest) == ts + Split(rest)
    decreases |ts|
  {
    if ts == [] {
      SplitUnwordsNone(ts, rest);
    } else if |ts| == 1 {
      SplitUnwordsOne(ts, rest);
    } else {
      SplitUnwordsThen(ts[1..], rest);
      SplitUnwordsMore(ts, rest);
    }
  }

  lemma SplitUnwordsNone(ts: seq<string>, rest: string)
    requires ts == []
    ensures Split(Unwords(ts) + rest) == ts + Split(rest)
  {
    assert Unwords(ts) == [];
    assert Unwords(ts) + rest == rest;
    assert ts + Split(rest) == Split(rest);
  }

  lemma SplitUnwordsOne(ts: seq<string>, rest: string)
    requires |ts| == 1 && IsToken(ts[0])
    requires rest == [] || IsSpace(rest[0])
    ensures Split(Unwords(ts) + rest) == ts + Split(rest)
  {
    SplitAfterToken(ts[0], rest);
    assert ts == [ts[0]];
  }

  lemma SplitUnwordsMore(ts: seq<string>, rest: string)
    requires |ts| > 1 && IsToken(ts[0])
    requires Split(Unwords(ts[1..]) + rest) == ts[1..] + Split(rest)
    ensures Split(Unwords(ts) + rest) == ts + Split(rest)
  {
    SplitTokenThenSpace(ts[0], Unwords(ts[1..]) + rest);
    UnwordsCons(ts, rest);
    assert [ts[0]] + (ts[1..] + Split(rest)) == ts + Split(rest);
  }

  lemma SplitTokenThenSpace(t: string, tail: string)
    requires IsToken(t)
    ensures Split(t + (" " + tail)) == [t] + Split(tail)
  {
    SplitAfterToken(t, " " + tail);
    SplitSkipsSpace(' ', tail);
  }

  lemma UnwordsCons(ts: seq<string>, rest: string)
    requires |ts| > 1
    ensures Unwords(ts) + rest == ts[0] + (" " + (Unwords(ts[1..]) + rest))
  {
  }

  lemma SplitSkipsSpace(c: char, s: string)
    requires IsSpace(c)
    ensures Split([c] + s) == Split(s)
  {
    assert ([c] + s)[1..] == s;
  }

  lemma {:induction false} UnwordsChars(ts: seq<string>, c: char)
    requires c != ' '
    requires forall k :: 0 <= k < |ts| ==> c !in ts[k]
    ensures c !in Unwords(ts)
    decreases |ts|
  {
    if |ts| > 1 {
      UnwordsChars(ts[1..], c);
    }
  }

}
