/**
 * Characters and strings as the JavaScript source treats them: the ASCII
 * character classes its regular expressions use, `\s`, `toLowerCase`,
 * `includes`, `split` on a run of delimiters, `join` and number-to-string.
 */
module Text {

  predicate IsUpper(c: char) { 'A' <= c <= 'Z' }
  predicate IsLower(c: char) { 'a' <= c <= 'z' }
  predicate IsDigit(c: char) { '0' <= c <= '9' }
  predicate IsAlnum(c: char) { IsUpper(c) || IsLower(c) || IsDigit(c) }

  /** `\w` of a regular expression without the `u` flag. */
  predicate IsWordChar(c: char) { IsAlnum(c) || c == '_' }

  /** `\s` of a JavaScript regular expression (WhiteSpace and LineTerminator). */
  predicate IsSpace(c: char) {
    c == ' ' || ('\t' <= c <= '\r') || c == '\U{A0}' || c == '\U{1680}' ||
    ('\U{2000}' <= c <= '\U{200A}') || c == '\U{2028}' || c == '\U{2029}' ||
    c == '\U{202F}' || c == '\U{205F}' || c == '\U{3000}' || c == '\U{FEFF}'
  }

  /** `toLowerCase` on one character (ASCII letters only). */
  function Lower(c: char): (d: char)
    ensures !IsUpper(d)
    ensures IsAlnum(c) <==> IsAlnum(d)
    ensures IsSpace(c) <==> IsSpace(d)
    ensures !IsUpper(c) ==> d == c
  {
    if IsUpper(c) then (c as int + 32) as char else c
  }

  function LowerStr(s: string): (t: string)
    ensures |t| == |s|
    ensures forall i :: 0 <= i < |s| ==> t[i] == Lower(s[i])
  {
    seq(|s|, i requires 0 <= i < |s| => Lower(s[i]))
  }

  /**
   * JavaScript's `s.length`: the number of UTF-16 code units, so a character
   * outside the Basic Multilingual Plane (an emoji, say) counts twice.
   */
  function JsLength(s: string): (n: nat)
    ensures |s| <= n <= 2 * |s|
    decreases |s|
  {
    if s == [] then 0 else JsLength(s[..|s| - 1]) + (if s[|s| - 1] as int > 0xFFFF then 2 else 1)
  }

  /** `(a + b).length == a.length + b.length`. */
  lemma {:induction false} JsLengthAppend(a: string, b: string)
    ensures JsLength(a + b) == JsLength(a) + JsLength(b)
    decreases |b|
  {
    if b == [] {
      assert a + b == a;
    } else {
      var init := b[..|b| - 1];
      JsLengthAppend(a, init);
      assert (a + b)[..|a + b| - 1] == a + init;
      assert b[..|b| - 1] == init;
    }
  }

  /** On text inside the Basic Multilingual Plane, `.length` counts characters. */
  lemma {:induction false} JsLengthBmp(s: string)
    requires forall c :: c in s ==> c as int <= 0xFFFF
    ensures JsLength(s) == |s|
    decreases |s|
  {
    if s != [] {
      var init := s[..|s| - 1];
      assert forall c :: c in init ==> c in s;
      assert s[|s| - 1] in s;
      JsLengthBmp(init);
    }
  }

  /** `toLowerCase` keeps `.length` (it only maps ASCII letters to ASCII letters). */
  lemma {:induction false} JsLengthLower(s: string)
    ensures JsLength(LowerStr(s)) == JsLength(s)
    decreases |s|
  {
    if s != [] {
      var init := s[..|s| - 1];
      JsLengthLower(init);
      assert LowerStr(s)[..|s| - 1] == LowerStr(init);
    }
  }

  /** A lower-case letter of `toLowerCase(s)` comes from itself or its capital in `s`. */
  lemma LowerHit(s: string, c: char)
    requires IsLower(c) && c in LowerStr(s)
    ensures c in s || (c as int - 32) as char in s
  {
    var i :| 0 <= i < |s| && LowerStr(s)[i] == c;
    assert s[i] == c || s[i] == (c as int - 32) as char;
  }

  /** A lower-case letter absent from `s` in both cases is absent from `toLowerCase(s)`. */
  lemma LowerAbsent(s: string, c: char)
    requires IsLower(c) && c !in s && (c as int - 32) as char !in s
    ensures c !in LowerStr(s)
  {
    if c in LowerStr(s) {
      LowerHit(s, c);
    }
  }

  predicate IsPrefix(p: string, s: string) {
    |p| <= |s| && s[..|p|] == p
  }

  /** `s.includes(sub)`. */
  predicate Contains(s: string, sub: string) {
    exists i :: 0 <= i <= |s| && IsPrefix(sub, s[i..])
  }

  lemma ContainsSlice(s: string, i: nat, j: nat)
    requires i <= j <= |s|
    ensures Contains(s, s[i..j])
  {
    assert IsPrefix(s[i..j], s[i..]);
  }

  /** A one-character substring test is a membership test. */
  lemma ContainsChar(s: string, c: char)
    ensures Contains(s, [c]) <==> c in s
  {
    if c in s {
      var i :| 0 <= i < |s| && s[i] == c;
      assert IsPrefix([c], s[i..]);
    }
    if Contains(s, [c]) {
      var i :| 0 <= i <= |s| && IsPrefix([c], s[i..]);
      assert s[i..][0] == c;
    }
  }

  /** A word with a character the text lacks does not occur in it. */
  lemma AbsentCharNoContains(s: string, sub: string, c: char)
    requires c in sub && c !in s
    ensures !Contains(s, sub)
  {
    if Contains(s, sub) {
      ContainsMembers(s, sub);
    }
  }

  /** Every character of a substring occurs in the string. */
  lemma ContainsMembers(s: string, sub: string)
    requires Contains(s, sub)
    ensures forall c :: c in sub ==> c in s
  {
    var i :| 0 <= i <= |s| && IsPrefix(sub, s[i..]);
    forall c | c in sub ensures c in s {
      var k :| 0 <= k < |sub| && sub[k] == c;
      assert s[i..][..|sub|][k] == s[i + k];
    }
  }

  /** Drops the leading characters that satisfy `p`. */
  function DropWhile(s: string, p: char -> bool): (t: string)
    ensures |t| <= |s| && t == s[|s| - |t|..]
    ensures t == [] || !p(t[0])
    ensures s != [] && p(s[0]) ==> |t| < |s|
  {
    if s != [] && p(s[0]) then DropWhile(s[1..], p) else s
  }

  /**
   * `s.split(/[D]+/)` where `delim` recognises D, with `cur` the token being
   * read: a run of delimiters ends a token, and a leading or trailing run
   * yields an empty token, as in JavaScript.
   */
  function SplitFrom(s: string, delim: char -> bool, cur: string): (r: seq<string>)
    ensures |r| >= 1
    decreases |s|
  {
    if s == [] then [cur]
    else if delim(s[0]) then [cur] + SplitFrom(DropWhile(s, delim), delim, "")
    else SplitFrom(s[1..], delim, cur + [s[0]])
  }

  function Split(s: string, delim: char -> bool): seq<string> {
    SplitFrom(s, delim, "")
  }

  lemma {:induction false} SplitFromTokens(s: string, delim: char -> bool, cur: string)
    requires forall c :: c in cur ==> !delim(c)
    ensures forall t, c :: t in SplitFrom(s, delim, cur) && c in t ==> !delim(c) && c in cur + s
    decreases |s|
  {
    if s == [] {
    } else if delim(s[0]) {
      var rest := DropWhile(s, delim);
      SplitFromTokens(rest, delim, "");
      assert forall c :: c in rest ==> c in s;
    } else {
      SplitFromTokens(s[1..], delim, cur + [s[0]]);
      assert cur + [s[0]] + s[1..] == cur + s;
    }
  }

  /** No token of a split contains a delimiter. */
  lemma SplitTokens(s: string, delim: char -> bool)
    ensures forall t, c :: t in Split(s, delim) && c in t ==> !delim(c) && c in s
  {
    SplitFromTokens(s, delim, "");
    assert "" + s == s;
  }

  /** `ws.join(sep)`. */
  function Join(ws: seq<string>, sep: string): string
    decreases |ws|
  {
    if |ws| == 0 then "" else if |ws| == 1 then ws[0] else ws[0] + sep + Join(ws[1..], sep)
  }

  lemma {:induction false} SplitFromWord(w: string, rest: string, delim: char -> bool, cur: string)
    requires forall c :: c in w ==> !delim(c)
    ensures SplitFrom(w + rest, delim, cur) == SplitFrom(rest, delim, cur + w)
    decreases |w|
  {
    if w != [] {
      assert (w + rest)[0] == w[0] && (w + rest)[1..] == w[1..] + rest;
      SplitFromWord(w[1..], rest, delim, cur + [w[0]]);
      assert cur + [w[0]] + w[1..] == cur + w;
    } else {
      assert w + rest == rest && cur + w == cur;
    }
  }

  lemma {:induction false} JoinHead(ws: seq<string>, sep: string)
    requires |ws| >= 1 && ws[0] != []
    ensures Join(ws, sep) != [] && Join(ws, sep)[0] == ws[0][0]
  {
  }

  /** A non-empty token free of delimiters. */
  predicate IsToken(w: string, delim: char -> bool) {
    w != [] && forall c :: c in w ==> !delim(c)
  }

  lemma {:induction false} JoinCons(ws: seq<string>, sep: string)
    requires |ws| >= 2
    ensures Join(ws, sep) == ws[0] + (sep + Join(ws[1..], sep))
  {
    assert ws[0] + sep + Join(ws[1..], sep) == ws[0] + (sep + Join(ws[1..], sep));
  }

  lemma SplitAfterSpace(rest: string, delim: char -> bool, cur: string)
    requires rest != [] && !delim(rest[0]) && delim(' ')
    ensures SplitFrom(" " + rest, delim, cur) == [cur] + SplitFrom(rest, delim, "")
  {
    assert (" " + rest)[1..] == rest;
    assert DropWhile(" " + rest, delim) == rest;
  }

  lemma {:induction false} SplitFromJoin(ws: seq<string>, delim: char -> bool, cur: string)
    requires |ws| >= 1
    requires forall k :: 0 <= k < |ws| ==> IsToken(ws[k], delim)
    requires delim(' ')
    ensures SplitFrom(Join(ws, " "), delim, cur) == [cur + ws[0]] + ws[1..]
    decreases |ws|
  {
    assert IsToken(ws[0], delim);
    if |ws| == 1 {
      SplitFromWord(ws[0], [], delim, cur);
      assert ws[0] + [] == ws[0];
    } else {
      var tail := ws[1..];
      var rest := Join(tail, " ");
      assert IsToken(tail[0], delim);
      JoinHead(tail, " ");
      JoinCons(ws, " ");
      SplitFromWord(ws[0], " " + rest, delim, cur);
      SplitAfterSpace(rest, delim, cur + ws[0]);
      SplitFromJoin(tail, delim, "");
      assert [] + tail[0] == tail[0];
      assert [tail[0]] + tail[1..] == tail;
    }
  }

  /**
   * Joining delimiter-free, non-empty words with a space and splitting the
   * result on delimiter runs gives the words back.
   */
  lemma SplitJoin(ws: seq<string>, delim: char -> bool)
    requires |ws| >= 1
    requires forall k :: 0 <= k < |ws| ==> IsToken(ws[k], delim)
    requires delim(' ')
    ensures Split(Join(ws, " "), delim) == ws
  {
    SplitFromJoin(ws, delim, "");
    assert [] + ws[0] == ws[0];
  }

  /** The characters `/[^a-z0-9\s]/g` keeps. */
  predicate IsKeywordChar(c: char) { IsLower(c) || IsDigit(c) || IsSpace(c) }

  /** `text.toLowerCase().replace(/[^a-z0-9\s]/g, '')`. */
  function KeywordText(s: string): (t: string)
    ensures forall k :: 0 <= k < |t| ==> IsKeywordChar(t[k])
    decreases |s|
  {
    if s == [] then []
    else (if IsKeywordChar(Lower(s[0])) then [Lower(s[0])] else []) + KeywordText(s[1..])
  }

  /** `.filter(w => w.length > minLen && !stop.includes(w))`. */
  function FilterWords(ws: seq<string>, minLen: nat, stop: seq<string>): (r: seq<string>)
    ensures forall k :: 0 <= k < |r| ==> |r[k]| > minLen && r[k] !in stop && r[k] in ws
    decreases |ws|
  {
    if ws == [] then []
    else (if |ws[0]| > minLen && ws[0] !in stop then [ws[0]] else []) + FilterWords(ws[1..], minLen, stop)
  }

  /** A word is kept exactly when it occurs in the input and passes the filter. */
  lemma {:induction false} FilterWordsComplete(ws: seq<string>, minLen: nat, stop: seq<string>)
    ensures forall w :: w in FilterWords(ws, minLen, stop) <==> w in ws && |w| > minLen && w !in stop
    decreases |ws|
  {
    if ws != [] {
      FilterWordsComplete(ws[1..], minLen, stop);
      assert forall w :: w in ws <==> w == ws[0] || w in ws[1..];
    }
  }

  /** The kept words come in input order: filtering one more word appends it or nothing. */
  lemma {:induction false} FilterWordsSnoc(ws: seq<string>, w: string, minLen: nat, stop: seq<string>)
    ensures FilterWords(ws + [w], minLen, stop) ==
      FilterWords(ws, minLen, stop) + (if |w| > minLen && w !in stop then [w] else [])
    decreases |ws|
  {
    if ws == [] {
      assert ws + [w] == [w] && [w][1..] == [];
    } else {
      assert (ws + [w])[0] == ws[0] && (ws + [w])[1..] == ws[1..] + [w];
      FilterWordsSnoc(ws[1..], w, minLen, stop);
    }
  }

  function DigitChar(d: nat): (c: char)
    requires d < 10
    ensures IsDigit(c)
  {
    (('0' as int) + d) as char
  }

  /** Decimal rendering of a count, as in a template literal. */
  function NatToString(n: nat): (s: string)
    ensures |s| >= 1
    ensures forall c :: c in s ==> IsDigit(c)
  {
    if n < 10 then [DigitChar(n)] else NatToString(n / 10) + [DigitChar(n % 10)]
  }
}
