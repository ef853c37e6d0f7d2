/**
 * The three regular expressions of the signal extractors, each written as a
 * matcher that tries one start position (as the regular-expression engine
 * does) and a global scan that restarts after every match, as `String.match`
 * with the `g` flag does.
 *
 * - Money:   `/\$[\d,.]+\s*(billion|million|B|M|trillion|T)/gi`
 * - Percent: `/(\d+(?:\.\d+)?)\s*%/g`
 * - CapWord: `/\b[A-Z][a-z]+(?:\.[a-z]+)?\b/g`
 *
 * Backtracking never changes a result here: every unit starts with a letter,
 * which neither `[\d,.]` nor `\s` matches, so the greedy runs are the only
 * ones that can be followed by a unit, a `%` or a word boundary.
 */
module Patterns {
  import opened Wrappers
  import opened Text

  datatype Pattern = Money | Percent | CapWord

  /** The end of the longest run of characters satisfying `p` from `i`. */
  function SkipWhile(s: string, i: nat, p: char -> bool): (j: nat)
    requires i <= |s|
    ensures i <= j <= |s|
    ensures forall k :: i <= k < j ==> p(s[k])
    ensures j == |s| || !p(s[j])
    decreases |s| - i
  {
    if i < |s| && p(s[i]) then SkipWhile(s, i + 1, p) else i
  }

  predicate IsAmountChar(c: char) { IsDigit(c) || c == ',' || c == '.' }

  /** The alternatives of the money unit group, in the order they are tried. */
  const MONEY_UNITS: seq<string> := ["billion", "million", "B", "M", "trillion", "T"]

  /** `u` occurs at `k` in `s`, ignoring case (the `i` flag). */
  predicate MatchesAt(s: string, k: nat, u: string) {
    k + |u| <= |s| && forall j :: 0 <= j < |u| ==> Lower(s[k + j]) == Lower(u[j])
  }

  /** The first alternative of `units[n..]` that matches at `k`. */
  function FirstUnitFrom(s: string, k: nat, n: nat): (r: Option<nat>)
    requires n <= |MONEY_UNITS|
    ensures r.Some? ==> n <= r.value < |MONEY_UNITS| && MatchesAt(s, k, MONEY_UNITS[r.value])
    decreases |MONEY_UNITS| - n
  {
    if n == |MONEY_UNITS| then None
    else if MatchesAt(s, k, MONEY_UNITS[n]) then Some(n)
    else FirstUnitFrom(s, k, n + 1)
  }

  function MoneyAt(s: string, i: nat): (r: Option<nat>)
    requires i <= |s|
    ensures r.Some? ==> i < r.value <= |s|
  {
    if i < |s| && s[i] == '$' then
      var j := SkipWhile(s, i + 1, IsAmountChar);
      if j == i + 1 then None
      else
        var k := SkipWhile(s, j, IsSpace);
        match FirstUnitFrom(s, k, 0)
        case Some(n) => Some(k + |MONEY_UNITS[n]|)
        case None => None
    else None
  }

  function PercentAt(s: string, i: nat): (r: Option<nat>)
    requires i <= |s|
    ensures r.Some? ==> i < r.value <= |s|
  {
    if i < |s| && IsDigit(s[i]) then
      var j := SkipWhile(s, i, IsDigit);
      var f := if j + 1 < |s| && s[j] == '.' && IsDigit(s[j + 1]) then SkipWhile(s, j + 1, IsDigit) else j;
      var k := SkipWhile(s, f, IsSpace);
      if k < |s| && s[k] == '%' then Some(k + 1) else None
    else None
  }

  /** `\b` just after a word character at position `r - 1`. */
  predicate WordEndsAt(s: string, r: nat) {
    r == |s| || (r < |s| && !IsWordChar(s[r]))
  }

  function CapWordAt(s: string, i: nat): (r: Option<nat>)
    requires i <= |s|
    ensures r.Some? ==> i < r.value <= |s|
  {
    if i + 1 < |s| && IsUpper(s[i]) && IsLower(s[i + 1]) && (i == 0 || !IsWordChar(s[i - 1])) then
      var q := SkipWhile(s, i + 1, IsLower);
      if q + 1 < |s| && s[q] == '.' && IsLower(s[q + 1]) && WordEndsAt(s, SkipWhile(s, q + 1, IsLower)) then
        Some(SkipWhile(s, q + 1, IsLower))
      else if WordEndsAt(s, q) then Some(q)
      else None
    else None
  }

  /** The end of the match of `p` starting exactly at `i`, if any. */
  function MatchAt(p: Pattern, s: string, i: nat): (r: Option<nat>)
    requires i <= |s|
    ensures r.Some? ==> i < r.value <= |s|
  {
    match p
    case Money => MoneyAt(s, i)
    case Percent => PercentAt(s, i)
    case CapWord => CapWordAt(s, i)
  }

  /** Global matching from position `i`: every non-overlapping match, left to right. */
  function ScanFrom(p: Pattern, s: string, i: nat): seq<string>
    requires i <= |s|
    decreases |s| - i
  {
    if i == |s| then []
    else
      match MatchAt(p, s, i)
      case Some(e) => [s[i..e]] + ScanFrom(p, s, e)
      case None => ScanFrom(p, s, i + 1)
  }

  /** `s.match(p) || []`. */
  function AllMatches(p: Pattern, s: string): seq<string> {
    ScanFrom(p, s, 0)
  }

  /** Every character of `m[lo..hi]` satisfies `p`. */
  predicate Run(m: string, lo: nat, hi: nat, p: char -> bool)
    requires lo <= hi <= |m|
  {
    forall t :: lo <= t < hi ==> p(m[t])
  }

  /** The shape every match of each pattern has, read off the regular expression. */
  predicate Shaped(p: Pattern, m: string) {
    match p
    case Money => exists n, j, k | 0 <= n < |MONEY_UNITS| && 0 <= j <= |m| && 0 <= k <= |m| :: MoneySplit(m, n, j, k)
    case Percent => exists j, f, k | 0 <= j <= |m| && 0 <= f <= |m| && 0 <= k <= |m| :: PercentSplit(m, j, f, k)
    case CapWord => exists q | 0 <= q <= |m| :: CapWordSplit(m, q)
  }

  /**
   * `\$[\d,.]+\s*(unit)` with split points: `$`, amount characters in `m[1..j]`
   * (at least one), spaces in `m[j..k]`, then alternative `n` of the unit group
   * ignoring case, ending the match.
   */
  predicate MoneySplit(m: string, n: int, j: int, k: int) {
    0 <= n < |MONEY_UNITS| && 2 <= j <= k && k + |MONEY_UNITS[n]| == |m| &&
    m[0] == '$' && Run(m, 1, j, IsAmountChar) && Run(m, j, k, IsSpace) &&
    MatchesAt(m, k, MONEY_UNITS[n])
  }

  /**
   * `\d+(?:\.\d+)?\s*%` with split points: digits in `m[..j]` (at least one),
   * then either nothing (`f == j`) or a `.` and at least one digit up to `f`,
   * spaces in `m[f..k]`, and `%` as the last character.
   */
  predicate PercentSplit(m: string, j: int, f: int, k: int) {
    1 <= j <= f <= k && k + 1 == |m| && m[k] == '%' &&
    Run(m, 0, j, IsDigit) &&
    (f == j || (j + 2 <= f && m[j] == '.' && Run(m, j + 1, f, IsDigit))) &&
    Run(m, f, k, IsSpace)
  }

  /**
   * `[A-Z][a-z]+(?:\.[a-z]+)?` with a split point: a capital, lower-case
   * letters in `m[1..q]` (at least one), then either the end or a single `.`
   * followed by at least one lower-case letter up to the end.
   */
  predicate CapWordSplit(m: string, q: int) {
    2 <= q <= |m| && IsUpper(m[0]) && Run(m, 1, q, IsLower) &&
    (q == |m| || (q + 2 <= |m| && m[q] == '.' && Run(m, q + 1, |m|, IsLower)))
  }

  lemma MoneyAtShaped(s: string, i: nat)
    requires i <= |s| && MoneyAt(s, i).Some?
    ensures Shaped(Money, s[i..MoneyAt(s, i).value])
  {
    var j := SkipWhile(s, i + 1, IsAmountChar);
    var k := SkipWhile(s, j, IsSpace);
    assert s[i] == '$' && j != i + 1;
    assert FirstUnitFrom(s, k, 0).Some?;
    var n := FirstUnitFrom(s, k, 0).value;
    var u := MONEY_UNITS[n];
    assert MoneyAt(s, i).value == k + |u|;
    MoneySplitAt(s, i, j, k, n);
    assert MoneySplit(s[i..k + |u|], n, j - i, k - i);
  }

  /** `$`, amount characters up to `j`, spaces up to `k`, then unit `n`: a split money match. */
  lemma MoneySplitAt(s: string, i: nat, j: nat, k: nat, n: nat)
    requires i < |s| && s[i] == '$' && i + 1 < j <= k
    requires n < |MONEY_UNITS| && MatchesAt(s, k, MONEY_UNITS[n])
    requires forall t :: i < t < j ==> IsAmountChar(s[t])
    requires forall t :: j <= t < k ==> IsSpace(s[t])
    ensures MoneySplit(s[i..k + |MONEY_UNITS[n]|], n, j - i, k - i)
  {
    var u := MONEY_UNITS[n];
    var m := s[i..k + |u|];
    assert MatchesAt(m, k - i, u) by {
      forall t | 0 <= t < |u| ensures Lower(m[k - i + t]) == Lower(u[t]) {
        assert m[k - i + t] == s[k + t];
      }
    }
    forall t | 1 <= t < j - i ensures IsAmountChar(m[t]) {
      assert m[t] == s[i + t];
    }
    forall t | j - i <= t < k - i ensures IsSpace(m[t]) {
      assert m[t] == s[i + t];
    }
  }

  lemma PercentAtShaped(s: string, i: nat)
    requires i <= |s| && PercentAt(s, i).Some?
    ensures Shaped(Percent, s[i..PercentAt(s, i).value])
  {
    var j := SkipWhile(s, i, IsDigit);
    var f := if j + 1 < |s| && s[j] == '.' && IsDigit(s[j + 1]) then SkipWhile(s, j + 1, IsDigit) else j;
    var k := SkipWhile(s, f, IsSpace);
    var m := s[i..k + 1];
    forall t | 0 <= t < j - i ensures IsDigit(m[t]) {
      assert m[t] == s[i + t];
    }
    if f != j {
      assert m[j - i] == s[j];
      forall t | j - i + 1 <= t < f - i ensures IsDigit(m[t]) {
        assert m[t] == s[i + t];
      }
    }
    forall t | f - i <= t < k - i ensures IsSpace(m[t]) {
      assert m[t] == s[i + t];
    }
    assert PercentSplit(m, j - i, f - i, k - i);
  }

  /**
   * A capitalised-word match has the regular expression's shape, and the
   * `\b` on either side holds: no word character just before or just after it.
   */
  lemma CapWordAtShaped(s: string, i: nat)
    requires i <= |s| && CapWordAt(s, i).Some?
    ensures Shaped(CapWord, s[i..CapWordAt(s, i).value])
    ensures (i == 0 || !IsWordChar(s[i - 1])) && WordEndsAt(s, CapWordAt(s, i).value)
  {
    var q := SkipWhile(s, i + 1, IsLower);
    var e := CapWordAt(s, i).value;
    var m := s[i..e];
    forall t | 1 <= t < q - i ensures IsLower(m[t]) {
      assert m[t] == s[i + t];
    }
    if e != q {
      assert m[q - i] == s[q];
      forall t | q - i + 1 <= t < |m| ensures IsLower(m[t]) {
        assert m[t] == s[i + t];
      }
    }
    assert CapWordSplit(m, q - i);
  }

  /** A space inside the digits is no percent match: the digit run must come first, whole. */
  lemma PercentRejectsInnerSpace()
    ensures !Shaped(Percent, "1 2.%")
  {
    var m := "1 2.%";
    forall j, f, k | 0 <= j <= |m| && 0 <= f <= |m| && 0 <= k <= |m| ensures !PercentSplit(m, j, f, k) {
      assert !IsDigit(m[1]) && !IsSpace(m[2]) && m[1] != '.';
    }
  }

  /** Spaces before the amount is finished are no money match: `\s*` only follows the amount. */
  lemma MoneyRejectsInnerSpace()
    ensures !Shaped(Money, "$1 2 ,B")
  {
    var m := "$1 2 ,B";
    forall n, j, k | 0 <= n < |MONEY_UNITS| && 0 <= j <= |m| && 0 <= k <= |m| ensures !MoneySplit(m, n, j, k) {
      assert !IsAmountChar(m[2]) && !IsSpace(m[3]);
    }
  }

  lemma {:induction false} ScanFromSound(p: Pattern, s: string, i: nat)
    requires i <= |s|
    ensures forall m :: m in ScanFrom(p, s, i) ==> Shaped(p, m) && Contains(s, m)
    decreases |s| - i
  {
    if i < |s| {
      match MatchAt(p, s, i)
      case Some(e) =>
        ScanFromSound(p, s, e);
        match p {
          case Money => MoneyAtShaped(s, i);
          case Percent => PercentAtShaped(s, i);
          case CapWord => CapWordAtShaped(s, i);
        }
        ContainsSlice(s, i, e);
      case None =>
        ScanFromSound(p, s, i + 1);
    }
  }

  /** Every match has the pattern's shape and is a substring of the scanned text. */
  lemma AllMatchesSound(p: Pattern, s: string)
    ensures forall m :: m in AllMatches(p, s) ==> Shaped(p, m) && Contains(s, m)
  {
    ScanFromSound(p, s, 0);
  }
}
