/**
 * The small part of Python's `re` module the extractors need, for fixed patterns: a pattern is
 * given as a recogniser `at(k)` that says whether (and with which capture or end) the pattern
 * matches when the regex engine tries it at start position `k`. `re.search` then is "the first
 * start position that matches", and `re.sub(pattern, '', t)` removes the leftmost non-overlapping
 * matches. Recognisers for the recurring sub-patterns (`\b20\d\d\b`, `\d+\s?\d+\s*km`, `.*$`) are
 * here too.
 */
module Scan {
  import opened Wrappers
  import opened Text

  /** The first position in `i..n` where `p` holds. */
  function FindFrom(i: nat, n: nat, p: nat -> bool): (r: Option<nat>)
    ensures r.Some? ==> i <= r.value <= n && p(r.value)
    ensures r.Some? ==> forall k :: i <= k < r.value ==> !p(k)
    ensures r.None? ==> forall k :: i <= k <= n ==> !p(k)
    decreases n + 1 - i
  {
    if i > n then None else if p(i) then Some(i) else FindFrom(i + 1, n, p)
  }

  /** The pattern matches somewhere in `t`: some start position gives a capture. */
  predicate Matches(t: string, at: nat -> Option<string>) {
    exists k | 0 <= k <= |t| :: at(k).Some?
  }

  /** The pattern's leftmost match in `t` starts at `k` and captures `v`. */
  predicate FirstMatch(t: string, at: nat -> Option<string>, k: nat, v: string) {
    k <= |t| && at(k) == Some(v) && forall j :: 0 <= j < k ==> at(j).None?
  }

  /**
   * `re.search(pattern, t).group(1)`, or None when `re.search` returns None: the capture at the
   * leftmost start position where the pattern matches.
   */
  function Search(t: string, at: nat -> Option<string>): (r: Option<string>)
    ensures r.None? <==> !Matches(t, at)
    ensures r.Some? ==> exists k :: FirstMatch(t, at, k, r.value)
  {
    var p := (k: nat) => at(k).Some?;
    match FindFrom(0, |t|, p)
    case None =>
      assert forall k: nat | k <= |t| :: at(k).None? by {
        forall k: nat | k <= |t| ensures at(k).None? { assert !p(k); }
      }
      None
    case Some(k) =>
      assert forall j: nat | j < k :: at(j).None? by {
        forall j: nat | j < k ensures at(j).None? { assert !p(j); }
      }
      assert FirstMatch(t, at, k, at(k).value);
      at(k)
  }

  /**
   * The last position in `lo..hi-1` where `p` holds: the first place a greedy run, giving back
   * one character at a time, lets the rest of the pattern match.
   */
  function FindLast(lo: nat, hi: nat, p: nat -> bool): (r: Option<nat>)
    ensures r.Some? ==> lo <= r.value < hi && p(r.value)
    ensures r.Some? ==> forall k :: r.value < k < hi ==> !p(k)
    ensures r.None? ==> forall k :: lo <= k < hi ==> !p(k)
    decreases hi
  {
    if hi <= lo then None else if p(hi - 1) then Some(hi - 1) else FindLast(lo, hi - 1, p)
  }

  /** Whether the pattern matches anywhere: `re.search(pattern, t)` is truthy. */
  predicate Found(t: string, at: nat -> bool) {
    exists k | 0 <= k <= |t| :: at(k)
  }

  /**
   * `re.sub(pattern, '', t[from:])` where `at(k)` is the end of the match that starts at `k`. After a
   * match the scan resumes at its end; an empty match keeps the character it stands before.
   */
  function SubAll(t: string, at: nat -> Option<nat>, from: nat): (r: string)
    requires from <= |t|
    ensures |r| <= |t| - from
    ensures (forall k :: from <= k <= |t| ==> at(k).None?) ==> r == t[from..]
    decreases |t| - from
  {
    match FindFrom(from, |t|, (k: nat) => at(k).Some?)
    case None => t[from..]
    case Some(i) =>
      if i == |t| then t[from..i]
      else
        var e := at(i).value;
        if i < e then t[from..i] + SubAll(t, at, if e < |t| then e else |t|)
        else t[from..i + 1] + SubAll(t, at, i + 1)
  }

  /** Regex `\b` just before a word character at `k`. */
  predicate BoundaryBefore(t: string, k: nat)
    requires k <= |t|
  {
    k == 0 || !IsWordChar(t[k - 1])
  }

  /** Regex `\b` just after a word character ending at `k`. */
  predicate BoundaryAfter(t: string, k: nat)
    requires k <= |t|
  {
    k == |t| || !IsWordChar(t[k])
  }

  /**
   * `\b(20Xd)\b` at `k`, where the class of the third character is `third`: `\b(20[12]\d)\b` and
   * `\b(20\d{2})\b` in the source. The capture is the four characters.
   */
  function YearAt(t: string, k: nat, third: char -> bool): (r: Option<string>)
    ensures r.Some? ==> k + 4 <= |t| && r.value == t[k..k + 4]
    ensures r.Some? ==> |r.value| == 4 && r.value[0] == '2' && r.value[1] == '0' && third(r.value[2]) && IsDigit(r.value[3])
  {
    if k + 4 <= |t| && t[k] == '2' && t[k + 1] == '0' && third(t[k + 2]) && IsDigit(t[k + 3])
       && BoundaryBefore(t, k) && BoundaryAfter(t, k + 4)
    then Some(t[k..k + 4])
    else None
  }

  /** `\d` as a character class, for `YearAt`. */
  predicate AnyDigit(c: char) {
    IsDigit(c)
  }

  /** `[12]`, for `YearAt`. */
  predicate OneOrTwo(c: char) {
    c == '1' || c == '2'
  }

  /** A four-character year of the form `20` followed by two digits. */
  predicate IsYear(y: string) {
    |y| == 4 && y[0] == '2' && y[1] == '0' && IsDigit(y[2]) && IsDigit(y[3])
  }

  /**
   * A spaced number as the capture `(\d+\s?\d+)` leaves it: at least two characters, a digit at
   * each end, and digits everywhere except for at most one whitespace character.
   */
  predicate IsSpacedNumber(s: string) {
    && |s| >= 2 && IsDigit(s[0]) && IsDigit(s[|s| - 1])
    && forall i | 0 <= i < |s| :: IsDigit(s[i]) || (IsSpace(s[i]) && forall j | 0 <= j < |s| && j != i :: IsDigit(s[j]))
  }

  /**
   * `(\d+\s?\d+)\s*unit` with the capture starting at `j`; `ci` says whether the unit is matched
   * ignoring case. The capture is the first digit run, a whitespace character and the second digit
   * run when those are followed by the unit; otherwise a run of at least two digits directly
   * followed (after whitespace) by the unit.
   */
  function SpacedNumberAt(t: string, j: nat, unit: string, ci: bool): (r: Option<string>)
    ensures r.Some? ==> IsSpacedNumber(r.value)
  {
    var d1 := DigitEnd(t, j);
    if d1 == j then None
    else if d1 + 1 < |t| && IsSpace(t[d1]) && IsDigit(t[d1 + 1])
         && UnitAt(t, WsEnd(t, DigitEnd(t, d1 + 1)), unit, ci) then
      var d2 := DigitEnd(t, d1 + 1);
      SpacedNumberShape(t, j, d1, d2);
      Some(t[j..d2])
    else if d1 - j >= 2 && UnitAt(t, WsEnd(t, d1), unit, ci) then
      Some(t[j..d1])
    else None
  }

  lemma SpacedNumberShape(t: string, j: nat, d1: nat, d2: nat)
    requires j < d1 < d2 <= |t| && d1 + 1 < d2
    requires forall k :: j <= k < d1 ==> IsDigit(t[k])
    requires IsSpace(t[d1])
    requires forall k :: d1 + 1 <= k < d2 ==> IsDigit(t[k])
    ensures IsSpacedNumber(t[j..d2])
  {
    var s := t[j..d2];
    forall i | 0 <= i < |s|
      ensures IsDigit(s[i]) || (IsSpace(s[i]) && forall k | 0 <= k < |s| && k != i :: IsDigit(s[k]))
    {
      if i == d1 - j {
        forall k | 0 <= k < |s| && k != i ensures IsDigit(s[k]) {
          assert s[k] == t[j + k];
        }
      } else {
        assert s[i] == t[j + i];
      }
    }
  }

  predicate UnitAt(t: string, k: nat, unit: string, ci: bool) {
    if ci then StartsAtCI(t, k, unit) else StartsAt(t, k, unit)
  }

  /**
   * Where `.*$` ends when it starts at `p` (no DOTALL, no MULTILINE): `.` stops at the first newline
   * and `$` matches only at the end of the text or just before a final newline, so the match exists
   * only when that first newline is absent or is the last character.
   */
  function DollarEnd(t: string, p: nat): (r: Option<nat>)
    ensures r.Some? ==> p <= r.value <= |t| && (r.value == |t| || (r.value == |t| - 1 && t[r.value] == '\n'))
    ensures r.Some? ==> forall q :: p <= q < r.value ==> t[q] != '\n'
  {
    var q := RunEnd(t, p, NotNewline);
    if q >= |t| then (if p <= |t| then Some(|t|) else None)
    else if q == |t| - 1 then Some(q)
    else None
  }

  predicate NotNewline(c: char) {
    c != '\n'
  }

  /**
   * `\s+(w1|w2|…).*$` tried at `k`, where `ci` says whether the words are matched ignoring case; the
   * value is where the match ends. Every word starts with a non-space character, so the greedy `\s+`
   * never gives any back, and no word holds a line break, so `.*$` ends in the same place
   * whichever word matched: the match exists when some word follows the whitespace and the line it
   * is on is the last one (or is followed only by a final line break).
   */
  function WordTailAt(t: string, k: nat, words: seq<string>, ci: bool): (r: Option<nat>)
    ensures r.Some? ==> k < r.value <= |t|
  {
    if k < |t| && IsSpace(t[k]) && exists i | 0 <= i < |words| :: UnitAt(t, WsEnd(t, k), words[i], ci) then
      DollarEnd(t, WsEnd(t, k))
    else None
  }

  /** `re.sub(r'\s+(w1|w2|…).*$', '', t)`: the clean-up step that cuts a trailing word and the rest of its line. */
  function CutWordTail(t: string, words: seq<string>, ci: bool): (r: string)
    ensures |r| <= |t|
  {
    SubAll(t, (k: nat) => WordTailAt(t, k, words, ci), 0)
  }

  /** `\b(20\d{2})\b` tried at each start position of `t`. */
  function AnyYearProbe(t: string): nat -> Option<string> {
    (k: nat) => YearAt(t, k, AnyDigit)
  }
}
