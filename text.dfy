/**
 * Python 3 `str` behaviour that the extractors and getters rely on, over the Latin-1 range:
 * whitespace (`str.isspace`, regex `\s`), ASCII digits (regex `\d`), word characters (regex `\w`),
 * `str.isupper` on one character, `str.lower`, `strip`, `split('\n')`, `join`, substring tests
 * and slicing with Python's clipping of out-of-range bounds.
 */
module Text {

  /** `c.isspace()`, which is also what the regex class `\s` matches. */
  predicate IsSpace(c: char) {
    ('\t' <= c <= '\r') || ('\U{1C}' <= c <= ' ') || c == '\U{85}' || c == '\U{A0}'
  }

  /** Regex `\d`, restricted to the ASCII digits. */
  predicate IsDigit(c: char) {
    '0' <= c <= '9'
  }

  /** Regex `[A-Z]` without the IGNORECASE flag. */
  predicate IsAsciiUpper(c: char) {
    'A' <= c <= 'Z'
  }

  /** `c.isupper()` for a single Latin-1 character: an upper-case letter. */
  predicate IsUpper(c: char) {
    IsAsciiUpper(c) || ('\U{C0}' <= c <= '\U{DE}' && c != '\U{D7}')
  }

  /** Regex `\w`: letters, digits (including the Latin-1 numeric signs) and the underscore. */
  predicate IsWordChar(c: char) {
    || 'a' <= c <= 'z' || IsAsciiUpper(c) || IsDigit(c) || c == '_'
    || c == '\U{AA}' || c == '\U{B2}' || c == '\U{B3}' || c == '\U{B5}' || c == '\U{B9}' || c == '\U{BA}'
    || ('\U{BC}' <= c <= '\U{BE}') || ('\U{C0}' <= c <= '\U{FF}' && c != '\U{D7}' && c != '\U{F7}')
  }

  /** `c.lower()` on one Latin-1 character. */
  function Lower(c: char): (r: char)
    ensures IsUpper(c) ==> r as int == c as int + 32 && !IsUpper(r)
    ensures !IsUpper(c) ==> r == c
  {
    if IsUpper(c) then (c as int + 32) as char else c
  }

  /** `s.lower()`. */
  function LowerStr(s: string): (r: string)
    ensures |r| == |s|
    ensures forall i :: 0 <= i < |s| ==> r[i] == Lower(s[i])
  {
    seq(|s|, i requires 0 <= i < |s| => Lower(s[i]))
  }

  /** Python's `t[a:b]` for non-negative bounds: out-of-range bounds are clipped, never an error. */
  function Slice(t: string, a: nat, b: nat): (r: string)
    ensures |r| <= |t|
    ensures a <= b <= |t| ==> r == t[a..b]
    ensures a >= |t| || b <= a ==> r == ""
  {
    var lo := if a < |t| then a else |t|;
    var hi := if b < |t| then b else |t|;
    if lo < hi then t[lo..hi] else ""
  }

  /** `t[k:].startswith(lit)`: the literal occurs at position `k`. */
  predicate StartsAt(t: string, k: nat, lit: string) {
    k + |lit| <= |t| && t[k..k + |lit|] == lit
  }

  /** The literal occurs at position `k` when case is ignored (a pattern compiled with IGNORECASE). */
  predicate StartsAtCI(t: string, k: nat, lit: string) {
    k + |lit| <= |t| && LowerStr(t[k..k + |lit|]) == LowerStr(lit)
  }

  /** `sub in s`: a case-sensitive substring test. */
  predicate Contains(s: string, sub: string) {
    exists k | 0 <= k <= |s| :: StartsAt(s, k, sub)
  }

  /**
   * The end of the longest run of characters satisfying `p` that starts at `i`; a greedy `p*` in a
   * regex. Positions past the end are returned unchanged.
   */
  function RunEnd(t: string, i: nat, p: char -> bool): (r: nat)
    ensures i <= r && (i <= |t| ==> r <= |t|)
    ensures forall k :: i <= k < r ==> k < |t| && p(t[k])
    ensures r < |t| ==> !p(t[r])
    decreases |t| - i
  {
    if i < |t| && p(t[i]) then RunEnd(t, i + 1, p) else i
  }

  /** End of the whitespace run at `i`: the greedy `\s*`. */
  function WsEnd(t: string, i: nat): (r: nat)
    ensures i <= r && (i <= |t| ==> r <= |t|)
    ensures forall k :: i <= k < r ==> k < |t| && IsSpace(t[k])
    ensures r < |t| ==> !IsSpace(t[r])
  {
    RunEnd(t, i, IsSpace)
  }

  /** End of the digit run at `i`: the greedy `\d*`. */
  function DigitEnd(t: string, i: nat): (r: nat)
    ensures i <= r && (i <= |t| ==> r <= |t|)
    ensures forall k :: i <= k < r ==> k < |t| && IsDigit(t[k])
    ensures r < |t| ==> !IsDigit(t[r])
  {
    RunEnd(t, i, IsDigit)
  }

  predicate AllDigits(s: string) {
    forall i :: 0 <= i < |s| ==> IsDigit(s[i])
  }

  /** No whitespace at either end: what `strip()` leaves. */
  predicate Stripped(s: string) {
    s == "" || (!IsSpace(s[0]) && !IsSpace(s[|s| - 1]))
  }

  /**
   * Where the trailing whitespace of `s[lo..hi]` begins: `s[..hi].rstrip()` cut off at `lo`.
   */
  function TrailStart(s: string, lo: nat, hi: nat): (r: nat)
    requires lo <= hi <= |s|
    ensures lo <= r <= hi
    ensures forall i :: r <= i < hi ==> IsSpace(s[i])
    ensures r > lo ==> !IsSpace(s[r - 1])
    decreases hi
  {
    if hi > lo && IsSpace(s[hi - 1]) then TrailStart(s, lo, hi - 1) else hi
  }

  /**
   * `s.strip()`: the slice of `s` between its leading and its trailing whitespace. It has no
   * whitespace at either end, it is empty exactly when `s` is all whitespace, and it is `s` itself
   * when `s` has no outer whitespace.
   */
  function Strip(s: string): (r: string)
    ensures Stripped(r)
    ensures WsEnd(s, 0) + |r| <= |s| && r == s[WsEnd(s, 0)..WsEnd(s, 0) + |r|]
    ensures forall i :: WsEnd(s, 0) + |r| <= i < |s| ==> IsSpace(s[i])
    ensures r == "" <==> forall i :: 0 <= i < |s| ==> IsSpace(s[i])
    ensures Stripped(s) ==> r == s
  {
    var lo := WsEnd(s, 0);
    var hi := TrailStart(s, lo, |s|);
    assert Stripped(s) && s != "" ==> lo == 0 && hi == |s|;
    s[lo..hi]
  }

  /** `s.replace(" ", "")`: every ASCII space removed, every other character kept in order. */
  function RemoveSpaces(s: string): (r: string)
    ensures ' ' !in r
    ensures |r| <= |s|
    ensures ' ' !in s ==> r == s
  {
    if s == "" then ""
    else if s[0] == ' ' then RemoveSpaces(s[1..])
    else [s[0]] + RemoveSpaces(s[1..])
  }

  /** `s.split('\n')`: the pieces between newlines; always at least one piece. */
  function SplitLines(s: string): (r: seq<string>)
    ensures |r| >= 1
    ensures forall i :: 0 <= i < |r| ==> '\n' !in r[i]
  {
    if s == "" then [""]
    else
      var rest := SplitLines(s[1..]);
      if s[0] == '\n' then [""] + rest else [[s[0]] + rest[0]] + rest[1..]
  }

  /** `sep.join(parts)`. */
  function Join(sep: string, parts: seq<string>): string {
    if parts == [] then ""
    else if |parts| == 1 then parts[0]
    else parts[0] + sep + Join(sep, parts[1..])
  }

  /** Splitting at newlines and joining with newlines gives the text back. */
  lemma {:induction false} JoinSplitLines(s: string)
    ensures Join("\n", SplitLines(s)) == s
  {
    if s != "" {
      var rest := SplitLines(s[1..]);
      JoinSplitLines(s[1..]);
      if s[0] == '\n' {
        assert SplitLines(s) == [""] + rest;
      } else {
        assert SplitLines(s) == [[s[0]] + rest[0]] + rest[1..];
        if |rest| > 1 {
          assert rest == [rest[0]] + rest[1..];
        }
      }
    }
  }

  /** The digit string of a natural number, as `str(n)` writes it. */
  function NatToString(n: nat): (r: string)
    ensures |r| >= 1 && AllDigits(r)
    ensures |r| > 1 ==> r[0] != '0'
  {
    if n < 10 then [DigitChar(n)] else NatToString(n / 10) + [DigitChar(n % 10)]
  }

  function DigitChar(d: nat): (c: char)
    requires d < 10
    ensures IsDigit(c) && c as int - '0' as int == d
  {
    ('0' as int + d) as char
  }

  /** `str(i)` for a Python integer. */
  function IntToString(i: int): (r: string)
    ensures r != ""
    ensures i >= 0 ==> AllDigits(r)
    ensures i < 0 ==> r[0] == '-' && AllDigits(r[1..])
  {
    if i < 0 then "-" + NatToString(-i) else NatToString(i)
  }
}
