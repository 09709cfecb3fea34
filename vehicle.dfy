/**
 * What the three vehicle extractors share: the eight-field record they emit, the shape of a
 * Norwegian registration number, the bonus lookup `{reg}:\s*(\d+)%\s*bonus` (the same
 * `_extract_bonus` in every extractor) and the normalisation of a registration captured with
 * whitespace inside it.
 */
module Vehicle {
  import opened Wrappers
  import opened Text
  import opened Scan

  /** One row of the vehicle list, with the eight keys every extractor fills, in the same order. */
  datatype Record = Record(
    registration: string,
    vehicleType: string,
    makeModelYear: string,
    coverage: string,
    leasing: string,
    annualMileage: string,
    bonus: string,
    deductible: string)

  /** Every extractor writes this coverage. */
  const Coverage: string := "kasko"

  /** `[A-Z]{2}\d{5}`: two capital letters and five digits, nothing else. */
  predicate IsRegistration(s: string) {
    |s| == 7 && IsAsciiUpper(s[0]) && IsAsciiUpper(s[1]) && forall i | 2 <= i < 7 :: IsDigit(s[i])
  }

  /** `[A-Z]{2}\s+\d{5}`: the registration as the inline Gjensidige car line writes it. */
  predicate IsSpacedRegistration(s: string) {
    && |s| >= 8 && IsAsciiUpper(s[0]) && IsAsciiUpper(s[1])
    && (forall i | 2 <= i < |s| - 5 :: IsSpace(s[i]))
    && (forall i | |s| - 5 <= i < |s| :: IsDigit(s[i]))
  }

  /** `[A-Z]{2}\s?\d{5}`: the registration as the Gjensidige table sweep captures it. */
  predicate IsTableRegistration(s: string) {
    || IsRegistration(s)
    || (&& |s| == 8 && IsAsciiUpper(s[0]) && IsAsciiUpper(s[1]) && IsSpace(s[2])
        && forall i | 3 <= i < 8 :: IsDigit(s[i]))
  }

  predicate NoWhitespace(s: string) {
    forall i | 0 <= i < |s| :: !IsSpace(s[i])
  }

  /**
   * Every whitespace character removed, every other character kept in order: the normalisation a
   * registration captured by `\s+` or `\s?` needs, and the one this model uses for Gjensidige
   * registrations.
   */
  function RemoveWhitespace(s: string): (r: string)
    ensures |r| <= |s|
  {
    if s == "" then ""
    else if IsSpace(s[0]) then RemoveWhitespace(s[1..])
    else [s[0]] + RemoveWhitespace(s[1..])
  }

  lemma {:induction false} RemoveWhitespaceConcat(a: string, b: string)
    ensures RemoveWhitespace(a + b) == RemoveWhitespace(a) + RemoveWhitespace(b)
    decreases |a|
  {
    if a != "" {
      assert (a + b)[1..] == a[1..] + b;
      RemoveWhitespaceConcat(a[1..], b);
    } else {
      assert a + b == b;
    }
  }

  lemma {:induction false} RemoveWhitespaceClean(s: string)
    ensures NoWhitespace(RemoveWhitespace(s))
  {
    if s != "" {
      RemoveWhitespaceClean(s[1..]);
    }
  }

  lemma {:induction false} RemoveWhitespaceKeeps(s: string)
    requires forall i | 0 <= i < |s| :: !IsSpace(s[i])
    ensures RemoveWhitespace(s) == s
  {
    if s != "" {
      RemoveWhitespaceKeeps(s[1..]);
    }
  }

  lemma {:induction false} RemoveWhitespaceDrops(s: string)
    requires forall i | 0 <= i < |s| :: IsSpace(s[i])
    ensures RemoveWhitespace(s) == ""
  {
    if s != "" {
      RemoveWhitespaceDrops(s[1..]);
    }
  }

  /** Whitespace from `i` up to `mid` disappears. */
  lemma {:induction false} RemoveWhitespaceSkip(s: string, i: nat, mid: nat)
    requires i <= mid <= |s|
    requires forall q | i <= q < mid :: IsSpace(s[q])
    ensures RemoveWhitespace(s[i..]) == RemoveWhitespace(s[mid..])
    decreases mid - i
  {
    if i < mid {
      assert s[i..][1..] == s[i + 1..];
      RemoveWhitespaceSkip(s, i + 1, mid);
    }
  }

  /** Letters, then only whitespace up to `mid`, then digits: whitespace removal leaves letters and digits. */
  lemma {:induction false} RemoveWhitespaceAround(s: string, mid: nat)
    requires 2 <= mid <= |s|
    requires forall i | 0 <= i < 2 :: !IsSpace(s[i])
    requires forall i | 2 <= i < mid :: IsSpace(s[i])
    requires forall i | mid <= i < |s| :: !IsSpace(s[i])
    ensures RemoveWhitespace(s) == s[..2] + s[mid..]
  {
    var tail := s[mid..];
    forall q | 0 <= q < |tail| ensures !IsSpace(tail[q]) {
      assert tail[q] == s[mid + q];
    }
    RemoveWhitespaceKeeps(tail);
    RemoveWhitespaceSkip(s, 2, mid);
    assert s[1..][1..] == s[2..];
    assert RemoveWhitespace(s[1..]) == [s[1]] + tail;
    assert s[..2] + tail == [s[0]] + ([s[1]] + tail);
  }

  /**
   * The normalised key of a captured registration is its two letters followed by its five digits,
   * whatever whitespace separated them, so it is a registration and two ways of writing the same
   * plate get the same key.
   */
  lemma {:induction false} NormalizeRegistration(s: string)
    requires IsSpacedRegistration(s) || IsTableRegistration(s)
    ensures RemoveWhitespace(s) == s[..2] + s[|s| - 5..]
    ensures IsRegistration(RemoveWhitespace(s))
  {
    var mid := |s| - 5;
    RemoveWhitespaceAround(s, mid);
    var r := s[..2] + s[mid..];
    assert forall i | 2 <= i < 7 :: r[i] == s[mid + i - 2];
  }

  /** A string with whitespace in it is not a registration. */
  lemma WhitespaceIsNoRegistration(r: string, j: nat)
    requires j < |r| && IsSpace(r[j])
    ensures !IsRegistration(r)
  {
  }

  /** `replace(" ", "")` keeps every character other than the ASCII space. */
  lemma {:induction false} RemoveSpacesKeeps(s: string, i: nat)
    requires i < |s| && s[i] != ' '
    ensures s[i] in RemoveSpaces(s)
    decreases i
  {
    if i > 0 {
      RemoveSpacesKeeps(s[1..], i - 1);
      assert s[1..][i - 1] == s[i];
    }
  }

  /** Every whitespace character of `s` is an ASCII space. */
  predicate OnlySpaces(s: string) {
    forall i | 0 <= i < |s| :: IsSpace(s[i]) ==> s[i] == ' '
  }

  /**
   * On a string whose only whitespace is spaces, `replace(" ", "")` and removing all whitespace
   * agree: the two normalisations differ only on line breaks, tabs and other non-space whitespace.
   */
  lemma {:induction false} RemoveSpacesAgrees(s: string)
    requires OnlySpaces(s)
    ensures RemoveSpaces(s) == RemoveWhitespace(s)
  {
    if s != "" {
      assert OnlySpaces(s[1..]) by {
        forall i | 0 <= i < |s[1..]| ensures IsSpace(s[1..][i]) ==> s[1..][i] == ' ' {
          assert s[1..][i] == s[i + 1];
        }
      }
      RemoveSpacesAgrees(s[1..]);
    }
  }

  /**
   * The as-written normalisation `reg.replace(" ", "")` of a registration that `\s+` captured with
   * a line break, tab or other non-space whitespace inside it keeps that character, so the key is
   * not a registration (and differs from the key of the same plate written with a space); removing
   * all whitespace gives a registration.
   */
  lemma {:induction false} SpaceOnlyNormalizationKeepsWhitespace(s: string)
    requires IsSpacedRegistration(s)
    requires exists i :: 2 <= i < |s| - 5 && s[i] != ' '
    ensures !IsRegistration(RemoveSpaces(s))
    ensures IsRegistration(RemoveWhitespace(s))
  {
    var i :| 2 <= i < |s| - 5 && s[i] != ' ';
    RemoveSpacesKeeps(s, i);
    var r := RemoveSpaces(s);
    var j :| 0 <= j < |r| && r[j] == s[i];
    WhitespaceIsNoRegistration(r, j);
    NormalizeRegistration(s);
  }

  /** "BU\n21895", a plate split over two lines, is such a capture. */
  lemma LineBrokenRegistration()
    ensures IsSpacedRegistration("BU\n21895") && "BU\n21895"[2] != ' '
  {
  }

  /** A formatted bonus: empty, or a non-empty digit string followed by `%`. */
  predicate IsBonus(s: string) {
    s == "" || (|s| >= 2 && s[|s| - 1] == '%' && AllDigits(s[..|s| - 1]))
  }

  /**
   * `{reg}:\s*(\d+)%\s*bonus` with IGNORECASE tried at `k`; the capture is the digit run. The
   * greedy `\s*` and `\d+` never need to give characters back: a shorter run would leave a
   * whitespace character or a digit where `\d`, `%` or `b` is needed.
   */
  function BonusAt(text: string, reg: string, k: nat): (r: Option<string>)
    ensures r.Some? ==> r.value != "" && AllDigits(r.value) && StartsAtCI(text, k, reg + ":")
  {
    if !StartsAtCI(text, k, reg + ":") then None
    else
      var a := WsEnd(text, k + |reg| + 1);
      var d := DigitEnd(text, a);
      if a < d < |text| && text[d] == '%' && StartsAtCI(text, WsEnd(text, d + 1), "bonus") then
        Some(text[a..d])
      else None
  }

  /** `re.search(rf'{reg}:\s*(\d+)%\s*bonus', text, re.I)` tried at each start position. */
  function BonusProbe(text: string, reg: string): nat -> Option<string> {
    (k: nat) => BonusAt(text, reg, k)
  }

  /** `_extract_bonus`: the first bonus figure for `reg` followed by `%`, or `""`. */
  function Bonus(text: string, reg: string): string {
    match Search(text, BonusProbe(text, reg))
    case None => ""
    case Some(d) => d + "%"
  }

  /**
   * The bonus is a digit string followed by `%`, taken from the first `{reg}: N% bonus` in the
   * whole text, and `""` exactly when the text has none for `reg`.
   */
  lemma BonusSpec(text: string, reg: string)
    ensures var r := Bonus(text, reg);
      && IsBonus(r)
      && (r == "" <==> !Matches(text, BonusProbe(text, reg)))
      && (r != "" ==> exists k, d :: FirstMatch(text, BonusProbe(text, reg), k, d) && r == d + "%")
  {
    var at := BonusProbe(text, reg);
    match Search(text, at)
    case None =>
    case Some(d) =>
      var k :| FirstMatch(text, at, k, d);
      assert BonusAt(text, reg, k) == Some(d);
      assert (d + "%")[..|d|] == d;
      assert FirstMatch(text, at, k, d) && Bonus(text, reg) == d + "%";
  }
}
