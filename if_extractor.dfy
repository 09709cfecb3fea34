/**
 * The If Skadeforsikring extractor. Each vehicle block starts with a header line
 * `AB12345, Varebil, VOLKSWAGEN`; the model name is on one of the next lines and the other fields
 * (`Årsmodell:`, `Kjørelengde:`, `Egenandel ...`, `Tredjemannsinteresse/leasing:`) follow within
 * the next 1500 characters. Bonuses are listed elsewhere as `AB12345: 60% bonus`.
 *
 * The header matches of `re.finditer` are the input; everything after matching is modelled: the
 * deduplication by registration, the section window, the model-line scanner, the field enrichers
 * with their priorities and defaults, and the record assembly.
 */
module IfExtractor {
  import opened Wrappers
  import opened Text
  import opened Scan
  import opened Dedup
  import opened Vehicle

  /**
   * One match of `([A-Z]{2}\d{5}),\s*(Varebil|...|Tilhenger),\s*([A-Z][A-Z\s\-]+?)(?:\n|$)`: its
   * three captures and the position where the match starts.
   */
  datatype Header = Header(reg: string, vtype: string, make: string, pos: nat)

  /** The vehicle type words the header pattern accepts. */
  const VehicleTypes: seq<string> := ["Varebil", "Personbil", "Lastebil", "Moped", "Traktor", "Båt", "Tilhenger"]

  /** What the header pattern guarantees about a match in `text`. */
  predicate WellFormed(text: string, h: Header) {
    IsRegistration(h.reg) && h.vtype in VehicleTypes && h.pos <= |text|
  }

  /** The field names that end the search for a model line, as they appear after `lower()`. */
  const FieldKeywords: seq<string> := ["årsmodell", "kommune", "kjørelengde", "kasko", "egenandel", "motor"]

  /** `re.match(r'[A-Z]{2}\d{5}', line)`: the line begins with a registration. */
  predicate StartsWithRegistration(line: string) {
    |line| >= 7 && IsRegistration(line[..7])
  }

  predicate HasFieldKeyword(line: string) {
    exists i | 0 <= i < |FieldKeywords| :: Contains(LowerStr(line), FieldKeywords[i])
  }

  /** A stripped line that stops the scan: it begins with a registration or names a field. */
  predicate StopsScan(line: string) {
    StartsWithRegistration(line) || HasFieldKeyword(line)
  }

  /** A stripped line that the scan returns as the model. */
  predicate IsModelLine(line: string, stops: string -> bool) {
    line != "" && !stops(line) && IsUpper(line[0])
  }

  /** A stripped line that the scan passes over: blank, or not starting with a capital letter. */
  predicate PassedOver(line: string, stops: string -> bool) {
    line == "" || (!stops(line) && !IsUpper(line[0]))
  }

  /** Every line stripped. */
  function StripAll(lines: seq<string>): (r: seq<string>)
    ensures |r| == |lines| && forall i :: 0 <= i < |lines| ==> r[i] == Strip(lines[i])
  {
    seq(|lines|, i requires 0 <= i < |lines| => Strip(lines[i]))
  }

  /**
   * The scan of `_extract_model` over the stripped lines `lines[i..hi]`, stopping at a non-blank
   * line that `stops` accepts.
   */
  function ScanModel(lines: seq<string>, i: nat, hi: nat, stops: string -> bool): string
    requires hi <= |lines|
    decreases hi - i
  {
    if i >= hi then ""
    else
      var line := lines[i];
      if line == "" then ScanModel(lines, i + 1, hi, stops)
      else if stops(line) then ""
      else if IsUpper(line[0]) then line
      else ScanModel(lines, i + 1, hi, stops)
  }

  /** The model name `_extract_model` finds in a section: it looks at lines 1 to 4 only. */
  function ModelOf(section: string): string {
    var lines := SplitLines(section);
    ScanModel(StripAll(lines), 1, if |lines| < 5 then |lines| else 5, StopsScan)
  }

  /**
   * The scan returns the first model line among `lines[i..hi]` when only passed-over lines come
   * before it, and `""` otherwise: it never looks past a stop line.
   */
  lemma {:induction false} ScanModelSpec(lines: seq<string>, i: nat, hi: nat, stops: string -> bool)
    requires hi <= |lines|
    ensures var r := ScanModel(lines, i, hi, stops);
      && (r != "" ==>
            exists j :: i <= j < hi && r == lines[j] && IsModelLine(r, stops)
                        && forall j' :: i <= j' < j ==> PassedOver(lines[j'], stops))
      && (r == "" ==>
            forall j :: i <= j < hi && (forall j' :: i <= j' < j ==> PassedOver(lines[j'], stops)) ==>
                          !IsModelLine(lines[j], stops))
    decreases hi - i
  {
    if i < hi {
      ScanModelSpec(lines, i + 1, hi, stops);
      var line := lines[i];
      var r := ScanModel(lines, i, hi, stops);
      if PassedOver(line, stops) {
        assert r == ScanModel(lines, i + 1, hi, stops);
        if r != "" {
          var j :| i + 1 <= j < hi && r == lines[j] && IsModelLine(r, stops)
                   && forall j' :: i + 1 <= j' < j ==> PassedOver(lines[j'], stops);
          assert forall j' :: i <= j' < j ==> PassedOver(lines[j'], stops);
        } else {
          forall j | i <= j < hi && (forall j' :: i <= j' < j ==> PassedOver(lines[j'], stops))
            ensures !IsModelLine(lines[j], stops)
          {
            if j > i {
              assert forall j' :: i + 1 <= j' < j ==> PassedOver(lines[j'], stops);
            }
          }
        }
      } else if stops(line) {
        assert r == "";
        forall j | i <= j < hi && (forall j' :: i <= j' < j ==> PassedOver(lines[j'], stops))
          ensures !IsModelLine(lines[j], stops)
        {
          assert j == i;
        }
      } else {
        assert r == line && IsModelLine(line, stops);
      }
    }
  }

  /**
   * `_extract_model`: the loop over the four lines after the header, with its `continue` on a blank
   * line, its `break` on a registration or field-name line and its early return of the first line
   * that starts with a capital letter.
   */
  method ExtractModel(section: string) returns (model: string)
    ensures model == ModelOf(section)
  {
    var lines := SplitLines(section);
    var hi := if |lines| < 5 then |lines| else 5;
    var i := 1;
    while i < hi
      invariant 1 <= i <= hi
      invariant ScanModel(StripAll(lines), i, hi, StopsScan) == ModelOf(section)
      decreases hi - i
    {
      var line := Strip(lines[i]);
      if line == "" {
        i := i + 1;
        continue;
      }
      if StartsWithRegistration(line) {
        break;
      }
      if HasFieldKeyword(line) {
        break;
      }
      if IsUpper(line[0]) {
        return line;
      }
      i := i + 1;
    }
    return "";
  }

  /** `Årsmodell:\s*(\d{4})` at `k`; `\s*` never gives characters back, since `\d` cannot match them. */
  function LabelledYearAt(t: string, k: nat): (r: Option<string>)
    ensures r.Some? ==> |r.value| == 4 && AllDigits(r.value)
  {
    var tag := "Årsmodell:";
    if !StartsAt(t, k, tag) then None
    else
      var a := WsEnd(t, k + |tag|);
      if a + 4 <= |t| && AllDigits(t[a..a + 4]) then Some(t[a..a + 4]) else None
  }

  /** `re.search(r'Årsmodell:\s*(\d{4})', section)` tried at each start position. */
  function LabelledYearProbe(section: string): nat -> Option<string> {
    (k: nat) => LabelledYearAt(section, k)
  }

  /** `re.search(r'\b(20[12]\d)\b', section)` tried at each start position. */
  function BareYearProbe(section: string): nat -> Option<string> {
    (k: nat) => YearAt(section, k, OneOrTwo)
  }

  predicate HasLabelledYear(t: string) {
    Matches(t, LabelledYearProbe(t))
  }

  predicate HasBareYear(t: string) {
    Matches(t, BareYearProbe(t))
  }

  /** `_extract_year`: the labelled year, else a free-standing year, else `"2024"`. */
  function Year(section: string): string {
    match Search(section, LabelledYearProbe(section))
    case Some(y) => y
    case None =>
      match Search(section, BareYearProbe(section))
      case Some(y) => y
      case None => "2024"
  }

  /**
   * The year is always four digits: the digits after the first `Årsmodell:` that is followed by
   * four digits, else the first free-standing year 2010-2029, else `"2024"`.
   */
  lemma YearSpec(section: string)
    ensures var r := Year(section);
      && |r| == 4 && AllDigits(r)
      && (HasLabelledYear(section) ==> exists k :: FirstMatch(section, LabelledYearProbe(section), k, r))
      && (!HasLabelledYear(section) && HasBareYear(section) ==>
            exists k :: FirstMatch(section, BareYearProbe(section), k, r))
      && (!HasLabelledYear(section) && !HasBareYear(section) ==> r == "2024")
  {
    var labelled := LabelledYearProbe(section);
    var bare := BareYearProbe(section);
    match Search(section, labelled)
    case Some(y) =>
      var k :| FirstMatch(section, labelled, k, y);
      assert LabelledYearAt(section, k) == Some(y);
    case None =>
      match Search(section, bare)
      case Some(y) =>
        var k :| FirstMatch(section, bare, k, y);
        assert YearAt(section, k, OneOrTwo) == Some(y);
      case None =>
  }

  /** The class `[A-ZÆØÅa-zæøå0-9\s]` of the leasing capture. */
  predicate InLeasingClass(c: char) {
    IsAsciiUpper(c) || ('a' <= c <= 'z') || IsDigit(c) || IsSpace(c) || c in "ÆØÅæøå"
  }

  /**
   * `Tredjemannsinteresse/leasing:\s*([A-ZÆØÅa-zæøå0-9\s]+?)(?:\n|$)` with IGNORECASE tried at `k`,
   * giving the capture after `strip()`. When the rest of the line after the whitespace is all in the
   * class, the capture is that rest. Otherwise the engine gives characters back from `\s*`, and the
   * match still succeeds, with a capture that is only whitespace, when that whitespace held a line
   * break or ran to the end of the text.
   */
  function LeasingLabelAt(t: string, k: nat): (r: Option<string>)
    ensures r.Some? ==> Stripped(r.value) && '\n' !in r.value
    ensures r.Some? ==> forall i :: 0 <= i < |r.value| ==> InLeasingClass(r.value[i])
  {
    var tag := "Tredjemannsinteresse/leasing:";
    if !StartsAtCI(t, k, tag) then None
    else
      var a := k + |tag|;
      var w := WsEnd(t, a);
      var e := RunEnd(t, w, NotNewline);
      if w < |t| && forall q | w <= q < e :: InLeasingClass(t[q]) then
        var line := t[w..e];
        assert forall q | 0 <= q < |line| :: line[q] == t[w + q];
        StripKeepsClass(line);
        Some(Strip(line))
      else if a < w && (w == |t| || RunEnd(t, a + 1, NotNewline) < w) then Some("")
      else None
  }

  lemma StripKeepsClass(line: string)
    requires forall q | 0 <= q < |line| :: InLeasingClass(line[q]) && line[q] != '\n'
    ensures forall i | 0 <= i < |Strip(line)| :: InLeasingClass(Strip(line)[i]) && Strip(line)[i] != '\n'
  {
    var lo := WsEnd(line, 0);
    var r := Strip(line);
    assert forall i | 0 <= i < |r| :: r[i] == line[lo + i];
  }

  /** `re.search(r'Tredjemannsinteresse/leasing:...', section, re.I)` tried at each start position. */
  function LeasingLabelProbe(section: string): nat -> Option<string> {
    (k: nat) => LeasingLabelAt(section, k)
  }

  predicate HasLeasingLabel(t: string) {
    Matches(t, LeasingLabelProbe(t))
  }

  /** The lenders `_extract_leasing` looks for when there is no label, in its order. */
  const IfLenders: seq<string> :=
    ["Sparebank 1", "Nordea Finans", "Santander", "DNB Finans", "BRAGE FINANS", "Handelsbanken", "BN Bank"]

  /** The first of `names` that occurs in `s` as a case-sensitive substring, or `""`. */
  function FirstListed(s: string, names: seq<string>): (r: string)
    ensures r == "" || (r in names && Contains(s, r))
  {
    if names == [] then ""
    else if Contains(s, names[0]) then names[0]
    else FirstListed(s, names[1..])
  }

  /**
   * `FirstListed` is empty exactly when no name occurs, and otherwise it is the occurring name
   * that comes first in the list.
   */
  lemma {:induction false} FirstListedSpec(s: string, names: seq<string>)
    requires "" !in names
    ensures var r := FirstListed(s, names);
      && (r == "" <==> forall i :: 0 <= i < |names| ==> !Contains(s, names[i]))
      && (r != "" ==> exists j :: 0 <= j < |names| && names[j] == r && forall i :: 0 <= i < j ==> !Contains(s, names[i]))
  {
    if names != [] && !Contains(s, names[0]) {
      var tail := names[1..];
      FirstListedSpec(s, tail);
      var r := FirstListed(s, tail);
      assert forall i | 1 <= i < |names| :: names[i] == tail[i - 1];
      if r != "" {
        var j :| 0 <= j < |tail| && tail[j] == r && forall i :: 0 <= i < j ==> !Contains(s, tail[i]);
        assert names[j + 1] == r;
      }
    } else if names != [] {
      assert names[0] != "";
      assert FirstListed(s, names) == names[0];
    }
  }

  /** `_extract_leasing`: the labelled value, else the first listed lender, else `""`. */
  function Leasing(section: string): string {
    match Search(section, LeasingLabelProbe(section))
    case Some(company) => company
    case None => FirstListed(section, IfLenders)
  }

  /**
   * The value after the first `Tredjemannsinteresse/leasing:` label that matches (possibly `""`,
   * with no fallback to the lender list); without such a label, the first listed lender that the
   * section names, else `""`.
   */
  lemma LeasingSpec(section: string)
    ensures var r := Leasing(section);
      && (HasLeasingLabel(section) ==> exists k :: FirstMatch(section, LeasingLabelProbe(section), k, r))
      && (!HasLeasingLabel(section) ==> r == FirstListed(section, IfLenders))
  {
    var labelled := LeasingLabelProbe(section);
    var m := Search(section, labelled);
    assert Leasing(section) == if m.Some? then m.value else FirstListed(section, IfLenders);
  }

  /** `Kjørelengde:\s*(\d+\s?\d+)\s*km` with IGNORECASE tried at `k`. */
  function MileageAt(t: string, k: nat): (r: Option<string>)
    ensures r.Some? ==> IsSpacedNumber(r.value)
  {
    var tag := "Kjørelengde:";
    if StartsAtCI(t, k, tag) then SpacedNumberAt(t, WsEnd(t, k + |tag|), "km", true) else None
  }

  /** `re.search(r'Kjørelengde:...', section, re.I)` tried at each start position. */
  function MileageProbe(section: string): nat -> Option<string> {
    (k: nat) => MileageAt(section, k)
  }

  predicate HasMileage(t: string) {
    Matches(t, MileageProbe(t))
  }

  /** `_extract_mileage`: the first mileage figure, or `""`. */
  function Mileage(section: string): string {
    match Search(section, MileageProbe(section))
    case Some(m) => m
    case None => ""
  }

  /** The mileage is empty exactly when the section states none, and otherwise the first one stated. */
  lemma MileageSpec(section: string)
    ensures var r := Mileage(section);
      && (r == "" <==> !HasMileage(section))
      && (r != "" ==> IsSpacedNumber(r) && exists k :: FirstMatch(section, MileageProbe(section), k, r))
  {
    var at := MileageProbe(section);
    match Search(section, at)
    case Some(m) =>
      var k :| FirstMatch(section, at, k, m);
      assert MileageAt(section, k) == Some(m);
    case None =>
  }

  /** `Egenandel\s*-\s*Skader på eget kjøretøy:\s*(\d+\s?\d+)\s*kr`, case-sensitive, tried at `k`. */
  function OwnDamageDeductibleAt(t: string, k: nat): (r: Option<string>)
    ensures r.Some? ==> IsSpacedNumber(r.value)
  {
    var head := "Egenandel";
    var tail := "Skader på eget kjøretøy:";
    if !StartsAt(t, k, head) then None
    else
      var d := WsEnd(t, k + |head|);
      if d < |t| && t[d] == '-' && StartsAt(t, WsEnd(t, d + 1), tail) then
        SpacedNumberAt(t, WsEnd(t, WsEnd(t, d + 1) + |tail|), "kr", false)
      else None
  }

  /** The separator class `[:\s-]`. */
  predicate IsSeparator(c: char) {
    c == ':' || c == '-' || IsSpace(c)
  }

  /** `Egenandel[:\s-]+(\d+\s?\d+)\s*kr` with IGNORECASE tried at `k`. */
  function AnyDeductibleAt(t: string, k: nat): (r: Option<string>)
    ensures r.Some? ==> IsSpacedNumber(r.value)
  {
    var head := "Egenandel";
    if !StartsAtCI(t, k, head) then None
    else
      var s := RunEnd(t, k + |head|, IsSeparator);
      if s > k + |head| then SpacedNumberAt(t, s, "kr", true) else None
  }

  /** The own-damage pattern tried at each start position. */
  function OwnDamageProbe(section: string): nat -> Option<string> {
    (k: nat) => OwnDamageDeductibleAt(section, k)
  }

  /** The generic `Egenandel` pattern tried at each start position. */
  function AnyDeductibleProbe(section: string): nat -> Option<string> {
    (k: nat) => AnyDeductibleAt(section, k)
  }

  predicate HasOwnDamageDeductible(t: string) {
    Matches(t, OwnDamageProbe(t))
  }

  predicate HasAnyDeductible(t: string) {
    Matches(t, AnyDeductibleProbe(t))
  }

  /** `_extract_deductible`: the own-damage deductible, else the first generic one, else `""`. */
  function Deductible(section: string): string {
    match Search(section, OwnDamageProbe(section))
    case Some(d) => d
    case None =>
      match Search(section, AnyDeductibleProbe(section))
      case Some(d) => d
      case None => ""
  }

  /**
   * The own-damage deductible when the section states one, else the first generic `Egenandel`
   * amount, else `""`; a found deductible is a spaced number.
   */
  lemma DeductibleSpec(section: string)
    ensures var r := Deductible(section);
      && (r == "" <==> !HasOwnDamageDeductible(section) && !HasAnyDeductible(section))
      && (r != "" ==> IsSpacedNumber(r))
      && (HasOwnDamageDeductible(section) ==> exists k :: FirstMatch(section, OwnDamageProbe(section), k, r))
      && (!HasOwnDamageDeductible(section) && HasAnyDeductible(section) ==>
            exists k :: FirstMatch(section, AnyDeductibleProbe(section), k, r))
  {
    var ownDamage := OwnDamageProbe(section);
    var any := AnyDeductibleProbe(section);
    match Search(section, ownDamage)
    case Some(d) =>
      var k :| FirstMatch(section, ownDamage, k, d);
      assert OwnDamageDeductibleAt(section, k) == Some(d);
    case None =>
      match Search(section, any)
      case Some(d) =>
        var k :| FirstMatch(section, any, k, d);
        assert AnyDeductibleAt(section, k) == Some(d);
      case None =>
  }

  /** `{word}\s*motor` with IGNORECASE at `k`. */
  predicate MotorAt(t: string, k: nat, word: string) {
    StartsAtCI(t, k, word) && StartsAtCI(t, WsEnd(t, k + |word|), "motor")
  }

  predicate HasMotor(t: string, word: string) {
    exists k | 0 <= k <= |t| :: MotorAt(t, k, word)
  }

  predicate HasOutboardMotor(t: string) {
    exists k | 0 <= k <= |t| :: StartsAtCI(t, k, "påhengsmotor")
  }

  /** `_extract_motor_type`: inboard, else outboard, else `påhengsmotor`, else `""`. */
  function MotorType(section: string): string {
    if HasMotor(section, "innenbords") then "innenbords motor"
    else if HasMotor(section, "utenbords") then "utenbords motor"
    else if HasOutboardMotor(section) then "påhengsmotor"
    else ""
  }

  /**
   * The motor type is one of the three descriptions or `""`, chosen by priority: inboard before
   * outboard before an engine named `påhengsmotor`; `""` exactly when the section names none.
   */
  lemma MotorTypeSpec(section: string)
    ensures var r := MotorType(section);
      && r in ["", "innenbords motor", "utenbords motor", "påhengsmotor"]
      && (HasMotor(section, "innenbords") ==> r == "innenbords motor")
      && (!HasMotor(section, "innenbords") && HasMotor(section, "utenbords") ==> r == "utenbords motor")
      && (!HasMotor(section, "innenbords") && !HasMotor(section, "utenbords") && HasOutboardMotor(section) ==>
            r == "påhengsmotor")
      && (r == "" <==> !HasMotor(section, "innenbords") && !HasMotor(section, "utenbords") && !HasOutboardMotor(section))
  {
  }

  /** The 1500 characters from the header on, clipped to the text. */
  function Section(text: string, pos: nat): (r: string)
    ensures pos <= |text| ==> r == text[pos..if pos + 1500 < |text| then pos + 1500 else |text|]
    ensures |r| <= 1500
  {
    Slice(text, pos, pos + 1500)
  }

  /** `"make model"` stripped, with ` (motor)` appended when a motor type was found. */
  function Described(make: string, model: string, motor: string): string {
    var makeModel := Strip(make + " " + model);
    if motor != "" then makeModel + " (" + motor + ")" else makeModel
  }

  /** The record the loop body builds for a header. */
  function IfRecord(text: string, h: Header): Record {
    var reg := Strip(h.reg);
    var vtype := Strip(h.vtype);
    var section := Section(text, h.pos);
    var motor := if Contains(vtype, "Båt") then MotorType(section) else "";
    Record(reg, vtype, Described(Strip(h.make), ModelOf(section), motor) + " " + Year(section), Coverage,
           Leasing(section), Mileage(section), Bonus(text, reg), Deductible(section))
  }

  /**
   * The body of the `extract_if_vehicles` loop after the duplicate check: the section window, the
   * model line, the field enrichers and the assembled record.
   */
  method BuildRecord(text: string, h: Header) returns (record: Record)
    ensures record == IfRecord(text, h)
  {
    var reg := Strip(h.reg);
    var vtype := Strip(h.vtype);
    var make := Strip(h.make);
    var section := Section(text, h.pos);
    var model := ExtractModel(section);
    var makeModel := Strip(make + " " + model);
    var year := Year(section);
    var leasing := Leasing(section);
    var mileage := Mileage(section);
    var deductible := Deductible(section);
    var bonus := Bonus(text, reg);
    var motor := if Contains(vtype, "Båt") then MotorType(section) else "";
    if motor != "" {
      makeModel := makeModel + " (" + motor + ")";
    }
    record := Record(reg, vtype, makeModel + " " + year, Coverage, leasing, mileage, bonus, deductible);
  }

  /** A vehicle type without `å` never contains `Båt`. */
  lemma NoBoatWithoutRing(vtype: string)
    requires 'å' !in vtype
    ensures !Contains(vtype, "Båt")
  {
    forall k | 0 <= k <= |vtype| ensures !StartsAt(vtype, k, "Båt") {
      if k + 3 <= |vtype| {
        assert vtype[k..k + 3][1] == vtype[k + 1];
        assert vtype[k + 1] in vtype;
        assert "Båt"[1] == 'å';
      }
    }
  }

  /**
   * An IF record carries the header's registration and vehicle type unchanged and the coverage
   * `kasko`.
   */
  lemma IfRecordIdentity(text: string, h: Header)
    requires WellFormed(text, h)
    ensures var r := IfRecord(text, h);
      && r.registration == h.reg && IsRegistration(r.registration)
      && r.vehicleType == h.vtype && r.coverage == Coverage
  {
    assert Stripped(h.reg);
    assert Stripped(h.vtype);
  }

  /** Among the vehicle types only `Båt` has an `å`. */
  lemma OnlyBoatHasRing(vtype: string)
    requires vtype in VehicleTypes && vtype != "Båt"
    ensures 'å' !in vtype
  {
  }

  /** A description followed by a space and a four-digit year ends with that year. */
  lemma EndsWithYear(d: string, y: string)
    requires |y| == 4 && AllDigits(y)
    ensures var m := d + " " + y; |m| >= 5 && AllDigits(m[|m| - 4..]) && m[|m| - 5] == ' '
  {
    var m := d + " " + y;
    assert m[|m| - 4..] == y;
  }

  /** The description ends with a space and the four-digit year. */
  lemma IfRecordYear(text: string, h: Header)
    ensures var m := IfRecord(text, h).makeModelYear;
      |m| >= 5 && AllDigits(m[|m| - 4..]) && m[|m| - 5] == ' '
  {
    var section := Section(text, h.pos);
    YearSpec(section);
    var motor := if Contains(Strip(h.vtype), "Båt") then MotorType(section) else "";
    EndsWithYear(Described(Strip(h.make), ModelOf(section), motor), Year(section));
  }

  /** For every vehicle type except `Båt` the description is the stripped make and model and the year. */
  lemma IfRecordNoMotor(text: string, h: Header)
    requires WellFormed(text, h) && h.vtype != "Båt"
    ensures var section := Section(text, h.pos);
      IfRecord(text, h).makeModelYear == Strip(Strip(h.make) + " " + ModelOf(section)) + " " + Year(section)
  {
    assert Stripped(h.vtype);
    OnlyBoatHasRing(h.vtype);
    NoBoatWithoutRing(h.vtype);
  }

  /** The mileage and the deductible are empty or spaced numbers; the bonus is empty or digits and `%`. */
  lemma IfRecordFigures(text: string, h: Header)
    ensures var r := IfRecord(text, h);
      && (r.annualMileage == "" || IsSpacedNumber(r.annualMileage))
      && (r.deductible == "" || IsSpacedNumber(r.deductible))
      && IsBonus(r.bonus)
  {
    var section := Section(text, h.pos);
    MileageSpec(section);
    DeductibleSpec(section);
    BonusSpec(text, Strip(h.reg));
  }

  /** The header keyed by its stripped registration, for the `seen` check. */
  function ByRegistration(h: Header): Option<Keyed<Header>> {
    Some(Keyed(Strip(h.reg), h))
  }

  /** The headers the loop builds records for: the first one for each registration, in order. */
  function KeptHeaders(headers: seq<Header>): seq<Header> {
    Items(Collect(headers, ByRegistration, {}))
  }

  /**
   * The deduplication keeps no registration twice, keeps only headers from the input, and keeps
   * the first header for every registration.
   */
  lemma KeptHeadersSpec(headers: seq<Header>)
    ensures var kept := KeptHeaders(headers);
      && (forall i, j :: 0 <= i < j < |kept| ==> Strip(kept[i].reg) != Strip(kept[j].reg))
      && (forall i :: 0 <= i < |kept| ==> kept[i] in headers)
      && (forall j :: 0 <= j < |headers| && (forall i :: 0 <= i < j ==> Strip(headers[i].reg) != Strip(headers[j].reg)) ==>
            headers[j] in kept)
  {
    var out := Collect(headers, ByRegistration, {});
    var kept := Items(out);
    CollectSpec(headers, ByRegistration, {});
    forall i | 0 <= i < |out| ensures out[i].key == Strip(kept[i].reg) && kept[i] in headers {
      var j :| 0 <= j < |headers| && ByRegistration(headers[j]) == Some(out[i]);
    }
    forall j | 0 <= j < |headers| && (forall i :: 0 <= i < j ==> Strip(headers[i].reg) != Strip(headers[j].reg))
      ensures headers[j] in kept
    {
      assert FirstWithKey(headers, ByRegistration, j);
      var k :| 0 <= k < |out| && out[k] == ByRegistration(headers[j]).value;
      assert kept[k] == headers[j];
    }
  }

  /** `vehicles` holds the records of the kept headers, in their order. */
  predicate RecordsOf(text: string, kept: seq<Header>, vehicles: seq<Record>) {
    |vehicles| == |kept| && forall k :: 0 <= k < |kept| ==> vehicles[k] == IfRecord(text, kept[k])
  }

  /**
   * The state of the `extract_if_vehicles` loop after the first `i` headers: `seen` holds their
   * registrations and `vehicles` the records of those kept so far.
   */
  predicate IfLoop(text: string, headers: seq<Header>, i: nat, vehicles: seq<Record>, seen: set<string>) {
    && i <= |headers|
    && seen == {} + Keys(Collect(headers[..i], ByRegistration, {}))
    && RecordsOf(text, KeptHeaders(headers[..i]), vehicles)
  }

  /** One iteration: a seen registration is skipped, an unseen one adds its record and its key. */
  lemma IfStep(text: string, headers: seq<Header>, i: nat, vehicles: seq<Record>, seen: set<string>)
    requires i < |headers| && IfLoop(text, headers, i, vehicles, seen)
    ensures Strip(headers[i].reg) in seen ==> IfLoop(text, headers, i + 1, vehicles, seen)
    ensures Strip(headers[i].reg) !in seen ==>
      IfLoop(text, headers, i + 1, vehicles + [IfRecord(text, headers[i])], seen + {Strip(headers[i].reg)})
  {
    var h := headers[i];
    var kept := KeptHeaders(headers[..i]);
    DedupStep(headers, i, ByRegistration, {}, kept, seen, Strip(h.reg), h);
    if Strip(h.reg) !in seen {
      var vs := vehicles + [IfRecord(text, h)];
      assert KeptHeaders(headers[..i + 1]) == kept + [h];
      forall k | 0 <= k < |kept| + 1 ensures vs[k] == IfRecord(text, (kept + [h])[k]) {
        if k < |kept| {
          assert vs[k] == vehicles[k];
        }
      }
    }
  }

  /**
   * `extract_if_vehicles`: the record of every header whose registration has not been seen
   * before, in the order of the headers.
   */
  method ExtractIfVehicles(text: string, headers: seq<Header>) returns (vehicles: seq<Record>)
    ensures RecordsOf(text, KeptHeaders(headers), vehicles)
  {
    vehicles := [];
    var seen: set<string> := {};
    var i := 0;
    while i < |headers|
      invariant IfLoop(text, headers, i, vehicles, seen)
    {
      var h := headers[i];
      var reg := Strip(h.reg);
      IfStep(text, headers, i, vehicles, seen);
      if reg !in seen {
        seen := seen + {reg};
        var record := BuildRecord(text, h);
        vehicles := vehicles + [record];
      }
      i := i + 1;
    }
    assert headers[..i] == headers;
  }
}
