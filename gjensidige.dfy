/**
 * The Gjensidige extractor of `app_modules/Sheets/Fordon/extractors/gjensidige.py`: registered
 * cars in two layouts that share one `seen` set of registrations, then unregistered machines per
 * brand in two layouts deduplicated by a `brand_model_year` key, with the leasing lookup (the
 * section around the car first, then the text after the registration) and the shared bonus lookup.
 *
 * The large `re.finditer` and `re.findall` patterns are inputs: the inline car lines
 * (`BRAND model 20xx AB 12345`), the registrations the table sweep finds, and for every machine
 * brand the matches of its two patterns. Everything after matching is modelled: clean-up,
 * deduplication, window clipping, defaults and record assembly.
 */
module Gjensidige {
  import opened Wrappers
  import opened Text
  import opened Scan
  import opened Dedup
  import opened Vehicle

  /** The car makes, in the order the brand loop of the table sweep tries them. */
  const CarBrands: seq<string> :=
    ["VOLKSWAGEN", "FORD", "TOYOTA", "MERCEDES-BENZ", "LAND ROVER", "CITROEN", "PEUGEOT", "VOLVO", "BMW",
     "AUDI", "NISSAN", "RENAULT"]

  /** The machine makes, in the order the machine loop tries them. */
  const MachineBrands: seq<string> :=
    ["Doosan", "Hitachi", "Caterpillar", "Liebherr", "Sennebogen", "Komatsu", "Volvo", "JCB", "Bobcat",
     "Case", "John Deere", "New Holland", "Kubota"]

  // ---------------------------------------------------------------------------------------------
  // Leasing

  /** A leasing company: the pattern `first\s*second` (IGNORECASE) and the name returned for it. */
  datatype Lender = Lender(first: string, second: string, name: string)

  /**
   * The five companies in the order `_extract_leasing` tests them. `santander` has no second word:
   * `santander\s*` matches exactly where `santander` does.
   */
  const Lenders: seq<Lender> := [
    Lender("sparebank", "1", "Sparebank 1"),
    Lender("nordea", "finans", "Nordea Finans"),
    Lender("santander", "", "Santander"),
    Lender("dnb", "finans", "DNB Finans"),
    Lender("brage", "finans", "BRAGE FINANS")]

  /** `first\s*second` at `k`; the greedy `\s*` never gives back, since `second` starts with a non-space. */
  predicate LenderAt(t: string, k: nat, l: Lender) {
    StartsAtCI(t, k, l.first) && StartsAtCI(t, WsEnd(t, k + |l.first|), l.second)
  }

  /** `re.search(pattern, t, re.I)` is truthy for the company's pattern. */
  predicate Mentions(t: string, l: Lender) {
    exists k | 0 <= k <= |t| :: LenderAt(t, k, l)
  }

  /** The name of the first company in `ls` that `mentioned` accepts, or `""`. */
  function FirstNamed(ls: seq<Lender>, mentioned: Lender -> bool): string {
    if ls == [] then ""
    else if mentioned(ls[0]) then ls[0].name
    else FirstNamed(ls[1..], mentioned)
  }

  /** The name of the first company in `ls` whose pattern occurs in `t`, or `""`. */
  function LenderIn(t: string, ls: seq<Lender>): string {
    FirstNamed(ls, l => Mentions(t, l))
  }

  /**
   * With non-empty names, `FirstNamed` is empty exactly when no company is accepted, and otherwise
   * it is the name of the accepted company that comes first in the list.
   */
  lemma {:induction false} FirstNamedSpec(ls: seq<Lender>, mentioned: Lender -> bool)
    requires forall i | 0 <= i < |ls| :: ls[i].name != ""
    ensures var r := FirstNamed(ls, mentioned);
      && (r == "" <==> forall i :: 0 <= i < |ls| ==> !mentioned(ls[i]))
      && (r != "" ==> exists j :: 0 <= j < |ls| && ls[j].name == r && mentioned(ls[j])
                                  && forall i :: 0 <= i < j ==> !mentioned(ls[i]))
  {
    if ls == [] {
    } else if mentioned(ls[0]) {
      assert FirstNamed(ls, mentioned) == ls[0].name != "";
    } else {
      var tail := ls[1..];
      FirstNamedSpec(tail, mentioned);
      var r := FirstNamed(tail, mentioned);
      assert forall i | 1 <= i < |ls| :: ls[i] == tail[i - 1];
      if r != "" {
        var j :| 0 <= j < |tail| && tail[j].name == r && mentioned(tail[j])
                 && forall i :: 0 <= i < j ==> !mentioned(tail[i]);
        assert ls[j + 1] == tail[j];
      }
    }
  }

  /**
   * With non-empty names, `LenderIn` is empty exactly when no company is mentioned, and otherwise
   * it is the name of the mentioned company that comes first in the list.
   */
  lemma LenderInSpec(t: string, ls: seq<Lender>)
    requires forall i | 0 <= i < |ls| :: ls[i].name != ""
    ensures var r := LenderIn(t, ls);
      && (r == "" <==> forall i :: 0 <= i < |ls| ==> !Mentions(t, ls[i]))
      && (r != "" ==> exists j :: 0 <= j < |ls| && ls[j].name == r && Mentions(t, ls[j])
                                  && forall i :: 0 <= i < j ==> !Mentions(t, ls[i]))
  {
    FirstNamedSpec(ls, l => Mentions(t, l));
  }

  /** The length of the first of the names of `ls` that starts at `e` when case is ignored. */
  function NameAt(t: string, e: nat, ls: seq<Lender>): (r: Option<nat>)
    ensures r.Some? ==> e + r.value <= |t|
  {
    if ls == [] then None
    else if StartsAtCI(t, e, ls[0].name) then Some(|ls[0].name|)
    else NameAt(t, e, ls[1..])
  }

  /**
   * `{reg}.*?(?:Sparebank 1|Nordea Finans|Santander|DNB Finans|BRAGE FINANS)` with IGNORECASE and
   * DOTALL tried at `k`: the registration, then the nearest position where one of the five names
   * starts; the value is the whole matched text.
   */
  function RegLenderAt(t: string, reg: string, k: nat): (r: Option<string>)
    ensures r.Some? ==> StartsAtCI(t, k, reg)
  {
    if !StartsAtCI(t, k, reg) then None
    else
      match FindFrom(k + |reg|, |t|, (e: nat) => NameAt(t, e, Lenders).Some?)
      case None => None
      case Some(e) => Some(t[k..e + NameAt(t, e, Lenders).value])
  }

  /** The registration-then-name pattern tried at each start position of the full text. */
  function RegLenderProbe(t: string, reg: string): nat -> Option<string> {
    (k: nat) => RegLenderAt(t, reg, k)
  }

  /**
   * `_extract_leasing`: the first company the section mentions; otherwise the first company
   * mentioned in the text from the first occurrence of the registration to the nearest name after
   * it; otherwise `""`.
   */
  function Leasing(section: string, text: string, reg: string): string {
    var local := LenderIn(section, Lenders);
    if local != "" then local
    else
      match Search(text, RegLenderProbe(text, reg))
      case None => ""
      case Some(m) => LenderIn(m, Lenders)
  }

  predicate IsLenderName(s: string) {
    exists i :: 0 <= i < |Lenders| && Lenders[i].name == s
  }

  /**
   * The leasing value is `""` or one of the five names. A company the section mentions wins, in
   * the fixed order; only when the section mentions none is the full text searched, and then the
   * value comes from the first match of the registration followed by a name.
   */
  lemma LeasingSpec(section: string, text: string, reg: string)
    ensures var r := Leasing(section, text, reg);
      && (r == "" || IsLenderName(r))
      && (LenderIn(section, Lenders) != "" ==> r == LenderIn(section, Lenders))
      && (LenderIn(section, Lenders) == "" && !Matches(text, RegLenderProbe(text, reg)) ==> r == "")
      && (LenderIn(section, Lenders) == "" && Matches(text, RegLenderProbe(text, reg)) ==>
            exists k, m :: FirstMatch(text, RegLenderProbe(text, reg), k, m) && r == LenderIn(m, Lenders))
  {
    assert forall i | 0 <= i < |Lenders| :: Lenders[i].name != "";
    LenderInSpec(section, Lenders);
    var probe := RegLenderProbe(text, reg);
    var m := Search(text, probe);
    if m.Some? {
      LenderInSpec(m.value, Lenders);
      var k :| FirstMatch(text, probe, k, m.value);
    }
    assert Leasing(section, text, reg)
      == if LenderIn(section, Lenders) != "" then LenderIn(section, Lenders)
         else if m.Some? then LenderIn(m.value, Lenders) else "";
  }

  // ---------------------------------------------------------------------------------------------
  // Registrations and windows

  /**
   * The key of an inline registration `[A-Z]{2}\s+\d{5}`: the stripped capture with its whitespace
   * removed. The source removes only spaces (see `PlateAsWritten`).
   */
  function Plate(raw: string): string {
    RemoveWhitespace(Strip(raw))
  }

  /** The key as written: `raw.strip().replace(" ", "")`. */
  function PlateAsWritten(raw: string): string {
    RemoveSpaces(Strip(raw))
  }

  /**
   * A registration the inline pattern captured across a line break or a tab keeps that character
   * under the as-written key, which then is no registration; `Plate` gives a registration.
   */
  lemma PlateAsWrittenKeepsLineBreak(raw: string)
    requires IsSpacedRegistration(raw)
    requires exists i :: 2 <= i < |raw| - 5 && raw[i] != ' '
    ensures !IsRegistration(PlateAsWritten(raw))
    ensures IsRegistration(Plate(raw))
  {
    CaptureStripped(raw);
    SpaceOnlyNormalizationKeepsWhitespace(raw);
  }

  /**
   * On a capture whose only whitespace is spaces, the key `Plate` equals the as-written key, so
   * the extractors that use `Plate` emit and deduplicate exactly what the source does there.
   */
  lemma PlateAgreesOnSpaces(raw: string)
    requires OnlySpaces(raw)
    ensures Plate(raw) == PlateAsWritten(raw)
  {
    var r := Strip(raw);
    var lo := WsEnd(raw, 0);
    assert OnlySpaces(r) by {
      forall i | 0 <= i < |r| ensures IsSpace(r[i]) ==> r[i] == ' ' {
        assert r[i] == raw[lo + i];
      }
    }
    RemoveSpacesAgrees(r);
  }

  /** A captured registration starts with a letter and ends with a digit, so `strip()` keeps it whole. */
  lemma CaptureStripped(raw: string)
    requires IsSpacedRegistration(raw) || IsTableRegistration(raw)
    ensures Strip(raw) == raw
  {
    assert Stripped(raw);
  }

  /**
   * Both capture forms give a registration key: the letters followed by the digits, so the same
   * plate written with or without whitespace gets the same key.
   */
  lemma PlateSpec(raw: string)
    requires IsSpacedRegistration(raw) || IsTableRegistration(raw)
    ensures Plate(raw) == RemoveWhitespace(raw) == raw[..2] + raw[|raw| - 5..]
    ensures IsRegistration(Plate(raw))
  {
    CaptureStripped(raw);
    NormalizeRegistration(raw);
  }

  /** `t[max(0, pos - before):min(len(t), pos + after)]`. */
  function Window(t: string, pos: nat, before: nat, after: nat): (r: string)
    ensures pos <= |t| ==>
      r == t[if pos >= before then pos - before else 0..if pos + after < |t| then pos + after else |t|]
    ensures |r| <= before + after
  {
    Slice(t, if pos >= before then pos - before else 0, pos + after)
  }

  /** The section the inline format searches for leasing: 200 characters before the match, 500 after. */
  function CarSection(text: string, pos: nat): string {
    Window(text, pos, 200, 500)
  }

  /** The window the table sweep searches for make, model and year: 500 characters either side. */
  function CarWindow(text: string, pos: nat): string {
    Window(text, pos, 500, 500)
  }

  // ---------------------------------------------------------------------------------------------
  // Format 1: inline car lines

  /**
   * One match of `({brands})\s+([A-Z0-9\s\-().]+?)\s+(20\d{2})\s+([A-Z]{2}\s+\d{5})`: its four groups
   * and where it starts.
   */
  datatype CarLine = CarLine(make: string, model: string, year: string, reg: string, pos: nat)

  /** What the pattern guarantees about a match. */
  predicate IsCarLine(text: string, m: CarLine) {
    m.make in CarBrands && IsYear(m.year) && IsSpacedRegistration(m.reg) && m.pos <= |text|
  }

  /** The record the inline loop builds for a line. */
  function InlineRecord(text: string, m: CarLine): Record {
    var reg := Plate(m.reg);
    Record(reg, "bil", Strip(m.make) + " " + Strip(m.model) + " " + Strip(m.year), Coverage,
           Leasing(CarSection(text, m.pos), text, reg), "", Bonus(text, reg), "")
  }

  /** The body of the inline loop after the duplicate check: the section, the enrichers, the record. */
  method BuildInlineRecord(text: string, m: CarLine) returns (record: Record)
    ensures record == InlineRecord(text, m)
  {
    var make := Strip(m.make);
    var model := Strip(m.model);
    var year := Strip(m.year);
    var reg := Plate(m.reg);
    var section := CarSection(text, m.pos);
    var leasing := Leasing(section, text, reg);
    var bonus := Bonus(text, reg);
    record := Record(reg, "bil", make + " " + model + " " + year, Coverage, leasing, "", bonus, "");
  }

  /** Every make in the list is non-empty and has no outer whitespace. */
  lemma CarBrandsStripped()
    ensures forall i :: 0 <= i < |CarBrands| ==> CarBrands[i] != "" && Stripped(CarBrands[i])
  {
  }

  /**
   * The record of an inline line: the registration key, which is a registration; type `bil`;
   * make, stripped model and year joined by single spaces; coverage `kasko`; no mileage or
   * deductible; a leasing value that is empty or a company name; a formatted bonus.
   */
  lemma InlineRecordSpec(text: string, m: CarLine)
    requires IsCarLine(text, m)
    ensures var r := InlineRecord(text, m);
      && r.registration == Plate(m.reg) && IsRegistration(r.registration)
      && r.vehicleType == "bil" && r.coverage == Coverage && r.annualMileage == "" && r.deductible == ""
      && r.makeModelYear == m.make + " " + Strip(m.model) + " " + m.year
      && (r.leasing == "" || IsLenderName(r.leasing))
      && IsBonus(r.bonus)
  {
    CarBrandsStripped();
    PlateSpec(m.reg);
    assert Stripped(m.year);
    LeasingSpec(CarSection(text, m.pos), text, Plate(m.reg));
    BonusSpec(text, Plate(m.reg));
  }

  /** The record of a line, keyed by its registration key for the `seen` check. */
  function InlineCandidate(text: string): CarLine -> Option<Keyed<Record>> {
    (m: CarLine) => Some(Keyed(Plate(m.reg), InlineRecord(text, m)))
  }

  /**
   * The format-1 loop of `_extract_registered_cars`: for every inline line whose registration key
   * is not yet in the caller's set, the record, and the key added to the set.
   */
  method ExtractInlineCars(text: string, lines: seq<CarLine>, seen0: set<string>)
    returns (cars: seq<Record>, seen: set<string>)
    ensures cars == Items(Collect(lines, InlineCandidate(text), seen0))
    ensures seen == seen0 + Keys(Collect(lines, InlineCandidate(text), seen0))
  {
    cars := [];
    seen := seen0;
    var i := 0;
    assert Collect(lines[..0], InlineCandidate(text), seen0) == [];
    while i < |lines|
      invariant i <= |lines|
      invariant cars == Items(Collect(lines[..i], InlineCandidate(text), seen0))
      invariant seen == seen0 + Keys(Collect(lines[..i], InlineCandidate(text), seen0))
    {
      var m := lines[i];
      var reg := Plate(m.reg);
      DedupStep(lines, i, InlineCandidate(text), seen0, cars, seen, reg, InlineRecord(text, m));
      if reg !in seen {
        seen := seen + {reg};
        var record := BuildInlineRecord(text, m);
        cars := cars + [record];
      }
      i := i + 1;
    }
    assert lines[..i] == lines;
  }

  // ---------------------------------------------------------------------------------------------
  // Format 2: the table sweep

  /**
   * `reg_raw.replace(" ", r"\s?")` used as a pattern and tried at `k`: each space of the capture
   * stands for one whitespace character or none, every other character for itself.
   */
  predicate RawRegAt(t: string, k: nat, raw: string)
    decreases |raw|
  {
    if raw == [] then true
    else if raw[0] == ' ' then (k < |t| && IsSpace(t[k]) && RawRegAt(t, k + 1, raw[1..])) || RawRegAt(t, k, raw[1..])
    else k < |t| && t[k] == raw[0] && RawRegAt(t, k + 1, raw[1..])
  }

  /** Where `re.search(reg_pattern, pdf_text)` finds the registration: the first start that matches. */
  function RawRegPos(text: string, raw: string): Option<nat> {
    FindFrom(0, |text|, (k: nat) => RawRegAt(text, k, raw))
  }

  /** The first of `brands` that occurs in `window` as a substring (`brand in window`). */
  function FirstBrand(window: string, brands: seq<string>): (r: Option<string>)
    ensures r.Some? ==> r.value in brands && Contains(window, r.value)
  {
    if brands == [] then None
    else if Contains(window, brands[0]) then Some(brands[0])
    else FirstBrand(window, brands[1..])
  }

  /**
   * `FirstBrand` finds a make exactly when one occurs, and then the one that comes first in the
   * list.
   */
  lemma {:induction false} FirstBrandSpec(window: string, brands: seq<string>)
    ensures var r := FirstBrand(window, brands);
      && (r.None? <==> forall i :: 0 <= i < |brands| ==> !Contains(window, brands[i]))
      && (r.Some? ==> exists j :: 0 <= j < |brands| && brands[j] == r.value
                                  && forall i :: 0 <= i < j ==> !Contains(window, brands[i]))
  {
    if brands != [] && !Contains(window, brands[0]) {
      var tail := brands[1..];
      FirstBrandSpec(window, tail);
      assert forall i | 1 <= i < |brands| :: brands[i] == tail[i - 1];
      var r := FirstBrand(window, tail);
      if r.Some? {
        var j :| 0 <= j < |tail| && tail[j] == r.value && forall i :: 0 <= i < j ==> !Contains(window, tail[i]);
        assert brands[j + 1] == tail[j];
      }
    }
  }

  /** `[A-Za-z0-9\s\-().]`, the class of the model's later characters. */
  predicate InModelClass(c: char) {
    IsAsciiUpper(c) || ('a' <= c <= 'z') || IsDigit(c) || IsSpace(c) || c == '-' || c == '(' || c == ')' || c == '.'
  }

  /** `20\d{2}` at `j`. */
  predicate YearDigitsAt(w: string, j: nat) {
    j + 4 <= |w| && w[j] == '2' && w[j + 1] == '0' && IsDigit(w[j + 2]) && IsDigit(w[j + 3])
  }

  /**
   * `(?:\s+20\d{2}|\s*\n|$)`, what must follow the model, tried at `e`. The `\s+` takes the whole
   * whitespace run (a year starts with `2`); `\s*\n` holds when the whitespace run holds a line
   * break; `$` is the end of the window or a final line break.
   */
  predicate ModelEndsAt(w: string, e: nat) {
    || (e < |w| && IsSpace(w[e]) && YearDigitsAt(w, WsEnd(w, e)))
    || (exists q | e <= q < WsEnd(w, e) :: w[q] == '\n')
    || e == |w|
    || (e + 1 == |w| && w[e] == '\n')
  }

  /**
   * `{brand}\s+([A-Z][A-Za-z0-9\s\-().]+?)(?:\s+20\d{2}|\s*\n|$)` tried at `k`. The brand, a
   * whitespace run, a capital; the lazy `+?` then takes the fewest class characters (at least one)
   * after which an ending matches. The capture is the capital and those characters.
   */
  function BrandModelAt(w: string, brand: string, k: nat): (r: Option<string>)
    ensures r.Some? ==> |r.value| >= 2 && IsAsciiUpper(r.value[0])
  {
    if !StartsAt(w, k, brand) then None
    else
      var s := WsEnd(w, k + |brand|);
      if s == k + |brand| || s >= |w| || !IsAsciiUpper(w[s]) then None
      else
        var c := RunEnd(w, s + 1, InModelClass);
        match FindFrom(s + 2, c, (e: nat) => ModelEndsAt(w, e))
        case None => None
        case Some(e) => Some(w[s..e])
  }

  /** The brand-model pattern tried at each start position of the window. */
  function BrandModelProbe(w: string, brand: string): nat -> Option<string> {
    (k: nat) => BrandModelAt(w, brand, k)
  }

  /** The words that end a model in the table layout: `\s+(Reg\.år|TFA|Årspremie).*$`, case-sensitive. */
  const TableModelStops: seq<string> := ["Reg.år", "TFA", "Årspremie"]

  /** The model after the brand: the stripped capture with a trailing column label cut off, else `""`. */
  function ModelAfter(window: string, brand: string): (r: string)
    ensures Stripped(r)
  {
    match Search(window, BrandModelProbe(window, brand))
    case None => ""
    case Some(m) => Strip(CutWordTail(Strip(m), TableModelStops, false))
  }

  /** What the table sweep finds around a registration. */
  datatype TableFind = TableFind(brand: string, model: string, year: string, window: string)

  /**
   * The lookup for one swept registration: its first occurrence, the window around it, the first
   * make in the window with the model after it, and the first year in the window; nothing unless
   * the registration, a make and a year are all found.
   */
  function TableLookup(text: string, raw: string): Option<TableFind> {
    match RawRegPos(text, raw)
    case None => None
    case Some(pos) =>
      var window := CarWindow(text, pos);
      match FirstBrand(window, CarBrands)
      case None => None
      case Some(brand) =>
        match Search(window, AnyYearProbe(window))
        case None => None
        case Some(year) => Some(TableFind(brand, ModelAfter(window, brand), year, window))
  }

  /**
   * A table car is emitted exactly when the registration occurs, a make occurs in the window
   * around its first occurrence, and so does a free-standing year; the find holds the first such
   * make, the model after it, and the first such year, which is a year.
   */
  lemma TableLookupSpec(text: string, raw: string)
    ensures var r := TableLookup(text, raw);
      r.Some? <==>
        && RawRegPos(text, raw).Some?
        && FirstBrand(CarWindow(text, RawRegPos(text, raw).value), CarBrands).Some?
        && Matches(CarWindow(text, RawRegPos(text, raw).value), AnyYearProbe(CarWindow(text, RawRegPos(text, raw).value)))
    ensures var r := TableLookup(text, raw);
      r.Some? ==>
        && r.value.window == CarWindow(text, RawRegPos(text, raw).value)
        && r.value.brand == FirstBrand(r.value.window, CarBrands).value
        && r.value.brand in CarBrands && Contains(r.value.window, r.value.brand)
        && r.value.model == ModelAfter(r.value.window, r.value.brand)
        && IsYear(r.value.year)
        && exists k :: FirstMatch(r.value.window, AnyYearProbe(r.value.window), k, r.value.year)
  {
    match RawRegPos(text, raw)
    case None =>
    case Some(pos) =>
      var window := CarWindow(text, pos);
      var probe := AnyYearProbe(window);
      match Search(window, probe)
      case None =>
      case Some(year) =>
        var k :| FirstMatch(window, probe, k, year);
        assert YearAt(window, k, AnyDigit) == Some(year);
  }

  /** The record the table sweep builds: make and model stripped, then the year. */
  function TableRecord(text: string, reg: string, f: TableFind): Record {
    Record(reg, "bil", Strip(f.brand + " " + f.model) + " " + f.year, Coverage,
           Leasing(f.window, text, reg), "", Bonus(text, reg), "")
  }

  /**
   * The record of a swept registration, keyed by its registration key for the `seen` check; none
   * when the lookup finds nothing.
   */
  function TableCandidate(text: string): string -> Option<Keyed<Record>> {
    (raw: string) =>
      var reg := RemoveWhitespace(raw);
      match TableLookup(text, raw)
      case None => None
      case Some(f) => Some(Keyed(reg, TableRecord(text, reg, f)))
  }

  /**
   * `f"{brand} {model}".strip()` for a make without outer whitespace and a stripped model: the
   * make alone when the model is empty, otherwise make, space, model.
   */
  lemma TableMakeModel(brand: string, model: string)
    requires brand != "" && Stripped(brand) && Stripped(model)
    ensures Strip(brand + " " + model) == if model == "" then brand else brand + " " + model
  {
    var s := brand + " " + model;
    if model == "" {
      var r := Strip(s);
      assert s[0] == brand[0];
      assert WsEnd(s, 0) == 0;
      assert s[|brand| - 1] == brand[|brand| - 1];
      assert r == s[..|brand|] == brand;
    } else {
      assert s[0] == brand[0] && s[|s| - 1] == model[|model| - 1];
    }
  }

  /**
   * A swept registration gives a record exactly when the lookup finds one, keyed by the
   * registration it holds: the capture without its whitespace, which is a registration; type
   * `bil`; the make, the model when there is one, and the year; coverage `kasko`; no mileage or
   * deductible; a leasing value that is empty or a company name; a formatted bonus.
   */
  lemma TableRecordSpec(text: string, raw: string)
    requires IsTableRegistration(raw)
    ensures var c := TableCandidate(text)(raw);
      && (c.Some? <==> TableLookup(text, raw).Some?)
      && (c.Some? ==>
            var f := TableLookup(text, raw).value;
            var r := c.value.item;
            && c.value.key == r.registration == RemoveWhitespace(raw) && IsRegistration(r.registration)
            && r.vehicleType == "bil" && r.coverage == Coverage && r.annualMileage == "" && r.deductible == ""
            && r.makeModelYear == (if f.model == "" then f.brand else f.brand + " " + f.model) + " " + f.year
            && (r.leasing == "" || IsLenderName(r.leasing))
            && IsBonus(r.bonus))
  {
    NormalizeRegistration(raw);
    match TableLookup(text, raw)
    case None =>
    case Some(f) =>
      TableLookupSpec(text, raw);
      CarBrandsStripped();
      TableMakeModel(f.brand, f.model);
      var reg := RemoveWhitespace(raw);
      LeasingSpec(f.window, text, reg);
      BonusSpec(text, reg);
  }

  /**
   * The brand loop of the table sweep: the first make that occurs in the window, and the model
   * after it (`""` when the model pattern does not match).
   */
  method FindMakeAndModel(window: string, brands: seq<string>) returns (brand: Option<string>, model: string)
    ensures brand == FirstBrand(window, brands)
    ensures model == if brand.Some? then ModelAfter(window, brand.value) else ""
  {
    brand := None;
    model := "";
    var i := 0;
    while i < |brands|
      invariant i <= |brands|
      invariant FirstBrand(window, brands) == FirstBrand(window, brands[i..])
    {
      assert brands[i..][1..] == brands[i + 1..];
      if Contains(window, brands[i]) {
        brand := Some(brands[i]);
        model := ModelAfter(window, brands[i]);
        return;
      }
      i := i + 1;
    }
  }

  /** The body of the table loop after the duplicate check: locate, look around, and decide. */
  method LookUpTable(text: string, raw: string) returns (found: Option<TableFind>)
    ensures found == TableLookup(text, raw)
  {
    var pos := RawRegPos(text, raw);
    if pos.None? {
      return None;
    }
    var window := CarWindow(text, pos.value);
    var brand, model := FindMakeAndModel(window, CarBrands);
    var year := Search(window, AnyYearProbe(window));
    if brand.Some? && year.Some? {
      found := Some(TableFind(brand.value, model, year.value, window));
    } else {
      found := None;
    }
  }

  /**
   * The format-2 loop of `_extract_registered_cars`: for every swept registration whose key is not
   * yet in the set and around which a make and a year are found, the record, and the key added.
   */
  method ExtractTableCars(text: string, regs: seq<string>, seen0: set<string>)
    returns (cars: seq<Record>, seen: set<string>)
    ensures cars == Items(Collect(regs, TableCandidate(text), seen0))
    ensures seen == seen0 + Keys(Collect(regs, TableCandidate(text), seen0))
  {
    cars := [];
    seen := seen0;
    var i := 0;
    assert Collect(regs[..0], TableCandidate(text), seen0) == [];
    while i < |regs|
      invariant i <= |regs|
      invariant cars == Items(Collect(regs[..i], TableCandidate(text), seen0))
      invariant seen == seen0 + Keys(Collect(regs[..i], TableCandidate(text), seen0))
    {
      var raw := regs[i];
      var reg := RemoveWhitespace(raw);
      DedupAdvance(regs, i, TableCandidate(text), seen0, cars, seen, reg);
      if reg !in seen {
        var found := LookUpTable(text, raw);
        if found.Some? {
          var f := found.value;
          seen := seen + {reg};
          var leasing := Leasing(f.window, text, reg);
          var bonus := Bonus(text, reg);
          var makeModel := Strip(f.brand + " " + f.model);
          cars := cars + [Record(reg, "bil", makeModel + " " + f.year, Coverage, leasing, "", bonus, "")];
        }
      }
      i := i + 1;
    }
    assert regs[..i] == regs;
  }

  // ---------------------------------------------------------------------------------------------
  // Unregistered machines

  /**
   * One match of a machine pattern: the model capture, the year capture (None when the optional
   * year group did not take part) and where the match starts.
   */
  datatype MachineMatch = MachineMatch(model: string, year: Option<string>, pos: nat)

  /**
   * The matches for one brand: of the `Uregistrert.*?{brand}…` pattern (IGNORECASE and DOTALL) and
   * of the `traktor.*?{brand}…` pattern (IGNORECASE), in the order `re.finditer` yields them.
   */
  datatype BrandMatches = BrandMatches(uregistrert: seq<MachineMatch>, traktor: seq<MachineMatch>)

  /** What the patterns guarantee about a year capture. */
  predicate YearCaptureOk(m: MachineMatch) {
    m.year.Some? ==> IsYear(m.year.value)
  }

  /** `\s*-\s*Uregistrert.*$` (IGNORECASE) tried at `k`; the value is where the match ends. */
  function UregTailAt(t: string, k: nat): (r: Option<nat>)
    ensures r.Some? ==> k < r.value <= |t|
  {
    var a := WsEnd(t, k);
    if a < |t| && t[a] == '-' && StartsAtCI(t, WsEnd(t, a + 1), "uregistrert") then
      DollarEnd(t, WsEnd(t, a + 1) + 11)
    else None
  }

  /** `re.sub(r'\s*-\s*Uregistrert.*$', '', t, flags=re.I)`. */
  function CutUregTail(t: string): (r: string)
    ensures |r| <= |t|
  {
    SubAll(t, (k: nat) => UregTailAt(t, k), 0)
  }

  /**
   * `\s*\n.*$` tried at `k`: the greedy `\s*` gives back whitespace until a line break comes next
   * and `.*$` can end the match after it; the value is where the match ends.
   */
  function LineTailAt(t: string, k: nat): (r: Option<nat>)
    ensures r.Some? ==> k < r.value <= |t|
  {
    match FindLast(k, WsEnd(t, k), (q: nat) => q < |t| && t[q] == '\n' && DollarEnd(t, q + 1).Some?)
    case None => None
    case Some(q) => DollarEnd(t, q + 1)
  }

  /** `re.sub(r'\s*\n.*$', '', t)`. */
  function CutLineTail(t: string): (r: string)
    ensures |r| <= |t|
  {
    SubAll(t, (k: nat) => LineTailAt(t, k), 0)
  }

  /**
   * The words after which the first machine pattern's clean-up cuts: `arb\.?`, `maskin`, `og`, `as`,
   * `asa`. The optional dot changes nothing, because `.*$` follows.
   */
  const UregistrertStops: seq<string> := ["arb", "maskin", "og", "as", "asa"]

  /** The words after which the second machine pattern's clean-up cuts. */
  const TraktorStops: seq<string> := ["arb", "maskin", "og"]

  /** A clean-up substitution `re.sub(pattern, '', model)` of the machine loops. */
  datatype Cleanup =
    | UregTail                                      // `\s*-\s*Uregistrert.*$`, IGNORECASE
    | WordTail(words: seq<string>, ci: bool)        // `\s+(w1|w2|…).*$`
    | LineTail                                      // `\s*\n.*$`

  function Cut(t: string, c: Cleanup): (r: string)
    ensures |r| <= |t|
  {
    match c
    case UregTail => CutUregTail(t)
    case WordTail(words, ci) => CutWordTail(t, words, ci)
    case LineTail => CutLineTail(t)
  }

  /** The clean-ups in order, each followed by `strip()`. */
  function CleanModel(model: string, steps: seq<Cleanup>): (r: string)
    ensures |r| <= |model|
    ensures steps != [] ==> Stripped(r)
    decreases steps
  {
    if steps == [] then model else CleanModel(Strip(Cut(model, steps[0])), steps[1..])
  }

  /** The model of a `Uregistrert` match: the stripped capture, then three clean-ups. */
  function UregistrertModel(raw: string): string {
    CleanModel(Strip(raw), [UregTail, WordTail(UregistrertStops, true), LineTail])
  }

  /** The model of a `traktor` match: the stripped capture, then two clean-ups. */
  function TraktorModel(raw: string): string {
    CleanModel(Strip(raw), [UregTail, WordTail(TraktorStops, true)])
  }

  /**
   * The year of a `Uregistrert` match: the captured year, else the first free-standing `20xx` in
   * the 200 characters from the match start, else `"2024"`.
   */
  function UregistrertYear(text: string, m: MachineMatch): string {
    if m.year.Some? && m.year.value != "" then m.year.value
    else
      var window := Slice(text, m.pos, m.pos + 200);
      match Search(window, AnyYearProbe(window))
      case Some(y) => y
      case None => "2024"
  }

  /** The year of a `traktor` match: the captured year, else `"2024"`. */
  function TraktorYear(m: MachineMatch): string {
    if m.year.Some? && m.year.value != "" then m.year.value else "2024"
  }

  /**
   * Without a captured year the `Uregistrert` pattern looks at the next 200 characters before it
   * falls back to `"2024"`; the `traktor` pattern falls back at once. Either way the year is a year
   * when the capture is.
   */
  lemma MachineYearSpec(text: string, m: MachineMatch)
    requires YearCaptureOk(m)
    ensures IsYear(UregistrertYear(text, m)) && IsYear(TraktorYear(m))
    ensures m.year.Some? ==> UregistrertYear(text, m) == TraktorYear(m) == m.year.value
    ensures m.year.None? ==> TraktorYear(m) == "2024"
    ensures m.year.None? ==> var window := Slice(text, m.pos, m.pos + 200);
      && (m.pos <= |text| ==> window == text[m.pos..if m.pos + 200 < |text| then m.pos + 200 else |text|])
      && (!Matches(window, AnyYearProbe(window)) ==> UregistrertYear(text, m) == "2024")
      && (Matches(window, AnyYearProbe(window)) ==>
            exists k :: FirstMatch(window, AnyYearProbe(window), k, UregistrertYear(text, m)))
  {
    if m.year.None? {
      var window := Slice(text, m.pos, m.pos + 200);
      var probe := AnyYearProbe(window);
      match Search(window, probe)
      case None =>
      case Some(y) =>
        var k :| FirstMatch(window, probe, k, y);
        assert YearAt(window, k, AnyDigit) == Some(y);
    }
  }

  /** An unregistered machine: brand, cleaned model, year. */
  datatype Machine = Machine(brand: string, model: string, year: string)

  /** `f"{brand.lower()}_{model.lower()}_{year}"`, the key machines are deduplicated by. */
  function MachineKey(brand: string, model: string, year: string): string {
    LowerStr(brand) + "_" + LowerStr(model) + "_" + year
  }

  /** One match of one brand's patterns, in loop order. */
  datatype MachineVisit = MachineVisit(brand: string, viaTraktor: bool, m: MachineMatch)

  /**
   * The candidate a match yields: the cleaned model and the year for its pattern, keyed by
   * `MachineKey`; none when the model is shorter than two characters.
   */
  function Candidate(text: string, v: MachineVisit): Option<Keyed<Machine>> {
    var model := if v.viaTraktor then TraktorModel(v.m.model) else UregistrertModel(v.m.model);
    var year := if v.viaTraktor then TraktorYear(v.m) else UregistrertYear(text, v.m);
    if |model| < 2 then None
    else Some(Keyed(MachineKey(v.brand, model, year), Machine(v.brand, model, year)))
  }

  function MachineCandidate(text: string): MachineVisit -> Option<Keyed<Machine>> {
    (v: MachineVisit) => Candidate(text, v)
  }

  /** The record of an unregistered machine. */
  function MachineRecord(mc: Machine): Record {
    Record("Uregistrert", "traktor", mc.brand + " " + mc.model + " " + mc.year, Coverage, "", "", "", "")
  }

  /** The matches of one pattern of one brand, in the order `re.finditer` yields them. */
  function PatternVisits(brand: string, viaTraktor: bool, ms: seq<MachineMatch>): (r: seq<MachineVisit>)
    ensures |r| == |ms| && forall j :: 0 <= j < |ms| ==> r[j] == MachineVisit(brand, viaTraktor, ms[j])
  {
    seq(|ms|, j requires 0 <= j < |ms| => MachineVisit(brand, viaTraktor, ms[j]))
  }

  /** The matches of one brand in loop order: the `Uregistrert` ones, then the `traktor` ones. */
  function BrandVisits(brand: string, bm: BrandMatches): seq<MachineVisit> {
    PatternVisits(brand, false, bm.uregistrert) + PatternVisits(brand, true, bm.traktor)
  }

  /** The matches of the first `n` brands, in loop order. */
  function VisitsUpTo(found: seq<BrandMatches>, n: nat): seq<MachineVisit>
    requires n <= |found| && n <= |MachineBrands|
  {
    if n == 0 then [] else VisitsUpTo(found, n - 1) + BrandVisits(MachineBrands[n - 1], found[n - 1])
  }

  /** `vehicles` holds the records of the kept machines, in their order. */
  predicate MachineRecordsOf(kept: seq<Machine>, vehicles: seq<Record>) {
    |vehicles| == |kept| && forall k :: 0 <= k < |kept| ==> vehicles[k] == MachineRecord(kept[k])
  }

  /**
   * A machine loop with candidates `f` that started with the keys `seen0`, after the first `i`
   * matches of `xs`: `added` holds the records it appended and `seen` the keys it has seen.
   */
  predicate MachineLoop(f: MachineVisit -> Option<Keyed<Machine>>, xs: seq<MachineVisit>, seen0: set<string>, i: nat,
                        added: seq<Record>, seen: set<string>) {
    && i <= |xs|
    && seen == seen0 + Keys(Collect(xs[..i], f, seen0))
    && MachineRecordsOf(Items(Collect(xs[..i], f, seen0)), added)
  }

  /** One iteration: no candidate or a seen key is skipped; otherwise the record and key are added. */
  lemma {:induction false} MachineStep(f: MachineVisit -> Option<Keyed<Machine>>, xs: seq<MachineVisit>, seen0: set<string>, i: nat,
                    added: seq<Record>, seen: set<string>)
    requires i < |xs| && MachineLoop(f, xs, seen0, i, added, seen)
    ensures var c := f(xs[i]);
      c.None? || c.value.key in seen ==> MachineLoop(f, xs, seen0, i + 1, added, seen)
    ensures var c := f(xs[i]);
      c.Some? && c.value.key !in seen ==>
        MachineLoop(f, xs, seen0, i + 1, added + [MachineRecord(c.value.item)], seen + {c.value.key})
  {
    var c := f(xs[i]);
    var kept := Items(Collect(xs[..i], f, seen0));
    var key := if c.Some? then c.value.key else "";
    DedupAdvance(xs, i, f, seen0, kept, seen, key);
    if c.Some? && key !in seen {
      var vs := added + [MachineRecord(c.value.item)];
      assert Items(Collect(xs[..i + 1], f, seen0)) == kept + [c.value.item];
      forall k | 0 <= k < |kept| + 1 ensures vs[k] == MachineRecord((kept + [c.value.item])[k]) {
        if k < |kept| {
          assert vs[k] == added[k];
        }
      }
    }
  }

  lemma {:induction false} MachineRecordsAppend(a: seq<Machine>, b: seq<Machine>, v: seq<Record>, w: seq<Record>)
    requires MachineRecordsOf(a, v) && MachineRecordsOf(b, w)
    ensures MachineRecordsOf(a + b, v + w)
  {
    forall k | 0 <= k < |a| + |b| ensures (v + w)[k] == MachineRecord((a + b)[k]) {
      if k >= |a| {
        assert (v + w)[k] == w[k - |a|];
      }
    }
  }

  /** A loop over `ys` that starts with the keys seen over `xs` continues the loop over `xs + ys`. */
  lemma {:induction false} MachineAppend(f: MachineVisit -> Option<Keyed<Machine>>, xs: seq<MachineVisit>, ys: seq<MachineVisit>,
                      seen0: set<string>, vehicles: seq<Record>, seen: set<string>, added: seq<Record>, seen2: set<string>)
    requires MachineLoop(f, xs, seen0, |xs|, vehicles, seen)
    requires MachineLoop(f, ys, seen, |ys|, added, seen2)
    ensures MachineLoop(f, xs + ys, seen0, |xs + ys|, vehicles + added, seen2)
  {
    var first := Collect(xs, f, seen0);
    var second := Collect(ys, f, seen);
    assert xs[..|xs|] == xs && ys[..|ys|] == ys && (xs + ys)[..|xs + ys|] == xs + ys;
    CollectAppend(xs, ys, f, seen0);
    assert Collect(xs + ys, f, seen0) == first + second;
    KeysAppend(first, second);
    ItemsAppend(first, second);
    MachineRecordsAppend(Items(first), Items(second), vehicles, added);
  }

  /** The `Uregistrert` loop of one brand, starting with the keys `seen0`. */
  method ScanUregistrert(text: string, brand: string, ms: seq<MachineMatch>, seen0: set<string>)
    returns (added: seq<Record>, seen: set<string>)
    ensures MachineLoop(MachineCandidate(text), PatternVisits(brand, false, ms), seen0, |ms|, added, seen)
  {
    ghost var xs := PatternVisits(brand, false, ms);
    added, seen := [], seen0;
    assert Collect(xs[..0], MachineCandidate(text), seen0) == [];
    var j := 0;
    while j < |ms|
      invariant j <= |ms| && MachineLoop(MachineCandidate(text), xs, seen0, j, added, seen)
    {
      var m := ms[j];
      MachineStep(MachineCandidate(text), xs, seen0, j, added, seen);
      var model := UregistrertModel(m.model);
      var year := UregistrertYear(text, m);
      if |model| >= 2 {
        var key := MachineKey(brand, model, year);
        if key !in seen {
          seen := seen + {key};
          added := added + [MachineRecord(Machine(brand, model, year))];
        }
      }
      j := j + 1;
    }
  }

  /** The `traktor` loop of one brand, starting with the keys `seen0`. */
  method ScanTraktor(text: string, brand: string, ms: seq<MachineMatch>, seen0: set<string>)
    returns (added: seq<Record>, seen: set<string>)
    ensures MachineLoop(MachineCandidate(text), PatternVisits(brand, true, ms), seen0, |ms|, added, seen)
  {
    ghost var xs := PatternVisits(brand, true, ms);
    added, seen := [], seen0;
    assert Collect(xs[..0], MachineCandidate(text), seen0) == [];
    var j := 0;
    while j < |ms|
      invariant j <= |ms| && MachineLoop(MachineCandidate(text), xs, seen0, j, added, seen)
    {
      var m := ms[j];
      MachineStep(MachineCandidate(text), xs, seen0, j, added, seen);
      var model := TraktorModel(m.model);
      var year := TraktorYear(m);
      if |model| >= 2 {
        var key := MachineKey(brand, model, year);
        if key !in seen {
          seen := seen + {key};
          added := added + [MachineRecord(Machine(brand, model, year))];
        }
      }
      j := j + 1;
    }
  }

  /** The two loops of one brand, starting with the keys `seen0`. */
  method ScanBrand(text: string, brand: string, bm: BrandMatches, seen0: set<string>)
    returns (added: seq<Record>, seen: set<string>)
    ensures MachineLoop(MachineCandidate(text), BrandVisits(brand, bm), seen0, |BrandVisits(brand, bm)|, added, seen)
  {
    var added1, seen1 := ScanUregistrert(text, brand, bm.uregistrert, seen0);
    var added2, seen2 := ScanTraktor(text, brand, bm.traktor, seen1);
    MachineAppend(MachineCandidate(text), PatternVisits(brand, false, bm.uregistrert), PatternVisits(brand, true, bm.traktor),
                  seen0, added1, seen1, added2, seen2);
    added, seen := added1 + added2, seen2;
  }

  /**
   * `_extract_unregistered_tractors`: for every brand, the matches of the `Uregistrert` pattern and
   * then of the `traktor` pattern; a match whose cleaned model has at least two characters and
   * whose key was not seen adds its record.
   */
  method ExtractUnregisteredTractors(text: string, found: seq<BrandMatches>) returns (vehicles: seq<Record>)
    requires |found| == |MachineBrands|
    ensures MachineRecordsOf(Items(Collect(VisitsUpTo(found, |found|), MachineCandidate(text), {})), vehicles)
  {
    vehicles := [];
    var seen: set<string> := {};
    var b := 0;
    assert Collect(VisitsUpTo(found, 0)[..0], MachineCandidate(text), {}) == [];
    while b < |MachineBrands|
      invariant b <= |MachineBrands|
      invariant MachineLoop(MachineCandidate(text), VisitsUpTo(found, b), {}, |VisitsUpTo(found, b)|, vehicles, seen)
    {
      var added, seen1 := ScanBrand(text, MachineBrands[b], found[b], seen);
      MachineAppend(MachineCandidate(text), VisitsUpTo(found, b), BrandVisits(MachineBrands[b], found[b]), {},
                    vehicles, seen, added, seen1);
      vehicles, seen := vehicles + added, seen1;
      b := b + 1;
    }
    ghost var xs := VisitsUpTo(found, |found|);
    assert xs[..|xs|] == xs;
  }

  /** Every year capture of every match is a year. */
  predicate YearsOk(found: seq<BrandMatches>) {
    forall b :: 0 <= b < |found| ==>
      && (forall j :: 0 <= j < |found[b].uregistrert| ==> YearCaptureOk(found[b].uregistrert[j]))
      && (forall j :: 0 <= j < |found[b].traktor| ==> YearCaptureOk(found[b].traktor[j]))
  }

  /** Every visit is of a machine brand, and of a match of `found`. */
  lemma {:induction false} VisitsUpToOrigin(found: seq<BrandMatches>, n: nat)
    requires n <= |found| && n <= |MachineBrands|
    ensures forall k :: 0 <= k < |VisitsUpTo(found, n)| ==>
      VisitsUpTo(found, n)[k].brand in MachineBrands && (YearsOk(found) ==> YearCaptureOk(VisitsUpTo(found, n)[k].m))
  {
    if n > 0 {
      VisitsUpToOrigin(found, n - 1);
      var prev := VisitsUpTo(found, n - 1);
      var brand := MachineBrands[n - 1];
      var u := PatternVisits(brand, false, found[n - 1].uregistrert);
      var t := PatternVisits(brand, true, found[n - 1].traktor);
      assert VisitsUpTo(found, n) == prev + (u + t);
      forall k | 0 <= k < |VisitsUpTo(found, n)|
        ensures VisitsUpTo(found, n)[k].brand in MachineBrands && (YearsOk(found) ==> YearCaptureOk(VisitsUpTo(found, n)[k].m))
      {
        if k >= |prev| + |u| {
          assert VisitsUpTo(found, n)[k] == t[k - |prev| - |u|];
        } else if k >= |prev| {
          assert VisitsUpTo(found, n)[k] == u[k - |prev|];
        } else {
          assert VisitsUpTo(found, n)[k] == prev[k];
        }
      }
    }
  }

  /**
   * A candidate is a machine of the visit's brand whose model has at least two characters and no
   * outer whitespace; its year is a year when the year capture is one.
   */
  lemma CandidateSpec(text: string, v: MachineVisit)
    ensures var c := Candidate(text, v);
      c.Some? ==>
        && c.value.item.brand == v.brand
        && |c.value.item.model| >= 2 && Stripped(c.value.item.model)
        && c.value.key == MachineKey(v.brand, c.value.item.model, c.value.item.year)
        && (YearCaptureOk(v.m) ==> IsYear(c.value.item.year))
  {
    if YearCaptureOk(v.m) {
      MachineYearSpec(text, v.m);
    }
  }

  /**
   * What the machine loop guarantees: no two records share brand, model (ignoring case) and year;
   * each record is the candidate of some match, of a machine brand, with a model of two characters
   * or more and no outer whitespace, and with a year that is a year when every year capture is.
   */
  lemma {:induction false} MachinesSpec(text: string, found: seq<BrandMatches>, vehicles: seq<Record>)
    requires |found| == |MachineBrands|
    requires MachineRecordsOf(Items(Collect(VisitsUpTo(found, |found|), MachineCandidate(text), {})), vehicles)
    ensures var kept := Items(Collect(VisitsUpTo(found, |found|), MachineCandidate(text), {}));
      forall i, j :: 0 <= i < j < |kept| ==>
        MachineKey(kept[i].brand, kept[i].model, kept[i].year) != MachineKey(kept[j].brand, kept[j].model, kept[j].year)
    ensures var kept := Items(Collect(VisitsUpTo(found, |found|), MachineCandidate(text), {}));
      forall i :: 0 <= i < |kept| ==>
        && vehicles[i] == MachineRecord(kept[i])
        && kept[i].brand in MachineBrands && |kept[i].model| >= 2 && Stripped(kept[i].model)
        && (YearsOk(found) ==> IsYear(kept[i].year))
  {
    var xs := VisitsUpTo(found, |found|);
    var f := MachineCandidate(text);
    var out := Collect(xs, f, {});
    var kept := Items(out);
    VisitsUpToOrigin(found, |found|);
    var p := (c: Keyed<Machine>) =>
      && c.key == MachineKey(c.item.brand, c.item.model, c.item.year)
      && c.item.brand in MachineBrands && |c.item.model| >= 2 && Stripped(c.item.model)
      && (YearsOk(found) ==> IsYear(c.item.year));
    forall j | 0 <= j < |xs| && f(xs[j]).Some? ensures p(f(xs[j]).value) {
      CandidateSpec(text, xs[j]);
    }
    CollectAll(xs, f, {}, p);
    CollectDistinct(xs, f, {});
  }

  /** For every key, the first match that yields it is the one whose record is kept. */
  lemma {:induction false} MachineFirstKept(text: string, found: seq<BrandMatches>, vehicles: seq<Record>, j: nat)
    requires |found| == |MachineBrands|
    requires MachineRecordsOf(Items(Collect(VisitsUpTo(found, |found|), MachineCandidate(text), {})), vehicles)
    requires j < |VisitsUpTo(found, |found|)| && FirstWithKey(VisitsUpTo(found, |found|), MachineCandidate(text), j)
    ensures MachineRecord(Candidate(text, VisitsUpTo(found, |found|)[j]).value.item) in vehicles
  {
    var xs := VisitsUpTo(found, |found|);
    var f := MachineCandidate(text);
    var out := Collect(xs, f, {});
    CollectFirst(xs, f, {}, j);
    var i :| 0 <= i < |out| && out[i] == f(xs[j]).value;
    assert vehicles[i] == MachineRecord(Items(out)[i]);
  }

  // ---------------------------------------------------------------------------------------------
  // The extractor

  /**
   * The registered-car records: those of the kept inline lines and then those of the kept table
   * registrations, the table loop starting from the keys the inline loop left.
   */
  function RegisteredCars(text: string, lines: seq<CarLine>, regs: seq<string>, seen0: set<string>): seq<Record> {
    var inline := Collect(lines, InlineCandidate(text), seen0);
    Items(inline) + Items(Collect(regs, TableCandidate(text), seen0 + Keys(inline)))
  }

  /**
   * `_extract_registered_cars`: the inline loop and then the table loop, sharing the caller's set
   * of registration keys, which ends up holding every emitted key.
   */
  method ExtractRegisteredCars(text: string, lines: seq<CarLine>, regs: seq<string>, seen0: set<string>)
    returns (cars: seq<Record>, seen: set<string>)
    ensures cars == RegisteredCars(text, lines, regs, seen0)
    ensures var inline := Collect(lines, InlineCandidate(text), seen0);
      seen == seen0 + Keys(inline) + Keys(Collect(regs, TableCandidate(text), seen0 + Keys(inline)))
  {
    var inlineCars, seen1 := ExtractInlineCars(text, lines, seen0);
    var tableCars;
    tableCars, seen := ExtractTableCars(text, regs, seen1);
    cars := inlineCars + tableCars;
  }

  /** Kept records: each under its registration, no key twice and none from `seen`. */
  predicate KeptByRegistration(out: seq<Keyed<Record>>, seen: set<string>) {
    && (forall i :: 0 <= i < |out| ==> out[i].key == out[i].item.registration && out[i].key !in seen)
    && (forall i, j :: 0 <= i < j < |out| ==> out[i].key != out[j].key)
  }

  /** The inline loop keeps each record under its registration, and every key once. */
  lemma {:induction false} InlineKept(text: string, lines: seq<CarLine>, seen: set<string>)
    ensures KeptByRegistration(Collect(lines, InlineCandidate(text), seen), seen)
  {
    CollectDistinct(lines, InlineCandidate(text), seen);
    CollectAll(lines, InlineCandidate(text), seen, (c: Keyed<Record>) => c.key == c.item.registration);
  }

  /** The table loop keeps each record under its registration, and every key once. */
  lemma {:induction false} TableKept(text: string, regs: seq<string>, seen: set<string>)
    ensures KeptByRegistration(Collect(regs, TableCandidate(text), seen), seen)
  {
    var f := TableCandidate(text);
    forall j | 0 <= j < |regs| && f(regs[j]).Some? ensures f(regs[j]).value.key == f(regs[j]).value.item.registration {
    }
    CollectDistinct(regs, f, seen);
    CollectAll(regs, f, seen, (c: Keyed<Record>) => c.key == c.item.registration);
  }

  /** Two kept parts, the second started from the first's keys: the registrations are distinct. */
  lemma {:induction false} KeyedRecordsDistinct(a: seq<Keyed<Record>>, b: seq<Keyed<Record>>, seen0: set<string>)
    requires KeptByRegistration(a, seen0) && KeptByRegistration(b, seen0 + Keys(a))
    ensures var cars := Items(a) + Items(b);
      && (forall i, j :: 0 <= i < j < |cars| ==> cars[i].registration != cars[j].registration)
      && (forall i :: 0 <= i < |cars| ==> cars[i].registration !in seen0)
  {
    var cars := Items(a) + Items(b);
    assert forall i :: 0 <= i < |a| ==> cars[i] == a[i].item;
    assert forall i :: |a| <= i < |cars| ==> cars[i] == b[i - |a|].item;
    forall i, j | 0 <= i < j < |cars| ensures cars[i].registration != cars[j].registration {
      if i < |a| && j >= |a| {
        assert a[i].key in Keys(a);
      }
    }
  }

  /** No registration is emitted twice, and none the caller had already seen. */
  lemma {:induction false} RegisteredCarsDistinct(text: string, lines: seq<CarLine>, regs: seq<string>, seen0: set<string>)
    ensures var cars := RegisteredCars(text, lines, regs, seen0);
      && (forall i, j :: 0 <= i < j < |cars| ==> cars[i].registration != cars[j].registration)
      && (forall i :: 0 <= i < |cars| ==> cars[i].registration !in seen0)
  {
    var inline := Collect(lines, InlineCandidate(text), seen0);
    InlineKept(text, lines, seen0);
    TableKept(text, regs, seen0 + Keys(inline));
    KeyedRecordsDistinct(inline, Collect(regs, TableCandidate(text), seen0 + Keys(inline)), seen0);
  }

  /** For every key not seen before, the record of the first inline line with that key is emitted. */
  lemma {:induction false} InlineFirstKept(text: string, lines: seq<CarLine>, regs: seq<string>, seen0: set<string>, j: nat)
    requires j < |lines| && FirstWithKey(lines, InlineCandidate(text), j) && Plate(lines[j].reg) !in seen0
    ensures InlineRecord(text, lines[j]) in RegisteredCars(text, lines, regs, seen0)
  {
    var inline := Collect(lines, InlineCandidate(text), seen0);
    CollectFirst(lines, InlineCandidate(text), seen0, j);
    var i :| 0 <= i < |inline| && inline[i] == InlineCandidate(text)(lines[j]).value;
    assert RegisteredCars(text, lines, regs, seen0)[i] == Items(inline)[i];
  }

  /**
   * The records of `extract_gjensidige_vehicles`: the registered cars, started from an empty set,
   * then the unregistered machines.
   */
  predicate GjensidigeVehiclesOf(text: string, lines: seq<CarLine>, regs: seq<string>, found: seq<BrandMatches>,
                                 vehicles: seq<Record>)
    requires |found| == |MachineBrands|
  {
    var cars := RegisteredCars(text, lines, regs, {});
    && |cars| <= |vehicles|
    && vehicles[..|cars|] == cars
    && MachineRecordsOf(Items(Collect(VisitsUpTo(found, |found|), MachineCandidate(text), {})), vehicles[|cars|..])
  }

  /**
   * `extract_gjensidige_vehicles`: the registered cars and then the unregistered machines. The
   * inline lines, the registrations of the table sweep and each brand's machine matches are what
   * the source's `re.finditer`/`re.findall` calls yield.
   */
  method ExtractGjensidigeVehicles(text: string, lines: seq<CarLine>, regs: seq<string>, found: seq<BrandMatches>)
    returns (vehicles: seq<Record>)
    requires |found| == |MachineBrands|
    ensures GjensidigeVehiclesOf(text, lines, regs, found, vehicles)
  {
    var cars, _ := ExtractRegisteredCars(text, lines, regs, {});
    var tractors := ExtractUnregisteredTractors(text, found);
    vehicles := cars + tractors;
    assert vehicles[..|cars|] == cars && vehicles[|cars|..] == tractors;
  }
}
