/**
 * The simpler Gjensidige extractor of `app_modules/Sheets/Fordon/extractors/gjensidige-extractor.py`:
 * only the inline car lines (`BRAND model 20xx AB 12345`), then unregistered machines from one
 * pattern per brand, `Uregistrert.*?{brand}\s+([0-9A-Z\s]+?)(?:\s+(20\d{2}))?(?:\s*-|\n|$)`, with
 * no year scan and no minimum model length. The inline loop, the leasing and bonus lookups, the
 * machine key and the machine record are line for line those of `gjensidige.py` and are taken
 * from `Gjensidige`; so are the model clean-ups (strip, `\s*-\s*Uregistrert.*$`,
 * `\s+(arb|maskin|og).*$`) and the year default, which are those of its `traktor` pattern.
 */
module GjensidigeSimple {
  import opened Wrappers
  import opened Text
  import opened Scan
  import opened Dedup
  import opened Vehicle
  import opened Gjensidige

  /**
   * The candidate of a match: the stripped capture with its two clean-ups, the captured year or
   * `"2024"`, keyed by `brand_model_year`. Every match yields one, however short its model.
   */
  function SimpleCandidate(v: MachineVisit): (r: Option<Keyed<Machine>>)
    ensures r.Some? && r.value.item.brand == v.brand
    ensures r.value.key == MachineKey(v.brand, r.value.item.model, r.value.item.year)
  {
    var model := TraktorModel(v.m.model);
    var year := TraktorYear(v.m);
    Some(Keyed(MachineKey(v.brand, model, year), Machine(v.brand, model, year)))
  }

  /** The matches of one brand's pattern; the visits carry `viaTraktor == false`, which is not consulted. */
  function SimpleBrandVisits(brand: string, ms: seq<MachineMatch>): seq<MachineVisit> {
    PatternVisits(brand, false, ms)
  }

  /** The matches of the first `n` brands, in loop order. */
  function SimpleVisitsUpTo(found: seq<seq<MachineMatch>>, n: nat): seq<MachineVisit>
    requires n <= |found| && n <= |MachineBrands|
  {
    if n == 0 then [] else SimpleVisitsUpTo(found, n - 1) + SimpleBrandVisits(MachineBrands[n - 1], found[n - 1])
  }

  /** The loop over one brand's matches, starting with the keys `seen0`. */
  method ScanBrandSimple(brand: string, ms: seq<MachineMatch>, seen0: set<string>)
    returns (added: seq<Record>, seen: set<string>)
    ensures MachineLoop(SimpleCandidate, SimpleBrandVisits(brand, ms), seen0, |ms|, added, seen)
  {
    ghost var xs := SimpleBrandVisits(brand, ms);
    added, seen := [], seen0;
    assert Collect(xs[..0], SimpleCandidate, seen0) == [];
    var j := 0;
    while j < |ms|
      invariant j <= |ms| && MachineLoop(SimpleCandidate, xs, seen0, j, added, seen)
    {
      var m := ms[j];
      MachineStep(SimpleCandidate, xs, seen0, j, added, seen);
      var model := TraktorModel(m.model);
      var year := TraktorYear(m);
      var key := MachineKey(brand, model, year);
      if key !in seen {
        seen := seen + {key};
        added := added + [MachineRecord(Machine(brand, model, year))];
      }
      j := j + 1;
    }
  }

  /**
   * `_extract_unregistered_tractors` of the simple variant: for every brand, the matches of its
   * pattern; a match whose key was not seen adds its record.
   */
  method ExtractUnregisteredTractors(found: seq<seq<MachineMatch>>) returns (vehicles: seq<Record>)
    requires |found| == |MachineBrands|
    ensures MachineRecordsOf(Items(Collect(SimpleVisitsUpTo(found, |found|), SimpleCandidate, {})), vehicles)
  {
    vehicles := [];
    var seen: set<string> := {};
    var b := 0;
    assert Collect(SimpleVisitsUpTo(found, 0)[..0], SimpleCandidate, {}) == [];
    while b < |MachineBrands|
      invariant b <= |MachineBrands|
      invariant MachineLoop(SimpleCandidate, SimpleVisitsUpTo(found, b), {}, |SimpleVisitsUpTo(found, b)|, vehicles, seen)
    {
      var added, seen1 := ScanBrandSimple(MachineBrands[b], found[b], seen);
      MachineAppend(SimpleCandidate, SimpleVisitsUpTo(found, b), SimpleBrandVisits(MachineBrands[b], found[b]), {},
                    vehicles, seen, added, seen1);
      vehicles, seen := vehicles + added, seen1;
      b := b + 1;
    }
    ghost var xs := SimpleVisitsUpTo(found, |found|);
    assert xs[..|xs|] == xs;
  }

  /** Every year capture of every match is a year. */
  predicate SimpleYearsOk(found: seq<seq<MachineMatch>>) {
    forall b, j :: 0 <= b < |found| && 0 <= j < |found[b]| ==> YearCaptureOk(found[b][j])
  }

  /** Every visit is of a machine brand, and its year capture is a year when all of them are. */
  lemma {:induction false} SimpleVisitsOrigin(found: seq<seq<MachineMatch>>, n: nat)
    requires n <= |found| && n <= |MachineBrands|
    ensures forall k :: 0 <= k < |SimpleVisitsUpTo(found, n)| ==>
      && SimpleVisitsUpTo(found, n)[k].brand in MachineBrands
      && (SimpleYearsOk(found) ==> YearCaptureOk(SimpleVisitsUpTo(found, n)[k].m))
  {
    if n > 0 {
      SimpleVisitsOrigin(found, n - 1);
      var prev := SimpleVisitsUpTo(found, n - 1);
      var u := SimpleBrandVisits(MachineBrands[n - 1], found[n - 1]);
      var all := SimpleVisitsUpTo(found, n);
      assert all == prev + u;
      forall k | 0 <= k < |all|
        ensures all[k].brand in MachineBrands && (SimpleYearsOk(found) ==> YearCaptureOk(all[k].m))
      {
        if k >= |prev| {
          assert all[k] == u[k - |prev|];
        } else {
          assert all[k] == prev[k];
        }
      }
    }
  }

  /**
   * A candidate is a machine of the visit's brand whose model has no outer whitespace; its year is
   * the captured one, or `"2024"` without a capture, so a year whenever the capture is one.
   */
  lemma SimpleCandidateSpec(v: MachineVisit)
    ensures var c := SimpleCandidate(v).value;
      && Stripped(c.item.model)
      && (v.m.year.Some? && v.m.year.value != "" ==> c.item.year == v.m.year.value)
      && (v.m.year.None? || v.m.year.value == "" ==> c.item.year == "2024")
      && (YearCaptureOk(v.m) ==> IsYear(c.item.year))
  {
    if YearCaptureOk(v.m) {
      MachineYearSpec("", v.m);
    }
  }

  /**
   * What the simple machine loop guarantees: no two records share brand, model (ignoring case)
   * and year; each record is of a machine brand, with a model without outer whitespace (possibly
   * empty: there is no length check), and with a year that is a year when every capture is.
   */
  lemma {:induction false} SimpleMachinesSpec(found: seq<seq<MachineMatch>>, vehicles: seq<Record>)
    requires |found| == |MachineBrands|
    requires MachineRecordsOf(Items(Collect(SimpleVisitsUpTo(found, |found|), SimpleCandidate, {})), vehicles)
    ensures var kept := Items(Collect(SimpleVisitsUpTo(found, |found|), SimpleCandidate, {}));
      forall i, j :: 0 <= i < j < |kept| ==>
        MachineKey(kept[i].brand, kept[i].model, kept[i].year) != MachineKey(kept[j].brand, kept[j].model, kept[j].year)
    ensures var kept := Items(Collect(SimpleVisitsUpTo(found, |found|), SimpleCandidate, {}));
      forall i :: 0 <= i < |kept| ==>
        && vehicles[i] == MachineRecord(kept[i])
        && kept[i].brand in MachineBrands && Stripped(kept[i].model)
        && (SimpleYearsOk(found) ==> IsYear(kept[i].year))
  {
    var xs := SimpleVisitsUpTo(found, |found|);
    var f := SimpleCandidate;
    SimpleVisitsOrigin(found, |found|);
    var p := (c: Keyed<Machine>) =>
      && c.key == MachineKey(c.item.brand, c.item.model, c.item.year)
      && c.item.brand in MachineBrands && Stripped(c.item.model)
      && (SimpleYearsOk(found) ==> IsYear(c.item.year));
    forall j | 0 <= j < |xs| && f(xs[j]).Some? ensures p(f(xs[j]).value) {
      SimpleCandidateSpec(xs[j]);
    }
    CollectAll(xs, f, {}, p);
    CollectDistinct(xs, f, {});
  }

  /**
   * Without the length check no match is dropped for its model: the key of every match, even one
   * whose cleaned model is empty, is the key of some emitted record.
   */
  lemma {:induction false} SimpleEveryKeyEmitted(found: seq<seq<MachineMatch>>, j: nat)
    requires |found| == |MachineBrands|
    requires j < |SimpleVisitsUpTo(found, |found|)|
    ensures var xs := SimpleVisitsUpTo(found, |found|);
      SimpleCandidate(xs[j]).value.key in Keys(Collect(xs, SimpleCandidate, {}))
  {
    CollectCovers(SimpleVisitsUpTo(found, |found|), SimpleCandidate, {}, j);
  }

  /**
   * The records of `extract_gjensidige_vehicles` in the simple variant: the inline cars, started
   * from an empty set, then the machines.
   */
  predicate SimpleVehiclesOf(text: string, lines: seq<CarLine>, found: seq<seq<MachineMatch>>, vehicles: seq<Record>)
    requires |found| == |MachineBrands|
  {
    var cars := Items(Collect(lines, InlineCandidate(text), {}));
    && |cars| <= |vehicles|
    && vehicles[..|cars|] == cars
    && MachineRecordsOf(Items(Collect(SimpleVisitsUpTo(found, |found|), SimpleCandidate, {})), vehicles[|cars|..])
  }

  /**
   * `extract_gjensidige_vehicles` of the simple variant: the inline car loop from an empty `seen`
   * set (its `_extract_registered_cars` is the format-1 loop of `gjensidige.py`), then the
   * machines. The inline lines and each brand's matches are what `re.finditer` yields.
   */
  method ExtractSimpleVehicles(text: string, lines: seq<CarLine>, found: seq<seq<MachineMatch>>)
    returns (vehicles: seq<Record>)
    requires |found| == |MachineBrands|
    ensures SimpleVehiclesOf(text, lines, found, vehicles)
  {
    var cars, _ := ExtractInlineCars(text, lines, {});
    var tractors := ExtractUnregisteredTractors(found);
    vehicles := cars + tractors;
    assert vehicles[..|cars|] == cars && vehicles[|cars|..] == tractors;
  }
}
