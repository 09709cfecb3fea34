/**
 * The Sammendrag (summary) sheet mapping of `app_modules/Sheets/Sammendrag/mapping.py`: the cell
 * of each field, and `transform_data`, which fills a fresh dictionary with the eight company
 * fields (with their fallbacks) and then, in two nested loops each, the twelve financial fields
 * `{key}_{year}` and their twelve `{key}_{year}_alt` copies.
 */
module SammendragMapping {
  import opened PyValue

  /** The company block of `CELL_MAP` (cells B3 to B10), in the order the literal lists it. */
  const CompanyCells: seq<(string, string)> := [
    ("company_name", "B3"), ("org_number", "B4"), ("address", "B5"), ("post_nr", "B6"), ("city", "B7"),
    ("employees", "B8"), ("nace_code", "B9"), ("nace_description", "B10")]

  /** The first financial block of `CELL_MAP` (D3 to F6). */
  const FinancialCells: seq<(string, string)> := [
    ("sum_driftsinnt_2024", "D3"), ("sum_driftsinnt_2023", "E3"), ("sum_driftsinnt_2022", "F3"),
    ("driftsresultat_2024", "D4"), ("driftsresultat_2023", "E4"), ("driftsresultat_2022", "F4"),
    ("ord_res_f_skatt_2024", "D5"), ("ord_res_f_skatt_2023", "E5"), ("ord_res_f_skatt_2022", "F5"),
    ("sum_eiendeler_2024", "D6"), ("sum_eiendeler_2023", "E6"), ("sum_eiendeler_2022", "F6")]

  /** The second financial block of `CELL_MAP` (E11 to G14): the same data in other cells. */
  const AltCells: seq<(string, string)> := [
    ("sum_driftsinnt_2024_alt", "E11"), ("sum_driftsinnt_2023_alt", "F11"), ("sum_driftsinnt_2022_alt", "G11"),
    ("driftsresultat_2024_alt", "E12"), ("driftsresultat_2023_alt", "F12"), ("driftsresultat_2022_alt", "G12"),
    ("ord_res_f_skatt_2024_alt", "E13"), ("ord_res_f_skatt_2023_alt", "F13"), ("ord_res_f_skatt_2022_alt", "G13"),
    ("sum_eiendeler_2024_alt", "E14"), ("sum_eiendeler_2023_alt", "F14"), ("sum_eiendeler_2022_alt", "G14")]

  /** The entries of `CELL_MAP`, in the order the literal lists them. */
  const CellEntries: seq<(string, string)> := CompanyCells + FinancialCells + AltCells

  /** A dictionary literal: the entries in order, a later one replacing an earlier one with the same key. */
  function DictOf(entries: seq<(string, string)>): map<string, string> {
    if entries == [] then map[]
    else DictOf(entries[..|entries| - 1])[entries[|entries| - 1].0 := entries[|entries| - 1].1]
  }

  /** `CELL_MAP`: field name to cell reference. */
  function CellMap(): map<string, string> {
    DictOf(CellEntries)
  }

  /** The field names of a block of entries. */
  function FieldsOf(entries: seq<(string, string)>): set<string> {
    set i | 0 <= i < |entries| :: entries[i].0
  }

  /** The financial keys and the years, in loop order. */
  const FinancialKeys: seq<string> := ["sum_driftsinnt", "driftsresultat", "ord_res_f_skatt", "sum_eiendeler"]
  const Years: seq<string> := ["2024", "2023", "2022"]

  /** `f"{key}_{year}"` for each of `years`, in order. */
  function YearNames(key: string, years: seq<string>): (r: seq<string>)
    ensures |r| == |years| && forall j :: 0 <= j < |years| ==> r[j] == key + "_" + years[j]
  {
    seq(|years|, j requires 0 <= j < |years| => key + "_" + years[j])
  }

  /** The field names the nested loops visit for `keys`, in visiting order. */
  function KeyNames(keys: seq<string>): seq<string> {
    if keys == [] then [] else KeyNames(keys[..|keys| - 1]) + YearNames(keys[|keys| - 1], Years)
  }

  /** The twelve financial field names, in the order the loops write them. */
  function FinancialNames(): seq<string> {
    KeyNames(FinancialKeys)
  }

  /**
   * `out[name + suffix] = extracted.get(name, "")` for each name in order, starting from `out`:
   * what one pair of nested loops does.
   */
  function CopyFields(extracted: PyDict, out: PyDict, names: seq<string>, suffix: string): PyDict {
    if names == [] then out
    else
      var n := names[|names| - 1];
      CopyFields(extracted, out, names[..|names| - 1], suffix)[n + suffix := GetOr(extracted, n, Str(""))]
  }

  /** The company block of the output: each field from its fallback chain, ending in `""`. */
  function CompanyPart(extracted: PyDict): PyDict {
    map["company_name" := FirstTruthy(extracted, ["company_name", "name"]),
        "org_number" := FirstTruthy(extracted, ["org_number", "org_no"]),
        "address" := FirstTruthy(extracted, ["address"]),
        "post_nr" := FirstTruthy(extracted, ["post_nr"]),
        "city" := FirstTruthy(extracted, ["city"]),
        "employees" := FirstTruthy(extracted, ["employees"]),
        "nace_code" := FirstTruthy(extracted, ["nace_code"]),
        "nace_description" := FirstTruthy(extracted, ["nace_description"])]
  }

  /** What `transform_data` returns: the company block, the financial fields, their `_alt` copies. */
  function Transformed(extracted: PyDict): PyDict {
    CopyFields(extracted, CopyFields(extracted, CompanyPart(extracted), FinancialNames(), ""), FinancialNames(), "_alt")
  }

  /** One more write extends the copy. */
  lemma CopyFieldsSnoc(extracted: PyDict, out: PyDict, names: seq<string>, n: string, suffix: string)
    ensures CopyFields(extracted, out, names + [n], suffix)
         == CopyFields(extracted, out, names, suffix)[n + suffix := GetOr(extracted, n, Str(""))]
  {
    assert (names + [n])[..|names|] == names;
  }

  /** One more key adds its three years to the visited names. */
  lemma KeyNamesSnoc(keys: seq<string>, i: nat)
    requires i < |keys|
    ensures KeyNames(keys[..i + 1]) == KeyNames(keys[..i]) + YearNames(keys[i], Years)
  {
    assert keys[..i + 1][..i] == keys[..i];
  }

  /** One more year adds its name to the visited names. */
  lemma YearNamesSnoc(done: seq<string>, key: string, years: seq<string>, y: nat)
    requires y < |years|
    ensures done + YearNames(key, years[..y + 1]) == done + YearNames(key, years[..y]) + [key + "_" + years[y]]
  {
    assert YearNames(key, years[..y + 1]) == YearNames(key, years[..y]) + [key + "_" + years[y]];
  }

  /** One pair of nested loops: for every key and year, `out[f"{key}_{year}{suffix}"] = extracted.get(f"{key}_{year}", "")`. */
  method CopyFinancial(extracted: PyDict, out0: PyDict, suffix: string) returns (out: PyDict)
    ensures out == CopyFields(extracted, out0, FinancialNames(), suffix)
  {
    out := out0;
    var k := 0;
    while k < |FinancialKeys|
      invariant k <= |FinancialKeys|
      invariant out == CopyFields(extracted, out0, KeyNames(FinancialKeys[..k]), suffix)
    {
      var key := FinancialKeys[k];
      ghost var done := KeyNames(FinancialKeys[..k]);
      var y := 0;
      assert done + YearNames(key, Years[..0]) == done;
      while y < |Years|
        invariant y <= |Years|
        invariant out == CopyFields(extracted, out0, done + YearNames(key, Years[..y]), suffix)
      {
        var fieldName := key + "_" + Years[y];
        CopyFieldsSnoc(extracted, out0, done + YearNames(key, Years[..y]), fieldName, suffix);
        YearNamesSnoc(done, key, Years, y);
        out := out[fieldName + suffix := GetOr(extracted, fieldName, Str(""))];
        y := y + 1;
      }
      assert Years[..y] == Years;
      KeyNamesSnoc(FinancialKeys, k);
      k := k + 1;
    }
    assert FinancialKeys[..k] == FinancialKeys;
  }

  /**
   * `transform_data`: the eight company fields assigned one by one into a fresh dictionary, then
   * the financial fields, then the `_alt` copies.
   */
  method TransformData(extracted: PyDict) returns (out: PyDict)
    ensures out == Transformed(extracted)
  {
    out := map[];
    out := out["company_name" := FirstTruthy(extracted, ["company_name", "name"])];
    out := out["org_number" := FirstTruthy(extracted, ["org_number", "org_no"])];
    out := out["address" := FirstTruthy(extracted, ["address"])];
    out := out["post_nr" := FirstTruthy(extracted, ["post_nr"])];
    out := out["city" := FirstTruthy(extracted, ["city"])];
    out := out["employees" := FirstTruthy(extracted, ["employees"])];
    out := out["nace_code" := FirstTruthy(extracted, ["nace_code"])];
    out := out["nace_description" := FirstTruthy(extracted, ["nace_description"])];
    assert out == CompanyPart(extracted);
    out := CopyFinancial(extracted, out, "");
    out := CopyFinancial(extracted, out, "_alt");
  }

  /** The keys of a dictionary literal are the keys its entries list. */
  lemma {:induction false} DictOfKeys(entries: seq<(string, string)>)
    ensures DictOf(entries).Keys == FieldsOf(entries)
  {
    if entries != [] {
      var init := entries[..|entries| - 1];
      DictOfKeys(init);
      forall k | k in FieldsOf(entries) ensures k in DictOf(entries) {
        var i :| 0 <= i < |entries| && entries[i].0 == k;
        if i < |init| {
          assert init[i] == entries[i];
        }
      }
      forall k | k in DictOf(entries) ensures k in FieldsOf(entries) {
        if k != entries[|entries| - 1].0 {
          var i :| 0 <= i < |init| && init[i].0 == k;
          assert entries[i] == init[i];
        }
      }
    }
  }

  /** The keys a copy adds: `name + suffix` for every name visited. */
  lemma {:induction false} CopyFieldsKeys(extracted: PyDict, out: PyDict, names: seq<string>, suffix: string)
    ensures CopyFields(extracted, out, names, suffix).Keys == out.Keys + (set i | 0 <= i < |names| :: names[i] + suffix)
  {
    if names != [] {
      var init := names[..|names| - 1];
      CopyFieldsKeys(extracted, out, init, suffix);
      var added := set i | 0 <= i < |names| :: names[i] + suffix;
      var added0 := set i | 0 <= i < |init| :: init[i] + suffix;
      assert added == added0 + {names[|names| - 1] + suffix} by {
        forall k | k in added ensures k in added0 + {names[|names| - 1] + suffix} {
          var i :| 0 <= i < |names| && names[i] + suffix == k;
          if i < |init| {
            assert init[i] == names[i];
          }
        }
        forall k | k in added0 ensures k in added {
          var i :| 0 <= i < |init| && init[i] + suffix == k;
          assert names[i] == init[i];
        }
      }
    }
  }

  /** A visited name's copy holds the input value, or `""` when the input lacks the name. */
  lemma {:induction false} CopyFieldsAt(extracted: PyDict, out: PyDict, names: seq<string>, suffix: string, i: nat)
    requires i < |names|
    ensures names[i] + suffix in CopyFields(extracted, out, names, suffix)
    ensures CopyFields(extracted, out, names, suffix)[names[i] + suffix] == GetOr(extracted, names[i], Str(""))
  {
    var init := names[..|names| - 1];
    var n := names[|names| - 1];
    if i < |init| {
      assert init[i] == names[i];
      CopyFieldsAt(extracted, out, init, suffix, i);
      if n + suffix == names[i] + suffix {
        assert n == (n + suffix)[..|n|] == (names[i] + suffix)[..|names[i]|] == names[i];
      }
    }
  }

  /** A key that no visited name's copy hits keeps its value. */
  lemma {:induction false} CopyFieldsElsewhere(extracted: PyDict, out: PyDict, names: seq<string>, suffix: string, k: string)
    requires k in out
    requires forall i :: 0 <= i < |names| ==> names[i] + suffix != k
    ensures k in CopyFields(extracted, out, names, suffix) && CopyFields(extracted, out, names, suffix)[k] == out[k]
  {
    if names != [] {
      var init := names[..|names| - 1];
      assert forall i :: 0 <= i < |init| ==> init[i] == names[i];
      CopyFieldsElsewhere(extracted, out, init, suffix, k);
    }
  }

  /** The loops visit the four keys with the three years each, key by key. */
  lemma FinancialNamesByIndex()
    ensures |FinancialNames()| == 12
    ensures forall i :: 0 <= i < 12 ==> FinancialNames()[i] == FinancialKeys[i / 3] + "_" + Years[i % 3]
  {
    KeyNamesSnoc(FinancialKeys, 0);
    KeyNamesSnoc(FinancialKeys, 1);
    KeyNamesSnoc(FinancialKeys, 2);
    KeyNamesSnoc(FinancialKeys, 3);
    assert FinancialKeys[..0] == [];
    assert FinancialKeys[..4] == FinancialKeys;
  }

  /** The financial block of `CELL_MAP` lists the same names in the same order. */
  lemma FinancialCellsByIndex()
    ensures |FinancialCells| == 12
    ensures forall i :: 0 <= i < 12 ==> FinancialCells[i].0 == FinancialKeys[i / 3] + "_" + Years[i % 3]
  {
  }

  /** The `_alt` block of `CELL_MAP` lists the financial names with `_alt` appended. */
  lemma AltCellsByIndex()
    ensures |AltCells| == 12
    ensures forall i :: 0 <= i < 12 ==> AltCells[i].0 == FinancialCells[i].0 + "_alt"
  {
  }

  /** The loops visit exactly the financial fields of `CELL_MAP`, and the `_alt` fields are their copies. */
  lemma FinancialNamesSpec()
    ensures |FinancialNames()| == |FinancialCells| == |AltCells| == 12
    ensures forall i :: 0 <= i < 12 ==>
      && FinancialNames()[i] == FinancialCells[i].0
      && FinancialNames()[i] + "_alt" == AltCells[i].0
  {
    FinancialNamesByIndex();
    FinancialCellsByIndex();
    AltCellsByIndex();
  }

  /** The field names of a block, in order. */
  function Fields(entries: seq<(string, string)>): (r: seq<string>)
    ensures |r| == |entries| && forall i :: 0 <= i < |entries| ==> r[i] == entries[i].0
  {
    seq(|entries|, i requires 0 <= i < |entries| => entries[i].0)
  }

  /** The cell references of a block, in order. */
  function Cells(entries: seq<(string, string)>): (r: seq<string>)
    ensures |r| == |entries| && forall i :: 0 <= i < |entries| ==> r[i] == entries[i].1
  {
    seq(|entries|, i requires 0 <= i < |entries| => entries[i].1)
  }

  /** No string occurs twice. */
  predicate Distinct(xs: seq<string>) {
    forall i, j :: 0 <= i < j < |xs| ==> xs[i] != xs[j]
  }

  lemma CompanyFieldsDistinct() ensures Distinct(Fields(CompanyCells)) {}
  lemma FinancialFieldsDistinct() ensures Distinct(Fields(FinancialCells)) {}
  lemma AltFieldsDistinct() ensures Distinct(Fields(AltCells)) {}
  lemma CompanyCellsDistinct() ensures Distinct(Cells(CompanyCells)) {}
  lemma FinancialCellsDistinct() ensures Distinct(Cells(FinancialCells)) {}
  lemma AltCellsDistinct() ensures Distinct(Cells(AltCells)) {}

  /**
   * The company fields are at most 16 characters long, the financial ones 18 to 20 and the `_alt`
   * ones at least 22; the company cells are in column B, the first financial block has
   * two-character cells outside it, the second three-character ones.
   */
  lemma BlockShapes()
    ensures forall i :: 0 <= i < |CompanyCells| ==> |CompanyCells[i].0| <= 16 && CompanyCells[i].1[0] == 'B'
    ensures forall i :: 0 <= i < |FinancialCells| ==>
      18 <= |FinancialCells[i].0| <= 20 && |FinancialCells[i].1| == 2 && FinancialCells[i].1[0] != 'B'
    ensures forall i :: 0 <= i < |AltCells| ==>
      22 <= |AltCells[i].0| && |AltCells[i].1| == 3 && AltCells[i].1[0] != 'B'
  {
  }

  /** Two lists without repeats and without a common element make a list without repeats. */
  lemma {:induction false} DistinctConcat(xs: seq<string>, ys: seq<string>)
    requires Distinct(xs) && Distinct(ys)
    requires forall i, j :: 0 <= i < |xs| && 0 <= j < |ys| ==> xs[i] != ys[j]
    ensures Distinct(xs + ys)
  {
    var zs := xs + ys;
    forall i, j | 0 <= i < j < |zs| ensures zs[i] != zs[j] {
      if j < |xs| {
        assert zs[i] == xs[i] && zs[j] == xs[j];
      } else if i < |xs| {
        assert zs[i] == xs[i] && zs[j] == ys[j - |xs|];
      } else {
        assert zs[i] == ys[i - |xs|] && zs[j] == ys[j - |xs|];
      }
    }
  }

  /** `CELL_MAP` lists 32 different fields, so none of its entries is replaced by a later one. */
  lemma FieldsDistinct()
    ensures |CellEntries| == 32 && Distinct(Fields(CellEntries))
  {
    CompanyFieldsDistinct();
    FinancialFieldsDistinct();
    AltFieldsDistinct();
    BlockShapes();
    assert Fields(CellEntries) == Fields(CompanyCells) + Fields(FinancialCells) + Fields(AltCells);
    DistinctConcat(Fields(CompanyCells), Fields(FinancialCells));
    DistinctConcat(Fields(CompanyCells) + Fields(FinancialCells), Fields(AltCells));
  }

  /** No two fields of `CELL_MAP` are written to the same cell. */
  lemma CellsDistinct()
    ensures Distinct(Cells(CellEntries))
  {
    CompanyCellsDistinct();
    FinancialCellsDistinct();
    AltCellsDistinct();
    BlockShapes();
    assert Cells(CellEntries) == Cells(CompanyCells) + Cells(FinancialCells) + Cells(AltCells);
    DistinctConcat(Cells(CompanyCells), Cells(FinancialCells));
    var front := Cells(CompanyCells) + Cells(FinancialCells);
    forall i, j | 0 <= i < |front| && 0 <= j < |AltCells| ensures front[i] != Cells(AltCells)[j] {
      if i >= |CompanyCells| {
        assert front[i] == FinancialCells[i - |CompanyCells|].1;
      }
    }
    DistinctConcat(front, Cells(AltCells));
  }

  /** The fields of consecutive blocks. */
  lemma {:induction false} FieldsOfConcat(a: seq<(string, string)>, b: seq<(string, string)>)
    ensures FieldsOf(a + b) == FieldsOf(a) + FieldsOf(b)
  {
    var ab := a + b;
    forall k | k in FieldsOf(ab) ensures k in FieldsOf(a) + FieldsOf(b) {
      var i :| 0 <= i < |ab| && ab[i].0 == k;
      if i >= |a| {
        assert b[i - |a|] == ab[i];
      }
    }
    forall k | k in FieldsOf(a) + FieldsOf(b) ensures k in FieldsOf(ab) {
      if k in FieldsOf(a) {
        var i :| 0 <= i < |a| && a[i].0 == k;
        assert ab[i] == a[i];
      } else {
        var i :| 0 <= i < |b| && b[i].0 == k;
        assert ab[|a| + i] == b[i];
      }
    }
  }

  /** The company block of the output has the company fields of `CELL_MAP`, all short names. */
  lemma CompanyPartKeys(extracted: PyDict)
    ensures CompanyPart(extracted).Keys == FieldsOf(CompanyCells)
    ensures forall k :: k in CompanyPart(extracted) ==> |k| <= 16
  {
    var c := CompanyCells;
    assert FieldsOf(c) == {c[0].0, c[1].0, c[2].0, c[3].0, c[4].0, c[5].0, c[6].0, c[7].0};
  }

  /** The names the loops visit, with a suffix, are the field names of a block of `CELL_MAP`. */
  lemma {:induction false} VisitedFields(suffix: string, block: seq<(string, string)>)
    requires |block| == |FinancialNames()|
    requires forall i :: 0 <= i < |block| ==> FinancialNames()[i] + suffix == block[i].0
    ensures (set i | 0 <= i < |FinancialNames()| :: FinancialNames()[i] + suffix) == FieldsOf(block)
  {
  }

  /** The keys of `CELL_MAP` are the fields of its three blocks. */
  lemma CellMapKeys()
    ensures CellMap().Keys == FieldsOf(CompanyCells) + FieldsOf(FinancialCells) + FieldsOf(AltCells)
  {
    FieldsOfConcat(CompanyCells, FinancialCells);
    FieldsOfConcat(CompanyCells + FinancialCells, AltCells);
    DictOfKeys(CellEntries);
  }

  /** The loops' names, plain and with `_alt`, are the fields of the two financial blocks. */
  lemma FinancialFieldSets()
    ensures (set i | 0 <= i < |FinancialNames()| :: FinancialNames()[i] + "") == FieldsOf(FinancialCells)
    ensures (set i | 0 <= i < |FinancialNames()| :: FinancialNames()[i] + "_alt") == FieldsOf(AltCells)
  {
    FinancialNamesSpec();
    VisitedFields("", FinancialCells);
    VisitedFields("_alt", AltCells);
  }

  /** The output has exactly the fields of `CELL_MAP`: eight company fields, twelve financial ones and their `_alt` copies. */
  lemma TransformKeys(extracted: PyDict)
    ensures Transformed(extracted).Keys == CellMap().Keys
  {
    var names := FinancialNames();
    CompanyPartKeys(extracted);
    var mid := CopyFields(extracted, CompanyPart(extracted), names, "");
    CopyFieldsKeys(extracted, CompanyPart(extracted), names, "");
    CopyFieldsKeys(extracted, mid, names, "_alt");
    FinancialFieldSets();
    CellMapKeys();
  }

  /** The financial names are 18 to 20 characters long. */
  lemma FinancialNameLengths()
    ensures forall i :: 0 <= i < |FinancialNames()| ==> 18 <= |FinancialNames()[i]| <= 20
  {
    FinancialNamesSpec();
    BlockShapes();
  }

  /** The loops leave the company block as it was: no financial field and no `_alt` field is a company field. */
  lemma CompanyKept(extracted: PyDict, k: string)
    requires k in CompanyPart(extracted)
    ensures k in Transformed(extracted) && Transformed(extracted)[k] == CompanyPart(extracted)[k]
  {
    var names := FinancialNames();
    CompanyPartKeys(extracted);
    FinancialNameLengths();
    CopyFieldsElsewhere(extracted, CompanyPart(extracted), names, "", k);
    CopyFieldsElsewhere(extracted, CopyFields(extracted, CompanyPart(extracted), names, ""), names, "_alt", k);
  }

  /**
   * `company_name` is the first truthy of `company_name` and `name`, `org_number` the first truthy
   * of `org_number` and `org_no`, each else `""`.
   */
  lemma TransformCompany(extracted: PyDict)
    ensures "company_name" in Transformed(extracted) && "org_number" in Transformed(extracted)
    ensures var out := Transformed(extracted);
      && FallbackOf(out["company_name"], extracted, ["company_name", "name"])
      && FallbackOf(out["org_number"], extracted, ["org_number", "org_no"])
  {
    CompanyKept(extracted, "company_name");
    CompanyKept(extracted, "org_number");
    FirstTruthySpec(extracted, ["company_name", "name"]);
    FirstTruthySpec(extracted, ["org_number", "org_no"]);
  }

  /** The single-key company fields: `address`, `post_nr`, `city`, `employees`, `nace_code`, `nace_description`. */
  const SingleFields: set<string> := {"address", "post_nr", "city", "employees", "nace_code", "nace_description"}

  /** Each of the other six company fields is the input value when truthy, else `""`. */
  lemma TransformSingle(extracted: PyDict, k: string)
    requires k in SingleFields
    ensures k in Transformed(extracted)
    ensures Transformed(extracted)[k] == if Truthy(Get(extracted, k)) then extracted[k] else Str("")
  {
    CompanyKept(extracted, k);
    FirstTruthySpec(extracted, [k]);
  }

  /**
   * Each financial field of `CELL_MAP` is the input value, whatever it is, or `""` when the input
   * lacks it, and its `_alt` field holds the same value.
   */
  lemma TransformFinancial(extracted: PyDict, i: nat)
    requires i < |FinancialCells|
    ensures var out := Transformed(extracted);
      var field := FinancialCells[i].0;
      && field in out && out[field] == GetOr(extracted, field, Str(""))
      && AltCells[i].0 in out && out[AltCells[i].0] == out[field]
  {
    var names := FinancialNames();
    FinancialNamesSpec();
    FinancialNameLengths();
    var mid := CopyFields(extracted, CompanyPart(extracted), names, "");
    CopyFieldsAt(extracted, CompanyPart(extracted), names, "", i);
    assert names[i] + "" == names[i];
    CopyFieldsElsewhere(extracted, mid, names, "_alt", names[i]);
    CopyFieldsAt(extracted, mid, names, "_alt", i);
  }

  /** The input keys `transform_data` reads: the company keys with their fallbacks, and the financial fields. */
  function ReadKeys(): set<string> {
    {"company_name", "name", "org_number", "org_no"} + SingleFields + FieldsOf(FinancialCells)
  }

  /** A copy reads only the names it visits. */
  lemma {:induction false} CopyFieldsReads(x1: PyDict, x2: PyDict, out: PyDict, names: seq<string>, suffix: string)
    requires forall i :: 0 <= i < |names| ==> (names[i] in x1 <==> names[i] in x2) && Get(x1, names[i]) == Get(x2, names[i])
    ensures CopyFields(x1, out, names, suffix) == CopyFields(x2, out, names, suffix)
  {
    if names != [] {
      var init := names[..|names| - 1];
      assert forall i :: 0 <= i < |init| ==> init[i] == names[i];
      CopyFieldsReads(x1, x2, out, init, suffix);
    }
  }

  /**
   * The output depends only on the keys read: no other input key reaches it, and two inputs with
   * the same entries for those keys give the same output.
   */
  lemma TransformReads(x1: PyDict, x2: PyDict)
    requires SameEntries(x1, x2, ReadKeys())
    ensures Transformed(x1) == Transformed(x2)
  {
    FirstTruthyReads(x1, x2, ["company_name", "name"]);
    FirstTruthyReads(x1, x2, ["org_number", "org_no"]);
    FirstTruthyReads(x1, x2, ["address"]);
    FirstTruthyReads(x1, x2, ["post_nr"]);
    FirstTruthyReads(x1, x2, ["city"]);
    FirstTruthyReads(x1, x2, ["employees"]);
    FirstTruthyReads(x1, x2, ["nace_code"]);
    FirstTruthyReads(x1, x2, ["nace_description"]);
    assert CompanyPart(x1) == CompanyPart(x2);
    var names := FinancialNames();
    FinancialNamesSpec();
    forall i | 0 <= i < |names| ensures names[i] in FieldsOf(FinancialCells) {
      assert names[i] == FinancialCells[i].0;
    }
    CopyFieldsReads(x1, x2, CompanyPart(x1), names, "");
    CopyFieldsReads(x1, x2, CopyFields(x1, CompanyPart(x1), names, ""), names, "_alt");
  }
}
