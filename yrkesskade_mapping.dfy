/**
 * The Yrkesskade (occupational injury) sheet mapping of `app_modules/Sheets/Yrkesskade/mapping.py`:
 * the cell of each field, and the transform that picks the four fields out of the extracted data
 * with their fallbacks.
 */
module YrkesskadeMapping {
  import opened PyValue

  /** `CELL_MAP`: field name to cell reference. */
  const CellMap: map<string, string> :=
    map["company_name" := "B2", "org_number" := "B3", "employees" := "B10", "injury_history" := "B15"]

  /** `transform_data`: each field from its fallback chain, ending in `""`. */
  function TransformData(extracted: PyDict): PyDict {
    map["company_name" := FirstTruthy(extracted, ["company_name", "name"]),
        "org_number" := FirstTruthy(extracted, ["org_number", "org_no"]),
        "employees" := FirstTruthy(extracted, ["employees", "antallAnsatte"]),
        "injury_history" := FirstTruthy(extracted, ["injury_history"])]
  }

  /** The input keys the transform reads. */
  const ReadKeys: set<string> :=
    {"company_name", "name", "org_number", "org_no", "employees", "antallAnsatte", "injury_history"}

  /** The output has exactly the fields of `CELL_MAP`, and every value is a truthy input value or `""`. */
  lemma TransformKeys(extracted: PyDict)
    ensures var out := TransformData(extracted);
      && out.Keys == CellMap.Keys
      && forall k :: k in out ==> Truthy(out[k]) || out[k] == Str("")
  {
    FirstTruthyOrEmpty(extracted, ["company_name", "name"]);
    FirstTruthyOrEmpty(extracted, ["org_number", "org_no"]);
    FirstTruthyOrEmpty(extracted, ["employees", "antallAnsatte"]);
    FirstTruthyOrEmpty(extracted, ["injury_history"]);
  }

  /**
   * `company_name` falls back to `name`, `org_number` to `org_no`, `employees` to
   * `antallAnsatte`, each then to `""`; `injury_history` is the input value when truthy, else `""`.
   */
  lemma TransformFallbacks(extracted: PyDict)
    ensures var out := TransformData(extracted);
      && FallbackOf(out["company_name"], extracted, ["company_name", "name"])
      && FallbackOf(out["org_number"], extracted, ["org_number", "org_no"])
      && FallbackOf(out["employees"], extracted, ["employees", "antallAnsatte"])
      && FallbackOf(out["injury_history"], extracted, ["injury_history"])
  {
    FirstTruthySpec(extracted, ["company_name", "name"]);
    FirstTruthySpec(extracted, ["org_number", "org_no"]);
    FirstTruthySpec(extracted, ["employees", "antallAnsatte"]);
    FirstTruthySpec(extracted, ["injury_history"]);
  }

  /** The output depends only on the seven keys read. */
  lemma TransformReads(x1: PyDict, x2: PyDict)
    requires AgreeOn(x1, x2, ReadKeys)
    ensures TransformData(x1) == TransformData(x2)
  {
    FirstTruthyReads(x1, x2, ["company_name", "name"]);
    FirstTruthyReads(x1, x2, ["org_number", "org_no"]);
    FirstTruthyReads(x1, x2, ["employees", "antallAnsatte"]);
    FirstTruthyReads(x1, x2, ["injury_history"]);
  }
}
