/**
 * The Alminnelig ansvar (general liability) sheet mapping of
 * `app_modules/Sheets/Alminnelig_ansvar/mapping.py`: the cell of each field, and the transform
 * that picks the five fields out of the extracted data with their fallbacks.
 */
module AlminneligAnsvarMapping {
  import opened PyValue

  /** `CELL_MAP`: field name to cell reference. */
  const CellMap: map<string, string> :=
    map["company_name" := "B2", "org_number" := "B3", "address" := "B4", "post_nr" := "B5", "city" := "B6"]

  /** `transform_data`: each field from its fallback chain, ending in `""`. */
  function TransformData(extracted: PyDict): PyDict {
    map["company_name" := FirstTruthy(extracted, ["company_name", "name"]),
        "org_number" := FirstTruthy(extracted, ["org_number", "org_no"]),
        "address" := FirstTruthy(extracted, ["address"]),
        "post_nr" := FirstTruthy(extracted, ["post_nr"]),
        "city" := FirstTruthy(extracted, ["city"])]
  }

  /** The input keys the transform reads. */
  const ReadKeys: set<string> := {"company_name", "name", "org_number", "org_no", "address", "post_nr", "city"}

  /** The output has exactly the fields of `CELL_MAP`, and every value is a truthy input value or `""`. */
  lemma TransformKeys(extracted: PyDict)
    ensures var out := TransformData(extracted);
      && out.Keys == CellMap.Keys
      && forall k :: k in out ==> Truthy(out[k]) || out[k] == Str("")
  {
    FirstTruthyOrEmpty(extracted, ["company_name", "name"]);
    FirstTruthyOrEmpty(extracted, ["org_number", "org_no"]);
    FirstTruthyOrEmpty(extracted, ["address"]);
    FirstTruthyOrEmpty(extracted, ["post_nr"]);
    FirstTruthyOrEmpty(extracted, ["city"]);
  }

  /**
   * `company_name` falls back to `name` and `org_number` to `org_no`, then to `""`; `address`,
   * `post_nr` and `city` are the input value when it is truthy and `""` otherwise.
   */
  lemma TransformFallbacks(extracted: PyDict)
    ensures var out := TransformData(extracted);
      && FallbackOf(out["company_name"], extracted, ["company_name", "name"])
      && FallbackOf(out["org_number"], extracted, ["org_number", "org_no"])
      && out["address"] == (if Truthy(Get(extracted, "address")) then extracted["address"] else Str(""))
      && out["post_nr"] == (if Truthy(Get(extracted, "post_nr")) then extracted["post_nr"] else Str(""))
      && out["city"] == (if Truthy(Get(extracted, "city")) then extracted["city"] else Str(""))
  {
    FirstTruthySpec(extracted, ["company_name", "name"]);
    FirstTruthySpec(extracted, ["org_number", "org_no"]);
    FirstTruthySpec(extracted, ["address"]);
    FirstTruthySpec(extracted, ["post_nr"]);
    FirstTruthySpec(extracted, ["city"]);
  }

  /** The output depends only on the seven keys read. */
  lemma TransformReads(x1: PyDict, x2: PyDict)
    requires AgreeOn(x1, x2, ReadKeys)
    ensures TransformData(x1) == TransformData(x2)
  {
    FirstTruthyReads(x1, x2, ["company_name", "name"]);
    FirstTruthyReads(x1, x2, ["org_number", "org_no"]);
    FirstTruthyReads(x1, x2, ["address"]);
    FirstTruthyReads(x1, x2, ["post_nr"]);
    FirstTruthyReads(x1, x2, ["city"]);
  }
}
