/**
 * The Fordon (vehicles) sheet mapping of `app_modules/Sheets/Fordon/mapping.py`: the cell of each
 * field, and the transform that picks the three fields out of the extracted data with their
 * fallbacks.
 */
module FordonMapping {
  import opened PyValue

  /** `CELL_MAP`: field name to cell reference. */
  const CellMap: map<string, string> := map["company_name" := "B2", "org_number" := "B3", "vehicle_count" := "B10"]

  /** `transform_data`: each field from its fallback chain, ending in `""`. */
  function TransformData(extracted: PyDict): PyDict {
    map["company_name" := FirstTruthy(extracted, ["company_name", "name"]),
        "org_number" := FirstTruthy(extracted, ["org_number", "org_no"]),
        "vehicle_count" := FirstTruthy(extracted, ["vehicle_count", "antal_fordon"])]
  }

  /** The input keys the transform reads. */
  const ReadKeys: set<string> := {"company_name", "name", "org_number", "org_no", "vehicle_count", "antal_fordon"}

  /** The output has exactly the fields of `CELL_MAP`, and every value is a truthy input value or `""`. */
  lemma TransformKeys(extracted: PyDict)
    ensures var out := TransformData(extracted);
      && out.Keys == CellMap.Keys
      && forall k :: k in out ==> Truthy(out[k]) || out[k] == Str("")
  {
    FirstTruthyOrEmpty(extracted, ["company_name", "name"]);
    FirstTruthyOrEmpty(extracted, ["org_number", "org_no"]);
    FirstTruthyOrEmpty(extracted, ["vehicle_count", "antal_fordon"]);
  }

  /**
   * `company_name` falls back to `name`, `org_number` to `org_no` and `vehicle_count` to
   * `antal_fordon`, each then to `""`.
   */
  lemma TransformFallbacks(extracted: PyDict)
    ensures var out := TransformData(extracted);
      && FallbackOf(out["company_name"], extracted, ["company_name", "name"])
      && FallbackOf(out["org_number"], extracted, ["org_number", "org_no"])
      && FallbackOf(out["vehicle_count"], extracted, ["vehicle_count", "antal_fordon"])
  {
    FirstTruthySpec(extracted, ["company_name", "name"]);
    FirstTruthySpec(extracted, ["org_number", "org_no"]);
    FirstTruthySpec(extracted, ["vehicle_count", "antal_fordon"]);
  }

  /** The output depends only on the six keys read. */
  lemma TransformReads(x1: PyDict, x2: PyDict)
    requires AgreeOn(x1, x2, ReadKeys)
    ensures TransformData(x1) == TransformData(x2)
  {
    FirstTruthyReads(x1, x2, ["company_name", "name"]);
    FirstTruthyReads(x1, x2, ["org_number", "org_no"]);
    FirstTruthyReads(x1, x2, ["vehicle_count", "antal_fordon"]);
  }
}
