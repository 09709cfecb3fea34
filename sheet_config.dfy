/**
 * The sheet registry of `app_modules/Sheets/sheet_config.py`: sheet name to cell map, sheet name
 * to transform, and the dispatch that transforms data for a sheet or leaves it as it is when the
 * sheet has no transform.
 */
module SheetConfig {
  import opened Wrappers
  import opened PyValue
  import SammendragMapping
  import FordonMapping

  /** The transform of a sheet: extracted data to the fields its cells take. */
  type Transform = PyDict -> PyDict

  /** `SHEET_MAPPINGS`: the cell maps of the Sammendrag and Fordon sheets. */
  const SheetMappings: map<string, map<string, string>> :=
    map["Sammendrag" := SammendragMapping.CellMap(), "Fordon" := FordonMapping.CellMap]

  /** `SHEET_TRANSFORMS`: the `transform_data` of the same two sheets. */
  const SheetTransforms: map<string, Transform> :=
    map["Sammendrag" := SammendragMapping.Transformed, "Fordon" := FordonMapping.TransformData]

  /** `get_sheet_mapping`: the sheet's cell map, or `{}` for a sheet without one. */
  function GetSheetMapping(sheetName: string): (r: map<string, string>)
    ensures sheetName == "Sammendrag" ==> r == SammendragMapping.CellMap()
    ensures sheetName == "Fordon" ==> r == FordonMapping.CellMap
    ensures sheetName != "Sammendrag" && sheetName != "Fordon" ==> r == map[]
  {
    if sheetName in SheetMappings then SheetMappings[sheetName] else map[]
  }

  /** `get_transform_function`: the sheet's transform, or `None` for a sheet without one. */
  function GetTransformFunction(sheetName: string): (r: Option<Transform>)
    ensures r.Some? <==> sheetName == "Sammendrag" || sheetName == "Fordon"
  {
    if sheetName in SheetTransforms then Some(SheetTransforms[sheetName]) else None
  }

  /**
   * `transform_for_sheet`: the sheet's transform applied to `data`, or `data` itself when the
   * sheet has none (a function object is always truthy, so only `None` skips the call).
   */
  function TransformForSheet(sheetName: string, data: PyDict): (r: PyDict)
    ensures sheetName == "Sammendrag" ==> r == SammendragMapping.Transformed(data)
    ensures sheetName == "Fordon" ==> r == FordonMapping.TransformData(data)
    ensures sheetName != "Sammendrag" && sheetName != "Fordon" ==> r == data
  {
    match GetTransformFunction(sheetName)
    case Some(transform) => transform(data)
    case None => data
  }

  /** Every sheet with a cell map has a transform, and the other way round. */
  lemma SameSheets()
    ensures SheetMappings.Keys == SheetTransforms.Keys == {"Sammendrag", "Fordon"}
  {
  }

  /**
   * For a sheet with a transform, the transformed data has exactly the fields of the sheet's cell
   * map, so every field finds its cell and every cell gets a field.
   */
  lemma TransformFillsMapping(sheetName: string, data: PyDict)
    requires GetTransformFunction(sheetName).Some?
    ensures TransformForSheet(sheetName, data).Keys == GetSheetMapping(sheetName).Keys
  {
    if sheetName == "Sammendrag" {
      SammendragMapping.TransformKeys(data);
    } else {
      FordonMapping.TransformKeys(data);
    }
  }
}
