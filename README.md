# Insurance PDF to premade Excel sheet: the extraction and mapping core

This project models the core of a tool that reads insurance documents and company registers and fills
premade Excel sheets. It covers two parts.

1. **Vehicle extraction for the Fordon sheet.** Three extractors turn a document's text into a list of
   eight-field vehicle records:
   - If Skadeforsikring (`if-extractor.py`);
   - Gjensidige (`gjensidige.py`);
   - the simpler Gjensidige variant (`gjensidige-extractor.py`).

   Each extractor works in stages: match records, deduplicate them with a `seen` set, cut a context
   window, enrich fields in a fixed priority order with fixed defaults, then assemble the record.
2. **Sheet mappings and register data.**
   - The `transform_data` of the Sammendrag, Fordon, Yrkesskade and Alminnelig ansvar sheets, with their
     `CELL_MAP`s.
   - The sheet registry.
   - The address normalisation and input guard of the Enhetsregisteret (BRREG) getter.
   - The fold over the annual statements of the accounting-register getter.

The Dafny modules follow the source files.

| module | file | models |
|---|---|---|
| `Text` | text.dfy | Python `str` behaviour: whitespace, `lower`, `strip`, slicing, `split`/`join`, `str(int)` |
| `Scan` | scan.dfy | `re.search` and `re.sub` for fixed patterns given as recognisers; the year, spaced-number and `.*$` sub-patterns |
| `Dedup` | dedup.dfy | the `seen`-set loop every extractor uses, as the fold `Collect`, with its guarantees |
| `Vehicle` | vehicle.dfy | the vehicle record, the registration shape, registration normalisation, the shared `_extract_bonus` |
| `IfExtractor` | if_extractor.dfy | `extract_if_vehicles` and its enrichers |
| `Gjensidige` | gjensidige.dfy | `gjensidige.py` |
| `GjensidigeSimple` | gjensidige_simple.dfy | `gjensidige-extractor.py` |
| `PyValue` | pyvalue.dfy | dictionary values, truthiness, `get`, `a or b or ""`, `str()` |
| `SammendragMapping`, `FordonMapping`, `YrkesskadeMapping`, `AlminneligAnsvarMapping` | *_mapping.dfy | the four `mapping.py` files |
| `SheetConfig` | sheet_config.dfy | `sheet_config.py` |
| `Brreg` | brreg.dfy | `_normalize_address` and `fetch_brreg_info` |
| `Proff` | proff.dfy | the org-number guard and the statement fold of `proff_getter.py` |

**Matches as inputs.** The long `re.finditer`/`re.findall` patterns are inputs to the model: sequences
of match records, each holding its captures and its start position. These are:
- the If header line;
- the inline Gjensidige car line;
- the registrations found by the table sweep;
- the machine patterns, one set per brand.

Every smaller pattern is modelled as a recogniser tried at each start position, with `Scan.Search`
giving the leftmost match. These include the years, `Årsmodell:`, `Kjørelengde:`, `Egenandel`, the
leasing names, the bonus line, the brand-then-model lookup and the clean-up substitutions.

**Loops as methods.** Each loop that mutates `seen` and `vehicles` in the source is a method with a
`while` loop. Its postcondition ties the result to a fold. Lemmas then state what the fold guarantees:
no key twice, the first match for a key wins, and every record comes from some match.

## Model

| member | source | states |
|---|---|---|
| Dedup.CollectSpec | app_modules/Sheets/Fordon/extractors/if-extractor.py:44-46 | A `seen`-set loop keeps no key twice and none already seen; each kept item is the candidate of an input element; the first candidate of every fresh key is kept |
| Dedup.CollectAppend | app_modules/Sheets/Fordon/extractors/gjensidige.py:208-281 | Running the loop over one part, then over another with the keys the first left, is the loop over both parts together |
| Dedup.CollectCovers | app_modules/Sheets/Fordon/extractors/gjensidige-extractor.py:125-129 | Every fresh candidate key ends up among the kept keys |
| Vehicle.NormalizeRegistration | app_modules/Sheets/Fordon/extractors/gjensidige.py:100-103 | Removing the whitespace from a captured `[A-Z]{2}\s+\d{5}` or `[A-Z]{2}\s?\d{5}` gives its two letters and five digits: a registration, the same key however the plate was spaced |
| Vehicle.SpaceOnlyNormalizationKeepsWhitespace | app_modules/Sheets/Fordon/extractors/gjensidige.py:103 | `replace(" ", "")` on a capture with a non-space whitespace character between letters and digits does not give a registration; removing all whitespace does |
| Vehicle.LineBrokenRegistration | app_modules/Sheets/Fordon/extractors/gjensidige.py:94 | `"BU\n21895"` is a spaced registration the inline pattern accepts, and its separator is not a space |
| Vehicle.RemoveSpacesAgrees | app_modules/Sheets/Fordon/extractors/gjensidige.py:133 | On a string whose only whitespace is spaces, `replace(" ", "")` equals removing all whitespace, as for every table capture written with a space |
| Vehicle.BonusSpec | app_modules/Sheets/Fordon/extractors/if-extractor.py:177-186 | `_extract_bonus` gives `""` exactly when the text has no `{reg}: N% bonus`; otherwise it gives the digits of the first such line followed by `%`, a formatted bonus |
| Vehicle.BonusAt | app_modules/Sheets/Fordon/extractors/gjensidige.py:331 | A bonus match captures a non-empty digit run, right after `{reg}:` |
| IfExtractor.ExtractIfVehicles | app_modules/Sheets/Fordon/extractors/if-extractor.py:23-82 | The result is the records of the headers `KeptHeaders` keeps (the first one per registration), in header order |
| IfExtractor.IfStep | app_modules/Sheets/Fordon/extractors/if-extractor.py:42-80 | One loop iteration: a seen registration leaves the state unchanged; an unseen one appends its record and adds its key |
| IfExtractor.KeptHeadersSpec | app_modules/Sheets/Fordon/extractors/if-extractor.py:44-46 | No two kept headers share a registration; every kept header is an input header; for every registration, the first header with it is kept |
| IfExtractor.ExtractModel | app_modules/Sheets/Fordon/extractors/if-extractor.py:85-108 | The loop over lines 1-4 returns what `ModelOf` gives: the first stripped line starting with a capital, skipping blank lines and stopping at a registration or field-name line |
| IfExtractor.ScanModelSpec | app_modules/Sheets/Fordon/extractors/if-extractor.py:89-108 | The scan gives the first model line when only blank or non-capital lines come before it, and `""` otherwise; it never looks past a stop line |
| IfExtractor.YearSpec | app_modules/Sheets/Fordon/extractors/if-extractor.py:111-123 | The year is the digits after the first matching `Årsmodell:`, else the first free-standing 2010-2029 year, else `"2024"`; it is always four digits |
| IfExtractor.LeasingLabelAt | app_modules/Sheets/Fordon/extractors/if-extractor.py:129-132 | A labelled leasing capture is stripped, holds no line break, and every character lies in the capture's class `[A-ZÆØÅa-zæøå0-9\s]` |
| IfExtractor.FirstListedSpec | app_modules/Sheets/Fordon/extractors/if-extractor.py:134-147 | The lender lookup is `""` exactly when no listed name occurs; otherwise it is the occurring name that comes first in the list |
| IfExtractor.LeasingSpec | app_modules/Sheets/Fordon/extractors/if-extractor.py:126-149 | The labelled value wins (even when empty); without a label, the first listed lender the section names; else `""` |
| IfExtractor.MileageSpec | app_modules/Sheets/Fordon/extractors/if-extractor.py:152-159 | The mileage is `""` exactly when the section states none; otherwise it is the first figure stated, a spaced number |
| IfExtractor.DeductibleSpec | app_modules/Sheets/Fordon/extractors/if-extractor.py:162-174 | The own-damage deductible wins over the generic `Egenandel` amount, which wins over `""`; a found deductible is a spaced number |
| IfExtractor.MotorTypeSpec | app_modules/Sheets/Fordon/extractors/if-extractor.py:189-198 | The motor type is inboard, else outboard, else `påhengsmotor`, else `""`; `""` exactly when the section names none |
| IfExtractor.BuildRecord | app_modules/Sheets/Fordon/extractors/if-extractor.py:52-80 | The loop body returns the record `IfRecord` defines for the header |
| IfExtractor.IfRecordIdentity | app_modules/Sheets/Fordon/extractors/if-extractor.py:71-80 | A record carries the header's registration (a registration) and vehicle type unchanged, with coverage `kasko` |
| IfExtractor.IfRecordYear | app_modules/Sheets/Fordon/extractors/if-extractor.py:60-74 | The description ends with a space and a four-digit year |
| IfExtractor.IfRecordNoMotor | app_modules/Sheets/Fordon/extractors/if-extractor.py:65-69 | For every vehicle type except `Båt`, no motor is appended: the description is the stripped make and model, then the year |
| IfExtractor.IfRecordFigures | app_modules/Sheets/Fordon/extractors/if-extractor.py:61-64 | Mileage and deductible are `""` or spaced numbers; the bonus is `""` or digits followed by `%` |
| IfExtractor.OnlyBoatHasRing | app_modules/Sheets/Fordon/extractors/if-extractor.py:68 | Every vehicle type other than `Båt` lacks an `å`, so it cannot contain `Båt` |
| Gjensidige.LenderInSpec | app_modules/Sheets/Fordon/extractors/gjensidige.py:293-302 | The section lookup is `""` exactly when no company pattern occurs; otherwise it is the name of the mentioned company that comes first in the priority list |
| Gjensidige.RegLenderAt | app_modules/Sheets/Fordon/extractors/gjensidige.py:306-307 | A registration-then-name match starts, ignoring case, with the registration |
| Gjensidige.LeasingSpec | app_modules/Sheets/Fordon/extractors/gjensidige.py:286-322 | The leasing value is `""` or one of the five names; a company named in the section wins in fixed order; only otherwise is the text after the registration's first occurrence searched |
| Gjensidige.PlateAsWrittenKeepsLineBreak | app_modules/Sheets/Fordon/extractors/gjensidige.py:103 | The as-written key of a capture split by a line break is not a registration, while `Plate` of it is |
| Gjensidige.PlateSpec | app_modules/Sheets/Fordon/extractors/gjensidige.py:100-103 | The corrected key of an inline or table capture is a registration, the same for every spacing of the plate |
| Gjensidige.PlateAgreesOnSpaces | app_modules/Sheets/Fordon/extractors/gjensidige.py:100-103 | On a capture whose only whitespace is spaces, the corrected key equals `strip().replace(" ", "")`, so there the extractors emit and deduplicate exactly the source's keys |
| Gjensidige.Window | app_modules/Sheets/Fordon/extractors/gjensidige.py:112 | A window is the slice from `max(0, pos-before)` to `min(len, pos+after)` of the text, never longer than `before + after` |
| Gjensidige.InlineRecordSpec | app_modules/Sheets/Fordon/extractors/gjensidige.py:96-126 | An inline record: registration key, type `bil`, make, stripped model and year joined by single spaces, coverage `kasko`, no mileage or deductible, leasing `""` or a company, a formatted bonus |
| Gjensidige.BuildInlineRecord | app_modules/Sheets/Fordon/extractors/gjensidige.py:110-126 | The loop body returns the record `InlineRecord` defines |
| Gjensidige.ExtractInlineCars | app_modules/Sheets/Fordon/extractors/gjensidige.py:96-126 | The format-1 loop gives the records of the lines whose key is fresh, first line per key, and adds their keys to the caller's set |
| Gjensidige.FirstBrandSpec | app_modules/Sheets/Fordon/extractors/gjensidige.py:154-163 | The brand loop finds a make exactly when one occurs in the window, and then the first in list order |
| Gjensidige.ModelAfter | app_modules/Sheets/Fordon/extractors/gjensidige.py:158-162 | The model after a brand has no outer whitespace |
| Gjensidige.TableLookupSpec | app_modules/Sheets/Fordon/extractors/gjensidige.py:139-171 | A table car is found exactly when the registration occurs and a make and a free-standing year occur in the window around its first occurrence; the find holds the first such make, the model after it and the first such year |
| Gjensidige.TableMakeModel | app_modules/Sheets/Fordon/extractors/gjensidige.py:172-180 | `f"{brand} {model}".strip()` is the make alone for an empty model, else make, space, model |
| Gjensidige.TableRecordSpec | app_modules/Sheets/Fordon/extractors/gjensidige.py:128-191 | A swept registration gives a record exactly when the lookup finds one, keyed by its whitespace-free registration, with type `bil`, make, model, year, coverage `kasko`, no mileage or deductible |
| Gjensidige.FindMakeAndModel | app_modules/Sheets/Fordon/extractors/gjensidige.py:150-163 | The brand loop with its `break` returns the first make in the window and the model after it |
| Gjensidige.LookUpTable | app_modules/Sheets/Fordon/extractors/gjensidige.py:139-171 | The table-loop body returns what `TableLookup` specifies |
| Gjensidige.ExtractTableCars | app_modules/Sheets/Fordon/extractors/gjensidige.py:128-191 | The format-2 loop gives the records of the swept registrations with a fresh key and a successful lookup, and adds their keys to the set |
| Gjensidige.ExtractRegisteredCars | app_modules/Sheets/Fordon/extractors/gjensidige.py:78-193 | The inline records, then the table records, the table loop starting from the keys the inline loop left; the final set holds every emitted key |
| Gjensidige.RegisteredCarsDistinct | app_modules/Sheets/Fordon/extractors/gjensidige.py:105-108 | No registration is emitted twice across both formats, and none the caller had already seen |
| Gjensidige.InlineFirstKept | app_modules/Sheets/Fordon/extractors/gjensidige.py:135-137 | For every key not seen before, the record of the first inline line with that key is emitted, so a format-1 record blocks format 2 |
| Gjensidige.CleanModel | app_modules/Sheets/Fordon/extractors/gjensidige.py:217-221 | The clean-up chain never lengthens the model, and with at least one step the result has no outer whitespace |
| Gjensidige.MachineYearSpec | app_modules/Sheets/Fordon/extractors/gjensidige.py:224-229 | Without a captured year, the `Uregistrert` pattern takes the first year in the 200 characters from the match, else `"2024"`; the `traktor` pattern takes `"2024"` at once; a captured year is kept |
| Gjensidige.CandidateSpec | app_modules/Sheets/Fordon/extractors/gjensidige.py:231-239 | A machine candidate has the visit's brand, a stripped model of at least two characters, and the key `brand_model_year` in lower case |
| Gjensidige.ScanUregistrert | app_modules/Sheets/Fordon/extractors/gjensidige.py:213-250 | The `Uregistrert` loop of one brand continues the dedup fold over that brand's matches |
| Gjensidige.ScanTraktor | app_modules/Sheets/Fordon/extractors/gjensidige.py:256-281 | The `traktor` loop of one brand continues the dedup fold over that brand's matches |
| Gjensidige.ExtractUnregisteredTractors | app_modules/Sheets/Fordon/extractors/gjensidige.py:196-283 | The machine records are the dedup fold over every brand's matches, `Uregistrert` before `traktor`, in brand order |
| Gjensidige.MachinesSpec | app_modules/Sheets/Fordon/extractors/gjensidige.py:231-281 | No two machine records share brand, lower-cased model and year; each record is `MachineRecord` of a kept machine (registration `Uregistrert`, type `traktor`) of a machine brand, with a stripped model of two or more characters, and a year that is a year when every capture is |
| Gjensidige.MachineFirstKept | app_modules/Sheets/Fordon/extractors/gjensidige.py:236-239 | For every machine key, the first match that yields it gives the kept record |
| Gjensidige.ExtractGjensidigeVehicles | app_modules/Sheets/Fordon/extractors/gjensidige.py:26-75 | The result is the registered cars, from an empty set, followed by the machines |
| GjensidigeSimple.SimpleCandidateSpec | app_modules/Sheets/Fordon/extractors/gjensidige-extractor.py:117-129 | Every match gives a candidate: its stripped, cleaned model (even an empty one), the captured year or `"2024"`, keyed `brand_model_year` |
| GjensidigeSimple.ScanBrandSimple | app_modules/Sheets/Fordon/extractors/gjensidige-extractor.py:117-140 | The loop over one brand's matches continues the dedup fold |
| GjensidigeSimple.ExtractUnregisteredTractors | app_modules/Sheets/Fordon/extractors/gjensidige-extractor.py:104-142 | The machine records are the dedup fold over every brand's matches in brand order |
| GjensidigeSimple.SimpleMachinesSpec | app_modules/Sheets/Fordon/extractors/gjensidige-extractor.py:125-140 | No two records share brand, lower-cased model and year; each is an unregistered `traktor` of a machine brand with a stripped model |
| GjensidigeSimple.SimpleEveryKeyEmitted | app_modules/Sheets/Fordon/extractors/gjensidige-extractor.py:118-129 | With no length check, the key of every match, even one with an empty model, is the key of an emitted record |
| GjensidigeSimple.ExtractSimpleVehicles | app_modules/Sheets/Fordon/extractors/gjensidige-extractor.py:26-47 | The result is the inline car records, from an empty set, followed by the machine records |
| PyValue.FirstTruthySpec | app_modules/Sheets/Fordon/mapping.py:30-34 | `a or b or ""` gives the value of the first key whose value is truthy, and `""` when none is |
| PyValue.FirstTruthyReads | app_modules/Sheets/Fordon/mapping.py:30-34 | A fallback chain depends only on its keys |
| FordonMapping.TransformKeys | app_modules/Sheets/Fordon/mapping.py:9-14 | The output has exactly the keys of `CELL_MAP`, and each value is a truthy input value or `""` |
| FordonMapping.TransformFallbacks | app_modules/Sheets/Fordon/mapping.py:30-34 | `company_name` falls back to `name`, `org_number` to `org_no`, `vehicle_count` to `antal_fordon`, each then to `""` |
| FordonMapping.TransformReads | app_modules/Sheets/Fordon/mapping.py:27-38 | Two inputs that agree on the six keys read give the same output |
| YrkesskadeMapping.TransformKeys | app_modules/Sheets/Yrkesskade/mapping.py:9-15 | The output has exactly the keys of `CELL_MAP`, and each value is a truthy input value or `""` |
| YrkesskadeMapping.TransformFallbacks | app_modules/Sheets/Yrkesskade/mapping.py:31-36 | `company_name`, `org_number` and `employees` fall back to `name`, `org_no` and `antallAnsatte`; `injury_history` is the input value when truthy; each ends in `""` |
| YrkesskadeMapping.TransformReads | app_modules/Sheets/Yrkesskade/mapping.py:28-40 | Two inputs that agree on the seven keys read give the same output |
| AlminneligAnsvarMapping.TransformKeys | app_modules/Sheets/Alminnelig_ansvar/mapping.py:9-16 | The output has exactly the keys of `CELL_MAP`, and each value is a truthy input value or `""` |
| AlminneligAnsvarMapping.TransformFallbacks | app_modules/Sheets/Alminnelig_ansvar/mapping.py:32-36 | `company_name` and `org_number` fall back to `name` and `org_no`; `address`, `post_nr`, `city` are the truthy input value, else `""` |
| AlminneligAnsvarMapping.TransformReads | app_modules/Sheets/Alminnelig_ansvar/mapping.py:29-40 | Two inputs that agree on the seven keys read give the same output |
| SammendragMapping.CopyFinancial | app_modules/Sheets/Sammendrag/mapping.py:78-89 | The nested loop over keys and years writes `{key}_{year}{suffix}` from the input or `""`, as `CopyFields` over the twelve financial names |
| SammendragMapping.TransformData | app_modules/Sheets/Sammendrag/mapping.py:53-91 | The method's output is `Transformed`: the company part, then the financial fields, then their `_alt` copies |
| SammendragMapping.FinancialNamesSpec | app_modules/Sheets/Sammendrag/mapping.py:23-34 | The loop visits exactly the twelve financial fields of `CELL_MAP`, in the order they are listed |
| SammendragMapping.FieldsDistinct | app_modules/Sheets/Sammendrag/mapping.py:8-50 | `CELL_MAP` lists 32 pairwise distinct fields |
| SammendragMapping.CellsDistinct | app_modules/Sheets/Sammendrag/mapping.py:8-50 | The cell references of `CELL_MAP` are pairwise distinct |
| SammendragMapping.BlockShapes | app_modules/Sheets/Sammendrag/mapping.py:12-49 | Company, financial and `_alt` fields differ in length, and their cells in column or width, so the three blocks cannot overlap |
| SammendragMapping.TransformKeys | app_modules/Sheets/Sammendrag/mapping.py:63-89 | The keys of the transformed data are exactly the fields of `CELL_MAP` |
| SammendragMapping.TransformCompany | app_modules/Sheets/Sammendrag/mapping.py:66-67 | `company_name` is the first truthy of `company_name`, `name`, else `""`; the same for `org_number` with `org_no` |
| SammendragMapping.TransformSingle | app_modules/Sheets/Sammendrag/mapping.py:68-73 | Each of the other six company fields is the input value when truthy, else `""` |
| SammendragMapping.TransformFinancial | app_modules/Sheets/Sammendrag/mapping.py:78-89 | Each financial field is the input value (unchanged, truthy or not) or `""` when absent, and its `_alt` field equals it |
| SammendragMapping.TransformReads | app_modules/Sheets/Sammendrag/mapping.py:63-91 | Two inputs with the same entries for the keys read give the same output |
| SheetConfig.GetSheetMapping | app_modules/Sheets/sheet_config.py:36-46 | The Sammendrag and Fordon names give their `CELL_MAP`; every other name gives `{}` |
| SheetConfig.GetTransformFunction | app_modules/Sheets/sheet_config.py:49-59 | A transform is found exactly for Sammendrag and Fordon |
| SheetConfig.TransformForSheet | app_modules/Sheets/sheet_config.py:62-76 | Sammendrag and Fordon data go through their `transform_data`; other sheets get the data unchanged |
| SheetConfig.SameSheets | app_modules/Sheets/sheet_config.py:21-33 | `SHEET_MAPPINGS` and `SHEET_TRANSFORMS` have the same two sheet names |
| SheetConfig.TransformFillsMapping | app_modules/Sheets/sheet_config.py:62-76 | For a sheet with a transform, the transformed data has exactly the fields of that sheet's cell map |
| Brreg.NormalizeAddress | app_modules/Sheets/Sammendrag/brreg_getter.py:13-29 | The method that builds `parts` by appends returns `NormalizedAddress`, including its `TypeError` when a part is not a string |
| Brreg.NormalizedEmpty | app_modules/Sheets/Sammendrag/brreg_getter.py:14-15 | An empty address object gives `""` |
| Brreg.NormalizedAddressOfStrings | app_modules/Sheets/Sammendrag/brreg_getter.py:18-29 | For string fields (the street possibly a list of lines), the result is the non-empty parts among street, postcode and place, in that order, joined by `", "` |
| Brreg.FilterStrings | app_modules/Sheets/Sammendrag/brreg_getter.py:20 | `filter(None, …)` over strings keeps exactly the non-empty ones, in order |
| Brreg.JoinNonEmpty | app_modules/Sheets/Sammendrag/brreg_getter.py:29 | Joining non-empty parts is empty only for no parts, starts with the first part and ends with the last, so no stray separator appears |
| Brreg.NormalizedPlaceTypeError | app_modules/Sheets/Sammendrag/brreg_getter.py:24-29 | A truthy place that is not a string makes the join raise |
| Brreg.FilterTruthyKeeps | app_modules/Sheets/Sammendrag/brreg_getter.py:20 | `filter(None, …)` keeps every truthy item |
| Brreg.OrgNumberOf | app_modules/Sheets/Sammendrag/brreg_getter.py:36-41 | A query is accepted exactly when it is non-empty and its stripped form is non-empty and all digits; the org number is the stripped query |
| Brreg.FetchBrregInfo | app_modules/Sheets/Sammendrag/brreg_getter.py:36-66 | A rejected query, or a failed request, gives `{}` |
| Brreg.FetchBrregShape | app_modules/Sheets/Sammendrag/brreg_getter.py:50-63 | The result is `{}` or has exactly the seven normalised keys, a string `address`, and `postnr` and `poststed` truthy or `""` |
| Proff.SortByDateSpec | app_modules/Sheets/Sammendrag/proff_getter.py:62 | The sort gives the statements in descending `fraDato` order, and a permutation of them |
| Proff.LatestSpec | app_modules/Sheets/Sammendrag/proff_getter.py:62-64 | At most three statements are kept (all of them when fewer), all from the input, and none left out is later than one kept |
| Proff.LexLessTransitive | app_modules/Sheets/Sammendrag/proff_getter.py:62 | Python's string order is transitive |
| Proff.LexLessTotal | app_modules/Sheets/Sammendrag/proff_getter.py:62 | Python's string order is total |
| Proff.SkippedStatement | app_modules/Sheets/Sammendrag/proff_getter.py:65-68 | A statement whose year prefix is empty or below 2020 adds no keys |
| Proff.ParsedYearRecent | app_modules/Sheets/Sammendrag/proff_getter.py:65-68 | A year prefix that passes the filter is four digits from `2020` up |
| Proff.ResultPrefixSpec | app_modules/Sheets/Sammendrag/proff_getter.py:76-93 | The revenue test beats the operating-result test, which beats the before-tax test; a result line sets at most one key, never `sum_eiendeler` |
| Proff.BalancePrefix | app_modules/Sheets/Sammendrag/proff_getter.py:98-104 | A balance line sets a key exactly when its lower-cased label contains `sum eiendeler`, and the key is `sum_eiendeler` |
| Proff.LastLineWins | app_modules/Sheets/Sammendrag/proff_getter.py:76-104 | The last line that writes a key determines its value, the stringified amount |
| Proff.LinesFoldKeeps | app_modules/Sheets/Sammendrag/proff_getter.py:76-104 | A key that no line writes keeps its earlier value |
| Proff.LinesFoldKeys | app_modules/Sheets/Sammendrag/proff_getter.py:82-104 | Every new key is some line's prefix with `_{year}` |
| Proff.ApplyLines | app_modules/Sheets/Sammendrag/proff_getter.py:76-105 | The line loop returns `LinesFold` of its lines |
| Proff.ExtractFinancialData | app_modules/Sheets/Sammendrag/proff_getter.py:59-105 | The sort, the slice and the statement loop give `FinancialData`, or the `int()` error for a non-numeric year prefix |
| Proff.FetchFinancialData | app_modules/Sheets/Sammendrag/proff_getter.py:25-126 | An empty or non-digit org number, a failed request or an exception in the fold gives `{}`; otherwise the result is the financial data of the answer's statements |
| Proff.FetchFinancialKeys | app_modules/Sheets/Sammendrag/proff_getter.py:82-104 | Every output key is one of the four prefixes, `_` and a four-digit year from 2020 |
| Proff.FinancialValueOrigin | app_modules/Sheets/Sammendrag/proff_getter.py:64-105 | Every value is `str(belop)` of a line of one of the three latest statements, a statement with a recent year, and that line's prefix and the statement's year give its key |
| Proff.FetchFinancialValueOrigin | app_modules/Sheets/Sammendrag/proff_getter.py:14-116 | Every value the getter returns comes from such a line of the answer's three latest statements |
| Proff.FinancialResultValue | app_modules/Sheets/Sammendrag/proff_getter.py:64-93 | The last of the three latest statements with a given recent year decides each result key of that year: the amount of its last result line with that prefix, overwriting an earlier statement of the same year |
| Proff.FinancialAssetsValue | app_modules/Sheets/Sammendrag/proff_getter.py:64-105 | The last of the three latest statements with a given recent year decides `sum_eiendeler_{year}`: the amount of its last balance line containing `sum eiendeler` |
| Proff.StatementsFoldKeeps | app_modules/Sheets/Sammendrag/proff_getter.py:64-105 | Statements of other years leave a key's value unchanged |
| Proff.AssetsFromBalance | app_modules/Sheets/Sammendrag/proff_getter.py:96-105 | A `sum_eiendeler_{year}` key comes only from a balance line containing `sum eiendeler` |

## Left out

- Regular expressions: there is no general regex engine. The large `finditer`/`findall` patterns are
  inputs, so the model assumes only what their shape guarantees (see `WellFormed`, `IsCarLine`,
  `YearCaptureOk`).
- Character classes follow Python's Unicode rules over Latin-1 only. This covers `\s`, `\w`, `isupper`,
  `lower` and IGNORECASE. `\d` and `isdigit` are ASCII digits only.
- Streamlit output: the debug block of `extract_gjensidige_vehicles` (gjensidige.py lines 36 and 46-72)
  and every `st.write`/`st.error`/`st.json` in the accounting getter are UI side effects.
- HTTP: the BRREG request, status check and JSON decoding (brreg_getter.py 42-48) and the
  accounting-register request (proff_getter.py 37-56) are not modelled. Their outcome is a parameter
  (`answer`), and `None` stands for a failed request or an exception caught by the handlers.
- `@lru_cache` memoisation changes no result and is not modelled.
- Brreg.FetchBrregInfo: a non-dict `forretningsadresse` or `naeringskode1` raises AttributeError, which
  the handler turns into `{}`. The model gives `{}` in that case without modelling the exception type.
- Brreg.PostPart: `get("postnummer") or get("postnummer")` is the same lookup twice, modelled as one.
- PyValue.Value: there is no float case. A float in the extracted data or the JSON answer (where `0.0`
  is falsy in an `or` chain and `str(150.0)` is `"150.0"`) cannot be represented.
- PyValue.PyStr: `str()` of a list or dict is written as an empty bracket pair, not the element repr.
- Proff.ExtractFinancialData: the statements and lines are typed records. JSON of another shape (a
  non-dict statement, a `None` label) is not modelled.
- Proff.ExtractFinancialData: `int()` accepts only ASCII digits here. Python also takes surrounding
  whitespace, a sign and underscores.
- Proff.ExtractFinancialData: amounts are values rendered by `str()`. Floating-point amounts are not
  modelled.
- Proff.SortByDate: the stability of `sorted(..., reverse=True)` among equal dates is not proved. The
  model sorts stably, but the contracts state only order and permutation.
- Dictionary insertion order is not modelled: the outputs are Dafny maps.
- Gjensidige.ExtractInlineCars, Gjensidige.ExtractTableCars, Gjensidige.ExtractRegisteredCars,
  Gjensidige.ExtractGjensidigeVehicles and GjensidigeSimple.ExtractSimpleVehicles key and emit the
  corrected registration (`Plate`, all whitespace removed; see Findings), not the source's
  `replace(" ", "")` key. The two agree on every capture whose only whitespace is spaces
  (Gjensidige.PlateAgreesOnSpaces, Vehicle.RemoveSpacesAgrees). On a capture split by a line break or
  tab the source emits a key that keeps that character, and the model does not capture this.
- Gjensidige.ExtractRegisteredCars: `_extract_registered_cars` is split into its two loops, which share
  the set of keys.
- SammendragMapping.CellMap: `CELL_MAP` is kept as its ordered list of entries, and the map is built
  from them.
- Other files are not part of this model:
  - `pdf_parser.py` (PDF text and OCR);
  - `excel_filler.py` (workbook I/O);
  - `main_page.py` and `app.py` (the UI);
  - `proff_getter_DEBUG.py` (scraping);
  - `extractors/__init__.py` (re-exports of modules under other names).

## Findings

| source | as written | input that shows it | evidently intended | confidence | as-written member | corrected member |
|---|---|---|---|---|---|---|
| app_modules/Sheets/Fordon/extractors/gjensidige.py:103 | The registration key is the capture with only ASCII spaces removed, although `[A-Z]{2}\s+\d{5}` also admits line breaks and tabs. The same applies at line 133 and in gjensidige-extractor.py line 76. | The inline capture `"BU\n21895"` keeps its line break, so the emitted registration is not a registration and is not deduplicated against `BU21895` | Remove all whitespace, so every capture gives `BU21895` | not executed | Gjensidige.PlateAsWrittenKeepsLineBreak | Gjensidige.PlateSpec |
