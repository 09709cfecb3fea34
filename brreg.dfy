/**
 * The Enhetsregisteret getter of `app_modules/Sheets/Sammendrag/brreg_getter.py`: the address
 * normaliser `_normalize_address`, the input guard of `fetch_brreg_info`, and the record it
 * builds from the register's JSON answer. The HTTP request is a parameter: the decoded answer, or
 * `None` when the request fails or does not return status 200.
 */
module Brreg {
  import opened Wrappers
  import opened Text
  import opened PyValue

  /** The message of the `TypeError` that `str.join` raises for an item that is not a string. */
  const JoinTypeError: string := "sequence item: expected str instance"

  /** The message of the `AttributeError` of calling `.get` on a value that is not a dict. */
  const GetAttributeError: string := "object has no attribute 'get'"

  /** `filter(None, items)`: the truthy items, in order. */
  function FilterTruthy(items: seq<Value>): (r: seq<Value>)
    ensures |r| <= |items|
    ensures forall i :: 0 <= i < |r| ==> Truthy(r[i])
  {
    if items == [] then []
    else if Truthy(items[0]) then [items[0]] + FilterTruthy(items[1..])
    else FilterTruthy(items[1..])
  }

  /** The strings of `items` when every item is a string. */
  function AsStrings(items: seq<Value>): (r: Option<seq<string>>)
    ensures r.Some? ==> |r.value| == |items| && forall i :: 0 <= i < |items| ==> items[i] == Str(r.value[i])
    ensures r.None? ==> exists i :: 0 <= i < |items| && !items[i].Str?
  {
    if items == [] then Some([])
    else if !items[0].Str? then None
    else match AsStrings(items[1..])
      case None => None
      case Some(rest) => Some([items[0].s] + rest)
  }

  /** `sep.join(items)`, which raises `TypeError` when an item is not a string. */
  function JoinValues(sep: string, items: seq<Value>): Result<string, string> {
    match AsStrings(items)
    case None => Err(JoinTypeError)
    case Some(ss) => Ok(Join(sep, ss))
  }

  /**
   * The part `adresse` adds to `parts`: a list's truthy items joined with `", "` (the exception of
   * that join propagates), a truthy value itself, nothing otherwise.
   */
  function StreetPart(adr: Value): Result<seq<Value>, string> {
    if adr.List? then
      match JoinValues(", ", FilterTruthy(adr.items))
      case Err(e) => Err(e)
      case Ok(street) => Ok([Str(street)])
    else if Truthy(adr) then Ok([adr])
    else Ok([])
  }

  /** `str(postnr)` when the postcode is truthy; `get("postnummer") or get("postnummer")` is that one lookup. */
  function PostPart(addrObj: PyDict): seq<Value> {
    var postnr := Get(addrObj, "postnummer");
    if Truthy(postnr) then [Str(PyStr(postnr))] else []
  }

  /** `poststed` when truthy. */
  function PlacePart(addrObj: PyDict): seq<Value> {
    var poststed := Get(addrObj, "poststed");
    if Truthy(poststed) then [poststed] else []
  }

  /** What `_normalize_address` returns, or the exception it raises. */
  function NormalizedAddress(addrObj: PyDict): Result<string, string> {
    if addrObj == map[] then Ok("")
    else match StreetPart(Get(addrObj, "adresse"))
      case Err(e) => Err(e)
      case Ok(street) => JoinValues(", ", FilterTruthy(street + PostPart(addrObj) + PlacePart(addrObj)))
  }

  /**
   * `_normalize_address`: `""` for an empty address object; otherwise the street, the postcode
   * and the place appended to `parts` when present, and the truthy parts joined with `", "`.
   */
  method NormalizeAddress(addrObj: PyDict) returns (r: Result<string, string>)
    ensures r == NormalizedAddress(addrObj)
  {
    if addrObj == map[] {
      return Ok("");
    }
    var parts: seq<Value> := [];
    var adr := Get(addrObj, "adresse");
    if adr.List? {
      var street := JoinValues(", ", FilterTruthy(adr.items));
      if street.Err? {
        return Err(street.error);
      }
      parts := parts + [Str(street.value)];
    } else if Truthy(adr) {
      parts := parts + [adr];
    }
    var postnr := Get(addrObj, "postnummer");
    var poststed := Get(addrObj, "poststed");
    assert parts == StreetPart(adr).value;
    if Truthy(postnr) {
      parts := parts + [Str(PyStr(postnr))];
    }
    assert parts == StreetPart(adr).value + PostPart(addrObj);
    if Truthy(poststed) {
      parts := parts + [poststed];
    }
    assert parts == StreetPart(adr).value + PostPart(addrObj) + PlacePart(addrObj);
    r := JoinValues(", ", FilterTruthy(parts));
  }

  /** The non-empty strings of `ss`, in order: the reference for dropping empty address parts. */
  function NonEmpty(ss: seq<string>): (r: seq<string>)
    ensures forall i :: 0 <= i < |r| ==> r[i] != ""
  {
    if ss == [] then []
    else if ss[0] != "" then [ss[0]] + NonEmpty(ss[1..])
    else NonEmpty(ss[1..])
  }

  /** A list of strings as a list of values. */
  function Strs(ss: seq<string>): (r: seq<Value>)
    ensures |r| == |ss|
  {
    if ss == [] then [] else [Str(ss[0])] + Strs(ss[1..])
  }

  /** Filtering string values keeps exactly the non-empty strings. */
  lemma {:induction false} FilterStrings(ss: seq<string>)
    ensures AsStrings(FilterTruthy(Strs(ss))) == Some(NonEmpty(ss))
  {
    if ss != [] {
      FilterStrings(ss[1..]);
      assert Strs(ss)[1..] == Strs(ss[1..]);
    }
  }

  /** The value a string is read as: absent (`None`) when empty, the string otherwise. */
  function StrOrAbsent(s: string): Value {
    if s == "" then Null else Str(s)
  }

  /** Street, postcode and place given as strings, each possibly absent or empty; a list-valued street joined first. */
  predicate AddressOfStrings(addrObj: PyDict, lines: seq<string>, street: string, post: string, place: string) {
    && (Get(addrObj, "adresse") == StrOrAbsent(street)
        || (Get(addrObj, "adresse") == List(Strs(lines)) && street == Join(", ", NonEmpty(lines))))
    && Get(addrObj, "postnummer") == StrOrAbsent(post)
    && Get(addrObj, "poststed") == StrOrAbsent(place)
  }

  /** The street part filters to the street string. */
  lemma StreetFiltered(addrObj: PyDict, lines: seq<string>, street: string, post: string, place: string)
    requires AddressOfStrings(addrObj, lines, street, post, place)
    ensures StreetPart(Get(addrObj, "adresse")).Ok?
    ensures FilterTruthy(StreetPart(Get(addrObj, "adresse")).value) == FilterTruthy([Str(street)])
  {
    if Get(addrObj, "adresse").List? {
      FilterStrings(lines);
    }
  }

  /** The parts appended filter to the three strings, filtered. */
  lemma PartsFiltered(addrObj: PyDict, lines: seq<string>, street: string, post: string, place: string)
    requires AddressOfStrings(addrObj, lines, street, post, place)
    ensures StreetPart(Get(addrObj, "adresse")).Ok?
    ensures FilterTruthy(StreetPart(Get(addrObj, "adresse")).value + PostPart(addrObj) + PlacePart(addrObj))
         == FilterTruthy(Strs([street, post, place]))
  {
    StreetFiltered(addrObj, lines, street, post, place);
    var sp := StreetPart(Get(addrObj, "adresse")).value;
    assert FilterTruthy(PostPart(addrObj)) == FilterTruthy([Str(post)]);
    assert FilterTruthy(PlacePart(addrObj)) == FilterTruthy([Str(place)]);
    FilterTruthyConcat(sp, PostPart(addrObj));
    FilterTruthyConcat(sp + PostPart(addrObj), PlacePart(addrObj));
    FilterTruthyConcat([Str(street)], [Str(post)]);
    FilterTruthyConcat([Str(street)] + [Str(post)], [Str(place)]);
    assert Strs([street, post, place]) == [Str(street)] + [Str(post)] + [Str(place)] by {
      assert [street, post, place][1..] == [post, place];
      assert [post, place][1..] == [place];
      assert Strs([place]) == [Str(place)] + Strs([]);
      assert Strs([post, place]) == [Str(post)] + Strs([place]);
    }
  }

  /**
   * For an address whose street, postcode and place are strings (each possibly absent or empty),
   * the result is the non-empty ones among street, postcode and place, in that order, joined with
   * `", "`; a list-valued street is its non-empty lines joined with `", "` first.
   */
  lemma NormalizedAddressOfStrings(addrObj: PyDict, lines: seq<string>, street: string, post: string, place: string)
    requires addrObj != map[]
    requires AddressOfStrings(addrObj, lines, street, post, place)
    ensures NormalizedAddress(addrObj) == Ok(Join(", ", NonEmpty([street, post, place])))
  {
    PartsFiltered(addrObj, lines, street, post, place);
    FilterStrings([street, post, place]);
  }

  /** Filtering a concatenation filters each part. */
  lemma {:induction false} FilterTruthyConcat(a: seq<Value>, b: seq<Value>)
    ensures FilterTruthy(a + b) == FilterTruthy(a) + FilterTruthy(b)
  {
    if a != [] {
      assert (a + b)[0] == a[0] && (a + b)[1..] == a[1..] + b;
      FilterTruthyConcat(a[1..], b);
    } else {
      assert a + b == b;
    }
  }

  /**
   * Joining non-empty parts leaves no stray separator: the result is empty exactly when there are
   * no parts, begins with the first part and ends with the last.
   */
  lemma {:induction false} JoinNonEmpty(sep: string, parts: seq<string>)
    requires forall i :: 0 <= i < |parts| ==> parts[i] != ""
    ensures var r := Join(sep, parts);
      && (r == "" <==> parts == [])
      && (parts != [] ==> |parts[0]| <= |r| && r[..|parts[0]|] == parts[0])
      && (parts != [] ==> |parts[|parts| - 1]| <= |r| && r[|r| - |parts[|parts| - 1]|..] == parts[|parts| - 1])
  {
    if |parts| > 1 {
      JoinNonEmpty(sep, parts[1..]);
      var rest := Join(sep, parts[1..]);
      var r := parts[0] + sep + rest;
      assert r[..|parts[0]|] == parts[0];
      assert r[|r| - |rest|..] == rest;
      var last := parts[|parts| - 1];
      assert parts[1..][|parts[1..]| - 1] == last;
      assert r[|r| - |last|..] == rest[|rest| - |last|..];
    }
  }

  /** An empty address object gives `""`. */
  lemma NormalizedEmpty()
    ensures NormalizedAddress(map[]) == Ok("")
  {
  }

  /** A truthy place that is not a string makes the final join raise `TypeError`. */
  lemma {:induction false} NormalizedPlaceTypeError(addrObj: PyDict)
    requires addrObj != map[]
    requires Truthy(Get(addrObj, "poststed")) && !Get(addrObj, "poststed").Str?
    ensures NormalizedAddress(addrObj).Err?
  {
    match StreetPart(Get(addrObj, "adresse"))
    case Err(_) =>
    case Ok(street) =>
      var parts := street + PostPart(addrObj) + PlacePart(addrObj);
      FilterTruthyKeeps(parts, |parts| - 1);
  }

  /** A truthy item is kept by the filter. */
  lemma {:induction false} FilterTruthyKeeps(items: seq<Value>, i: nat)
    requires i < |items| && Truthy(items[i])
    ensures items[i] in FilterTruthy(items)
  {
    if i > 0 && items != [] {
      FilterTruthyKeeps(items[1..], i - 1);
    }
  }

  /**
   * The guard of `fetch_brreg_info`: the organisation number to look up, or `None` when the query
   * is empty or its stripped form is not all digits (`str.isdigit` is false for `""`).
   */
  function OrgNumberOf(query: string): (r: Option<string>)
    ensures r.Some? <==> query != "" && Strip(query) != "" && AllDigits(Strip(query))
    ensures r.Some? ==> r.value == Strip(query)
  {
    if query == "" then None
    else
      var org := Strip(query);
      if org != "" && AllDigits(org) then Some(org) else None
  }

  /** `d.get(k) or {}` where a `.get` follows: the dict, or the `AttributeError` of a value that is not one. */
  function DictOrEmpty(v: Value): Result<PyDict, string> {
    if !Truthy(v) then Ok(map[])
    else if v.Dict? then Ok(v.entries)
    else Err(GetAttributeError)
  }

  /** The seven keys of a register record. */
  const RecordKeys: set<string> :=
    {"name", "org_no", "address", "postnr", "poststed", "naeringskode", "naeringskode_beskrivelse"}

  /** The record `fetch_brreg_info` builds from the decoded answer, or the exception raised on the way. */
  function RecordOf(data: Value): Result<PyDict, string> {
    if !data.Dict? then Err(GetAttributeError)
    else
      var d := data.entries;
      match DictOrEmpty(Get(d, "forretningsadresse"))
      case Err(e) => Err(e)
      case Ok(fa) =>
        match NormalizedAddress(fa)
        case Err(e) => Err(e)
        case Ok(address) =>
          match DictOrEmpty(Get(d, "naeringskode1"))
          case Err(e) => Err(e)
          case Ok(naerings) =>
            Ok(map["name" := Get(d, "navn"),
                   "org_no" := Get(d, "organisasjonsnummer"),
                   "address" := Str(address),
                   "postnr" := FirstTruthy(fa, ["postnummer"]),
                   "poststed" := FirstTruthy(fa, ["poststed"]),
                   "naeringskode" := Get(naerings, "kode"),
                   "naeringskode_beskrivelse" := Get(naerings, "beskrivelse")])
  }

  /**
   * `fetch_brreg_info`: `{}` when the guard rejects the query, when there is no answer, and when
   * building the record raises (the `except` branch); the record otherwise.
   */
  function FetchBrregInfo(query: string, answer: Option<Value>): (r: PyDict)
    ensures OrgNumberOf(query).None? ==> r == map[]
    ensures answer.None? ==> r == map[]
  {
    if OrgNumberOf(query).None? then map[]
    else match answer
      case None => map[]
      case Some(data) =>
        match RecordOf(data)
        case Err(_) => map[]
        case Ok(record) => record
  }

  /** A record with exactly the seven keys, a string address, and `postnr` and `poststed` truthy or `""`. */
  predicate RecordShaped(r: PyDict) {
    && r.Keys == RecordKeys
    && r["address"].Str?
    && (Truthy(r["postnr"]) || r["postnr"] == Str(""))
    && (Truthy(r["poststed"]) || r["poststed"] == Str(""))
  }

  /** Every record built has the seven keys, a string address and the `""` defaults. */
  lemma RecordOfShape(data: Value)
    requires RecordOf(data).Ok?
    ensures RecordShaped(RecordOf(data).value)
  {
    var fa := DictOrEmpty(Get(data.entries, "forretningsadresse")).value;
    FirstTruthySpec(fa, ["postnummer"]);
    FirstTruthySpec(fa, ["poststed"]);
  }

  /** A lookup gives `{}` or a record of that shape. */
  lemma FetchBrregShape(query: string, answer: Option<Value>)
    ensures var r := FetchBrregInfo(query, answer);
      r == map[] || RecordShaped(r)
  {
    if OrgNumberOf(query).Some? && answer.Some? && RecordOf(answer.value).Ok? {
      RecordOfShape(answer.value);
    }
  }
}
