/** The static airport table: a lazily filled process-wide cache, lookup by ICAO
    code, and the display label of an airport. */
module Airports {
  import opened Json
  import opened Text

  /** One airport's entry of the table (`name`, `city`, `country`, `iata`, ...). */
  type Airport = map<string, string>

  /** The table, keyed by upper-case ICAO code. */
  type Table = map<string, Airport>

  /** `_AIRPORTS_CACHE`: None until the first load, then the loaded table for good. */
  class AirportCache {
    var cache: Option<Table>

    constructor ()
      ensures cache == None
    {
      cache := None;
    }

    /** `load_airports`. `fileContents` is what reading the table file gives (an
        empty table when the file is missing or unreadable). The file is read only
        while the cache is None; afterwards the cached table is returned, even an
        empty one left by a failed first read. */
    method LoadAirports(fileContents: Table) returns (airports: Table, readFile: bool)
      modifies this
      ensures readFile <==> old(cache).None?
      ensures old(cache).Some? ==> airports == old(cache).value && cache == old(cache)
      ensures old(cache).None? ==> airports == fileContents && cache == Some(fileContents)
      ensures cache == Some(airports)
    {
      if cache.Some? {
        return cache.value, false;
      }
      cache := Some(fileContents);
      return fileContents, true;
    }
  }

  /** `get_airport_by_icao` on the loaded table: the entry of the upper-cased code. */
  function GetAirportByIcao(table: Table, icao: string): (r: Option<Airport>)
    ensures r.Some? <==> Upper(icao) in table
    ensures r.Some? ==> r.value == table[Upper(icao)]
  {
    var key := Upper(icao);
    if key in table then Some(table[key]) else None
  }

  /** The lookup ignores ASCII case: a code and its upper-case form find the same entry. */
  lemma LookupIgnoresCase(table: Table, icao: string)
    ensures GetAirportByIcao(table, icao) == GetAirportByIcao(table, Upper(icao))
  {
    UpperIdempotent(icao);
  }

  /** `validate_icao_code`: the code is known iff its upper-case form is a key. */
  predicate ValidateIcaoCode(table: Table, icao: string)
    ensures ValidateIcaoCode(table, icao) <==> Upper(icao) in table.Keys
  {
    GetAirportByIcao(table, icao).Some?
  }

  /** `d.get(key, default)` on an airport entry. */
  function Field(d: Airport, key: string, default: string): string {
    if key in d then d[key] else default
  }

  /** The first label part: the code, with the IATA code in parentheses when there is one. */
  function LabelHead(icao: string, d: Airport): (head: string)
    ensures icao <= head
    ensures head == icao <==> Field(d, "iata", "") == ""
    ensures Field(d, "iata", "") != "" ==> head[|icao|..] == " (" + Field(d, "iata", "") + ")"
  {
    var iata := Field(d, "iata", "");
    if iata != "" then icao + " (" + iata + ")" else icao
  }

  /** The non-empty location parts of the full label: name (default "Unknown"),
      city, country, in that order. */
  function LocationParts(d: Airport): (parts: seq<string>)
    ensures |parts| <= 3
    ensures forall k :: 0 <= k < |parts| ==> parts[k] != ""
    ensures var name, city, country := Field(d, "name", "Unknown"), Field(d, "city", ""), Field(d, "country", "");
      && (forall p :: p in parts <==> p != "" && (p == name || p == city || p == country))
      && |parts| == (if name != "" then 1 else 0) + (if city != "" then 1 else 0) + (if country != "" then 1 else 0)
      && (name != "" ==> parts[0] == name)
      && (country != "" ==> parts[|parts| - 1] == country)
      && (city != "" ==> parts[|parts| - (if country != "" then 2 else 1)] == city)
  {
    var name := Field(d, "name", "Unknown");
    var city := Field(d, "city", "");
    var country := Field(d, "country", "");
    (if name != "" then [name] else []) + (if city != "" then [city] else [])
      + (if country != "" then [country] else [])
  }

  /** `" - ".join(label_parts)`, where `label_parts` is the head followed by
      `" - ".join(location_parts)` when there are location parts: the same as one
      flat join of the head and the parts. */
  function JoinLabel(head: string, parts: seq<string>): (shown: string)
    ensures head <= shown
    ensures shown == Join([head] + parts, " - ")
  {
    var labelParts := [head] + (if parts != [] then [Join(parts, " - ")] else []);
    if parts == [] then
      assert labelParts == [head] + parts == [head];
      Join(labelParts, " - ")
    else
      assert labelParts == [head, Join(parts, " - ")];
      assert Join(labelParts, " - ") == head + " - " + Join(parts, " - ");
      assert ([head] + parts)[1..] == parts;
      Join(labelParts, " - ")
  }

  /** The entry the label describes: the supplied one, or else the table's. */
  function LabelData(table: Table, icao: string, airportData: Option<Airport>): Option<Airport> {
    if airportData.Some? then airportData else GetAirportByIcao(table, icao)
  }

  /** `format_airport_label`. The label is the bare code when there is no entry or
      the entry is empty; otherwise it starts with the code, shows the IATA code
      in parentheses right after it exactly when the entry has a non-empty one,
      and appends the location parts after " - " when there are any. */
  function FormatAirportLabel(table: Table, icao: string, airportData: Option<Airport>): (shown: string)
    ensures icao <= shown
    ensures LabelData(table, icao, airportData).None? ==> shown == icao
    ensures LabelData(table, icao, airportData) == Some(map[]) ==> shown == icao
    ensures LabelData(table, icao, airportData).Some? && LabelData(table, icao, airportData).value != map[]
            ==> var d := LabelData(table, icao, airportData).value;
                && (icao + " (" <= shown <==> Field(d, "iata", "") != "")
                && shown == JoinLabel(LabelHead(icao, d), LocationParts(d))
                && shown == Join([LabelHead(icao, d)] + LocationParts(d), " - ")
                && (Field(d, "iata", "") != "" ==> icao + " (" + Field(d, "iata", "") + ")" <= shown)
                && (LocationParts(d) == [] ==> shown == LabelHead(icao, d))
  {
    var data := LabelData(table, icao, airportData);
    if data.None? || data.value == map[] then icao
    else
      var d := data.value;
      var shown := JoinLabel(LabelHead(icao, d), LocationParts(d));
      assert Field(d, "iata", "") != "" ==> icao + " (" <= shown by {
        if Field(d, "iata", "") != "" {
          assert LabelHead(icao, d) == icao + " (" + Field(d, "iata", "") + ")";
          assert icao + " (" <= LabelHead(icao, d);
        }
      }
      assert Field(d, "iata", "") == "" ==> !(icao + " (" <= shown) by {
        if Field(d, "iata", "") == "" && LocationParts(d) != [] {
          assert shown == icao + " - " + Join(LocationParts(d), " - ");
          assert shown[|icao| + 1] == '-';
        }
      }
      shown
  }

  /** A supplied entry is used as it is: the table is not consulted. */
  lemma SuppliedDataSkipsLookup(t1: Table, t2: Table, icao: string, d: Airport)
    ensures FormatAirportLabel(t1, icao, Some(d)) == FormatAirportLabel(t2, icao, Some(d))
  {
  }
}
