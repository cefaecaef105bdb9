/**
 * The row filter of the main script: for each aviation row, look up the country of the
 * airport and of the destination by IATA code, and keep the row only when both are known.
 */
module Airports {
  import opened Wrappers
  import opened Text

  /** A DataFrame cell: a string, or any other value (a number, NaN), told apart by `id`. */
  datatype Cell = Str(s: string) | NonStr(id: nat)

  /** The selected columns of one row; `month` is None when the table has no Month column. */
  datatype Row = Row(airport: Cell, destination: Cell, month: Option<Cell>)

  /** One record of the airport library; `country_code` may be missing. */
  datatype AirportInfo = AirportInfo(countryCode: Option<string>)

  /** `airport_data.get_airport_by_iata`: the records for a code, possibly none. */
  type Lookup = string -> seq<AirportInfo>

  /** A kept row: both codes and their two country codes, airport first. */
  datatype Entry = Entry(airport: string, destination: string, codes: seq<string>, month: Option<Cell>)

  /** A three-character alphabetic string: the only cells ever looked up. */
  predicate IsIataCode(c: Cell) {
    c.Str? && |c.s| == 3 && IsAlpha(c.s[0]) && IsAlpha(c.s[1]) && IsAlpha(c.s[2])
  }

  /** The country code of the first record for the cell's code. */
  function CountryCode(lookup: Lookup, c: Cell): (code: Option<string>)
    ensures code.Some? ==> IsIataCode(c) && |lookup(c.s)| > 0 && lookup(c.s)[0].countryCode == code
    ensures IsIataCode(c) && |lookup(c.s)| > 0 ==> code == lookup(c.s)[0].countryCode
  {
    if IsIataCode(c) && |lookup(c.s)| > 0 then lookup(c.s)[0].countryCode else None
  }

  /** The entry appended for `row`, if both country codes are known. */
  function EntryOf(lookup: Lookup, row: Row): Option<Entry> {
    var airportCode := CountryCode(lookup, row.airport);
    var destCode := CountryCode(lookup, row.destination);
    if airportCode.Some? && destCode.Some? then
      Some(Entry(row.airport.s, row.destination.s, [airportCode.value, destCode.value], row.month))
    else None
  }

  /** The entries of the kept rows, in row order. */
  function Filtered(lookup: Lookup, rows: seq<Row>): seq<Entry>
    decreases |rows|
  {
    if rows == [] then []
    else
      var last := EntryOf(lookup, rows[|rows| - 1]);
      Filtered(lookup, rows[..|rows| - 1]) + (if last.Some? then [last.value] else [])
  }

  /** The loop of the main script that builds `results`. */
  method FilterRows(lookup: Lookup, rows: seq<Row>) returns (results: seq<Entry>)
    ensures results == Filtered(lookup, rows)
  {
    results := [];
    for i := 0 to |rows|
      invariant results == Filtered(lookup, rows[..i])
    {
      assert rows[..i + 1][..i] == rows[..i];
      var row := rows[i];
      var airportCode: Option<string> := None;
      var destCode: Option<string> := None;
      if row.airport.Str? && |row.airport.s| == 3 && IsAlpha(row.airport.s[0]) && IsAlpha(row.airport.s[1]) && IsAlpha(row.airport.s[2]) {
        var airportInfo := lookup(row.airport.s);
        if |airportInfo| > 0 {
          airportCode := airportInfo[0].countryCode;
        }
      }
      if row.destination.Str? && |row.destination.s| == 3 && IsAlpha(row.destination.s[0]) && IsAlpha(row.destination.s[1]) && IsAlpha(row.destination.s[2]) {
        var destInfo := lookup(row.destination.s);
        if |destInfo| > 0 {
          destCode := destInfo[0].countryCode;
        }
      }
      if airportCode.Some? && destCode.Some? {
        results := results + [Entry(row.airport.s, row.destination.s, [airportCode.value, destCode.value], row.month)];
      }
    }
    assert rows[..|rows|] == rows;
  }

  /**
   * The entries are exactly the kept rows, each once and in input order: entry k comes from
   * row idx[k], the indices increase, and every kept row has an index.
   */
  lemma {:induction false} FilteredOrigins(lookup: Lookup, rows: seq<Row>) returns (idx: seq<nat>)
    ensures |idx| == |Filtered(lookup, rows)|
    ensures forall k :: 0 <= k < |idx| ==> idx[k] < |rows| && EntryOf(lookup, rows[idx[k]]) == Some(Filtered(lookup, rows)[k])
    ensures forall k, l :: 0 <= k < l < |idx| ==> idx[k] < idx[l]
    ensures forall i :: 0 <= i < |rows| && EntryOf(lookup, rows[i]).Some? ==> i in idx
    decreases |rows|
  {
    if rows == [] {
      idx := [];
    } else {
      var n := |rows| - 1;
      var init := rows[..n];
      var prev := FilteredOrigins(lookup, init);
      assert forall i :: 0 <= i < n ==> init[i] == rows[i];
      var last := EntryOf(lookup, rows[n]);
      if last.Some? {
        idx := prev + [n];
        assert Filtered(lookup, rows) == Filtered(lookup, init) + [last.value];
      } else {
        idx := prev;
        assert Filtered(lookup, rows) == Filtered(lookup, init);
      }
    }
  }

  /** Every entry's codes are the looked-up countries of its own airport and destination. */
  lemma FilteredSound(lookup: Lookup, rows: seq<Row>, k: nat)
    requires k < |Filtered(lookup, rows)|
    ensures var e := Filtered(lookup, rows)[k];
            && IsIataCode(Str(e.airport)) && IsIataCode(Str(e.destination))
            && |e.codes| == 2
            && CountryCode(lookup, Str(e.airport)) == Some(e.codes[0])
            && CountryCode(lookup, Str(e.destination)) == Some(e.codes[1])
  {
    var idx := FilteredOrigins(lookup, rows);
    var row := rows[idx[k]];
    assert EntryOf(lookup, row).Some?;
  }
}
