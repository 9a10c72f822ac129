// Calc::Result: the figures a station analysis produces.  A vector of rows,
// one per year, each holding twelve monthly slots and a thirteenth for the
// year as a whole, plus thirteen "final" slots that summarise all years.
// Values are reals here; FAILURE is the float constant -99.9 as the double
// slots hold it.  The date-range member is declared without an
// implementation, so whether a date lies inside it is an input of Get and
// Set does not record it.

module StationCalc {
  import opened Date

  /** The float -99.9, widened to double: -13094093 / 2^17. */
  const FAILURE: real := -99.90000152587890625

  const SLOTS: int := 13
  const UINT32_LIMIT: int := 0x1_0000_0000

  /** pair<uint32, double[13]>: the key is the year truncated to 32 bits. */
  datatype Row = Row(year: int, slots: seq<real>)

  /** Every row has 13 slots and a key a uint32 can hold. */
  ghost predicate RowsWellFormed(rows: seq<Row>)
  {
    forall i :: 0 <= i < |rows| ==> |rows[i].slots| == SLOTS && 0 <= rows[i].year < UINT32_LIMIT
  }

  ghost predicate DistinctYears(rows: seq<Row>)
  {
    forall i, j :: 0 <= i < j < |rows| ==> rows[i].year != rows[j].year
  }

  /** A value-initialised double[13]. */
  function ZeroRow(): (r: seq<real>)
    ensures |r| == SLOTS
  {
    seq(SLOTS, _ => 0.0)
  }

  /** The row the range-for loops stop at (uint32 key == int64 year), or -1. */
  function RowIndex(rows: seq<Row>, year: int): (r: int)
    ensures -1 <= r < |rows|
    ensures r >= 0 ==> rows[r].year == year && forall j :: 0 <= j < r ==> rows[j].year != year
    ensures r == -1 ==> forall j :: 0 <= j < |rows| ==> rows[j].year != year
  {
    if rows == [] then -1
    else if rows[0].year == year then 0
    else
      var k := RowIndex(rows[1..], year);
      if k == -1 then -1 else k + 1
  }

  /** The rows after Set(date, val). */
  function SetRows(rows: seq<Row>, date: DateVal, val: real): seq<Row>
    requires RowsWellFormed(rows)
  {
    if !IsYearValid(date) || !IsMonthValid(date) then rows
    else
      var k := RowIndex(rows, date.year);
      if k >= 0 then rows[k := rows[k].(slots := rows[k].slots[date.month - 1 := val])]
      else rows + [Row(date.year % UINT32_LIMIT, ZeroRow()[date.month - 1 := val])]
  }

  /** What Get(date) returns; inRange is whether the date lies inside the range. */
  function GetValue(rows: seq<Row>, final: seq<real>, date: DateVal, inRange: bool): real
    requires RowsWellFormed(rows) && |final| == SLOTS
  {
    if !IsYearValid(date) && !IsMonthValid(date) then FAILURE
    else if !inRange then FAILURE
    else if IsMonthValid(date) then
      if IsYearValid(date) then
        var k := RowIndex(rows, date.year);
        if k >= 0 then rows[k].slots[date.month - 1] else FAILURE
      else final[date.month - 1]
    else
      var k := RowIndex(rows, date.year);
      if k >= 0 then rows[k].slots[12] else FAILURE
  }

  /** The rows after foreach_year(func): func may rewrite each row's slot 12. */
  function MapYearSlot(rows: seq<Row>, f: (int, real) -> real): (r: seq<Row>)
    requires RowsWellFormed(rows)
    ensures |r| == |rows|
  {
    seq(|rows|, i requires 0 <= i < |rows| => rows[i].(slots := rows[i].slots[12 := f(rows[i].year, rows[i].slots[12])]))
  }

  // ------------------------------------------------------------------- lemmas

  /** Set keeps 13 slots per row and keys within 32 bits. */
  lemma SetWellFormed(rows: seq<Row>, date: DateVal, val: real)
    requires RowsWellFormed(rows)
    ensures RowsWellFormed(SetRows(rows, date, val))
  {
  }

  /** Set is a no-op unless both year and month are valid. */
  lemma SetNeedsYearAndMonth(rows: seq<Row>, date: DateVal, val: real)
    requires RowsWellFormed(rows)
    ensures SetRows(rows, date, val) == rows <==>
      !(IsYearValid(date) && IsMonthValid(date)) || (RowIndex(rows, date.year) >= 0 && rows[RowIndex(rows, date.year)].slots[date.month - 1] == val)
  {
    if IsYearValid(date) && IsMonthValid(date) {
      var k := RowIndex(rows, date.year);
      if k >= 0 {
        var r := SetRows(rows, date, val);
        if rows[k].slots[date.month - 1] == val {
          assert rows[k].slots[date.month - 1 := val] == rows[k].slots;
          assert r[k] == rows[k];
        } else {
          assert r[k].slots[date.month - 1] != rows[k].slots[date.month - 1];
        }
      } else {
        assert |SetRows(rows, date, val)| == |rows| + 1;
      }
    }
  }

  /**
   * Set on a year already present writes slot month-1 of that row and
   * nothing else; on a new year it appends exactly one row keyed by the
   * year, zero everywhere but that slot.
   */
  lemma SetEffect(rows: seq<Row>, date: DateVal, val: real)
    requires RowsWellFormed(rows) && IsYearValid(date) && IsMonthValid(date)
    ensures var r := SetRows(rows, date, val);
      var k := RowIndex(rows, date.year);
      && (k >= 0 ==>
            && |r| == |rows|
            && (forall i :: 0 <= i < |rows| && i != k ==> r[i] == rows[i])
            && r[k].year == rows[k].year
            && (forall s :: 0 <= s < SLOTS ==> r[k].slots[s] == if s == date.month - 1 then val else rows[k].slots[s]))
      && (k < 0 ==>
            && r[..|rows|] == rows
            && |r| == |rows| + 1
            && r[|rows|].year == date.year % UINT32_LIMIT
            && (forall s :: 0 <= s < SLOTS ==> r[|rows|].slots[s] == if s == date.month - 1 then val else 0.0))
  {
  }

  /** For a year a uint32 can hold, Set keeps the row years distinct. */
  lemma SetKeepsDistinct(rows: seq<Row>, date: DateVal, val: real)
    requires RowsWellFormed(rows) && DistinctYears(rows)
    requires 0 <= date.year < UINT32_LIMIT
    ensures DistinctYears(SetRows(rows, date, val))
  {
  }

  /** With the date inside the range, Get after Set on a year and month returns the value. */
  lemma {:induction false} GetAfterSet(rows: seq<Row>, final: seq<real>, date: DateVal, val: real)
    requires RowsWellFormed(rows) && |final| == SLOTS
    requires IsYearValid(date) && IsMonthValid(date) && 0 <= date.year < UINT32_LIMIT
    ensures GetValue(SetRows(rows, date, val), final, date, true) == val
  {
    var k := RowIndex(rows, date.year);
    var r := SetRows(rows, date, val);
    if k >= 0 {
      FirstRow(r, date.year, k);
    } else {
      FirstRow(r, date.year, |rows|);
    }
  }

  /**
   * Set leaves what Get returns for every other year, and for every other
   * month of a year that already had a row, as it was.
   */
  lemma {:induction false} GetFrame(rows: seq<Row>, final: seq<real>, date: DateVal, val: real, other: DateVal, inRange: bool)
    requires RowsWellFormed(rows) && |final| == SLOTS
    requires 0 <= date.year < UINT32_LIMIT && IsMonthValid(other)
    requires other.year != date.year || (other.month != date.month && RowIndex(rows, date.year) >= 0)
    ensures GetValue(SetRows(rows, date, val), final, other, inRange) == GetValue(rows, final, other, inRange)
  {
    var r := SetRows(rows, date, val);
    if IsYearValid(date) && IsMonthValid(date) && IsYearValid(other) {
      var j := RowIndex(rows, other.year);
      if j >= 0 {
        FirstRow(r, other.year, j);
      } else {
        forall i | 0 <= i < |r| ensures r[i].year != other.year {
          if i < |rows| {
            assert r[i].year == rows[i].year;
          }
        }
      }
    }
  }

  /**
   * After Set on a year with no row, Get on any other month of that year, or
   * on the year alone, no longer fails: it reads the new row's
   * value-initialised slots, so 0.
   */
  lemma NewYearReadsZero(rows: seq<Row>, final: seq<real>, date: DateVal, val: real, other: DateVal)
    requires RowsWellFormed(rows) && |final| == SLOTS
    requires IsYearValid(date) && IsMonthValid(date) && 0 <= date.year < UINT32_LIMIT
    requires RowIndex(rows, date.year) == -1
    requires other.year == date.year && (!IsMonthValid(other) || other.month != date.month)
    ensures GetValue(rows, final, other, true) == FAILURE
    ensures GetValue(SetRows(rows, date, val), final, other, true) == 0.0
  {
    FirstRow(SetRows(rows, date, val), date.year, |rows|);
  }

  /**
   * A year a uint32 cannot hold never matches a row key: every Set on it
   * appends another row, Get never finds any of them, and the value lands
   * under the truncated year instead.
   */
  lemma WideYearAlwaysAppends(rows: seq<Row>, final: seq<real>, date: DateVal, v: real, w: real)
    requires RowsWellFormed(rows) && |final| == SLOTS
    requires IsYearValid(date) && IsMonthValid(date) && !(0 <= date.year < UINT32_LIMIT)
    ensures RowsWellFormed(SetRows(rows, date, v))
    ensures |SetRows(SetRows(rows, date, v), date, w)| == |rows| + 2
    ensures GetValue(SetRows(rows, date, v), final, date, true) == FAILURE
    ensures RowIndex(rows, date.year % UINT32_LIMIT) == -1 ==>
      GetValue(SetRows(rows, date, v), final, Make(date.year % UINT32_LIMIT, date.month), true) == v
  {
    NoRow(rows, date.year);
    var r := SetRows(rows, date, v);
    NoRow(r, date.year);
    if RowIndex(rows, date.year % UINT32_LIMIT) == -1 {
      FirstRow(r, date.year % UINT32_LIMIT, |rows|);
    }
  }

  /** A row with that year and none before it is the one the loops find. */
  lemma FirstRow(rows: seq<Row>, year: int, i: int)
    requires 0 <= i < |rows| && rows[i].year == year
    requires forall j :: 0 <= j < i ==> rows[j].year != year
    ensures RowIndex(rows, year) == i
  {
  }

  /** A year outside the keys is found nowhere. */
  lemma NoRow(rows: seq<Row>, year: int)
    requires RowsWellFormed(rows) && !(0 <= year < UINT32_LIMIT)
    ensures RowIndex(rows, year) == -1
  {
  }

  /** Get fails when neither year nor month is valid, and outside the range. */
  lemma GetFailures(rows: seq<Row>, final: seq<real>, date: DateVal, inRange: bool)
    requires RowsWellFormed(rows) && |final| == SLOTS
    ensures !IsYearValid(date) && !IsMonthValid(date) ==> GetValue(rows, final, date, inRange) == FAILURE
    ensures !inRange ==> GetValue(rows, final, date, inRange) == FAILURE
    ensures inRange && !IsYearValid(date) && IsMonthValid(date) ==>
      GetValue(rows, final, date, inRange) == final[date.month - 1]
    ensures inRange && IsYearValid(date) && !IsMonthValid(date) ==>
      GetValue(rows, final, date, inRange) == (if RowIndex(rows, date.year) >= 0 then rows[RowIndex(rows, date.year)].slots[12] else FAILURE)
  {
  }

  // ---------------------------------------------------------------- the class

  class Result {
    var fData: seq<Row>
    const fFinal: array<real>

    ghost predicate Valid()
      reads this
    {
      fFinal.Length == SLOTS && RowsWellFormed(fData)
    }

    /** Result(): no rows, every final slot FAILURE. */
    constructor ()
      ensures Valid() && fData == [] && fresh(fFinal)
      ensures forall i :: 0 <= i < SLOTS ==> fFinal[i] == FAILURE
    {
      var final := new real[SLOTS];
      for i := 0 to SLOTS
        invariant forall j :: 0 <= j < i ==> final[j] == FAILURE
      {
        final[i] := FAILURE;
      }
      fFinal := final;
      fData := [];
    }

    /** The row-search loop of Get and Set. */
    method FindRow(year: int) returns (k: int)
      ensures k == RowIndex(fData, year)
    {
      k := 0;
      while k < |fData|
        invariant 0 <= k <= |fData|
        invariant forall j :: 0 <= j < k ==> fData[j].year != year
      {
        if fData[k].year == year {
          return;
        }
        k := k + 1;
      }
      k := -1;
    }

    method Get(date: DateVal, inRange: bool) returns (r: real)
      requires Valid()
      ensures r == GetValue(fData, fFinal[..], date, inRange)
    {
      if !IsYearValid(date) && !IsMonthValid(date) {
        return FAILURE;
      }
      if !inRange {
        return FAILURE;
      }
      r := FAILURE;
      if IsMonthValid(date) {
        if IsYearValid(date) {
          var k := FindRow(date.year);
          if k >= 0 {
            r := fData[k].slots[date.month - 1];
          }
        } else {
          r := fFinal[date.month - 1];
        }
      } else {
        var k := FindRow(date.year);
        if k >= 0 {
          r := fData[k].slots[12];
        }
      }
    }

    method Set(date: DateVal, val: real)
      requires Valid()
      modifies this
      ensures Valid()
      ensures fData == SetRows(old(fData), date, val)
    {
      if !IsYearValid(date) || !IsMonthValid(date) {
        return;
      }
      var k := FindRow(date.year);
      if k >= 0 {
        fData := fData[k := fData[k].(slots := fData[k].slots[date.month - 1 := val])];
        return;
      }
      fData := fData + [Row(date.year % UINT32_LIMIT, ZeroRow()[date.month - 1 := val])];
    }

    /** SetFinal: nothing for nullptr, otherwise the first 13 values copied over. */
    method SetFinal(final: array?<real>)
      requires Valid()
      requires final != null ==> final.Length >= SLOTS
      modifies fFinal
      ensures Valid()
      ensures final == null ==> fFinal[..] == old(fFinal[..])
      ensures final != null ==> fFinal[..] == old(final[..SLOTS])
    {
      if final == null {
        return;
      }
      for i := 0 to SLOTS
        invariant forall j :: 0 <= j < i ==> fFinal[j] == old(final[j])
        invariant forall j :: i <= j < SLOTS ==> final[j] == old(final[j])
      {
        fFinal[i] := final[i];
      }
    }

    /** foreach_year: func sees each row's key and slot 12, in order, and may rewrite the slot. */
    method ForEachYear(f: (int, real) -> real)
      requires Valid()
      modifies this
      ensures Valid()
      ensures fData == MapYearSlot(old(fData), f)
    {
      var i := 0;
      while i < |fData|
        invariant 0 <= i <= |fData| && |fData| == |old(fData)| && RowsWellFormed(fData)
        invariant fData[..i] == MapYearSlot(old(fData), f)[..i]
        invariant fData[i..] == old(fData)[i..]
      {
        var p := fData[i];
        fData := fData[i := p.(slots := p.slots[12 := f(p.year, p.slots[12])])];
        i := i + 1;
      }
    }

    /** foreach_final: func sees each final slot with its index, and may rewrite it. */
    method ForEachFinal(f: (int, real) -> real)
      requires Valid()
      modifies fFinal
      ensures forall i :: 0 <= i < SLOTS ==> fFinal[i] == f(i, old(fFinal[i]))
    {
      for i := 0 to SLOTS
        invariant forall j :: 0 <= j < i ==> fFinal[j] == f(j, old(fFinal[j]))
        invariant forall j :: i <= j < SLOTS ==> fFinal[j] == old(fFinal[j])
      {
        fFinal[i] := f(i, fFinal[i]);
      }
    }
  }
}
