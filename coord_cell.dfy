// EMCoordCell: the stations that fall inside one grid cell, and the earliest
// years among them.  Stations are held by pointer; a cell never owns them.
// Whether the cell's rectangle contains a station's coordinates is decided by
// floating-point geometry that is not modelled, so Insert takes the answer as
// an input.  The elevation grid is left out.

module CoordCell {
  import opened Support
  import opened Date
  import opened StationParse

  /**
   * The update Insert applies to both fStartYear and fEndYear: replace the
   * date by _year(year) when it has no valid year or a later one.
   */
  function Tracked(current: DateVal, year: int): DateVal
  {
    if !IsYearValid(current) || current.year > year then YearOnly(year) else current
  }

  /** The tracked date after a sequence of inserts, oldest first. */
  function TrackedAll(start: DateVal, years: seq<int>): DateVal
  {
    if years == [] then start else Tracked(TrackedAll(start, years[..|years| - 1]), years[|years| - 1])
  }

  /** Independent reference: the least of start and all the years. */
  function MinOf(start: int, years: seq<int>): (r: int)
    ensures r <= start && forall i :: 0 <= i < |years| ==> r <= years[i]
    ensures r == start || exists i :: 0 <= i < |years| && r == years[i]
  {
    if years == [] then start
    else
      var m := MinOf(start, years[..|years| - 1]);
      var last := years[|years| - 1];
      assert forall i :: 0 <= i < |years| - 1 ==> years[..|years| - 1][i] == years[i];
      if last < m then last else m
  }

  /** One insert keeps the smaller year; the date is year-only once replaced. */
  lemma TrackedIsMin(current: DateVal, year: int)
    requires IsYearValid(current) && year < INT64_MAX
    ensures IsYearValid(Tracked(current, year))
    ensures Tracked(current, year).year == Min(current.year, year)
    ensures Tracked(current, year) == current || Tracked(current, year) == YearOnly(year)
  {
  }

  /**
   * From the default date (year INT32_MAX), the tracked year after any
   * inserts is the least of INT32_MAX and the inserted years.
   */
  lemma {:induction false} TrackedAllIsMin(years: seq<int>)
    requires forall i :: 0 <= i < |years| ==> years[i] < INT64_MAX
    ensures IsYearValid(TrackedAll(Default(), years))
    ensures TrackedAll(Default(), years).year == MinOf(INT32_MAX, years)
    decreases |years|
  {
    if years != [] {
      var prefix := years[..|years| - 1];
      assert forall i :: 0 <= i < |prefix| ==> prefix[i] == years[i];
      TrackedAllIsMin(prefix);
      TrackedIsMin(TrackedAll(Default(), prefix), years[|years| - 1]);
    }
  }

  class EMCoordCell {
    var fStations: seq<Station>
    var fStartYear: DateVal
    var fEndYear: DateVal

    /** A new cell: no stations, both years the default date. */
    constructor ()
      ensures fStations == [] && fStartYear == Default() && fEndYear == Default()
    {
      fStations := [];
      fStartYear := Default();
      fEndYear := Default();
    }

    /** Find: std::find over the station pointers. */
    method Find(station: Station?) returns (found: bool)
      ensures found <==> station in fStations
    {
      var i := 0;
      while i < |fStations|
        invariant 0 <= i <= |fStations|
        invariant station !in fStations[..i]
      {
        if fStations[i] == station {
          return true;
        }
        assert fStations[..i + 1] == fStations[..i] + [fStations[i]];
        i := i + 1;
      }
      assert fStations[..i] == fStations;
      return false;
    }

    method Count() returns (n: int)
      ensures n == |fStations|
    {
      n := |fStations|;
    }

    /**
     * Insert: refused (false, nothing changed) for a null station or one
     * outside the cell; otherwise appended, with both tracked years updated
     * by the same rule.
     */
    method Insert(station: Station?, contained: bool) returns (ok: bool)
      modifies this
      ensures ok <==> station != null && contained
      ensures !ok ==> fStations == old(fStations) && fStartYear == old(fStartYear) && fEndYear == old(fEndYear)
      ensures ok ==> && fStations == old(fStations) + [station]
                     && fStartYear == Tracked(old(fStartYear), station.startYear)
                     && fEndYear == Tracked(old(fEndYear), station.endYear)
    {
      if station == null || !contained {
        return false;
      }
      fStations := fStations + [station];
      if !IsYearValid(fStartYear) || fStartYear.year > station.startYear {
        fStartYear := YearOnly(station.startYear);
      }
      if !IsYearValid(fEndYear) || fEndYear.year > station.endYear {
        fEndYear := YearOnly(station.endYear);
      }
      return true;
    }

    /**
     * Remove: the erase(remove_if(...)) idiom.  An absent station makes the
     * erase run at end(), which is undefined, hence the precondition.
     */
    method Remove(station: Station) returns (result: bool)
      requires station in fStations
      modifies this
      ensures result
      ensures fStations == RemoveIfEraseOne(old(fStations), station)
      ensures multiset(old(fStations))[station] == 1 ==> fStations == Without(old(fStations), station)
      ensures fStartYear == old(fStartYear) && fEndYear == old(fEndYear)
    {
      if multiset(fStations)[station] == 1 {
        RemoveIfEraseOnce(fStations, station);
      }
      fStations := RemoveIfEraseOne(fStations, station);
      result := true;
    }
  }
}
