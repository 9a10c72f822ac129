// The text side of reading a CRUTEM station: splitting a line into
// space-separated tokens, locating a station's block in the data file by its
// identifier, reading the year range, name and country from the header line,
// marking which year rows are present, and the ignore list of main().
// The floating-point fields (latitude, longitude, monthly values) are not
// part of this model.

module StationParse {
  import opened Text

  const NAME_MAX: int := 126
  const COUNTRY_MAX: int := 62
  const MAX_YEAR_COUNT: int := 400
  const NUL: char := '\0'

  const NO_DATA: string := "Unable to find data for station"
  const BAD_YEAR_COUNT: string := "Bad year count for station"

  // ------------------------------------------------------------------ Split

  /** The tokens Split appends: getline pieces, with the empty ones dropped. */
  function SplitTokens(str: string, delim: char): seq<string>
  {
    NonEmpty(GetlineTokens(str, delim))
  }

  /** Every token Split delivers is non-empty and free of the delimiter. */
  lemma SplitTokensShape(str: string, delim: char)
    ensures forall k :: 0 <= k < |SplitTokens(str, delim)| ==>
      SplitTokens(str, delim)[k] != [] && delim !in SplitTokens(str, delim)[k]
  {
    var ts := GetlineTokens(str, delim);
    GetlineTokensFree(str, delim);
    NonEmptyShape(ts);
  }

  /** Tokens joined by single delimiters split back into the same tokens. */
  lemma SplitJoin(ts: seq<string>, delim: char)
    requires forall k :: 0 <= k < |ts| ==> ts[k] != [] && delim !in ts[k]
    ensures SplitTokens(Join(ts, delim), delim) == ts
  {
    JoinGetline(ts, delim);
  }

  /** Split(str, delim, out): the getline loop over a string stream. */
  method Split(str: string, delim: char, out: seq<string>) returns (r: seq<string>)
    ensures r == out + SplitTokens(str, delim)
  {
    r := out;
    var rest := str;
    while rest != []
      invariant r + SplitTokens(rest, delim) == out + SplitTokens(str, delim)
      decreases |rest|
    {
      var i := FirstIndex(rest, delim);
      var token := rest[..i];
      var next := if i == |rest| then [] else rest[i + 1..];
      if i < |rest| {
        GetlineUnfold(rest, delim, i);
      } else {
        assert token == rest;
        assert GetlineTokens(rest, delim) == [token] + GetlineTokens(next, delim);
      }
      NonEmptyCons(token, GetlineTokens(next, delim));
      if |token| > 0 {
        assert r + SplitTokens(rest, delim) == r + [token] + SplitTokens(next, delim);
        r := r + [token];
      }
      rest := next;
    }
  }

  lemma NonEmptyCons(t: string, ts: seq<string>)
    ensures NonEmpty([t] + ts) == (if t == [] then [] else [t]) + NonEmpty(ts)
  {
    assert ([t] + ts)[1..] == ts;
  }

  // -------------------------------------------------------- station records

  /** One year row of a station (YearData without its temperatures). */
  datatype YearRow = YearRow(valid: bool, year: int)

  /** A default-constructed YearData: not valid; its year is never set. */
  const UNSET_ROW: YearRow := YearRow(false, 0)

  /** The integer and text fields of a Station that ParseStation writes. */
  class Station {
    var id: int
    var elev: int
    var startYear: int
    var endYear: int
    const name: array<char>
    const country: array<char>
    var data: array?<YearRow>

    /** Station(): ID 0, no rows, both names terminated at their last slot. */
    constructor ()
      ensures id == 0 && data == null
      ensures name.Length == 128 && country.Length == 64
      ensures name[127] == NUL && country[63] == NUL
      ensures fresh(name) && fresh(country)
    {
      id, elev, startYear, endYear := 0, 0, 0, 0;
      data := null;
      name := new char[128](_ => NUL);
      country := new char[64](_ => NUL);
    }
  }

  /** How ParseStation ends: "" , an error text, an exception, or undefined behaviour. */
  datatype Outcome = Parsed | Failed(msg: string) | OutOfRange | Undefined

  // --------------------------------------------------------- search for data

  /**
   * The first line at or after `from` that contains `id`, or -1.  The loop
   * index is compared with an unsigned size, so a negative start finds nothing.
   */
  function FindStation(data: seq<string>, id: string, from: int): (i: int)
    ensures i == -1 || (0 <= from <= i < |data| && IsSubstring(id, data[i]))
    ensures i == -1 <==> from < 0 || forall k :: from <= k < |data| ==> !IsSubstring(id, data[k])
    ensures i != -1 ==> forall k :: from <= k < i ==> !IsSubstring(id, data[k])
    decreases |data| - from
  {
    if from < 0 || from >= |data| then -1
    else if (FindSpec(data[from], id); Find(data[from], id) != NPOS) then from
    else FindStation(data, id, from + 1)
  }

  method SearchStation(data: seq<string>, id: string, dataIndex: int) returns (i: int)
    ensures i == FindStation(data, id, dataIndex)
  {
    var k := dataIndex;
    while 0 <= k && k < |data|
      invariant dataIndex <= k
      invariant FindStation(data, id, k) == FindStation(data, id, dataIndex)
      decreases |data| - k
    {
      if Find(data[k], id) != NPOS {
        return k;
      }
      k := k + 1;
    }
    return -1;
  }

  // ------------------------------------------------------------ header parts

  /** The token fourth from the right holds the years, as eight characters. */
  function YearToken(split: seq<string>): string
    requires |split| >= 4
  {
    split[|split| - 4]
  }

  function StartYearOf(tok: string): int
    requires |tok| >= 4
  {
    Atoi(tok[..4])
  }

  /** substr(4, 4): at most four characters after the first four. */
  function EndYearOf(tok: string): int
    requires |tok| >= 4
  {
    Atoi(tok[4..if |tok| < 8 then |tok| else 8])
  }

  /** The year range is accepted when it spans 1 to 400 years. */
  predicate GoodYearCount(start: int, end: int)
  {
    0 < end - start <= MAX_YEAR_COUNT
  }

  function Truncate(s: string, n: nat): (r: string)
    ensures |r| <= n && |r| <= |s| && r == s[..|r|]
    ensures |s| <= n ==> r == s
  {
    if |s| <= n then s else s[..n]
  }

  /**
   * NAME: tokens 4 .. pos-2 (pos = size - 4) joined by single spaces, every
   * '-' removed, at most 126 characters.
   */
  function NameOf(split: seq<string>): (r: string)
    requires |split| >= 5
    ensures '-' !in r && |r| <= NAME_MAX
  {
    var last := |split| - 5;
    var words := if last <= 5 then [split[4]] else split[4..last];
    RemoveCharSpec(Join(words, ' '), '-');
    Truncate(RemoveChar(Join(words, ' '), '-'), NAME_MAX)
  }

  /** COUNTRY: token pos-1 with '-' removed, at most 62 characters. */
  function CountryOf(split: seq<string>): (r: string)
    requires |split| >= 5
    ensures '-' !in r && |r| <= COUNTRY_MAX
  {
    RemoveCharSpec(split[|split| - 5], '-');
    Truncate(RemoveChar(split[|split| - 5], '-'), COUNTRY_MAX)
  }

  /** The data line of year row k, counting from the line after the header. */
  predicate RowPresent(line: string, year: int)
  {
    var ts := SplitTokens(line, ' ');
    ts != [] && ts[0] == DecimalString(year)
  }

  /** Year row m: the line i+1+m exists and can be read. */
  predicate RowReadable(data: seq<string>, i: int, start: int, m: int)
  {
    0 <= i + 1 + m < |data| && LineReadable(data[i + 1 + m], start + m)
  }

  /**
   * A line can be read without undefined behaviour: it has a first token,
   * and a line that matches its year has the twelve monthly fields.
   */
  predicate LineReadable(line: string, year: int)
  {
    SplitTokens(line, ' ') != [] && (RowPresent(line, year) ==> |SplitTokens(line, ' ')| >= 13)
  }

  /** Rows 0 .. count-1 can all be read. */
  predicate RowsDefined(data: seq<string>, i: int, start: int, count: nat)
    decreases count
  {
    0 <= i && (count == 0 || (RowsDefined(data, i, start, count - 1) && RowReadable(data, i, start, count - 1)))
  }

  /** Rows that can all be read include every shorter prefix of them. */
  lemma {:induction false} RowsDefinedPrefix(data: seq<string>, i: int, start: int, k: nat, n: nat)
    requires k < n && RowsDefined(data, i, start, n)
    ensures RowsDefined(data, i, start, k + 1) && RowReadable(data, i, start, k)
    decreases n
  {
    if k + 1 < n {
      RowsDefinedPrefix(data, i, start, k, n - 1);
    }
  }

  /** Every row that can be read has its line inside the data. */
  lemma {:induction false} RowsDefinedBound(data: seq<string>, i: int, start: int, n: nat)
    requires RowsDefined(data, i, start, n)
    ensures 0 <= i && (n > 0 ==> i + n < |data|)
  {
    if n > 0 {
      assert RowReadable(data, i, start, n - 1);
    }
  }

  function RowOf(line: string, year: int): (r: YearRow)
    ensures r.valid <==> RowPresent(line, year)
    ensures r.valid ==> r.year == year
  {
    if RowPresent(line, year) then YearRow(true, year) else UNSET_ROW
  }

  /** The rows as the loop fills them, one per line after the header. */
  function RowsOf(data: seq<string>, i: int, start: int, count: nat): (r: seq<YearRow>)
    requires 0 <= i && (count > 0 ==> i + count < |data|)
    ensures |r| == count
  {
    if count == 0 then [] else RowsOf(data, i, start, count - 1) + [RowOf(data[i + count], start + count - 1)]
  }

  /** How ParseStation(header, data, dataIndex) ends. */
  function Verdict(header: string, data: seq<string>, dataIndex: int): Outcome
  {
    var split := SplitTokens(header, ' ');
    if split == [] then Undefined
    else FoundVerdict(split, data, FindStation(data, split[0], dataIndex))
  }

  /** The outcome once the search has ended at line `i` (-1: not found). */
  function FoundVerdict(split: seq<string>, data: seq<string>, i: int): Outcome
  {
    if i == -1 then Failed(NO_DATA)
    else if |split| < 4 then Undefined
    else if |YearToken(split)| < 4 then OutOfRange
    else YearVerdict(split, data, i, StartYearOf(YearToken(split)), EndYearOf(YearToken(split)))
  }

  /** The outcome once the years are read. */
  function YearVerdict(split: seq<string>, data: seq<string>, i: int, start: int, end: int): Outcome
  {
    if !GoodYearCount(start, end) then Failed(BAD_YEAR_COUNT)
    else if i < 0 || |split| < 5 || !RowsDefined(data, i, start, end - start) then Undefined
    else Parsed
  }

  /** The data index after ParseStation: the matching line, else unchanged. */
  function NextIndex(header: string, data: seq<string>, dataIndex: int): (r: int)
    ensures r >= dataIndex
  {
    var split := SplitTokens(header, ' ');
    if split == [] then dataIndex
    else
      var i := FindStation(data, split[0], dataIndex);
      if i == -1 then dataIndex else i
  }

  /**
   * The search failure: the message is "Unable to find data for station"
   * exactly when no line from dataIndex on contains the first header token.
   */
  lemma NoDataIffAbsent(header: string, data: seq<string>, dataIndex: int)
    requires SplitTokens(header, ' ') != []
    ensures var id := SplitTokens(header, ' ')[0];
      Verdict(header, data, dataIndex) == Failed(NO_DATA)
      <==> dataIndex < 0 || forall k :: dataIndex <= k < |data| ==> !IsSubstring(id, data[k])
    ensures Verdict(header, data, dataIndex) == Failed(NO_DATA) ==> NextIndex(header, data, dataIndex) == dataIndex
  {
  }

  /** A parsed station has a year range of 1 to 400 years and a found line. */
  lemma ParsedShape(header: string, data: seq<string>, dataIndex: int)
    requires Verdict(header, data, dataIndex) == Parsed
    ensures var split := SplitTokens(header, ' ');
      && |split| >= 5 && |YearToken(split)| >= 4
      && GoodYearCount(StartYearOf(YearToken(split)), EndYearOf(YearToken(split)))
      && 0 <= dataIndex <= NextIndex(header, data, dataIndex) < |data|
      && IsSubstring(split[0], data[NextIndex(header, data, dataIndex)])
  {
  }

  /** A header of exactly eight year digits yields the two four-digit years. */
  lemma YearHalves(start: nat, end: nat)
    requires 1000 <= start <= 9999 && 1000 <= end <= 9999
    ensures var tok := DecimalString(start) + DecimalString(end);
      |tok| == 8 && StartYearOf(tok) == start && EndYearOf(tok) == end
  {
    var a := DecimalString(start);
    var b := DecimalString(end);
    FourDigits(start);
    FourDigits(end);
    var tok := a + b;
    assert tok[..4] == a;
    assert tok[4..8] == b;
    AtoiDecimalString(start);
    AtoiDecimalString(end);
  }

  lemma FourDigits(n: nat)
    requires 1000 <= n <= 9999
    ensures |DecimalString(n)| == 4
  {
    var a, b, c := n / 10, n / 100, n / 1000;
    assert a / 10 == b && b / 10 == c && 1 <= c < 10;
    assert |NatString(c)| == 1;
    assert |NatString(b)| == 2;
    assert |NatString(a)| == 3;
  }

  // ---------------------------------------------------------- ParseStation

  /** Copy `src` into the front of `dst` and terminate it with NUL. */
  method CopyCString(dst: array<char>, src: string)
    requires |src| < dst.Length
    modifies dst
    ensures dst[..|src|] == src && dst[|src|] == NUL
    ensures forall k :: |src| < k < dst.Length ==> dst[k] == old(dst[k])
  {
    var j := 0;
    while j != |src|
      invariant 0 <= j <= |src|
      invariant dst[..j] == src[..j]
      invariant forall k :: |src| < k < dst.Length ==> dst[k] == old(dst[k])
    {
      dst[j] := src[j];
      j := j + 1;
    }
    dst[|src|] := NUL;
  }

  /** The NAME loop: token 4, then " " and each token up to pos-2. */
  method JoinName(split: seq<string>) returns (name: string)
    requires |split| >= 5
    ensures name == Join(if |split| - 5 <= 5 then [split[4]] else split[4..|split| - 5], ' ')
  {
    var pos := |split| - 4;
    name := split[4];
    var j := 5;
    while j < pos - 1
      invariant 5 <= j
      invariant j <= pos - 1 || j == 5
      invariant name == Join(split[4..j], ' ')
    {
      JoinSnoc(split[4..j], split[j]);
      assert split[4..j] + [split[j]] == split[4..j + 1];
      name := name + " " + split[j];
      j := j + 1;
    }
    assert j == 5 ==> split[4..j] == [split[4]];
  }

  lemma {:induction false} JoinSnoc(ts: seq<string>, t: string)
    requires ts != []
    ensures Join(ts + [t], ' ') == Join(ts, ' ') + " " + t
    decreases |ts|
  {
    if |ts| == 1 {
      assert (ts + [t])[1..] == [t];
    } else {
      assert (ts + [t])[1..] == ts[1..] + [t];
      JoinSnoc(ts[1..], t);
    }
  }

  /** Fill the year rows from the lines after the header; false on undefined behaviour. */
  method ReadYearRows(data: seq<string>, i: int, start: int, rows: array<YearRow>) returns (ok: bool)
    requires 0 <= i
    modifies rows
    ensures ok <==> RowsDefined(data, i, start, rows.Length)
    ensures ok ==> rows[..] == RowsOf(data, i, start, rows.Length)
  {
    var k := 0;
    while k < rows.Length
      invariant 0 <= k <= rows.Length
      invariant k > 0 ==> i + k < |data|
      invariant RowsDefined(data, i, start, k)
      invariant rows[..k] == RowsOf(data, i, start, k)
    {
      var readable, row := ReadYearRow(data, i, start, k);
      if !readable {
        if RowsDefined(data, i, start, rows.Length) {
          RowsDefinedPrefix(data, i, start, k, rows.Length);
        }
        return false;
      }
      rows[k] := row;
      assert rows[..k + 1] == rows[..k] + [row];
      k := k + 1;
    }
    assert rows[..] == rows[..k];
    return true;
  }

  /**
   * Year row k: its line split into tokens, the first token against the
   * year, then the monthly fields.
   */
  method ReadYearRow(data: seq<string>, i: int, start: int, k: nat) returns (readable: bool, row: YearRow)
    requires 0 <= i && (k > 0 ==> i + k < |data|) && RowsDefined(data, i, start, k)
    ensures readable <==> RowsDefined(data, i, start, k + 1)
    ensures readable ==> i + k + 1 < |data| && RowsOf(data, i, start, k + 1) == RowsOf(data, i, start, k) + [row]
  {
    if i + 1 + k >= |data| {
      return false, UNSET_ROW;
    }
    var line, year := data[i + 1 + k], start + k;
    var splitYear := Split(line, ' ', []);
    assert splitYear == SplitTokens(line, ' ');
    if splitYear == [] {
      return false, UNSET_ROW;
    }
    if DecimalString(year) != splitYear[0] {
      return true, UNSET_ROW;
    }
    if |splitYear| < 13 {
      return false, UNSET_ROW;
    }
    return true, YearRow(true, year);
  }

  /**
   * The part of ParseStation after the year check: ID, ELEV, NAME, COUNTRY
   * and the rows; false where it reads past the end of a list.
   */
  method FillStation(split: seq<string>, data: seq<string>, i: int, start: int, count: nat, output: Station)
    returns (ok: bool)
    requires |split| >= 4 && 0 <= i
    requires output.name.Length == 128 && output.country.Length == 64
    modifies output, output.name, output.country
    ensures output.startYear == old(output.startYear) && output.endYear == old(output.endYear)
    ensures ok <==> |split| >= 5 && RowsDefined(data, i, start, count)
    ensures ok ==>
      && output.id == Atoi(split[0]) % 0x1_0000_0000
      && output.elev == Atoi(split[3])
      && NamesWritten(split, output)
      && output.data != null && fresh(output.data)
      && output.data[..] == RowsOf(data, i, start, count)
  {
    SetNumbers(split, output);
    if |split| < 5 {
      return false;
    }
    WriteNames(split, output);
    ok := AttachRows(data, i, start, count, output);
    assert ok <==> RowsDefined(data, i, start, count);
  }

  /** ID (stored in a uint32) and ELEV from tokens 0 and 3. */
  method SetNumbers(split: seq<string>, output: Station)
    requires |split| >= 4
    modifies output
    ensures output.id == Atoi(split[0]) % 0x1_0000_0000 && output.elev == Atoi(split[3])
    ensures output.startYear == old(output.startYear) && output.endYear == old(output.endYear)
    ensures output.data == old(output.data)
  {
    output.id := Atoi(split[0]) % 0x1_0000_0000;
    output.elev := Atoi(split[3]);
  }

  /** A fresh array of `count` rows, filled from the lines after the header. */
  method AttachRows(data: seq<string>, i: int, start: int, count: nat, output: Station) returns (ok: bool)
    requires 0 <= i
    modifies output
    ensures output.id == old(output.id) && output.elev == old(output.elev)
    ensures output.startYear == old(output.startYear) && output.endYear == old(output.endYear)
    ensures output.data != null && fresh(output.data)
    ensures ok <==> RowsDefined(data, i, start, count)
    ensures ok ==> output.data[..] == RowsOf(data, i, start, count)
  {
    var rows := new YearRow[count](_ => UNSET_ROW);
    output.data := rows;
    ok := ReadYearRows(data, i, start, rows);
  }

  /** NAME and COUNTRY as NUL-terminated strings in the station's buffers. */
  ghost predicate NamesWritten(split: seq<string>, output: Station)
    requires |split| >= 5
    reads output.name, output.country
  {
    && |NameOf(split)| < output.name.Length
    && output.name[..|NameOf(split)|] == NameOf(split) && output.name[|NameOf(split)|] == NUL
    && |CountryOf(split)| < output.country.Length
    && output.country[..|CountryOf(split)|] == CountryOf(split) && output.country[|CountryOf(split)|] == NUL
  }

  /** The NAME and COUNTRY part of ParseStation. */
  method WriteNames(split: seq<string>, output: Station)
    requires |split| >= 5
    requires output.name.Length == 128 && output.country.Length == 64
    modifies output.name, output.country
    ensures NamesWritten(split, output)
  {
    var pos := |split| - 4;
    var name := JoinName(split);
    name := RemoveChar(name, '-');
    var lastIndex := if |name| > NAME_MAX then NAME_MAX else |name|;
    assert name[..lastIndex] == NameOf(split);
    CopyCString(output.name, name[..lastIndex]);
    var country := RemoveChar(split[pos - 1], '-');
    lastIndex := if |country| > COUNTRY_MAX then COUNTRY_MAX else |country|;
    assert country[..lastIndex] == CountryOf(split);
    CopyCString(output.country, country[..lastIndex]);
  }

  /** The eight-character year token read as two four-character numbers. */
  method ReadYears(tok: string) returns (start: int, end: int)
    requires |tok| >= 4
    ensures start == StartYearOf(tok) && end == EndYearOf(tok)
  {
    var tmp2 := tok[4..if |tok| < 8 then |tok| else 8];
    var tmp1 := tok[..4];
    start := Atoi(tmp1);
    end := Atoi(tmp2);
  }

  /** The station's fields on success, as ParseStation leaves them. */
  ghost predicate Filled(split: seq<string>, data: seq<string>, i: int, start: int, end: int, output: Station)
    requires |split| >= 5 && 0 <= i
    reads output, output.name, output.country, output.data
  {
    && output.startYear == start
    && output.endYear == end
    && output.id == Atoi(split[0]) % 0x1_0000_0000
    && output.elev == Atoi(split[3])
    && NamesWritten(split, output)
    && output.data != null
    && end - start >= 0 && (end - start > 0 ==> i + (end - start) < |data|)
    && output.data[..] == RowsOf(data, i, start, end - start)
  }

  /**
   * ParseStation(header, data, output, dataIndex): the outcome and the new
   * data index; on success the station's integer fields, C strings and rows.
   */
  method ParseStation(header: string, data: seq<string>, output: Station, dataIndex: int)
    returns (r: Outcome, newIndex: int)
    requires output.name.Length == 128 && output.country.Length == 64
    modifies output, output.name, output.country
    ensures r == Verdict(header, data, dataIndex)
    ensures r != Undefined && r != OutOfRange ==> newIndex == NextIndex(header, data, dataIndex)
    ensures r == Parsed ==>
      var split := SplitTokens(header, ' ');
      && output.data != null && fresh(output.data)
      && Filled(split, data, newIndex, StartYearOf(YearToken(split)), EndYearOf(YearToken(split)), output)
    ensures r == Failed(BAD_YEAR_COUNT) ==>
      var split := SplitTokens(header, ' ');
      output.startYear == StartYearOf(YearToken(split)) && output.endYear == EndYearOf(YearToken(split))
  {
    newIndex := dataIndex;
    var split := Split(header, ' ', []);
    assert split == SplitTokens(header, ' ');
    if split == [] {
      return Undefined, newIndex;
    }
    var stationID := split[0];
    var i := SearchStation(data, stationID, dataIndex);
    if i == -1 {
      return Failed(NO_DATA), newIndex;
    }
    newIndex := i;
    r := ParseFound(split, data, i, output);
  }

  /** ParseStation from the matching line on. */
  method ParseFound(split: seq<string>, data: seq<string>, i: int, output: Station) returns (r: Outcome)
    requires split != [] && 0 <= i
    requires output.name.Length == 128 && output.country.Length == 64
    modifies output, output.name, output.country
    ensures r == FoundVerdict(split, data, i)
    ensures r == Parsed ==>
      && output.data != null && fresh(output.data)
      && Filled(split, data, i, StartYearOf(YearToken(split)), EndYearOf(YearToken(split)), output)
    ensures r == Failed(BAD_YEAR_COUNT) ==>
      output.startYear == StartYearOf(YearToken(split)) && output.endYear == EndYearOf(YearToken(split))
  {
    if |split| < 4 {
      return Undefined;
    }
    var tok := split[|split| - 4];
    if |tok| < 4 {
      return OutOfRange;
    }
    var start, end := ReadYears(tok);
    r := ParseYears(split, data, i, start, end, output);
  }

  /** ParseStation once the two years are read. */
  method ParseYears(split: seq<string>, data: seq<string>, i: int, start: int, end: int, output: Station)
    returns (r: Outcome)
    requires |split| >= 4 && 0 <= i
    requires output.name.Length == 128 && output.country.Length == 64
    modifies output, output.name, output.country
    ensures r == YearVerdict(split, data, i, start, end)
    ensures r == Parsed ==> output.data != null && fresh(output.data) && Filled(split, data, i, start, end, output)
    ensures r == Failed(BAD_YEAR_COUNT) ==> output.startYear == start && output.endYear == end
  {
    output.startYear := start;
    output.endYear := end;
    var yearCount := end - start;
    if yearCount > MAX_YEAR_COUNT || yearCount <= 0 {
      return Failed(BAD_YEAR_COUNT);
    }
    var ok := FillStation(split, data, i, start, yearCount, output);
    if !ok {
      return Undefined;
    }
    return Parsed;
  }

  // ------------------------------------------------------------ ignore list

  /** A header is ignored when some ignore-list line occurs in it. */
  predicate Ignored(header: string, entries: seq<string>)
  {
    exists k :: 0 <= k < |entries| && IsSubstring(entries[k], header)
  }

  /** The ignore-list loop of main(), stopping at the first match. */
  method MatchIgnoreList(header: string, entries: seq<string>) returns (ignore: bool)
    ensures ignore <==> Ignored(header, entries)
  {
    ignore := false;
    var k := 0;
    while k < |entries|
      invariant 0 <= k <= |entries|
      invariant forall m :: 0 <= m < k ==> !IsSubstring(entries[m], header)
    {
      FindSpec(header, entries[k]);
      if Find(header, entries[k]) != NPOS {
        ignore := true;
        break;
      }
      k := k + 1;
    }
  }
}
