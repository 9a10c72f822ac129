// Command-line handling of CrutemConvert: each argument "-name=value" is
// split into a lower-case name and a value, and the names select which
// PAOutput fields are set.  Floating-point fields are kept as the text atof
// would read, not as numbers.

module ParseArgs {
  import opened Support
  import opened Text

  const DEFAULT_HEADERFILE: string := "data/header.txt"
  const DEFAULT_DATAFILE: string := "data/data.txt"
  const DEFAULT_OUTPUTFILE: string := "data/output.txt"
  const DEFAULT_IGNOREFILE: string := "data/missing.txt"

  datatype OutputTo = ToCsv | ToEmsl | ToConsole | ToPort

  /** A float field: a literal from the constructor, or atof applied to a text. */
  datatype Number = Lit(r: real) | Atof(text: string)

  /** EMCoordRect's four edges, clockwise from the west. */
  datatype CoordRect = CoordRect(west: Number, north: Number, east: Number, south: Number)

  /** The fields of PAOutput as values. */
  datatype Options = Options(
    headerFile: string, dataFile: string, outputFile: string, ignoreFile: string,
    expectIgnored: bool,
    outputTarget: OutputTo,
    useGrid: bool, gridSize: Number,
    interpolate: bool, interpolateDayCount: Number,
    infill: bool, maxInfillSpan: Number,
    findStation: bool, findStationString: string,
    singleCell: bool, cellRect: CoordRect,
    autoValues: Option<bool>,
    returnValue: int)

  /**
   * What PAOutput() leaves in the fields.  The constructor never initialises
   * autoValues, so its value is indeterminate (None).
   */
  function Defaults(): Options
  {
    Options(
      DEFAULT_HEADERFILE, DEFAULT_DATAFILE, DEFAULT_OUTPUTFILE, DEFAULT_IGNOREFILE,
      false,
      ToConsole,
      false, Lit(5.0),
      false, Lit(3.0),
      false, Lit(1.0),
      false, "",
      false, CoordRect(Lit(0.0), Lit(0.0), Lit(0.0), Lit(0.0)),
      None,
      0)
  }

  // ------------------------------------------------------------- SplitParam

  /** The (name, value) pair SplitParam makes of one argument. */
  function Entry(arg: string): (string, string)
  {
    var sep := Find(arg, "=");
    var param := if sep == NPOS then arg else arg[..sep];
    var value := if sep == NPOS then "" else RemoveChar(arg[sep..], '"');
    (Lower(if param == [] then [] else param[1..]), value)
  }

  /** SplitParam as written: find, erase, remove, resize, erase(0, 1), transform. */
  method SplitParam(arg: string) returns (name: string, value: string)
    ensures (name, value) == Entry(arg)
  {
    var param := arg;
    value := "";
    var argSep := Find(arg, "=");
    if argSep != NPOS {
      value := arg;
      value := value[argSep..];
      value := RemoveChar(value, '"');
      param := param[..argSep];
    }
    if param != [] {
      param := param[1..];
    }
    name := Lower(param);
  }

  /** Find of a one-character pattern is the first index of that character. */
  lemma {:induction false} FindChar(s: string, c: char)
    ensures Find(s, [c]) == if c in s then FirstIndex(s, c) else NPOS
  {
    var i := FirstIndex(s, c);
    FindSpec(s, [c]);
    if c in s {
      assert OccursAt([c], s, i) by {
        assert s[i..i + 1] == [s[i]];
      }
      var r := Find(s, [c]);
      assert r != NPOS;
      assert s[r..r + 1] == [c];
      assert s[r] == c;
    }
  }

  /**
   * The name is the text before the first '=' without its first character,
   * in lower case; the value is empty when there is no '=' and otherwise
   * keeps the '=' itself and loses every '"'.
   */
  lemma SplitParamShape(arg: string)
    ensures '=' !in arg ==>
      Entry(arg) == (Lower(if arg == [] then [] else arg[1..]), "")
    ensures '=' in arg ==>
      var e := FirstIndex(arg, '=');
      && Entry(arg).0 == Lower(if e == 0 then [] else arg[1..e])
      && Entry(arg).1 == RemoveChar(arg[e..], '"')
      && Entry(arg).1 != [] && Entry(arg).1[0] == '='
      && '"' !in Entry(arg).1
  {
    FindChar(arg, '=');
    if '=' in arg {
      var e := FirstIndex(arg, '=');
      ValueKeepsEquals(arg[e..]);
      RemoveCharSpec(arg[e..], '"');
    }
  }

  /** Every value is empty or starts with the '=' that separated it. */
  lemma ValueShape(arg: string)
    ensures AtofReadsNothing(Entry(arg).1)
  {
    SplitParamShape(arg);
  }

  lemma ValueKeepsEquals(v: string)
    requires v != [] && v[0] == '='
    ensures RemoveChar(v, '"') != [] && RemoveChar(v, '"')[0] == '='
  {
    assert v == [v[0]] + v[1..];
  }

  // --------------------------------------------------------- option dispatch

  /** The names ParseArgs compares against, in the order it tries them. */
  datatype Param = Auto | Header | Data | Ignore | Output | GridSize | Interpolate | Infill | Station | CellRect
    | Unknown

  /** Which branch of the comparison chain a name takes. */
  function Kind(name: string): Param
  {
    if name == "auto" then Auto
    else if name == "header" then Header
    else if name == "data" then Data
    else if name == "ignore" then Ignore
    else if name == "output" then Output
    else if name == "gridsize" then GridSize
    else if name == "interpolate" then Interpolate
    else if name == "infill" then Infill
    else if name == "station" then Station
    else if name == "cellrect" then CellRect
    else Unknown
  }

  /** The names ParseArgs recognises. */
  predicate Known(name: string)
  {
    Kind(name) != Unknown
  }

  /** Exactly the ten option names are recognised. */
  lemma KnownNames(name: string)
    ensures Known(name) <==>
      name in {"auto", "header", "data", "ignore", "output", "gridsize", "interpolate", "infill", "station", "cellrect"}
  {
  }

  /**
   * The "output" branch: the result of find is used as a truth value, so a
   * target is chosen when the pattern is absent or not at index 0.
   */
  function OutputTargetOf(current: OutputTo, value: string): OutputTo
  {
    if Find(value, ".csv") != 0 then ToCsv
    else if Find(value, ".emsl") != 0 then ToEmsl
    else if Find(value, "port:") != 0 then ToPort
    else current
  }

  /** Edge k of the rect, clockwise from the west; a fifth or later edge does not exist. */
  function SetEdge(r: CoordRect, k: nat, v: Number): CoordRect
  {
    if k == 0 then r.(west := v)
    else if k == 1 then r.(north := v)
    else if k == 2 then r.(east := v)
    else if k == 3 then r.(south := v)
    else r
  }

  /** The fields read by atof into the edges from edge k on. */
  function Fill(r: CoordRect, k: nat, fields: seq<string>): CoordRect
    decreases |fields|
  {
    if fields == [] then r else Fill(SetEdge(r, k, Atof(fields[0])), k + 1, fields[1..])
  }

  /** The "cellrect" loop: the comma-separated fields fill the edges in order. */
  function CellRectOf(r: CoordRect, fields: seq<string>): CoordRect
  {
    Fill(r, 0, fields)
  }

  /** One parameter applied to the options; None for an unrecognised name. */
  function Apply(o: Options, name: string, value: string): (r: Option<Options>)
    ensures r.None? <==> !Known(name)
  {
    var kind := Kind(name);
    if kind == Unknown then None else Some(ApplyKind(o, kind, value))
  }

  /** The assignments of one recognised branch. */
  function ApplyKind(o: Options, kind: Param, value: string): Options
  {
    match kind
    case Auto => o.(autoValues := Some(true))
    case Header => o.(headerFile := value)
    case Data => o.(dataFile := value)
    case Ignore => o.(ignoreFile := value, expectIgnored := true)
    case Output => o.(outputTarget := OutputTargetOf(o.outputTarget, value))
    case GridSize => o.(useGrid := true, gridSize := Atof(value))
    case Interpolate => o.(interpolate := true, interpolateDayCount := Atof(value))
    case Infill => o.(infill := true, maxInfillSpan := Atof(value))
    case Station => o.(findStation := true, findStationString := value)
    case CellRect => o.(singleCell := true, cellRect := CellRectOf(o.cellRect, GetlineTokens(value, ',')))
    case Unknown => o
  }

  /** The parameters applied left to right, stopping at the first unknown name. */
  function ApplyAll(o: Options, params: seq<string>): Option<Options>
    decreases |params|
  {
    if params == [] then Some(o)
    else
      var entry := Entry(params[0]);
      match Apply(o, entry.0, entry.1)
      case None => None
      case Some(o') => ApplyAll(o', params[1..])
  }

  /** ParseArgs(argc, argv) for argv = args: null (None) or the options. */
  function Parse(args: seq<string>): Option<Options>
  {
    if |args| < 2 then None else ApplyAll(Defaults(), args[1..])
  }

  /** Parsing fails exactly when fewer than two arguments or an unknown name is given. */
  lemma ParseFails(args: seq<string>)
    ensures Parse(args).None? <==>
      |args| < 2 || exists k :: 1 <= k < |args| && !Known(Entry(args[k]).0)
  {
    if |args| >= 2 {
      ApplyAllFails(Defaults(), args[1..]);
      if exists k :: 1 <= k < |args| && !Known(Entry(args[k]).0) {
        var k :| 1 <= k < |args| && !Known(Entry(args[k]).0);
        assert args[1..][k - 1] == args[k];
      }
      if exists k :: 0 <= k < |args[1..]| && !Known(Entry(args[1..][k]).0) {
        var k :| 0 <= k < |args[1..]| && !Known(Entry(args[1..][k]).0);
        assert args[1..][k] == args[k + 1];
      }
    }
  }

  lemma {:induction false} ApplyAllFails(o: Options, params: seq<string>)
    ensures ApplyAll(o, params).None? <==> exists k :: 0 <= k < |params| && !Known(Entry(params[k]).0)
    decreases |params|
  {
    if params != [] {
      var entry := Entry(params[0]);
      match Apply(o, entry.0, entry.1)
      case None =>
      case Some(o') =>
        ApplyAllFails(o', params[1..]);
        if exists k :: 0 <= k < |params| && !Known(Entry(params[k]).0) {
          var k :| 0 <= k < |params| && !Known(Entry(params[k]).0);
          assert k != 0;
          assert params[1..][k - 1] == params[k];
        }
        if exists k :: 0 <= k < |params[1..]| && !Known(Entry(params[1..][k]).0) {
          var k :| 0 <= k < |params[1..]| && !Known(Entry(params[1..][k]).0);
          assert params[1..][k] == params[k + 1];
        }
    }
  }

  /** "ignore" sets the file and expectIgnored, and nothing else. */
  lemma IgnoreSetsBoth(o: Options, name: string, value: string)
    requires Kind(name) == Ignore
    ensures Apply(o, name, value) == Some(o.(ignoreFile := value, expectIgnored := true))
  {
  }

  /**
   * "output" never stores the file name, and selects CSV for every value
   * SplitParam can produce: empty, or starting with '='.
   */
  lemma OutputAlwaysCsv(o: Options, arg: string)
    requires Kind(Entry(arg).0) == Output
    ensures Apply(o, Entry(arg).0, Entry(arg).1) == Some(o.(outputTarget := ToCsv))
  {
    var value := Entry(arg).1;
    ValueShape(arg);
    FindSpec(value, ".csv");
    assert OutputTargetOf(o.outputTarget, value) == ToCsv;
  }

  /** "cellrect" takes fields 1 to 4 as west, north, east, south; later ones change nothing. */
  lemma CellRectOrder(r: CoordRect, fields: seq<string>)
    requires |fields| >= 4
    ensures CellRectOf(r, fields) == CoordRect(Atof(fields[0]), Atof(fields[1]), Atof(fields[2]), Atof(fields[3]))
    ensures CellRectOf(r, fields) == CellRectOf(r, fields[..4])
  {
    FillFour(r, fields);
    FillFour(r, fields[..4]);
  }

  /** The first four fields fill the four edges, whatever follows them. */
  lemma FillFour(r: CoordRect, f: seq<string>)
    requires |f| >= 4
    ensures Fill(r, 0, f) == CoordRect(Atof(f[0]), Atof(f[1]), Atof(f[2]), Atof(f[3]))
  {
    var r1 := r.(west := Atof(f[0]));
    var r2 := r1.(north := Atof(f[1]));
    var r3 := r2.(east := Atof(f[2]));
    var r4 := r3.(south := Atof(f[3]));
    assert f[1..][0] == f[1] && f[1..][1..] == f[2..];
    assert f[2..][0] == f[2] && f[2..][1..] == f[3..];
    assert f[3..][0] == f[3] && f[3..][1..] == f[4..];
    calc {
      Fill(r, 0, f);
      Fill(r1, 1, f[1..]);
      Fill(r2, 2, f[2..]);
      Fill(r3, 3, f[3..]);
      Fill(r4, 4, f[4..]);
      { FillPastEdges(r4, 4, f[4..]); }
      r4;
    }
  }

  /** Past the fourth edge, further fields change nothing. */
  lemma {:induction false} FillPastEdges(r: CoordRect, k: nat, fields: seq<string>)
    requires k >= 4
    ensures Fill(r, k, fields) == r
    decreases |fields|
  {
    if fields != [] {
      FillPastEdges(r, k + 1, fields[1..]);
    }
  }

  /**
   * atof reads no number from a text whose first character is '=', and
   * returns 0.0 for it.
   */
  predicate AtofReadsNothing(text: string)
  {
    text == [] || text[0] == '='
  }

  /**
   * The numeric options receive the value with its leading '=', so atof
   * reads nothing from them.
   */
  lemma NumericOptionsReadNothing(o: Options, arg: string)
    requires Kind(Entry(arg).0) in {GridSize, Interpolate, Infill}
    ensures var r := Apply(o, Entry(arg).0, Entry(arg).1);
      && r.Some?
      && (Kind(Entry(arg).0) == GridSize ==> r.value.gridSize.Atof? && AtofReadsNothing(r.value.gridSize.text))
      && (Kind(Entry(arg).0) == Interpolate ==>
            r.value.interpolateDayCount.Atof? && AtofReadsNothing(r.value.interpolateDayCount.text))
      && (Kind(Entry(arg).0) == Infill ==> r.value.maxInfillSpan.Atof? && AtofReadsNothing(r.value.maxInfillSpan.text))
  {
    ValueShape(arg);
  }

  /** A field no parameter names keeps its value: "interpolate", "infill", "output". */
  lemma {:induction false} UntouchedKeepDefaults(o: Options, params: seq<string>)
    requires ApplyAll(o, params).Some?
    ensures var kinds := Kinds(params);
      && (Interpolate !in kinds ==>
            ApplyAll(o, params).value.interpolate == o.interpolate
            && ApplyAll(o, params).value.interpolateDayCount == o.interpolateDayCount)
      && (Infill !in kinds ==>
            ApplyAll(o, params).value.infill == o.infill
            && ApplyAll(o, params).value.maxInfillSpan == o.maxInfillSpan)
      && (Output !in kinds ==> ApplyAll(o, params).value.outputTarget == o.outputTarget)
    decreases |params|
  {
    if params != [] {
      var entry := Entry(params[0]);
      ApplyFrame(o, entry.0, entry.1);
      var o' := Apply(o, entry.0, entry.1).value;
      assert ApplyAll(o, params) == ApplyAll(o', params[1..]);
      UntouchedKeepDefaults(o', params[1..]);
      assert Kinds(params) == [Kind(entry.0)] + Kinds(params[1..]);
    }
  }

  /** One parameter changes the interpolate, infill and output fields only under its own name. */
  lemma ApplyFrame(o: Options, name: string, value: string)
    requires Known(name)
    ensures var o' := Apply(o, name, value).value;
      && (Kind(name) != Interpolate ==> o'.interpolate == o.interpolate && o'.interpolateDayCount == o.interpolateDayCount)
      && (Kind(name) != Infill ==> o'.infill == o.infill && o'.maxInfillSpan == o.maxInfillSpan)
      && (Kind(name) != Output ==> o'.outputTarget == o.outputTarget)
  {
  }

  /** The branches the parameters take, in order. */
  function Kinds(params: seq<string>): (r: seq<Param>)
    ensures |r| == |params|
  {
    if params == [] then [] else [Kind(Entry(params[0]).0)] + Kinds(params[1..])
  }

  /** "-auto" alone gives the defaults with autoValues set. */
  lemma AutoOnly(program: string)
    ensures Parse([program, "-auto"]) == Some(Defaults().(autoValues := Some(true)))
  {
    assert Find("-auto", "=") == NPOS by {
      FindChar("-auto", '=');
    }
    assert "-auto"[1..] == "auto";
    assert Lower("auto") == "auto";
    assert Entry("-auto") == ("auto", "");
    assert Kind("auto") == Auto;
    var o := Defaults().(autoValues := Some(true));
    assert Apply(Defaults(), "auto", "") == Some(o);
    assert ["-auto"][1..] == [];
    assert ApplyAll(Defaults(), ["-auto"]) == ApplyAll(o, []);
    assert [program, "-auto"][1..] == ["-auto"];
  }

  // ---------------------------------------------------------------- PAOutput

  class PAOutput {
    var headerFile: string
    var dataFile: string
    var outputFile: string
    var ignoreFile: string
    var expectIgnored: bool
    var outputTarget: OutputTo
    var useGrid: bool
    var gridSize: Number
    var interpolate: bool
    var interpolateDayCount: Number
    var infill: bool
    var maxInfillSpan: Number
    var findStation: bool
    var findStationString: string
    var singleCell: bool
    var cellRect: CoordRect
    var autoValues: Option<bool>
    var returnValue: int

    function Value(): Options
      reads this
    {
      Options(headerFile, dataFile, outputFile, ignoreFile, expectIgnored, outputTarget,
        useGrid, gridSize, interpolate, interpolateDayCount, infill, maxInfillSpan,
        findStation, findStationString, singleCell, cellRect, autoValues, returnValue)
    }

    constructor ()
      ensures Value() == Defaults()
    {
      headerFile, dataFile, outputFile, ignoreFile := DEFAULT_HEADERFILE, DEFAULT_DATAFILE, DEFAULT_OUTPUTFILE, DEFAULT_IGNOREFILE;
      expectIgnored := false;
      outputTarget := ToConsole;
      useGrid, gridSize := false, Lit(5.0);
      interpolate, interpolateDayCount := false, Lit(3.0);
      infill, maxInfillSpan := false, Lit(1.0);
      findStation, findStationString := false, "";
      singleCell, cellRect := false, CoordRect(Lit(0.0), Lit(0.0), Lit(0.0), Lit(0.0));
      autoValues := None;
      returnValue := 0;
    }

    /** The body of the parameter loop for one entry; false for an unknown name. */
    method ApplyParam(name: string, value: string) returns (ok: bool)
      modifies this
      ensures ok <==> Known(name)
      ensures ok ==> Value() == Apply(old(Value()), name, value).value
      ensures !ok ==> Value() == old(Value())
    {
      var kind := Kind(name);
      ok := kind != Unknown;
      if kind in {Auto, Header, Data, Ignore} {
        ApplyFileParam(kind, value);
      } else if kind == Output {
        ApplyOutputParam(value);
      } else if kind in {GridSize, Interpolate, Infill} {
        ApplyNumberParam(kind, value);
      } else if ok {
        ApplySelectParam(kind, value);
      }
    }

    /** The "auto", "header", "data" and "ignore" branches. */
    method ApplyFileParam(kind: Param, value: string)
      requires kind in {Auto, Header, Data, Ignore}
      modifies this
      ensures Value() == ApplyKind(old(Value()), kind, value)
    {
      match kind
      case Auto =>
        autoValues := Some(true);
      case Header =>
        headerFile := value;
      case Data =>
        dataFile := value;
      case Ignore =>
        ignoreFile := value;
        expectIgnored := true;
    }

    /** The "output" branch: the first of ".csv", ".emsl", "port:" not at position 0 picks the target. */
    method ApplyOutputParam(value: string)
      modifies this
      ensures Value() == ApplyKind(old(Value()), Output, value)
    {
      if Find(value, ".csv") != 0 {
        outputTarget := ToCsv;
      } else if Find(value, ".emsl") != 0 {
        outputTarget := ToEmsl;
      } else if Find(value, "port:") != 0 {
        outputTarget := ToPort;
      }
    }

    /** The "gridsize", "interpolate" and "infill" branches. */
    method ApplyNumberParam(kind: Param, value: string)
      requires kind in {GridSize, Interpolate, Infill}
      modifies this
      ensures Value() == ApplyKind(old(Value()), kind, value)
    {
      match kind
      case GridSize =>
        useGrid := true;
        gridSize := Atof(value);
      case Interpolate =>
        interpolate := true;
        interpolateDayCount := Atof(value);
      case Infill =>
        infill := true;
        maxInfillSpan := Atof(value);
    }

    /** The "station" and "cellrect" branches. */
    method ApplySelectParam(kind: Param, value: string)
      requires kind in {Station, CellRect}
      modifies this
      ensures Value() == ApplyKind(old(Value()), kind, value)
    {
      match kind
      case Station =>
        findStation := true;
        findStationString := value;
      case CellRect =>
        singleCell := true;
        cellRect := ReadCellRect(value, cellRect);
    }
  }

  /** The getline loop over the comma-separated "cellrect" value, filling `rect`. */
  method ReadCellRect(value: string, rect: CoordRect) returns (r: CoordRect)
    ensures r == CellRectOf(rect, GetlineTokens(value, ','))
  {
    ghost var count: nat := 0;
    r := rect;
    var w, n, e, s := false, false, false, false;
    var rest := value;
    while rest != []
      invariant Fill(r, count, GetlineTokens(rest, ',')) == CellRectOf(rect, GetlineTokens(value, ','))
      invariant w == (count > 0) && n == (count > 1) && e == (count > 2) && s == (count > 3)
      decreases |rest|
    {
      var i := FirstIndex(rest, ',');
      var tmp := rest[..i];
      var next := if i == |rest| then [] else rest[i + 1..];
      GetlineStep(rest, ',');
      assert ([tmp] + GetlineTokens(next, ','))[1..] == GetlineTokens(next, ',');
      if !w {
        r := r.(west := Atof(tmp));
        w := true;
      } else if !n {
        r := r.(north := Atof(tmp));
        n := true;
      } else if !e {
        r := r.(east := Atof(tmp));
        e := true;
      } else if !s {
        r := r.(south := Atof(tmp));
        s := true;
      }
      count := count + 1;
      rest := next;
    }
  }

  /** ParseArgs(argc, argv): null, or a new PAOutput with every parameter applied. */
  method ParseArguments(args: seq<string>) returns (pa: PAOutput?)
    ensures pa == null <==> Parse(args).None?
    ensures pa != null ==> fresh(pa) && pa.Value() == Parse(args).value
  {
    if |args| < 2 {
      return null;
    }
    pa := new PAOutput();
    var paramList := args[1..];
    var k := 0;
    while k < |paramList|
      invariant 0 <= k <= |paramList|
      invariant fresh(pa)
      invariant ApplyAll(pa.Value(), paramList[k..]) == Parse(args)
    {
      var name, value := SplitParam(paramList[k]);
      assert paramList[k..][1..] == paramList[k + 1..];
      var ok := pa.ApplyParam(name, value);
      if !ok {
        return null;
      }
      k := k + 1;
    }
    assert paramList[k..] == [];
  }
}
