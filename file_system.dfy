// fs::Entry: a path in the file system, its last segment (the name), and the
// paths of the children of a directory.  The file-system probes (opendir,
// lstat, fopen) are not modelled: whether the path is a directory and the
// names readdir delivers are inputs.  The delimiter is the POSIX '/'.

module FileSystem {
  import opened Text

  const DELIMITER: char := '/'

  /** The fields _DecodeName leaves behind. */
  datatype Decoded = Decoded(path: string, name: string, isDir: bool)

  /** The stored path with one trailing delimiter removed, if there is one. */
  function StripOne(path: string): (r: string)
    ensures path != [] && path != [DELIMITER] ==> r != []
  {
    if path != [] && path[|path| - 1] == DELIMITER then path[..|path| - 1] else path
  }

  /**
   * _DecodeName on the fields (path, name, isDir): an empty path changes
   * nothing, the root path only becomes a directory, and any other path loses
   * one trailing delimiter and takes the last getline segment as its name.
   */
  function Decode(path: string, name: string, isDir: bool): Decoded
  {
    if path == [] then Decoded(path, name, isDir)
    else if path == [DELIMITER] then Decoded(path, name, true)
    else
      var p := StripOne(path);
      var sections := GetlineTokens(p, DELIMITER);
      Decoded(p, sections[|sections| - 1], isDir)
  }

  /**
   * Independent reference for a path's name: the text after the last
   * delimiter (all of it when there is none).
   */
  function AfterLast(s: string, d: char): (r: string)
    ensures d !in r
    ensures |r| <= |s| && r == s[|s| - |r|..]
    ensures r == s || s[|s| - |r| - 1] == d
  {
    if s == [] then []
    else if s[|s| - 1] == d then []
    else
      var r := AfterLast(s[..|s| - 1], d) + [s[|s| - 1]];
      assert s == s[..|s| - 1] + [s[|s| - 1]];
      r
  }

  /** A delimiter-free text is its own name. */
  lemma AfterLastFree(s: string, d: char)
    requires d !in s
    ensures AfterLast(s, d) == s
  {
  }

  /** Only what follows a delimiter decides the name. */
  lemma {:induction false} AfterLastSuffix(a: string, d: char, b: string)
    ensures AfterLast(a + [d] + b, d) == AfterLast(b, d)
    decreases |b|
  {
    var s := a + [d] + b;
    if b == [] {
      assert s == a + [d];
    } else {
      var init := b[..|b| - 1];
      assert s[..|s| - 1] == a + [d] + init;
      assert s[|s| - 1] == b[|b| - 1];
      AfterLastSuffix(a, d, init);
    }
  }

  /**
   * The last segment getline delivers for a path that does not end with the
   * delimiter is the text after the path's last delimiter.
   */
  lemma {:induction false} LastToken(p: string, d: char)
    requires p != [] && p[|p| - 1] != d
    ensures var ts := GetlineTokens(p, d); ts[|ts| - 1] == AfterLast(p, d)
    decreases |p|
  {
    var i := FirstIndex(p, d);
    if i == |p| {
      assert GetlineTokens(p, d) == [p];
      AfterLastFree(p, d);
    } else {
      var rest := p[i + 1..];
      GetlineUnfold(p, d, i);
      assert rest != [] && rest[|rest| - 1] == p[|p| - 1];
      LastToken(rest, d);
      AfterLastSuffix(p[..i], d, rest);
    }
  }

  /** An empty path is left alone; the root path becomes a directory with an empty name. */
  lemma DecodeSpecialPaths(name: string, isDir: bool)
    ensures Decode([], name, isDir) == Decoded([], name, isDir)
    ensures Decode([DELIMITER], name, isDir) == Decoded([DELIMITER], name, true)
  {
  }

  /**
   * Any other path: exactly one trailing delimiter is stripped, the directory
   * flag is untouched, the name holds no delimiter, and when the stripped
   * path does not end with a delimiter the name is the text after its last one.
   */
  lemma DecodeOrdinary(path: string, name: string, isDir: bool)
    requires path != [] && path != [DELIMITER]
    ensures var r := Decode(path, name, isDir);
      && r.path == (if path[|path| - 1] == DELIMITER then path[..|path| - 1] else path)
      && r.isDir == isDir
      && DELIMITER !in r.name
      && (r.path[|r.path| - 1] != DELIMITER ==> r.name == AfterLast(r.path, DELIMITER))
  {
    var p := StripOne(path);
    GetlineTokensFree(p, DELIMITER);
    if p[|p| - 1] != DELIMITER {
      LastToken(p, DELIMITER);
    }
  }

  /** Appending the delimiter does not move its first occurrence. */
  lemma FirstIndexAppend(q: string, d: char)
    ensures FirstIndex(q + [d], d) == FirstIndex(q, d)
  {
    var i := FirstIndex(q, d);
    var j := FirstIndex(q + [d], d);
    assert (q + [d])[|q|] == d;
    if i < |q| {
      assert (q + [d])[i] == d;
    }
    if j < |q| {
      assert q[j] == (q + [d])[j];
    }
  }

  /** The text after position i of a path keeps the path's last character. */
  lemma AfterPosition(q: string, i: nat)
    requires i + 1 < |q|
    ensures q[i + 1..] != [] && q[i + 1..][|q[i + 1..]| - 1] == q[|q| - 1]
  {
  }

  /** A final delimiter after a token that does not end in one yields no further token. */
  lemma {:induction false} TrailingDelimiterSilent(q: string, d: char)
    requires q != [] && q[|q| - 1] != d
    ensures GetlineTokens(q + [d], d) == GetlineTokens(q, d)
    decreases |q|
  {
    var i := FirstIndex(q, d);
    if i == |q| {
      TrailingDelimiterOnly(q, d);
    } else {
      assert i + 1 < |q| by {
        assert q[i] == d;
      }
      AfterPosition(q, i);
      TrailingDelimiterSilent(q[i + 1..], d);
      TrailingDelimiterStep(q, d, i);
    }
  }

  /** The base case: a delimiter-free token followed by one delimiter. */
  lemma TrailingDelimiterOnly(q: string, d: char)
    requires q != [] && FirstIndex(q, d) == |q|
    ensures GetlineTokens(q + [d], d) == GetlineTokens(q, d)
  {
    var s := q + [d];
    FirstIndexAppend(q, d);
    GetlineUnfold(s, d, |q|);
    assert s[..|q|] == q && s[|q| + 1..] == [];
    GetlineStep(q, d);
  }

  /** The step: the first token is the same, and so is the text after it but for the delimiter. */
  lemma TrailingDelimiterStep(q: string, d: char, i: nat)
    requires q != [] && i == FirstIndex(q, d) && i < |q|
    requires GetlineTokens(q[i + 1..] + [d], d) == GetlineTokens(q[i + 1..], d)
    ensures GetlineTokens(q + [d], d) == GetlineTokens(q, d)
  {
    FirstIndexAppend(q, d);
    GetlineStep(q + [d], d);
    GetlineStep(q, d);
    SlicesOfAppend(q, d, i);
  }

  lemma SlicesOfAppend(q: string, d: char, i: nat)
    requires i < |q|
    ensures (q + [d])[..i] == q[..i] && (q + [d])[i + 1..] == q[i + 1..] + [d]
  {
  }

  /**
   * A path ending in two delimiters keeps one of them, yet its name is still
   * the last real segment: getline delivers nothing after the final delimiter.
   */
  lemma DoubleTrailingDelimiter(q: string, name: string, isDir: bool)
    requires q != [] && q[|q| - 1] != DELIMITER
    ensures Decode(q + [DELIMITER, DELIMITER], name, isDir).path == q + [DELIMITER]
    ensures Decode(q + [DELIMITER, DELIMITER], name, isDir).name == AfterLast(q, DELIMITER)
  {
    var path := q + [DELIMITER, DELIMITER];
    assert path[..|path| - 1] == q + [DELIMITER];
    TrailingDelimiterSilent(q, DELIMITER);
    LastToken(q, DELIMITER);
  }

  // ------------------------------------------------------------ child paths

  predicate IsDotName(name: string)
  {
    name == "." || name == ".."
  }

  /**
   * The child path _InitVector builds: parent, delimiter, name, with the
   * first character erased whenever the second one is a delimiter.  That
   * test is meant for the "//" of a root child, but it also fires for any
   * parent whose second character is a delimiter or that is one character
   * long (OneCharParentLost).
   */
  function ChildPath(parent: string, name: string): string
  {
    var str := parent + [DELIMITER] + name;
    if |str| > 1 && str[1] == DELIMITER then str[1..] else str
  }

  /** The child paths of a directory whose readdir delivers `names`, in order. */
  function ChildPaths(parent: string, names: seq<string>): seq<string>
  {
    if names == [] then []
    else
      var last := names[|names| - 1];
      ChildPaths(parent, names[..|names| - 1]) + (if IsDotName(last) then [] else [ChildPath(parent, last)])
  }

  /** The names of `names` other than "." and "..", in order. */
  function NonDotNames(names: seq<string>): (r: seq<string>)
    ensures |r| <= |names|
  {
    if names == [] then []
    else
      var last := names[|names| - 1];
      NonDotNames(names[..|names| - 1]) + (if IsDotName(last) then [] else [last])
  }

  /** The children of the root directory are "/" followed by the name. */
  lemma RootChild(name: string)
    ensures ChildPath([DELIMITER], name) == [DELIMITER] + name
  {
    var str := [DELIMITER] + [DELIMITER] + name;
    assert str[0] == DELIMITER && str[1] == DELIMITER;
    assert str[1..] == [DELIMITER] + name;
  }

  /**
   * A child path is the built path or that path less its first character,
   * and it ends with a delimiter followed by the (delimiter-free) name.
   */
  lemma ChildPathShape(parent: string, name: string)
    requires name != [] && DELIMITER !in name
    ensures var str := parent + [DELIMITER] + name;
      ChildPath(parent, name) == str || ChildPath(parent, name) == str[1..]
    ensures var c := ChildPath(parent, name);
      |c| > |name| && c[|c| - |name| - 1..] == [DELIMITER] + name
  {
    var str := parent + [DELIMITER] + name;
    var c := ChildPath(parent, name);
    if parent == [] {
      assert str[1] == name[0];
      assert c == str;
    }
    assert str[|str| - |name| - 1..] == [DELIMITER] + name;
    assert c[|c| - |name| - 1..] == str[|str| - |name| - 1..];
  }

  /**
   * Decoding a child path gives back the name it was built from: no trailing
   * delimiter is stripped and the last segment is exactly the name.
   */
  lemma ChildNameRoundTrip(parent: string, name: string, isDir: bool)
    requires name != [] && DELIMITER !in name
    ensures Decode(ChildPath(parent, name), [], isDir) == Decoded(ChildPath(parent, name), name, isDir)
  {
    var c := ChildPath(parent, name);
    ChildPathShape(parent, name);
    var prefix := c[..|c| - |name| - 1];
    assert c == prefix + [DELIMITER] + name;
    assert c[|c| - 1] == name[|name| - 1];
    LastToken(c, DELIMITER);
    AfterLastSuffix(prefix, DELIMITER, name);
    AfterLastFree(name, DELIMITER);
  }

  /**
   * The children's decoded names are exactly the readdir names without "."
   * and "..", in order.
   */
  lemma {:induction false} ChildNames(parent: string, names: seq<string>)
    requires forall k :: 0 <= k < |names| ==> names[k] != [] && DELIMITER !in names[k]
    ensures |ChildPaths(parent, names)| == |NonDotNames(names)|
    ensures forall k :: 0 <= k < |ChildPaths(parent, names)| ==>
      Decode(ChildPaths(parent, names)[k], [], false).name == NonDotNames(names)[k]
  {
    if names != [] {
      var init := names[..|names| - 1];
      var last := names[|names| - 1];
      assert forall k :: 0 <= k < |init| ==> init[k] == names[k];
      ChildNames(parent, init);
      if !IsDotName(last) {
        ChildNameRoundTrip(parent, last, false);
      }
    }
  }

  /** "." and ".." never become children; every other name does. */
  lemma {:induction false} DotsSkipped(parent: string, names: seq<string>)
    ensures |ChildPaths(parent, names)| + |set k | 0 <= k < |names| && IsDotName(names[k])| == |names|
  {
    if names != [] {
      var n := |names| - 1;
      var init := names[..n];
      var dots := set k | 0 <= k < |names| && IsDotName(names[k]);
      var initDots := set k | 0 <= k < |init| && IsDotName(init[k]);
      DotsSkipped(parent, init);
      assert initDots == set k | 0 <= k < n && IsDotName(names[k]);
      if IsDotName(names[n]) {
        assert dots == initDots + {n};
      } else {
        assert dots == initDots;
      }
    }
  }

  // ------------------------------------------------------------ the finding

  /**
   * The child path _InitVector is evidently meant to build: the first
   * character is erased only when the path starts with two delimiters, as a
   * child of the root does.  Nothing else in the model uses it.
   */
  function ChildPathIntended(parent: string, name: string): string
  {
    var str := parent + [DELIMITER] + name;
    if |str| > 1 && str[0] == DELIMITER && str[1] == DELIMITER then str[1..] else str
  }

  /**
   * Under the intended rule every parent that does not start with a
   * delimiter is kept whole, so "." and "data" give "./data".
   */
  lemma ChildPathKeepsParent(parent: string, name: string)
    ensures parent != [] && parent[0] != DELIMITER ==>
      ChildPathIntended(parent, name) == parent + [DELIMITER] + name
    ensures ChildPathIntended(".", "data") == "./data"
  {
    var str := parent + [DELIMITER] + name;
    if parent != [] {
      assert str[0] == parent[0];
    }
    assert ("." + [DELIMITER] + "data")[0] == '.';
  }

  /**
   * As written, any one-character parent, such as ".", loses its only
   * character, and a parent such as "a/b" loses its first one.
   */
  lemma OneCharParentLost(c: char, name: string)
    ensures ChildPath([c], name) == [DELIMITER] + name
    ensures ChildPath(".", "data") == "/data" != ChildPathIntended(".", "data")
    ensures ChildPath("a/b", "c") == "/b/c"
  {
    var str := [c] + [DELIMITER] + name;
    assert str[1..] == [DELIMITER] + name;
    ChildPathKeepsParent(".", "data");
    assert ("a/b" + [DELIMITER] + "c")[1..] == "/b/c";
  }

  /** On every absolute parent the code as written builds the intended path. */
  lemma AbsoluteParentsAgree(parent: string, name: string)
    requires parent != [] && parent[0] == DELIMITER
    ensures ChildPath(parent, name) == ChildPathIntended(parent, name)
  {
    var str := parent + [DELIMITER] + name;
    assert str[0] == DELIMITER;
  }

  // ---------------------------------------------------------------- Entry

  /**
   * The getline loop of _DecodeName: every segment is pushed to the front of
   * a deque, and the front one, the last segment, becomes the name.
   */
  method LastSection(path: string) returns (name: string)
    requires path != []
    ensures var ts := GetlineTokens(path, DELIMITER); name == ts[|ts| - 1]
  {
    var sections: seq<string> := [];
    ghost var consumed: seq<string> := [];
    var rest := path;
    while rest != []
      invariant consumed + GetlineTokens(rest, DELIMITER) == GetlineTokens(path, DELIMITER)
      invariant |sections| == |consumed|
      invariant sections != [] ==> sections[0] == consumed[|consumed| - 1]
      decreases |rest|
    {
      var i := FirstIndex(rest, DELIMITER);
      var token := rest[..i];
      var next := if i == |rest| then [] else rest[i + 1..];
      GetlineStep(rest, DELIMITER);
      ShiftToken(consumed, token, GetlineTokens(next, DELIMITER));
      sections := [token] + sections;
      consumed := consumed + [token];
      rest := next;
    }
    assert consumed == GetlineTokens(path, DELIMITER);
    name := sections[0];
  }

  class Entry {
    var fPath: string
    var fName: string
    var fIsDir: bool
    var fVector: seq<string>
    var fVectorInit: bool

    /** Entry(path): store the path and decode its name. */
    constructor (path: string)
      ensures Decoded(fPath, fName, fIsDir) == Decode(path, [], false)
      ensures fVector == [] && !fVectorInit
    {
      fPath := path;
      fName := [];
      fIsDir := false;
      fVector := [];
      fVectorInit := false;
      new;
      DecodeName();
    }

    /** _DecodeName: the getline loop pushes each segment to the front of a deque. */
    method DecodeName()
      modifies this
      ensures Decoded(fPath, fName, fIsDir) == Decode(old(fPath), old(fName), old(fIsDir))
      ensures fVector == old(fVector) && fVectorInit == old(fVectorInit)
    {
      if |fPath| == 0 {
        return;
      }
      if fPath == [DELIMITER] {
        fIsDir := true;
        return;
      }
      ghost var path := fPath;
      if fPath[|fPath| - 1] == DELIMITER {
        fPath := fPath[..|fPath| - 1];
      }
      assert fPath == StripOne(path) && fPath != [];
      fName := LastSection(fPath);
    }

    /**
     * _InitVector: once, and only for a directory, append the child path of
     * every readdir name except "." and "..", built by ChildPath.
     */
    method InitVector(isDirectory: bool, names: seq<string>)
      modifies this
      ensures fPath == old(fPath) && fName == old(fName) && fIsDir == old(fIsDir)
      ensures old(fVectorInit) || !isDirectory ==>
        fVector == old(fVector) && fVectorInit == old(fVectorInit)
      ensures !old(fVectorInit) && isDirectory ==>
        fVector == old(fVector) + ChildPaths(fPath, names) && fVectorInit
    {
      if fVectorInit || !isDirectory {
        return;
      }
      var i := 0;
      while i < |names|
        invariant 0 <= i <= |names|
        invariant fPath == old(fPath) && fName == old(fName) && fIsDir == old(fIsDir)
        invariant fVector == old(fVector) + ChildPaths(fPath, names[..i])
      {
        var name := names[i];
        assert names[..i + 1][..i] == names[..i];
        var str := fPath + [DELIMITER] + name;
        if name == "." || name == ".." {
          i := i + 1;
          continue;
        }
        if |str| > 1 && str[1] == DELIMITER {
          str := str[1..];
        }
        fVector := fVector + [str];
        i := i + 1;
      }
      assert names[..i] == names;
      fVectorInit := true;
    }

    /** Count: the number of children, listing the directory first if need be. */
    method Count(isDirectory: bool, names: seq<string>) returns (n: int)
      modifies this
      ensures fPath == old(fPath) && fName == old(fName) && fIsDir == old(fIsDir)
      ensures old(fVectorInit) || !isDirectory ==>
        fVector == old(fVector) && fVectorInit == old(fVectorInit)
      ensures !old(fVectorInit) && isDirectory ==>
        fVector == old(fVector) + ChildPaths(fPath, names) && fVectorInit
      ensures n == |fVector|
      ensures !old(fVectorInit) && isDirectory ==> n == |old(fVector)| + |ChildPaths(fPath, names)|
    {
      InitVector(isDirectory, names);
      n := |fVector|;
    }
  }
}
