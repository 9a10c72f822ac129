// Text primitives the C++ sources take from the standard library:
// std::getline with a delimiter, std::remove on a string, std::string::find,
// atoi, the project's own to_string and ::tolower.  Strings are seq<char>.

module Text {

  /** std::string::npos, as returned by Find when the pattern is absent. */
  const NPOS: int := -1

  /** Index of the first `c` in `s`, or |s| when `c` does not occur. */
  function FirstIndex(s: string, c: char): (i: nat)
    ensures i <= |s|
    ensures forall k :: 0 <= k < i ==> s[k] != c
    ensures i < |s| ==> s[i] == c
  {
    if s == [] then 0
    else if s[0] == c then 0
    else 1 + FirstIndex(s[1..], c)
  }

  /**
   * The strings successive `getline(stream, token, d)` calls deliver for the
   * text `s`: the pieces between delimiters, empty ones included, except that
   * nothing is delivered after a final delimiter.
   */
  function GetlineTokens(s: string, d: char): (r: seq<string>)
    ensures s == [] <==> r == []
    decreases |s|
  {
    if s == [] then []
    else
      var i := FirstIndex(s, d);
      if i == |s| then [s]
      else [s[..i]] + GetlineTokens(s[i + 1..], d)
  }

  /** The tokens joined with one `d` between neighbours. */
  function Join(ts: seq<string>, d: char): string
  {
    if ts == [] then []
    else if |ts| == 1 then ts[0]
    else ts[0] + [d] + Join(ts[1..], d)
  }

  /** The non-empty strings of `ts`, in order. */
  function NonEmpty(ts: seq<string>): (r: seq<string>)
    ensures |r| <= |ts|
  {
    if ts == [] then []
    else if ts[0] == [] then NonEmpty(ts[1..])
    else [ts[0]] + NonEmpty(ts[1..])
  }

  /** No getline token contains the delimiter. */
  lemma {:induction false} GetlineTokensFree(s: string, d: char)
    ensures forall k :: 0 <= k < |GetlineTokens(s, d)| ==> d !in GetlineTokens(s, d)[k]
    decreases |s|
  {
    if s != [] {
      var i := FirstIndex(s, d);
      if i < |s| {
        GetlineUnfold(s, d, i);
        GetlineTokensFree(s[i + 1..], d);
      }
    }
  }

  /** NonEmpty keeps only non-empty strings, each taken from `ts`. */
  lemma {:induction false} NonEmptyShape(ts: seq<string>)
    ensures forall k :: 0 <= k < |NonEmpty(ts)| ==> NonEmpty(ts)[k] != [] && NonEmpty(ts)[k] in ts
  {
    if ts != [] {
      NonEmptyShape(ts[1..]);
    }
  }

  /**
   * getline tokenising loses nothing: joining the tokens gives the text back,
   * minus the one trailing delimiter that produces no token.
   */
  lemma {:induction false} GetlineJoin(s: string, d: char)
    requires s != []
    ensures s[|s| - 1] == d ==> Join(GetlineTokens(s, d), d) + [d] == s
    ensures s[|s| - 1] != d ==> Join(GetlineTokens(s, d), d) == s
    decreases |s|
  {
    var i := FirstIndex(s, d);
    if i == |s| {
      assert GetlineTokens(s, d) == [s];
    } else {
      var head := s[..i];
      var rest := s[i + 1..];
      GetlineUnfold(s, d, i);
      if rest == [] {
        LastDelimiter(s, head, d);
      } else {
        GetlineJoin(rest, d);
        JoinStep(s, head, rest, GetlineTokens(s, d), GetlineTokens(rest, d), d);
      }
    }
  }

  lemma GetlineUnfold(s: string, d: char, i: nat)
    requires s != [] && i == FirstIndex(s, d) && i < |s|
    ensures s == s[..i] + [d] + s[i + 1..]
    ensures GetlineTokens(s, d) == [s[..i]] + GetlineTokens(s[i + 1..], d)
  {
    assert s[i] == d;
    assert s == s[..i] + [s[i]] + s[i + 1..];
  }

  /** One getline call: the first token, and the text after its delimiter. */
  lemma GetlineStep(s: string, d: char)
    requires s != []
    ensures var i := FirstIndex(s, d);
      GetlineTokens(s, d) == [s[..i]] + GetlineTokens(if i == |s| then [] else s[i + 1..], d)
  {
    var i := FirstIndex(s, d);
    if i < |s| {
      GetlineUnfold(s, d, i);
    } else {
      assert s[..i] == s;
    }
  }

  /** Moving one token from the pending part to the done part. */
  lemma ShiftToken(done: seq<string>, t: string, rest: seq<string>)
    ensures (done + [t]) + rest == done + ([t] + rest)
  {
  }

  lemma LastDelimiter(s: string, head: string, d: char)
    requires s == head + [d]
    ensures Join([head], d) + [d] == s
  {
  }

  /** The inductive step of GetlineJoin, stated on Join alone. */
  lemma JoinStep(s: string, head: string, rest: string, toks: seq<string>, tail: seq<string>, d: char)
    requires rest != [] && tail != [] && s == head + [d] + rest && toks == [head] + tail
    requires rest[|rest| - 1] == d ==> Join(tail, d) + [d] == rest
    requires rest[|rest| - 1] != d ==> Join(tail, d) == rest
    ensures s[|s| - 1] == d ==> Join(toks, d) + [d] == s
    ensures s[|s| - 1] != d ==> Join(toks, d) == s
  {
    JoinCons(head, tail, d);
    assert s[|s| - 1] == rest[|rest| - 1];
  }

  lemma JoinCons(a: string, tail: seq<string>, d: char)
    requires tail != []
    ensures Join([a] + tail, d) == a + [d] + Join(tail, d)
  {
    assert ([a] + tail)[1..] == tail;
  }

  /**
   * The converse direction: text assembled from non-empty, delimiter-free
   * tokens is tokenised back into exactly those tokens.
   */
  lemma {:induction false} JoinGetline(ts: seq<string>, d: char)
    requires forall k :: 0 <= k < |ts| ==> ts[k] != [] && d !in ts[k]
    ensures GetlineTokens(Join(ts, d), d) == ts
    ensures NonEmpty(GetlineTokens(Join(ts, d), d)) == ts
    decreases |ts|
  {
    if ts == [] {
    } else if |ts| == 1 {
      FirstIndexAbsent(ts[0], d);
    } else {
      var s := Join(ts, d);
      FirstIndexAbsent(ts[0], d);
      FirstIndexOfPrefix(ts[0], [d] + Join(ts[1..], d), d);
      assert s == ts[0] + ([d] + Join(ts[1..], d));
      assert FirstIndex(s, d) == |ts[0]|;
      assert s[..|ts[0]|] == ts[0];
      assert s[|ts[0]| + 1..] == Join(ts[1..], d);
      JoinGetline(ts[1..], d);
      assert ts == [ts[0]] + ts[1..];
    }
    NonEmptyIdentity(GetlineTokens(Join(ts, d), d));
  }

  lemma {:induction false} FirstIndexAbsent(s: string, c: char)
    requires c !in s
    ensures FirstIndex(s, c) == |s|
  {
    if s != [] {
      assert s[0] != c;
      assert c !in s[1..];
      FirstIndexAbsent(s[1..], c);
    }
  }

  lemma {:induction false} FirstIndexOfPrefix(a: string, b: string, c: char)
    requires c !in a
    ensures FirstIndex(a + b, c) == |a| + FirstIndex(b, c)
    decreases |a|
  {
    if a != [] {
      assert (a + b)[0] == a[0] != c;
      assert (a + b)[1..] == a[1..] + b;
      FirstIndexOfPrefix(a[1..], b, c);
    } else {
      assert a + b == b;
    }
  }

  lemma {:induction false} NonEmptyIdentity(ts: seq<string>)
    requires forall k :: 0 <= k < |ts| ==> ts[k] != []
    ensures NonEmpty(ts) == ts
  {
    if ts != [] {
      NonEmptyIdentity(ts[1..]);
      assert ts == [ts[0]] + ts[1..];
    }
  }

  /** `s` with every occurrence of `c` removed (erase(remove(...), end())). */
  function RemoveChar(s: string, c: char): (r: string)
    ensures |r| <= |s|
  {
    if s == [] then []
    else if s[0] == c then RemoveChar(s[1..], c)
    else [s[0]] + RemoveChar(s[1..], c)
  }

  /** Every `c` is gone and every other character keeps its number of occurrences. */
  lemma {:induction false} RemoveCharSpec(s: string, c: char)
    ensures c !in RemoveChar(s, c)
    ensures forall x :: x != c ==> multiset(RemoveChar(s, c))[x] == multiset(s)[x]
  {
    if s != [] {
      RemoveCharSpec(s[1..], c);
      assert s == [s[0]] + s[1..];
    }
  }

  lemma {:induction false} RemoveCharAbsent(s: string, c: char)
    requires c !in s
    ensures RemoveChar(s, c) == s
  {
    if s != [] {
      assert c !in s[1..];
      RemoveCharAbsent(s[1..], c);
      assert s == [s[0]] + s[1..];
    }
  }

  /** True when `p` occurs in `s` at index `i`. */
  predicate OccursAt(p: string, s: string, i: int)
  {
    0 <= i && i + |p| <= |s| && s[i..i + |p|] == p
  }

  /** True when `p` is a substring of `s` (find(p) != npos). */
  predicate IsSubstring(p: string, s: string)
  {
    exists i | 0 <= i <= |s| :: OccursAt(p, s, i)
  }

  /** std::string::find: the first index where `p` occurs in `s`, or NPOS. */
  function Find(s: string, p: string): (r: int)
    ensures r == NPOS || (0 <= r && r + |p| <= |s|)
  {
    FindFrom(s, p, 0)
  }

  function FindFrom(s: string, p: string, from: nat): (r: int)
    requires from <= |s| + 1
    ensures r == NPOS || (from <= r && r + |p| <= |s|)
    decreases |s| + 1 - from
  {
    if from + |p| > |s| then NPOS
    else if s[from..from + |p|] == p then from
    else FindFrom(s, p, from + 1)
  }

  /** Find reports the first occurrence, and NPOS exactly when there is none. */
  lemma FindSpec(s: string, p: string)
    ensures Find(s, p) == NPOS <==> !IsSubstring(p, s)
    ensures Find(s, p) != NPOS ==>
      OccursAt(p, s, Find(s, p)) && forall j :: 0 <= j < Find(s, p) ==> !OccursAt(p, s, j)
  {
    FindFromSpec(s, p, 0);
  }

  lemma {:induction false} FindFromSpec(s: string, p: string, from: nat)
    requires from <= |s| + 1
    ensures FindFrom(s, p, from) != NPOS ==> OccursAt(p, s, FindFrom(s, p, from))
    ensures FindFrom(s, p, from) == NPOS ==> forall j :: from <= j ==> !OccursAt(p, s, j)
    ensures FindFrom(s, p, from) != NPOS ==> forall j :: from <= j < FindFrom(s, p, from) ==> !OccursAt(p, s, j)
    decreases |s| + 1 - from
  {
    if from + |p| <= |s| && s[from..from + |p|] != p {
      FindFromSpec(s, p, from + 1);
    }
  }

  /** isspace in the C locale. */
  predicate IsSpace(c: char)
  {
    c == ' ' || c == '\t' || c == '\n' || c == '\r' || c as int == 11 || c as int == 12
  }

  predicate IsDigit(c: char)
  {
    '0' <= c <= '9'
  }

  function DigitValue(c: char): (v: nat)
    requires IsDigit(c)
    ensures v < 10
  {
    (c as int) - ('0' as int)
  }

  function DigitChar(v: nat): (c: char)
    requires v < 10
    ensures IsDigit(c) && DigitValue(c) == v
  {
    (v + '0' as int) as char
  }

  function SkipSpace(s: string): (r: string)
    ensures |r| <= |s| && r == s[|s| - |r|..]
    ensures r != [] ==> !IsSpace(r[0])
  {
    if s != [] && IsSpace(s[0]) then SkipSpace(s[1..]) else s
  }

  /** The longest prefix of `s` made of decimal digits. */
  function LeadingDigits(s: string): (r: string)
    ensures |r| <= |s| && r == s[..|r|]
    ensures forall k :: 0 <= k < |r| ==> IsDigit(r[k])
  {
    if s != [] && IsDigit(s[0]) then [s[0]] + LeadingDigits(s[1..]) else []
  }

  function DigitsValue(ds: string): nat
    requires forall k :: 0 <= k < |ds| ==> IsDigit(ds[k])
  {
    if ds == [] then 0
    else DigitsValue(ds[..|ds| - 1]) * 10 + DigitValue(ds[|ds| - 1])
  }

  /**
   * atoi: leading white space, an optional sign, then decimal digits up to
   * the first other character (int overflow, undefined in C, is not modelled).
   */
  function Atoi(s: string): int
  {
    var t := SkipSpace(s);
    if t != [] && t[0] == '-' then -(DigitsValue(LeadingDigits(t[1..])) as int)
    else if t != [] && t[0] == '+' then DigitsValue(LeadingDigits(t[1..]))
    else DigitsValue(LeadingDigits(t))
  }

  /** Decimal digits of a natural number, most significant first. */
  function NatString(n: nat): (r: string)
    ensures r != [] && IsDigit(r[0])
    ensures forall k :: 0 <= k < |r| ==> IsDigit(r[k])
  {
    if n < 10 then [DigitChar(n)] else NatString(n / 10) + [DigitChar(n % 10)]
  }

  /** to_string(int32): std::dec formatting of an integer. */
  function DecimalString(n: int): (r: string)
    ensures r != []
  {
    if n < 0 then "-" + NatString(-n) else NatString(n)
  }

  lemma {:induction false} NatStringValue(n: nat)
    ensures DigitsValue(NatString(n)) == n
  {
    if n >= 10 {
      NatStringValue(n / 10);
      var r := NatString(n);
      assert r[..|r| - 1] == NatString(n / 10);
    }
  }

  lemma {:induction false} LeadingDigitsAll(s: string)
    requires forall k :: 0 <= k < |s| ==> IsDigit(s[k])
    ensures LeadingDigits(s) == s
  {
    if s != [] {
      LeadingDigitsAll(s[1..]);
    }
  }

  /** atoi reads back what to_string wrote. */
  lemma AtoiDecimalString(n: int)
    ensures Atoi(DecimalString(n)) == n
  {
    var m: nat := if n < 0 then -n else n;
    NatStringValue(m);
    if n < 0 {
      AtoiNegative(NatString(m));
    } else {
      AtoiDigits(NatString(m));
    }
  }

  lemma AtoiDigits(ds: string)
    requires ds != [] && forall k :: 0 <= k < |ds| ==> IsDigit(ds[k])
    ensures Atoi(ds) == DigitsValue(ds)
  {
    assert IsDigit(ds[0]) && !IsSpace(ds[0]);
    assert SkipSpace(ds) == ds;
    assert ds[0] != '-' && ds[0] != '+';
    LeadingDigitsAll(ds);
  }

  lemma AtoiNegative(ds: string)
    requires ds != [] && forall k :: 0 <= k < |ds| ==> IsDigit(ds[k])
    ensures Atoi("-" + ds) == 0 - DigitsValue(ds)
  {
    LeadingDigitsAll(ds);
    var t := "-" + ds;
    assert SkipSpace(t) == t;
    assert t[1..] == ds;
  }

  /** ::tolower for one character in the C locale. */
  function LowerChar(c: char): (r: char)
    ensures !('A' <= r <= 'Z')
    ensures !('A' <= c <= 'Z') ==> r == c
    ensures 'A' <= c <= 'Z' ==> 'a' <= r <= 'z' && r as int - 'a' as int == c as int - 'A' as int
  {
    if 'A' <= c <= 'Z' then (c as int - 'A' as int + 'a' as int) as char else c
  }

  /** transform(..., ::tolower) over a whole string. */
  function Lower(s: string): string
  {
    seq(|s|, k requires 0 <= k < |s| => LowerChar(s[k]))
  }
}
