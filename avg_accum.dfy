// IDAvgAccum: a running average per key.  The table is a vector of
// (key, count, total) entries; adding under a known key bumps its count and
// total in place, adding under a new key appends one entry.  The C++ template
// is used with uint32 keys and double values; here keys are integers and
// values exact reals, so the count never wraps and a sum never rounds.

module AvgAccum {
  import opened Support

  /** One key's figures: how many values were added and their sum. */
  datatype Entry = Entry(key: int, count: nat, total: real)

  /** What for_each hands its callback: the key, the average and the count. */
  datatype Visit = Visit(key: int, average: real, count: nat)

  /** The keys the table holds. */
  function KeySetOf(data: seq<Entry>): set<int>
  {
    set i | 0 <= i < |data| :: data[i].key
  }

  /** No key twice, and every entry holds at least one value. */
  ghost predicate WellFormed(data: seq<Entry>)
  {
    && (forall i, j :: 0 <= i < j < |data| ==> data[i].key != data[j].key)
    && (forall i :: 0 <= i < |data| ==> data[i].count >= 1)
  }

  // ------------------------------------------------------------ specification

  /** The position _find stops at, or -1 where it returns nullptr. */
  function IndexOf(data: seq<Entry>, id: int): (r: int)
    ensures -1 <= r < |data|
    ensures r == -1 <==> id !in KeySetOf(data)
    ensures r >= 0 ==> data[r].key == id && forall j :: 0 <= j < r ==> data[j].key != id
  {
    if data == [] then -1
    else if data[0].key == id then 0
    else
      var k := IndexOf(data[1..], id);
      assert KeySetOf(data) == {data[0].key} + KeySetOf(data[1..]) by {
        forall x | x in KeySetOf(data) ensures x in {data[0].key} + KeySetOf(data[1..]) {
          var i :| 0 <= i < |data| && data[i].key == x;
          if i > 0 {
            assert data[1..][i - 1] == data[i];
          }
        }
      }
      if k == -1 then -1 else k + 1
  }

  /** The table after add(id, val). */
  function Added(data: seq<Entry>, id: int, val: real): seq<Entry>
  {
    var k := IndexOf(data, id);
    if k == -1 then data + [Entry(id, 1, val)]
    else data[k := Entry(id, data[k].count + 1, data[k].total + val)]
  }

  /** How many values the table holds for id, and their sum. */
  function CountOf(data: seq<Entry>, id: int): nat
  {
    var k := IndexOf(data, id);
    if k == -1 then 0 else data[k].count
  }

  function TotalOf(data: seq<Entry>, id: int): real
  {
    var k := IndexOf(data, id);
    if k == -1 then 0.0 else data[k].total
  }

  /** What get(id) returns: 0 for an absent key, else total / count. */
  function Average(data: seq<Entry>, id: int): real
    requires WellFormed(data)
  {
    var k := IndexOf(data, id);
    if k == -1 then 0.0 else data[k].total / data[k].count as real
  }

  /** The table after a sequence of add calls on an empty accumulator. */
  function Accumulate(adds: seq<(int, real)>): seq<Entry>
  {
    if adds == [] then []
    else
      var last := adds[|adds| - 1];
      Added(Accumulate(adds[..|adds| - 1]), last.0, last.1)
  }

  /** Independent reference: how many of the adds name id, and what they sum to. */
  function CountFor(adds: seq<(int, real)>, id: int): nat
  {
    if adds == [] then 0
    else CountFor(adds[..|adds| - 1], id) + (if adds[|adds| - 1].0 == id then 1 else 0)
  }

  function SumFor(adds: seq<(int, real)>, id: int): real
  {
    if adds == [] then 0.0
    else SumFor(adds[..|adds| - 1], id) + (if adds[|adds| - 1].0 == id then adds[|adds| - 1].1 else 0.0)
  }

  function KeySet(adds: seq<(int, real)>): set<int>
  {
    set i | 0 <= i < |adds| :: adds[i].0
  }

  predicate SortedByKey(data: seq<Entry>)
  {
    forall i, j :: 0 <= i < j < |data| ==> data[i].key <= data[j].key
  }

  /** The entries in ascending key order (std::sort with one.first < two.first). */
  function SortByKey(data: seq<Entry>): seq<Entry>
  {
    if data == [] then [] else InsertByKey(data[0], SortByKey(data[1..]))
  }

  function InsertByKey(e: Entry, sorted: seq<Entry>): seq<Entry>
  {
    if sorted == [] || e.key <= sorted[0].key then [e] + sorted
    else [sorted[0]] + InsertByKey(e, sorted[1..])
  }

  // ---------------------------------------------------------------- add lemmas

  /** add keeps the keys distinct and every count positive. */
  lemma AddedWellFormed(data: seq<Entry>, id: int, val: real)
    requires WellFormed(data)
    ensures WellFormed(Added(data, id, val))
  {
  }

  /** The keys after add are the keys before plus id. */
  lemma AddedKeys(data: seq<Entry>, id: int, val: real)
    ensures KeySetOf(Added(data, id, val)) == KeySetOf(data) + {id}
  {
    var r := Added(data, id, val);
    var k := IndexOf(data, id);
    forall x | x in KeySetOf(data) ensures x in KeySetOf(r) {
      var i :| 0 <= i < |data| && data[i].key == x;
      assert r[i].key == x;
    }
    if k == -1 {
      assert r[|data|].key == id;
    } else {
      assert r[k].key == id;
    }
  }

  /**
   * add under a new key appends one entry (count 1, total val); under a
   * present key it bumps that entry's count by one and its total by val.
   * Every other entry stays where it was, unchanged.
   */
  lemma AddEffect(data: seq<Entry>, id: int, val: real)
    ensures var r := Added(data, id, val);
      && (id !in KeySetOf(data) ==> |r| == |data| + 1 && r[|data|] == Entry(id, 1, val))
      && (id in KeySetOf(data) ==> |r| == |data|)
      && (forall i :: 0 <= i < |data| && data[i].key != id ==> r[i] == data[i])
      && CountOf(r, id) == CountOf(data, id) + 1
      && TotalOf(r, id) == TotalOf(data, id) + val
  {
    var r := Added(data, id, val);
    var k := IndexOf(data, id);
    if k == -1 {
      FirstOccurrence(r, id, |data|);
    } else {
      FirstOccurrence(r, id, k);
    }
  }

  /** add under id leaves the figures of every other key as they were. */
  lemma AddOthers(data: seq<Entry>, id: int, val: real, other: int)
    requires other != id
    ensures CountOf(Added(data, id, val), other) == CountOf(data, other)
    ensures TotalOf(Added(data, id, val), other) == TotalOf(data, other)
  {
    var r := Added(data, id, val);
    var j := IndexOf(data, other);
    if j != -1 {
      FirstOccurrence(r, other, j);
    } else {
      AddedKeys(data, id, val);
    }
  }

  /** A position holding id with no earlier one is where _find stops. */
  lemma FirstOccurrence(data: seq<Entry>, id: int, i: int)
    requires 0 <= i < |data| && data[i].key == id
    requires forall j :: 0 <= j < i ==> data[j].key != id
    ensures IndexOf(data, id) == i
  {
    assert data[i].key in KeySetOf(data);
  }

  /** After any adds, a key's count and total are those of the adds naming it. */
  lemma {:induction false} AccumulateFigures(adds: seq<(int, real)>, id: int)
    ensures CountOf(Accumulate(adds), id) == CountFor(adds, id)
    ensures TotalOf(Accumulate(adds), id) == SumFor(adds, id)
    decreases |adds|
  {
    if adds != [] {
      var prefix := adds[..|adds| - 1];
      var last := adds[|adds| - 1];
      AccumulateFigures(prefix, id);
      if last.0 == id {
        AddEffect(Accumulate(prefix), id, last.1);
      } else {
        AddOthers(Accumulate(prefix), last.0, last.1, id);
      }
    }
  }

  /** After any adds the table is well formed and holds the keys added. */
  lemma {:induction false} AccumulateKeys(adds: seq<(int, real)>)
    ensures WellFormed(Accumulate(adds))
    ensures KeySetOf(Accumulate(adds)) == KeySet(adds)
    decreases |adds|
  {
    if adds != [] {
      var prefix := adds[..|adds| - 1];
      var last := adds[|adds| - 1];
      AccumulateKeys(prefix);
      AddedWellFormed(Accumulate(prefix), last.0, last.1);
      AddedKeys(Accumulate(prefix), last.0, last.1);
      assert KeySet(adds) == KeySet(prefix) + {last.0} by {
        forall x | x in KeySet(adds) ensures x in KeySet(prefix) + {last.0} {
          var i :| 0 <= i < |adds| && adds[i].0 == x;
          if i < |adds| - 1 {
            assert prefix[i] == adds[i];
          }
        }
        forall x | x in KeySet(prefix) ensures x in KeySet(adds) {
          var i :| 0 <= i < |prefix| && prefix[i].0 == x;
          assert adds[i] == prefix[i];
        }
      }
    }
  }

  /** A table with no key twice holds as many keys as entries. */
  lemma {:induction false} KeyCount(data: seq<Entry>)
    requires forall i, j :: 0 <= i < j < |data| ==> data[i].key != data[j].key
    ensures |KeySetOf(data)| == |data|
    decreases |data|
  {
    if data != [] {
      var t := data[..|data| - 1];
      KeyCount(t);
      var last := data[|data| - 1].key;
      assert KeySetOf(data) == KeySetOf(t) + {last} by {
        forall x | x in KeySetOf(data) ensures x in KeySetOf(t) + {last} {
          var i :| 0 <= i < |data| && data[i].key == x;
          if i < |data| - 1 {
            assert t[i] == data[i];
          }
        }
      }
      assert last !in KeySetOf(t);
    }
  }

  /** size() is the number of distinct keys ever added. */
  lemma SizeIsKeyCount(adds: seq<(int, real)>)
    ensures |Accumulate(adds)| == |KeySet(adds)|
  {
    AccumulateKeys(adds);
    KeyCount(Accumulate(adds));
  }

  /** get returns the mean of the values added under id, or 0 when none were. */
  lemma GetIsMean(adds: seq<(int, real)>, id: int)
    ensures WellFormed(Accumulate(adds))
    ensures Average(Accumulate(adds), id)
      == if CountFor(adds, id) == 0 then 0.0 else SumFor(adds, id) / CountFor(adds, id) as real
  {
    AccumulateKeys(adds);
    AccumulateFigures(adds, id);
  }

  /** The adds of the example at the head of IDAvgAccum.h. */
  const EXAMPLE: seq<(int, real)> := [(1850, 20.0), (1860, 20.0), (1870, 20.0), (1850, 10.0), (1860, 10.0), (1870, 10.0)]

  /** Adding 20 then 10 under 1850, 1860 and 1870 averages each to 15. */
  lemma DocumentedExample(year: int)
    requires year == 1850 || year == 1860 || year == 1870
    ensures WellFormed(Accumulate(EXAMPLE))
    ensures Average(Accumulate(EXAMPLE), year) == 15.0
  {
    ExampleFigures(year);
    GetIsMean(EXAMPLE, year);
  }

  /** In the example each year is added twice, for a sum of 30. */
  lemma ExampleFigures(year: int)
    requires year == 1850 || year == 1860 || year == 1870
    ensures CountFor(EXAMPLE, year) == 2 && SumFor(EXAMPLE, year) == 30.0
  {
    var a0: seq<(int, real)> := [];
    var a1 := a0 + [(1850, 20.0)];
    var a2 := a1 + [(1860, 20.0)];
    var a3 := a2 + [(1870, 20.0)];
    var a4 := a3 + [(1850, 10.0)];
    var a5 := a4 + [(1860, 10.0)];
    var a6 := a5 + [(1870, 10.0)];
    Tally(a0, (1850, 20.0));
    Tally(a1, (1860, 20.0));
    Tally(a2, (1870, 20.0));
    Tally(a3, (1850, 10.0));
    Tally(a4, (1860, 10.0));
    Tally(a5, (1870, 10.0));
    assert a6 == EXAMPLE;
  }

  /** The example leaves one entry per year. */
  lemma DocumentedSize()
    ensures |Accumulate(EXAMPLE)| == 3
  {
    assert KeySet(EXAMPLE) == {1850, 1860, 1870} by {
      assert EXAMPLE[0].0 == 1850 && EXAMPLE[1].0 == 1860 && EXAMPLE[2].0 == 1870;
    }
    SizeIsKeyCount(EXAMPLE);
  }

  /** One more add changes the reference figures of its own key only. */
  lemma Tally(adds: seq<(int, real)>, x: (int, real))
    ensures forall id :: CountFor(adds + [x], id) == CountFor(adds, id) + (if x.0 == id then 1 else 0)
    ensures forall id :: SumFor(adds + [x], id) == SumFor(adds, id) + (if x.0 == id then x.1 else 0.0)
  {
    assert (adds + [x])[..|adds|] == adds;
  }

  // --------------------------------------------------------------- sort lemmas

  lemma {:induction false} InsertByKeyPermutes(e: Entry, sorted: seq<Entry>)
    ensures multiset(InsertByKey(e, sorted)) == multiset{e} + multiset(sorted)
    decreases |sorted|
  {
    if sorted != [] && e.key > sorted[0].key {
      InsertByKeyPermutes(e, sorted[1..]);
      assert sorted == [sorted[0]] + sorted[1..];
    }
  }

  lemma {:induction false} InsertByKeySpec(e: Entry, sorted: seq<Entry>)
    requires SortedByKey(sorted)
    ensures SortedByKey(InsertByKey(e, sorted))
    ensures multiset(InsertByKey(e, sorted)) == multiset{e} + multiset(sorted)
    decreases |sorted|
  {
    InsertByKeyPermutes(e, sorted);
    if sorted != [] && e.key > sorted[0].key {
      var rest := InsertByKey(e, sorted[1..]);
      InsertByKeySpec(e, sorted[1..]);
      forall j | 0 <= j < |rest| ensures sorted[0].key <= rest[j].key {
        assert rest[j] in multiset(rest);
        if rest[j] != e {
          assert rest[j] in multiset(sorted[1..]);
          var m :| 0 <= m < |sorted[1..]| && sorted[1..][m] == rest[j];
          assert sorted[m + 1] == rest[j];
        }
      }
    }
  }

  /** sort leaves the entries in ascending key order, the same entries as before. */
  lemma {:induction false} SortByKeySpec(data: seq<Entry>)
    ensures SortedByKey(SortByKey(data))
    ensures multiset(SortByKey(data)) == multiset(data)
    decreases |data|
  {
    if data != [] {
      SortByKeySpec(data[1..]);
      InsertByKeySpec(data[0], SortByKey(data[1..]));
      assert data == [data[0]] + data[1..];
    }
  }

  /** Sorting a well-formed table keeps it well formed, and its keys strictly rise. */
  lemma SortedWellFormed(data: seq<Entry>)
    requires WellFormed(data)
    ensures WellFormed(SortByKey(data))
    ensures forall i, j :: 0 <= i < j < |SortByKey(data)| ==> SortByKey(data)[i].key < SortByKey(data)[j].key
  {
    var s := SortByKey(data);
    SortByKeySpec(data);
    forall i | 0 <= i < |s| ensures s[i].count >= 1 {
      assert s[i] in multiset(data);
    }
    forall i, j | 0 <= i < j < |s| ensures s[i].key != s[j].key {
      assert s[i] in multiset(data) && s[j] in multiset(data);
      var p :| 0 <= p < |data| && data[p] == s[i];
      var q :| 0 <= q < |data| && data[q] == s[j];
      if p == q {
        CountedTwice(s, i, j);
        EntriesOnce(data, s[i]);
      }
    }
  }

  /** An entry at two positions is counted twice. */
  lemma CountedTwice(s: seq<Entry>, i: int, j: int)
    requires 0 <= i < j < |s| && s[i] == s[j]
    ensures multiset(s)[s[i]] >= 2
  {
    assert s == s[..j] + s[j..];
    assert s[i] in s[..j] && s[j] in s[j..];
  }

  /** In a table with no key twice every entry occurs at most once. */
  lemma {:induction false} EntriesOnce(data: seq<Entry>, e: Entry)
    requires forall i, j :: 0 <= i < j < |data| ==> data[i].key != data[j].key
    ensures multiset(data)[e] <= 1
    decreases |data|
  {
    if data != [] {
      assert data == [data[0]] + data[1..];
      EntriesOnce(data[1..], e);
      if data[0] == e {
        assert e !in data[1..];
      }
    }
  }

  // ---------------------------------------------------------------- the class

  class IDAvgAccum {
    var fData: seq<Entry>

    ghost predicate Valid()
      reads this
    {
      WellFormed(fData)
    }

    constructor ()
      ensures Valid() && fData == []
    {
      fData := [];
    }

    /** _find: the first entry with that key, or -1 for nullptr. */
    method Find(id: int) returns (idx: int)
      ensures idx == IndexOf(fData, id)
    {
      idx := -1;
      var i := 0;
      while i < |fData|
        invariant 0 <= i <= |fData|
        invariant forall j :: 0 <= j < i ==> fData[j].key != id
      {
        if fData[i].key == id {
          idx := i;
          return;
        }
        i := i + 1;
      }
    }

    method Add(id: int, val: real)
      requires Valid()
      modifies this
      ensures Valid()
      ensures fData == Added(old(fData), id, val)
    {
      AddedWellFormed(fData, id, val);
      var idx := Find(id);
      if idx != -1 {
        fData := fData[idx := Entry(id, fData[idx].count + 1, fData[idx].total + val)];
      } else {
        fData := fData + [Entry(id, 1, val)];
      }
    }

    method Get(id: int) returns (r: real)
      requires Valid()
      ensures r == Average(fData, id)
    {
      var idx := Find(id);
      if idx != -1 {
        return fData[idx].total / fData[idx].count as real;
      }
      return 0.0;
    }

    method Size() returns (n: int)
      ensures n == |fData|
    {
      n := |fData|;
    }

    method Sort()
      requires Valid()
      modifies this
      ensures Valid()
      ensures fData == SortByKey(old(fData))
    {
      SortedWellFormed(fData);
      fData := SortByKey(fData);
    }

    /** for_each: the callback's arguments for every entry, in stored order. */
    method ForEach() returns (visits: seq<Visit>)
      requires Valid()
      ensures |visits| == |fData|
      ensures forall i :: 0 <= i < |fData| ==>
        visits[i] == Visit(fData[i].key, fData[i].total / fData[i].count as real, fData[i].count)
      ensures forall i :: 0 <= i < |fData| ==> visits[i].average == Average(fData, fData[i].key)
    {
      visits := [];
      var i := 0;
      while i < |fData|
        invariant 0 <= i <= |fData|
        invariant |visits| == i
        invariant forall j :: 0 <= j < i ==>
          visits[j] == Visit(fData[j].key, fData[j].total / fData[j].count as real, fData[j].count)
      {
        var p := fData[i];
        visits := visits + [Visit(p.key, p.total / p.count as real, p.count)];
        i := i + 1;
      }
      forall i | 0 <= i < |fData| ensures IndexOf(fData, fData[i].key) == i {
        FirstOccurrence(fData, fData[i].key, i);
      }
    }
  }
}
