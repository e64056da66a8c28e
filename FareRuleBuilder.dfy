/** Station-distance lookup of the metro fare program.

    A trip is priced from the distance between two stations of one fixed
    line of 22 stations. Each station carries the length of its own segment;
    the distance of a trip is the sum of the segments of every station from
    the origin to the destination, both included. Lengths are kept as exact
    integers in tenths of a kilometre (1.8 km is 18).
 */
module FareRuleBuilder {

  /** Outcome of a lookup: a distance, or the out-of-range array access
      the lookup runs into when the origin is not a station of the line. */
  datatype DistanceResult = Ok(tenths: int) | IndexOutOfRange(index: int)

  /** The station names, in line order. */
  const StationNames: seq<string> := [
    "1s", "2s", "3s", "4s", "5s", "6s", "7s", "8s", "9s", "10s", "11s", "12s", "13s", "14s",
    "15s", "16s", "17s", "18s", "19s", "20s", "21s", "22s"
  ]

  /** Segment length of each station, in tenths of a km, parallel to StationNames. */
  const SegmentTenths: seq<int> := [
    18, 12, 12, 16, 22, 26, 12, 15, 16, 20, 28, 8, 12, 35, 16, 18, 12, 28, 24, 18, 23, 25
  ]

  // ---------------------------------------------------------------------
  // Station search

  /** Position of the first element of `s` equal to `key`, or -1 if none is. */
  function FirstIndex<T(==)>(s: seq<T>, key: T): (r: int)
    ensures -1 <= r < |s|
    ensures r == -1 <==> key !in s
    ensures 0 <= r ==> s[r] == key && forall j :: 0 <= j < r ==> s[j] != key
  {
    if |s| == 0 then -1
    else if s[0] == key then 0
    else
      var k := FirstIndex(s[1..], key);
      if k < 0 then -1 else k + 1
  }

  /** Exact, case-sensitive linear scan of an array for `key`: the first
      matching position, or -1 when no element matches. */
  method IndexOf<T(==)>(a: array<T>, key: T) returns (index: int)
    ensures index == FirstIndex(a[..], key)
  {
    index := 0;
    while index < a.Length
      invariant 0 <= index <= a.Length
      invariant forall j :: 0 <= j < index ==> a[j] != key
    {
      if a[index] == key {
        FirstIndexAt(a[..], key, index);
        return;
      }
      index := index + 1;
    }
    index := -1;
  }

  /** A position holding `key` with no earlier match is the first index. */
  lemma FirstIndexAt<T>(s: seq<T>, key: T, i: int)
    requires 0 <= i < |s| && s[i] == key && forall j :: 0 <= j < i ==> s[j] != key
    ensures FirstIndex(s, key) == i
  {
  }

  /** No name of the line occurs twice. */
  predicate Distinct<T(==)>(s: seq<T>)
  {
    forall i, j :: 0 <= i < j < |s| ==> s[i] != s[j]
  }

  /** In a sequence without repeats the search finds every element at its own position. */
  lemma FirstIndexOfDistinct<T>(s: seq<T>, i: int)
    requires Distinct(s) && 0 <= i < |s|
    ensures FirstIndex(s, s[i]) == i
  {
  }

  // ---------------------------------------------------------------------
  // Segment sums

  /** Sum of the elements of `s`. */
  function Sum(s: seq<int>): int
  {
    if s == [] then 0 else s[0] + Sum(s[1..])
  }

  /** Appending one segment adds exactly its length. */
  lemma {:induction false} SumSnoc(s: seq<int>, x: int)
    ensures Sum(s + [x]) == Sum(s) + x
  {
    if s == [] {
      assert [] + [x] == [x];
    } else {
      assert (s + [x])[1..] == s[1..] + [x];
      SumSnoc(s[1..], x);
    }
  }

  /** A sum of positive lengths is at least the number of segments, so it is
      positive as soon as one segment is included. */
  lemma {:induction false} SumOfPositive(s: seq<int>)
    requires forall k :: 0 <= k < |s| ==> s[k] > 0
    ensures Sum(s) >= |s|
  {
    if s != [] {
      SumOfPositive(s[1..]);
    }
  }

  /** Sum of `d[lo]` through `d[hi]`, both ends included; empty when `hi == lo - 1`. */
  function SegmentSum(d: seq<int>, lo: int, hi: int): int
    requires 0 <= lo <= hi + 1 <= |d|
  {
    Sum(d[lo..hi + 1])
  }

  // ---------------------------------------------------------------------
  // Distance between two stations

  /** A line table: names and segment lengths run in parallel, no name
      occurs twice and every segment has a positive length. */
  predicate WellFormed(names: seq<string>, segs: seq<int>)
  {
    && |names| == |segs|
    && Distinct(names)
    && forall k :: 0 <= k < |segs| ==> segs[k] > 0
  }

  /** What the lookup yields on a line table for an origin and a destination
      name: both names are searched; when the origin's position does not come
      after the destination's, the segments from the first through the second
      are summed, starting at -1 for an unknown origin, which is out of range;
      otherwise the distance is 0. */
  function Lookup(names: seq<string>, segs: seq<int>, from: string, to: string): DistanceResult
    requires |names| == |segs|
  {
    var fromIndex := FirstIndex(names, from);
    var toIndex := FirstIndex(names, to);
    if toIndex < fromIndex then Ok(0)
    else if fromIndex < 0 then IndexOutOfRange(fromIndex)
    else Ok(SegmentSum(segs, fromIndex, toIndex))
  }

  /** The lookup on the program's own table. */
  function Distance(from: string, to: string): DistanceResult
  {
    Lookup(StationNames, SegmentTenths, from, to)
  }

  /** A fresh array initialised with the elements of `s`, in order. */
  method NewArray<T>(s: seq<T>) returns (a: array<T>)
    ensures fresh(a) && a[..] == s
  {
    a := new T[|s|](i requires 0 <= i < |s| => s[i]);
  }

  /** The accumulating loop: adds `distances[i]` for `i` from `fromIndex`
      through `toIndex`. An origin index of -1 makes the first access fall
      outside the array. */
  method SumSegments(distances: array<int>, fromIndex: int, toIndex: int) returns (r: DistanceResult)
    requires -1 <= fromIndex <= toIndex < distances.Length
    ensures fromIndex < 0 ==> r == IndexOutOfRange(fromIndex)
    ensures 0 <= fromIndex ==> r == Ok(SegmentSum(distances[..], fromIndex, toIndex))
  {
    var distance := 0;
    var i := fromIndex;
    while i <= toIndex
      invariant fromIndex <= i <= toIndex + 1
      invariant fromIndex < 0 ==> i == fromIndex
      invariant 0 <= fromIndex ==> distance == Sum(distances[fromIndex..i])
    {
      if i < 0 {
        // distances[i] with i == -1: the array access fails
        return IndexOutOfRange(i);
      }
      assert distances[fromIndex..i + 1] == distances[fromIndex..i] + [distances[i]];
      SumSnoc(distances[fromIndex..i], distances[i]);
      distance := distance + distances[i];
      i := i + 1;
    }
    return Ok(distance);
  }

  /** Distance of stations `from` to `to`, on the program's table. The
      lookup fails exactly when the origin is not a station of the line. */
  method DistanceOfStations(from: string, to: string) returns (r: DistanceResult)
    ensures r == Distance(from, to)
    ensures r.IndexOutOfRange? <==> from !in StationNames
  {
    var stations := NewArray(StationNames);
    var distances := NewArray(SegmentTenths);
    var fromIndex := IndexOf(stations, from);
    var toIndex := IndexOf(stations, to);
    if fromIndex <= toIndex {
      r := SumSegments(distances, fromIndex, toIndex);
    } else {
      r := Ok(0);
    }
  }

  /** Public entry point: the distance between two named stations. */
  method CountStationsDistance(from: string, to: string) returns (r: DistanceResult)
    ensures r == Distance(from, to)
  {
    r := DistanceOfStations(from, to);
  }

  // ---------------------------------------------------------------------
  // Properties of the lookup on any well-formed table

  /** Both stations known, origin not after destination: the distance is the
      sum of the segments from the origin's through the destination's. */
  lemma LookupIsRangeSum(names: seq<string>, segs: seq<int>, i: int, j: int)
    requires WellFormed(names, segs) && 0 <= i <= j < |names|
    ensures Lookup(names, segs, names[i], names[j]) == Ok(SegmentSum(segs, i, j))
  {
    FirstIndexOfDistinct(names, i);
    FirstIndexOfDistinct(names, j);
  }

  /** A trip from a station to itself costs its own segment. */
  lemma {:induction false} LookupSameStation(names: seq<string>, segs: seq<int>, i: int)
    requires WellFormed(names, segs) && 0 <= i < |names|
    ensures Lookup(names, segs, names[i], names[i]) == Ok(segs[i])
  {
    LookupIsRangeSum(names, segs, i, i);
    assert segs[i..i + 1] == [segs[i]];
    assert Sum([segs[i]]) == segs[i] + Sum([]);
  }

  /** Travelling against the line order yields 0. */
  lemma LookupReverse(names: seq<string>, segs: seq<int>, i: int, j: int)
    requires WellFormed(names, segs) && 0 <= j < i < |names|
    ensures Lookup(names, segs, names[i], names[j]) == Ok(0)
  {
    FirstIndexOfDistinct(names, i);
    FirstIndexOfDistinct(names, j);
  }

  /** A known origin with an unknown destination yields 0. */
  lemma UnknownDestination(names: seq<string>, segs: seq<int>, from: string, to: string)
    requires |names| == |segs| && from in names && to !in names
    ensures Lookup(names, segs, from, to) == Ok(0)
  {
  }

  /** The lookup fails exactly when the origin is not a station, and then
      at index -1. */
  lemma UnknownOrigin(names: seq<string>, segs: seq<int>, from: string, to: string)
    requires |names| == |segs|
    ensures Lookup(names, segs, from, to).IndexOutOfRange? <==> from !in names
    ensures from !in names ==> Lookup(names, segs, from, to) == IndexOutOfRange(-1)
  {
  }

  /** Every successful lookup is non-negative, and a trip that is not
      reversed covers at least one tenth per station travelled. */
  lemma {:induction false} LookupBounds(names: seq<string>, segs: seq<int>, from: string, to: string)
    requires WellFormed(names, segs)
    ensures Lookup(names, segs, from, to).Ok? ==> Lookup(names, segs, from, to).tenths >= 0
    ensures from in names && to in names
            && FirstIndex(names, from) <= FirstIndex(names, to)
            ==> Lookup(names, segs, from, to).tenths
                >= FirstIndex(names, to) - FirstIndex(names, from) + 1
  {
    var fromIndex := FirstIndex(names, from);
    var toIndex := FirstIndex(names, to);
    if 0 <= fromIndex <= toIndex {
      SumOfPositive(segs[fromIndex..toIndex + 1]);
    }
  }

  /** Moving the destination one station further along the line adds exactly
      that station's segment. */
  lemma {:induction false} LookupExtend(names: seq<string>, segs: seq<int>, i: int, j: int)
    requires WellFormed(names, segs) && 0 <= i <= j && j + 1 < |names|
    ensures Lookup(names, segs, names[i], names[j + 1]).tenths
            == Lookup(names, segs, names[i], names[j]).tenths + segs[j + 1]
  {
    LookupIsRangeSum(names, segs, i, j);
    LookupIsRangeSum(names, segs, i, j + 1);
    assert segs[i..j + 2] == segs[i..j + 1] + [segs[j + 1]];
    SumSnoc(segs[i..j + 1], segs[j + 1]);
  }

  // ---------------------------------------------------------------------
  // The program's own table

  /** The 22-station table is well formed. */
  lemma TableWellFormed()
    ensures |StationNames| == |SegmentTenths| == 22
    ensures WellFormed(StationNames, SegmentTenths)
  {
  }

  /** On the program's table, a trip between two stations is the inclusive
      segment sum in line order and 0 against it. */
  lemma {:induction false} DistanceBetweenStations(i: int, j: int)
    requires 0 <= i < |StationNames| && 0 <= j < |StationNames|
    ensures Distance(StationNames[i], StationNames[j])
            == if i <= j then Ok(SegmentSum(SegmentTenths, i, j)) else Ok(0)
  {
    TableWellFormed();
    if i <= j {
      LookupIsRangeSum(StationNames, SegmentTenths, i, j);
    } else {
      LookupReverse(StationNames, SegmentTenths, i, j);
    }
  }

  /** "1s" to "3s" is 1.8 + 1.2 + 1.2 = 4.2 km; "1s" to itself is 1.8 km. */
  lemma DistanceExample()
    ensures Distance("1s", "3s") == Ok(42)
    ensures Distance("1s", "1s") == Ok(18)
  {
    TableWellFormed();
    LookupIsRangeSum(StationNames, SegmentTenths, 0, 2);
    assert SegmentTenths[0..3] == [18, 12, 12];
    LookupSameStation(StationNames, SegmentTenths, 0);
  }
}
