# TrainFair station-distance lookup, in Dafny

TrainFair is a console program that prices a metro trip between two named
stations. Its one computation is `FareRuleBuilder.DistanceOfStations`: it
searches a fixed table of 22 station names (`"1s"` … `"22s"`) for the origin
and the destination with `Array.IndexOf`, and sums the parallel per-station
segment lengths from the origin's position through the destination's. If the
origin comes after the destination it returns 0. `CountStationsDistance` is
the public entry point and only delegates to it.

This project models that lookup in one module, `FareRuleBuilder`
(`FareRuleBuilder.dfy`):

- Lengths are exact integers in tenths of a kilometre (`1.8F` is `18`), in
  `SegmentTenths`. The names are in `StationNames`.
- `FirstIndex` specifies `Array.IndexOf`: an exact, case-sensitive scan that
  gives the first matching position, or -1. `IndexOf` is the scanning loop
  over an `array`, proved against it.
- `Lookup(names, segs, from, to)` states what the lookup yields on any table.
  `Distance(from, to)` is `Lookup` on the program's own table.
- `DistanceOfStations` builds the two arrays, runs the two scans and the
  summing loop, and is proved equal to `Distance`. The source writes the loop
  inline; here it is the method `SumSegments`, whose invariant ties the
  accumulator to `Sum` over the slice summed so far.
- An unknown name gets position -1. With an unknown origin, `fromIndex <=
  toIndex` always holds, so the loop's first step reads `distances[-1]` and
  .NET throws `IndexOutOfRangeException`. The model returns
  `IndexOutOfRange(-1)` for this case and does not forbid it by a
  precondition. With a known origin and an unknown destination, the
  destination's position -1 comes before the origin's, so the result is 0.
- The C# class `FareRuleBuilder` has no fields, so its methods are plain
  methods of the module.

## Model

| member | source | states |
|---|---|---|
| `FareRuleBuilder.FirstIndex` | TrainFair/FareRuleBuilder/FareRuleBuilder.cs:80-81 | The station search gives a position in range, or -1. It gives -1 exactly when no name equals the key. A found position holds the key and no earlier position does. |
| `FareRuleBuilder.IndexOf` | TrainFair/FareRuleBuilder/FareRuleBuilder.cs:80-81 | The linear scan over the names array returns exactly the first matching position, or -1. |
| `FareRuleBuilder.FirstIndexOfDistinct` | TrainFair/FareRuleBuilder/FareRuleBuilder.cs:74-81 | When no name repeats, searching for the name at position i finds i, so a found index is unique. |
| `FareRuleBuilder.NewArray` | TrainFair/FareRuleBuilder/FareRuleBuilder.cs:74-79 | An array initializer yields a fresh array holding the listed elements in order. |
| `FareRuleBuilder.SumSegments` | TrainFair/FareRuleBuilder/FareRuleBuilder.cs:82-91 | The accumulating loop from `fromIndex` to `toIndex` returns the inclusive sum of `distances[fromIndex..toIndex]`. With `fromIndex` = -1 it fails on index -1. |
| `FareRuleBuilder.DistanceOfStations` | TrainFair/FareRuleBuilder/FareRuleBuilder.cs:72-92 | Returns exactly `Distance(from, to)`: index lookup of both names, an inclusive range sum when the origin does not come after the destination, 0 otherwise. It fails exactly when the origin is not a station. |
| `FareRuleBuilder.CountStationsDistance` | TrainFair/FareRuleBuilder/FareRuleBuilder.cs:67-70 | Returns exactly what `DistanceOfStations` returns, for every input. |
| `FareRuleBuilder.SumSnoc` | TrainFair/FareRuleBuilder/FareRuleBuilder.cs:85-88 | Adding one more segment to the accumulated sum adds exactly its length. |
| `FareRuleBuilder.SumOfPositive` | TrainFair/FareRuleBuilder/FareRuleBuilder.cs:79 | A sum of positive segment lengths is at least the number of segments. |
| `FareRuleBuilder.LookupIsRangeSum` | TrainFair/FareRuleBuilder/FareRuleBuilder.cs:80-88 | With both stations known and the origin at or before the destination, the result is the sum of the segments from the origin's index through the destination's, inclusive. |
| `FareRuleBuilder.LookupSameStation` | TrainFair/FareRuleBuilder/FareRuleBuilder.cs:83-88 | A trip from a known station to itself yields that station's own segment. |
| `FareRuleBuilder.LookupReverse` | TrainFair/FareRuleBuilder/FareRuleBuilder.cs:82-91 | With both stations known and the origin after the destination, the loop never runs and the result is 0. |
| `FareRuleBuilder.UnknownDestination` | TrainFair/FareRuleBuilder/FareRuleBuilder.cs:81-91 | A known origin with an unknown destination (index -1) yields 0. |
| `FareRuleBuilder.UnknownOrigin` | TrainFair/FareRuleBuilder/FareRuleBuilder.cs:80-87 | The lookup fails if and only if the origin is unknown. It then fails on index -1, whatever the destination. |
| `FareRuleBuilder.LookupBounds` | TrainFair/FareRuleBuilder/FareRuleBuilder.cs:79-88 | On a table with positive segments, every successful result is non-negative. A forward trip between known stations covers at least one tenth per station. |
| `FareRuleBuilder.LookupExtend` | TrainFair/FareRuleBuilder/FareRuleBuilder.cs:85-88 | Moving the destination one station further along the line adds exactly that station's segment. |
| `FareRuleBuilder.TableWellFormed` | TrainFair/FareRuleBuilder/FareRuleBuilder.cs:74-79 | The names and distances tables both have 22 entries, no name repeats, and every segment is positive. |
| `FareRuleBuilder.DistanceBetweenStations` | TrainFair/FareRuleBuilder/FareRuleBuilder.cs:72-92 | On the program's table, station i to station j is the inclusive segment sum when i <= j and 0 when i > j. |
| `FareRuleBuilder.DistanceExample` | TrainFair/FareRuleBuilder/FareRuleBuilder.cs:74-88 | `"1s"` to `"3s"` is 1.8 + 1.2 + 1.2 = 4.2 km (42 tenths). `"1s"` to itself is 1.8 km. |

## Left out

- `DisplayTrainFare` (FareRuleBuilder.cs:10-65) is console I/O: prompts, `ReadLine`/`ReadKey` and formatted output. It is not modelled.
- `float.Parse` of the user-entered extra fee (FareRuleBuilder.cs:58) parses console input and is not modelled.
- The fare calculators, `FareCalculatorContext`, the fare-rule models and `FareConstants` are not part of this model. Their source files are not available.
- The tiered pricing (3 yuan for 0–6 km, then 1 yuan per 10 km) and the shortest-path rule described in the comments at FareRuleBuilder.cs:12-15 are not implemented by the code, so they are not modelled.
- SumSegments: sums exact tenths of a kilometre, not IEEE single-precision floats. The rounding of `distance += distances[i]` is not modelled.
- DistanceOfStations: the thrown `IndexOutOfRangeException` becomes the result value `IndexOutOfRange(-1)`. Its propagation to the caller as an exception is not modelled.
- A `null` station name is not modelled, because Dafny strings cannot be null. `Array.IndexOf` would return -1 for it, like any other unknown name.
