# Compass directions and a frequency counter

This project models the two utility types of a small puzzle-solution crate
and proves their contracts in Dafny:

- `Dirs` (`dirs.dfy`, from `src/dir.rs`): the compass direction `Dir`, whose
  four values carry the flag discriminants N = 1, E = 2, S = 4, W = 8; its
  rotations `TurnLeft` and `TurnRight`; the unit step `Diff` on a grid whose y
  axis points down; the canonical order `All` = N, E, S, W; and `DirSet`, a
  set of directions stored as one flag byte (`bv8`). `DirSet` is a class
  because `insert` and `remove` update the byte in place. Membership
  (`Contains`) is the bit test `bits & Bit(d) != 0`. Every contract about the
  set is stated through it. Iteration (`Elements`) is `All` filtered by
  membership (via `Keep`).
- `Counters` (`counters.dfy`, from `src/counter.rs`): `Counter<T>`, a class
  with one field `counts: map<T, int>`. `CountN` adds to a key's count,
  and an absent key counts as zero. `Count` adds one. `Get`, `IsEmpty`,
  `Total` and `Entries` read the counter. `FromIter` counts every element of
  a sequence. Beside the class sit pure definitions used as specifications:
  `Lookup` (absent means zero), `Bump` (the map after one `count_n`), `Sum`
  (the sum of the stored counts) and `Tally` (the counts a sequence gives).
  The lemmas relate them.

The `Default` implementations of both types just call `new`, so the
constructors model them too. The scenario methods `InsertRemoveScenario`,
`FromIterScenario`, `NetZeroScenario` and `AssociativityScenario` are
clients that show what callers can derive from the contracts alone. They
cover: inserting twice, iterating {N, S}, counting a, b, a, c, b, a, a
count cancelled back to zero, and 2 + 3 against 5.

## Model

| member | source | states |
|---|---|---|
| `Dirs.Bit` | src/dir.rs:5-10 | every discriminant is non-zero, has exactly one bit set, and lies in the low four bits |
| `Dirs.BitsDisjoint` | src/dir.rs:3-10 | two directions share a flag bit if and only if they are the same direction |
| `Dirs.TurnLeft` | src/dir.rs:14-21 | turning left moves the flag one bit down, with N wrapping to W: a right rotation of the low nibble |
| `Dirs.TurnRight` | src/dir.rs:24-31 | turning right moves the flag one bit up, with W wrapping to N: a left rotation of the low nibble |
| `Dirs.TurnLeftUndoesTurnRight` | src/dir.rs:14-31 | turn_left(turn_right(d)) == d for every direction |
| `Dirs.TurnRightUndoesTurnLeft` | src/dir.rs:14-31 | turn_right(turn_left(d)) == d for every direction |
| `Dirs.TurnRightCycle` | src/dir.rs:24-31 | four right turns return to the start, one or two do not, and three equal one left turn |
| `Dirs.Diff` | src/dir.rs:34-41 | the step has exactly one non-zero component, of magnitude 1; it is vertical exactly for N and S; N decreases y, so y points down |
| `Dirs.DiffTurnRight` | src/dir.rs:24-41 | turning right rotates the step from (x, y) to (-y, x), clockwise with y down; two right turns negate it |
| `Dirs.All` | src/dir.rs:44-46 | four entries holding every direction, starting at N, each the right turn of the one before, in ascending flag order |
| `Dirs.AscendingUnique` | src/dir.rs:44-46 | two flag-ordered sequences with the same members are equal, so the order of `All` fixes the iteration order |
| `Dirs.DirSet.constructor` | src/dir.rs:55-57 | the new set has byte 0, meets the low-nibble invariant, and contains no direction |
| `Dirs.DirSet.Insert` | src/dir.rs:62-66 | returns true iff d was absent; afterwards d is contained, every other direction's membership is unchanged, and the low-nibble invariant holds |
| `Dirs.DirSet.Remove` | src/dir.rs:71-75 | returns true iff d was present; afterwards d is not contained, every other direction's membership is unchanged, and the low-nibble invariant holds |
| `Dirs.DirSet.Contains` | src/dir.rs:77-80 | membership is the bit test on the direction's flag: d is contained iff its flag bit is set in the byte |
| `Dirs.DirSet.IsEmpty` | src/dir.rs:83-85 | under the low-nibble invariant, the byte is zero iff no direction is contained |
| `Dirs.DirSet.Keep` | src/dir.rs:99 | filtering a list keeps exactly its members that are in the set, never lengthens it, and keeps flag order |
| `Dirs.DirSet.Elements` | src/dir.rs:98-100 | iteration yields exactly the contained directions, each once, in ascending flag order (the order of `All`) |
| `Counters.Bump` | src/counter.rs:29-33 | the stored keys gain k even when its new count is zero; k's count rises by n from its old count (zero if absent); every other key's count is unchanged |
| `Counters.BumpTwice` | src/counter.rs:29-33 | adding a and then b to one key gives the same map as adding a + b once |
| `Counters.SumRemove` | src/counter.rs:43-45 | the sum of the stored counts equals any one count plus the sum of the rest, so the fold order does not matter |
| `Counters.SumBump` | src/counter.rs:29-33 | adding n to one key adds exactly n to the sum of all counts |
| `Counters.SumAllZero` | src/counter.rs:35-37 | a map whose stored counts are all zero sums to zero |
| `Counters.TallyCounts` | src/counter.rs:57-63 | counting a sequence once per element gives each key its number of occurrences, stores exactly the keys that occur, and makes the counts sum to the sequence's length |
| `Counters.TallyOrderIndependent` | src/counter.rs:57-63 | two sequences with the same occurrence counts give the same counter, whatever the order |
| `Counters.Counter.constructor` | src/counter.rs:11-15 | the new counter stores no key and every key has count zero |
| `Counters.Counter.CountN` | src/counter.rs:29-33 | the map becomes `Bump(old, k, n)`; the result is the old count (zero if absent) plus n and equals the new count; the stored keys gain k; every other count is unchanged |
| `Counters.Counter.Count` | src/counter.rs:51-53 | behaves exactly as `CountN(k, 1)`: same new map, returns the old count plus one |
| `Counters.Counter.IsEmpty` | src/counter.rs:35-37 | true iff every key has count zero, which covers both no entries and all entries zero; when true, the total is zero |
| `Counters.Counter.Get` | src/counter.rs:39-41 | returns the stored count of k, or zero when k is absent; as a function it cannot change the counter |
| `Counters.Counter.Total` | src/counter.rs:43-45 | folding the stored counts one entry at a time, in any order, gives their sum |
| `Counters.Counter.Entries` | src/counter.rs:17-19 | iteration exposes exactly the stored keys, zero-count entries included; each exposed count agrees with `Get`, and every key left out has count zero |
| `Counters.Counter.FromIter` | src/counter.rs:56-64 | the fresh counter holds the tally of the sequence: each key's count is its number of occurrences, the stored keys are the sequence's elements, and the counts sum to the length |

## Left out

- Counts are unbounded `int`. The source is generic over the count type `C` (default `u64`) and instantiates `count`/`from_iter` for every fixed-width integer type. Overflow of those types (a panic in debug builds, wrap-around in release builds) is not modelled. Signed counts are covered, because `int` admits negative increments.
- The count type's `Default` and `Add` are those of `int` (zero and addition). Other count types implementing `Add`, `Default`, `Copy` and `Eq` (for example `std::num::Wrapping<u32>`) are not modelled.
- `HashMap` iteration order is unspecified. `Counters.Counter.Entries` exposes the map itself rather than an ordered sequence of pairs. Borrowing iteration and consuming iteration (src/counter.rs:86-102) are the same map here.
- `Counter`'s `Debug` implementation (src/counter.rs:80-84) is formatting only.
- `DirSet` is a `Copy` value in the source. The model is a class, so two references can alias one set. Consuming iteration (`into_iter` takes the set by value) is a read-only function here.
- `Point` is defined elsewhere in the crate, and its definition is not part of this model. `Dirs.Point` stands in for it as a pair of integers.
- The command-line runner (src/runner.rs) and the answer-file reader with its test-generating macros (src/answers.rs) are argument parsing, logging, file I/O, timing and printing. They are not part of this model. Neither is the `Solution` interface they consume, which holds no logic.
