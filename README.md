# Advent of Code 2020 solvers, modelled in Dafny

This project models the 25 puzzle solvers of an Advent of Code 2020
repository (`src/days/day01.rs` to `src/days/day25.rs`). Each solver takes
its puzzle input as text, parses it, and runs one or two in-memory
computations: the answers to part 1 and part 2 of the day's puzzle.

Each day is one Dafny module, `DayNN` in `dayNN.dfy`:
- The parsers work over strings and sequences of lines.
- The source's pure code (matches, iterator chains, recursion) becomes
  functions.
- Its loops become methods with invariants. Each method is proved equal to
  a specification function, or it states outright what it computes.
- Lemmas then prove what the puzzle and the code promise about those
  functions.

Where the source panics (an `unwrap` of `None`, an index out of range, a
subtraction that underflows), the model returns `Panic(message)` from the
`Result` type in `outcomes.dfy`. `Err` stands for a parse error that the
source returns as a value. `text.dfy` holds the string helpers that several
days share: splitting, joining, and decimal reading and writing.

Some days keep their test samples in separate modules:
- `day10_samples.dfy`, `day18_samples.dfy`, `day19_samples.dfy`,
  `day21_samples.dfy`, `day22_samples.dfy` and `day23_samples.dfy` model
  the `mod test` examples of those days. This keeps their large literals
  out of the main proofs.
- `day22_loop.dfy` (`Day22Loop`) holds the day 22 finding below. Plain
  Combat as written can run forever; the module proves this and models a
  version with a repeat guard.

## Model

| member | source | states |
|---|---|---|
| Day01.PairFrom | src/days/day01.rs:7-13 | the search `tuple_combinations().find` performs from a position pair on: a result is a pair of distinct positions summing to 2020 at or after the start, and no qualifying pair comes before it |
| Day01.TripleFrom | src/days/day01.rs:15-21 | the same search over position triples: the result sums to 2020 and is the first such triple in combination order |
| Day01.FirstPair | src/days/day01.rs:7-13 | when some pair sums to 2020, the pair found sums to 2020 and every other such pair comes later in combination order |
| Day01.FirstTriple | src/days/day01.rs:15-21 | when some triple sums to 2020, the triple found sums to 2020 and every other such triple comes later |
| Day01.FindPair | src/days/day01.rs:7-13 | `find_2020_pair` returns two entries of the report that sum to 2020 |
| Day01.FindTriple | src/days/day01.rs:15-21 | `find_2020_triplet` returns three entries of the report that sum to 2020 |
| Day01.ProductBound | src/days/day01.rs:32-35 | two naturals summing to at most 2020 multiply to at most 1010 * 1010 |
| Day01.PairFits | src/days/day01.rs:32-35 | the product `part1` computes in a `u32` cannot overflow |
| Day01.TripleFits | src/days/day01.rs:37-40 | the product `part2` computes in a `u32` cannot overflow |
| Day01.Part1 | src/days/day01.rs:32-35 | `part1` is the product of the first pair's entries and fits a `u32` |
| Day01.Part2 | src/days/day01.rs:37-40 | `part2` is the product of the first triple's entries and fits a `u32` |
| Day01.SampleResults | src/days/day01.rs:45-55 | on the sample report the pair is (1721, 299) and the triple (979, 366, 675) |
| Day01.Read | src/days/day01.rs:28-30 | `read` gives one `u32` per line, each the value its line parses to, and panics in `Result::unwrap` exactly when some line is not a `u32` |
| Day01.ReadShow | src/days/day01.rs:28-30 | reading a report written one entry per line gives the entries back |
| Day02.Count | src/days/day02.rs:19 | the number of occurrences of the policy letter is at most the password length, and zero exactly when the letter is absent |
| Day02.IsValid | src/days/day02.rs:18-21 | `is_valid`: with a lower bound above zero a valid password holds the letter, and with no lower bound any password no longer than the upper bound is valid; Day02.ValidIffMultiplicity gives the exact condition |
| Day02.CountIsMultiplicity | src/days/day02.rs:19 | the count equals the letter's multiplicity in the password |
| Day02.ValidIffMultiplicity | src/days/day02.rs:18-21 | `is_valid` holds exactly when the letter's multiplicity lies within the inclusive range |
| Day02.IsValidP2 | src/days/day02.rs:23-29 | `is_valid_p2` holds exactly when one of the two (1-based) positions holds the letter, which needs the two positions to differ |
| Day02.Part1 | src/days/day02.rs:57-59 | the count of valid lines is at most the number of lines, zero exactly when none is valid and full exactly when all are |
| Day02.Part2 | src/days/day02.rs:61-63 | the same three facts for the second policy |
| Day02.Part1Append | src/days/day02.rs:57-59 | the first count adds up over a split of the input |
| Day02.Part2Append | src/days/day02.rs:61-63 | the second count adds up over a split of the input |
| Day02.SampleValid | src/days/day02.rs:70-81 | the sample lines are [true, false, true] under the first policy |
| Day02.SamplePart1 | src/days/day02.rs:70-81 | so `part1` of the sample is 2 |
| Day02.SamplePart2 | src/days/day02.rs:83-94 | the sample lines are [true, false, false] under the second policy, and `part2` of the sample is 1 |
| Day03.ParseRow | src/days/day03.rs:7-17 | `Row::from_str` gives one pixel per character, set exactly where the character is `#` |
| Day03.Traverse | src/days/day03.rs:19-31 | `traverse` counts the trees on rows 0, dy, 2dy, … at columns 0, dx, 2dx, … wrapped to the row width, and hits at most one tree per visited row |
| Day03.TreesBound | src/days/day03.rs:19-31 | the walk from any row on hits fewer than (rows left + dy) / dy trees |
| Day03.Part1 | src/days/day03.rs:42-44 | `part1` is the walk on slope right 3, down 1, and is at most the number of rows |
| Day03.Part2 | src/days/day03.rs:46-52 | `part2` is the product of the walks on the five slopes, in the source's order |
| Day03.AllNonEmpty | src/days/day03.rs:19-31 | a map whose rows are all non-empty can be walked on any slope without a division by zero |
| Day03.SampleSlope31 | src/days/day03.rs:78-81 | the sample map hits 7 trees on slope (3, 1), the test of `part1` |
| Day03.SampleProduct | src/days/day03.rs:83-86 | the five slopes hit 2, 7, 3, 4 and 2 trees on the sample, whose product 336 is the test of `part2` |
| Day04.AllPresent | src/days/day04.rs:9-14 | the early-return loop over the key list succeeds exactly when every listed key is in the passport |
| Day04.Valid | src/days/day04.rs:8-15 | `valid` holds exactly when the seven required keys are all present (`cid` is not required) |
| Day04.V2 | src/days/day04.rs:17-70 | `v2` succeeds only on passports that `valid` also accepts |
| Day04.Valid2Fields | src/days/day04.rs:17-74 | `valid2` holds exactly when every required field is present and passes its own check, whatever order the checks run in |
| Day04.HgtShape | src/days/day04.rs:38-50 | the height check accepts exactly the renderings of 150 to 193 followed by "cm" and of 59 to 76 followed by "in" |
| Day04.HgtAccepted | src/days/day04.rs:40-47 | an accepted height is its value's plain rendering and then its unit, with the value in the unit's range |
| Day04.HgtCm | src/days/day04.rs:40-43 | every rendering of 150 to 193 followed by "cm" is accepted |
| Day04.HgtIn | src/days/day04.rs:44-47 | every rendering of 59 to 76 followed by "in" is accepted |
| Day04.HgtDigits | src/days/day04.rs:42 | a fixed-width slice that parses to a value with that many digits has no sign and no leading zero |
| Day04.Part1 | src/days/day04.rs:99-101 | `part1` counts at most every passport, all of them exactly when all are valid |
| Day04.Part2 | src/days/day04.rs:103-105 | `part2` never exceeds `part1`, and counts every passport exactly when all pass the field checks |
| Day05.BitsBound | src/days/day05.rs:9-14 | a pass of k letters decodes below 2^k |
| Day05.Encode | src/days/day05.rs:7-25 | the pass of a value in k letters has k letters; it is the inverse of decoding (see the next two rows) |
| Day05.DecodeEncode | src/days/day05.rs:7-25 | decoding the k-letter pass of a value below 2^k gives the value back |
| Day05.EncodeDecode | src/days/day05.rs:7-25 | encoding the value of a two-letter pass gives the pass back |
| Day05.SeatPos | src/days/day05.rs:7-25 | `seat_pos`'s two shift-and-or loops compute the row from the first seven letters and the column from the rest, the column reduced to a `u8` |
| Day05.ShiftMod | src/days/day05.rs:17-22 | shifting a `u8` left and setting the low bit agrees with reducing the exact value modulo 256 |
| Day05.SeatIdInverse | src/days/day05.rs:27-30 | for a three-bit column the seat id gives row and column back as quotient and remainder by 8 |
| Day05.TenCharId | src/days/day05.rs:27-30 | a ten-letter pass has an id below 1024 |
| Day05.Sample | src/days/day05.rs:61-66 | "FBFBBFFRLR" is row 44, column 5, id 357 |
| Day05.Part1 | src/days/day05.rs:41-43 | `part1` is the id of some pass and no pass has a larger id |
| Day05.Part2 | src/days/day05.rs:45-55 | `part2` is the smallest id missing between two present ids, and it panics exactly when there is no such gap |
| Day06.CharSet | src/days/day06.rs:21 | a line's answer set holds exactly the characters of the line |
| Day06.GroupsOf | src/days/day06.rs:12-26 | the grouping of lines always yields at least one group, since the last group is pushed unconditionally |
| Day06.Read | src/days/day06.rs:12-26 | `read`'s loop builds exactly the groups of the specification function |
| Day06.GroupsPartition | src/days/day06.rs:12-26 | there is one group more than there are empty lines, and the groups hold every non-empty line's answers in order and nothing else |
| Day06.UnionMembers | src/days/day06.rs:28-33 | a question is in a group's flattened set exactly when some member answered it |
| Day06.IntersectionMembers | src/days/day06.rs:35-40 | a question is in a non-empty group's folded intersection exactly when every member answered it |
| Day06.Union | src/days/day06.rs:31 | the flattened set of a group holds every member's answers; Day06.UnionMembers shows it holds nothing else |
| Day06.Intersection | src/days/day06.rs:38 | the folded intersection lies within every member's answers; Day06.IntersectionMembers shows it is exactly the common answers |
| Day06.Part1 | src/days/day06.rs:28-33 | `part1` is zero exactly when no group answered any question |
| Day06.Part2 | src/days/day06.rs:35-40 | `part2` is zero exactly when no group has a question everyone answered |
| Day06.Part2AtMostPart1 | src/days/day06.rs:28-40 | `part2` never exceeds `part1` |
| Day06.SampleSums | src/days/day06.rs:47-68 | on the sample groups `part1` is 11 and `part2` is 6 |
| Day07.ParseRule | src/days/day07.rs:30-47 | `parse_rule`'s word loop yields exactly the rule of the word-level specification function, errors included |
| Day07.ParseClauses | src/days/day07.rs:36-45 | parsing the rendered clauses of a contents list gives that list back |
| Day07.RoundTrip | src/days/day07.rs:30-47 | rendering a rule as words and parsing them gives the rule back |
| Day07.RoundTripLine | src/days/day07.rs:30-47 | joining the rendered words with spaces and splitting them again is inverted by `parse_rule` |
| Day07.AnyChildIn | src/days/day07.rs:76-82 | the inner loop finds a child exactly when some child's colour is in the set |
| Day07.Pass | src/days/day07.rs:70-83 | one pass keeps the set sound (only gold and real containers) and only grows it; a pass that adds nothing leaves it closed, one that adds something adds a rule key |
| Day07.Grow | src/days/day07.rs:76-80 | adding a colour with a child in a sound set keeps it sound and adds exactly one rule key |
| Day07.Part1 | src/days/day07.rs:66-89 | `part1` is the number of colours that eventually contain a shiny gold bag, and the loop makes at most one pass more than there are rules |
| Day07.ClosedHoldsAll | src/days/day07.rs:84-88 | a sound set closed under "has a child in it" is exactly gold plus the containers, so its size less one is the answer |
| Day07.ReachIn | src/days/day07.rs:69-87 | every colour that reaches gold lies in a closed set containing gold |
| Day07.Scaled | src/days/day07.rs:100-106 | the pushed children keep their colours, with amounts multiplied by the parent's |
| Day07.PushChildren | src/days/day07.rs:100-106 | the inner loop appends exactly the scaled children to the stack |
| Day07.PushedTotals | src/days/day07.rs:98-107 | pushing the scaled children adds the parent amount times their bags to what remains to count, and their tree sizes to what remains to visit |
| Day07.Unfold | src/days/day07.rs:98-106 | a bag of amount a counts a bags plus a times the bags its rule holds |
| Day07.Part2 | src/days/day07.rs:91-110 | for rules ranked from gold downward, `part2` returns the number of bags inside the gold bag, and the loop terminates |
| Day07.Sample1Containers | src/days/day07.rs:117-148 | four colours can hold a shiny gold bag in the first example |
| Day07.Sample1Inside | src/days/day07.rs:150-153 | the gold bag holds 32 bags in the first example |
| Day07.CycleElsewhere | src/days/day07.rs:91-110 | a colour that holds itself but that gold cannot reach leaves the first example ranked from gold, so `part2` still terminates on it |
| Day07.Sample2Inside | src/days/day07.rs:132-153 | the gold bag holds 126 bags in the second example |
| Day08.ParseInstr | src/days/day08.rs:22-35 | an accepted line has a known three-letter opcode and an `i32` argument from the fifth character on; it is rejected exactly when the opcode is unknown or the argument does not parse (shorter lines panic on slicing) |
| Day08.RoundTrip | src/days/day08.rs:22-35 | parsing a rendered instruction with an `i32` argument gives it back |
| Day08.SeparatorIgnored | src/days/day08.rs:26-32 | the character between opcode and argument is never looked at |
| Day08.VisitedBound | src/days/day08.rs:42-54 | the set of executed places has at most `prog.len()` members |
| Day08.RunFrom | src/days/day08.rs:39-67 | the run ends normally or panics only on an index below zero |
| Day08.RunFromStep | src/days/day08.rs:54-65 | executing a fresh instruction marks it and moves ip and acc by the instruction |
| Day08.Run | src/days/day08.rs:39-67 | `run`'s loop computes the specification result and executes at most `prog.len()` instructions |
| Day08.RunExplained | src/days/day08.rs:39-67 | each result is explained by the instruction trace: after distinct in-range steps the program sits at its end, past it, below zero, or at an already executed place |
| Day08.Part1 | src/days/day08.rs:78-83 | `part1` returns the accumulator exactly when the run loops, and panics otherwise |
| Day08.SearchFinds | src/days/day08.rs:85-104 | a found answer comes from the first non-`acc` flip whose run terminates; the "no fix" panic means no flip terminates |
| Day08.Part2 | src/days/day08.rs:85-104 | the in-place flipping loop returns the search result; on failure the program is restored, on success exactly one op is left flipped |
| Day08.SamplePart1 | src/days/day08.rs:111-125 | the example loops with 5 in the accumulator |
| Day08.SamplePart2 | src/days/day08.rs:127-130 | the first fix of the example is the `jmp` at 7, ending with 8 |
| Day09.CheckSum | src/days/day09.rs:16-21 | the pair loop finds a match exactly when two distinct numbers of the 25-number window sum to the current one |
| Day09.FirstInvalid | src/days/day09.rs:15-23 | the index found breaks the rule and every earlier one keeps it; no index means every number keeps it |
| Day09.Part1 | src/days/day09.rs:14-25 | `part1` returns the first number that is not a sum of two of its 25 predecessors, and panics exactly when there is none |
| Day09.Min | src/days/day09.rs:52 | the minimum is an element no larger than any other |
| Day09.Max | src/days/day09.rs:52 | the maximum is an element no smaller than any other |
| Day09.SumGrowsEnd | src/days/day09.rs:41-43 | extending a window's end never lowers its sum |
| Day09.SumShrinksStart | src/days/day09.rs:44-46 | advancing a window's start never raises its sum |
| Day09.SumSnoc | src/days/day09.rs:41-43 | growing the end adds exactly the next number |
| Day09.FindWindow | src/days/day09.rs:29-52 | the window loop returns min plus max of the non-empty window summing to the target that ends first and, among those, starts first; it panics for a positive target only when no such window exists, and always for a target of 0 |
| Day09.Part2 | src/days/day09.rs:27-53 | `part2` panics when `part1` does and never fails with an error; otherwise it returns the weakness of the first contiguous window summing to `part1`'s number, panics for a positive number only when no such window exists, and always panics for 0 |
| Day10.InsertSorted | src/days/day10.rs:15 | inserting into a sorted list keeps it sorted and adds exactly the one element |
| Day10.InsertAt | src/days/day10.rs:15 | an element placed after everything at most it and before the rest keeps the list sorted and a permutation plus that element |
| Day10.Sort | src/days/day10.rs:15 | the sort returns a sorted permutation of the input |
| Day10.SortedUnique | src/days/day10.rs:15 | two sorted permutations of the same list are equal, so the sort's result is determined |
| Day10.SortedHead | src/days/day10.rs:16-17 | the head of a sorted list is its least element |
| Day10.ChainHasGap3 | src/days/day10.rs:17 | the device's appended `max + 3` always gives at least one gap of 3 |
| Day10.Part1 | src/days/day10.rs:14-30 | `part1` sorts the input and returns the number of gaps of 1 times the number of gaps of 3 in the chain from 0 to the device |
| Day10.GapsLast | src/days/day10.rs:21-27 | counting over a chain one longer checks exactly one more neighbour difference |
| Day10.Runs | src/days/day10.rs:52-60 | a chain splits into at least one run |
| Day10.RunsPartition | src/days/day10.rs:52-60 | there is one run more than there are gaps of 3, and the run lengths add up to the chain's length |
| Day10.CheckNoGap2 | src/days/day10.rs:37 | the `assert!` passes exactly when no two neighbours differ by 2 |
| Day10.RunsStep | src/days/day10.rs:53-59 | a gap of 3 closes the open run and starts one of length 1; any other step lengthens it |
| Day10.ClosedPrefix | src/days/day10.rs:53-59 | the runs closed on a prefix are a prefix of the runs closed later |
| Day10.ProductSnoc | src/days/day10.rs:55-60 | multiplying in one more run's table entry extends the product |
| Day10.RunProduct | src/days/day10.rs:50-62 | the loop panics exactly when some run is longer than the table reaches, and otherwise returns the product of the table entries of the runs |
| Day10.Part2 | src/days/day10.rs:32-63 | `part2` sorts the input with the outlet 0, panics exactly when two neighbours differ by 2 or a run is too long, and otherwise returns the product over the runs |
| Day10Samples.SortedByNeighbours | src/days/day10.rs:15 | a list whose neighbours are in order is sorted |
| Day10Samples.SamplePart1 | src/days/day10.rs:70-83 | any sort of the first example gives 7 gaps of 1 and 5 of 3, so 35 |
| Day10Samples.GapsConcat | src/days/day10.rs:21-27 | the gaps of a joined chain are those of the front plus those of the back with the front's last joltage before it |
| Day10Samples.LargeGapsOf | src/days/day10.rs:74-84 | the second example's chain has 22 gaps of 1 and 10 of 3 |
| Day10Samples.LargePart1 | src/days/day10.rs:74-84 | any sort of the second example gives 22 times 10, so 220 |
| Day10Samples.RunsGrow | src/days/day10.rs:53-59 | a prefix one longer without a gap of 3 at its end lengthens the last run |
| Day10Samples.RunsOpen | src/days/day10.rs:53-59 | a prefix one longer with a gap of 3 at its end starts a new run of 1 |
| Day10Samples.SampleRuns | src/days/day10.rs:52-60 | the first example with the outlet has runs 2, 4, 3, 2, 1 |
| Day10Samples.ProductFive | src/days/day10.rs:55-60 | the product over five runs is the product of their five table entries |
| Day10Samples.SampleProduct | src/days/day10.rs:39-62 | the runs 2, 4, 3, 2, 1 fit the table and give 1 · 4 · 2 · 1 · 1 = 8 |
| Day10Samples.SortedZero | src/days/day10.rs:33-34 | the outlet in front of a sorted list of joltages keeps it sorted |
| Day10Samples.SampleOutletUnique | src/days/day10.rs:33-34 | the only sort of the first example with the outlet is 0 followed by its sorted adapters |
| Day10Samples.SamplePart2 | src/days/day10.rs:87-89 | on the first example `part2` passes its `assert!`, no run is too long and the product is 8 |
| Day11.FromChar | src/days/day11.rs:15-24 | exactly '.', 'L' and '#' are accepted, each giving the state that prints as that character; anything else panics |
| Day11.CharRoundTrip | src/days/day11.rs:7-24 | reading a state's own character gives the state back |
| Day11.ParseRow | src/days/day11.rs:107 | a read line has one state per character, and a bad character panics |
| Day11.ParseGrid | src/days/day11.rs:104-110 | `read` gives one row per line, and a bad character panics |
| Day11.ParseRender | src/days/day11.rs:104-110 | reading a rendered grid gives the grid back |
| Day11.RenderParse | src/days/day11.rs:104-110 | a grid that reads renders back to the lines it was read from |
| Day11.OccAt | src/days/day11.rs:41-43 | each cell contributes at most one to a count |
| Day11.Ray | src/days/day11.rs:67-83 | each direction contributes at most one to `gen2`'s count |
| Day11.StepShape | src/days/day11.rs:26-95 | a generation keeps the grid's shape, and floor stays floor while seats stay seats |
| Day11.LookAlong | src/days/day11.rs:67-83 | the scan along one direction returns 1 exactly when the first seat it meets is occupied |
| Day11.CountSeen | src/days/day11.rs:65-84 | `gen2`'s count is the sum of the eight direction scans |
| Day11.NewState | src/days/day11.rs:30-51 | one cell's new state is the rule's next state, and the change flag is set exactly when that differs |
| Day11.Generation | src/days/day11.rs:26-95 | `generation` and `gen2` return the whole next grid, and the flag is set exactly when it differs from the previous one |
| Day11.StepMatches | src/days/day11.rs:26-95 | a grid holding the new state in every swept cell and the old one elsewhere is the step, and it differs from the old grid exactly when some swept cell changes |
| Day11.RowThree | src/days/day11.rs:35-43 | a row of the clipped box is the three cells around the column, clipping dropping only off-grid cells |
| Day11.BoxRows | src/days/day11.rs:35-43 | the clipped box is the three rows around the cell, clipping dropping only off-grid rows |
| Day11.BoxSelf | src/days/day11.rs:35-43 | the box count is the cell itself plus its eight neighbours |
| Day11.AdjacentRule | src/days/day11.rs:45-51 | as the box includes the seat, an empty seat fills exactly when no neighbour is occupied and an occupied one empties exactly when four or more neighbours are; floor never changes |
| Day11.VisibleRule | src/days/day11.rs:86-92 | an empty seat fills exactly when it sees no occupied seat, an occupied one empties exactly when it sees five or more; floor never changes |
| Day11.LookNoFloor | src/days/day11.rs:67-83 | without floor, the first seat seen in a direction is the neighbour |
| Day11.SeenNoFloor | src/days/day11.rs:65-84 | on a grid without floor both rules count the same neighbours |
| Day11.Settle | src/days/day11.rs:113-120 | the settled grid is a fixed point of the generation |
| Day11.Part | src/days/day11.rs:112-151 | `part1` and `part2` panic on an empty grid or one with a row shorter than the first, and otherwise return the number of occupied seats of the grid that stops changing |
| Day12.TurnsInverse | src/days/day12.rs:11-28 | `left` and `right` undo each other, and four of either come full circle |
| Day12.RotationsInverse | src/days/day12.rs:126-135 | the waypoint's left and right quarter turns undo each other, come full circle in four and keep its Manhattan distance from the ship |
| Day12.VecTurns | src/days/day12.rs:30-37 | each bearing's step is a unit vector, North points to negative y, and the steps turn exactly as the waypoint does |
| Day12.TurnsPeriodic | src/days/day12.rs:102-103 | only the number of quarter turns modulo 4 matters for the bearing |
| Day12.ActionOf | src/days/day12.rs:61-70 | exactly the letters N, S, E, W, L, R and F are actions, each the one that prints as that letter |
| Day12.ParseInstruction | src/days/day12.rs:57-78 | an empty line panics, an unknown letter is "bad action", and an accepted line carries its letter's action and the `i64` after it, turn amounts divided by 90 toward zero |
| Day12.ActionRoundTrip | src/days/day12.rs:61-70 | reading an action's own letter gives it back |
| Day12.QuarterTurns | src/days/day12.rs:73-75 | whole quarter turns survive the division by 90 |
| Day12.RoundTrip | src/days/day12.rs:57-78 | parsing a rendered instruction whose amount fits an `i64` gives it back |
| Day12.TurnTruncates | src/days/day12.rs:73-75 | the division truncates toward zero: -45 degrees is no turn, -90 is one back, 135 is one |
| Day12.SailEffects | src/days/day12.rs:95-110 | moves never turn the ship, turns never move it, and going forward moves amount times the bearing's step |
| Day12.Part1 | src/days/day12.rs:91-113 | `part1`'s loop ends at the position of sailing every instruction from the origin facing East, and returns its Manhattan distance |
| Day12.TurnBack | src/days/day12.rs:126-135 | turning the waypoint left then right by the same amount puts it back, and turning never changes its distance from the ship |
| Day12.Part2 | src/days/day12.rs:115-146 | `part2`'s loops end at the position of steering by every instruction with the waypoint starting 10 East, 1 North, and return its Manhattan distance |
| Day12.ParseLine | src/days/day12.rs:57-78 | a line of an action letter and unsigned digits within `i64` parses to that action and number, turns divided by 90 |
| Day12.SailStep | src/days/day12.rs:95-110 | sailing one more instruction continues from where the earlier ones left the ship |
| Day12.SteerStep | src/days/day12.rs:119-143 | steering by one more instruction continues from where the earlier ones left the ship |
| Day12.SampleForwards | src/days/day12.rs:153-159 | the example's forward lines parse to forward moves of 10, 7 and 11 |
| Day12.SampleRight | src/days/day12.rs:153-159 | the example's "R90" is one right quarter turn |
| Day12.SampleSail | src/days/day12.rs:161-164 | the example leaves the ship 17 East and 8 South, facing South |
| Day12.SampleSteer | src/days/day12.rs:166-169 | the example leaves the ship 214 East and 72 South, waypoint 4 East and 10 South |
| Day12.SampleDistances | src/days/day12.rs:161-169 | so the example's answers are 25 and 286 |
| Day13.ParseBuses | src/days/day13.rs:13-18 | the bus line gives one entry per comma-separated field |
| Day13.ParseNotes | src/days/day13.rs:10-20 | `read` fails exactly on a departure time that is not a `u64`, a missing line panics, and the buses are the fields of the second line, unparsable ones as `None` |
| Day13.ReadShowBuses | src/days/day13.rs:13-18 | reading a written bus list gives it back |
| Day13.IdsExact | src/days/day13.rs:24 | the ids scanned are exactly those of the buses in service |
| Day13.NoIds | src/days/day13.rs:24 | there is no id exactly when every field is `x` |
| Day13.ScanFirst | src/days/day13.rs:24-28 | the scan of one time finds the first listed id dividing it, crashes on a zero id met first, and misses exactly when no id divides it |
| Day13.FirstMultiple | src/days/day13.rs:23 | among `id` consecutive times one is a multiple of `id` |
| Day13.ScanAt | src/days/day13.rs:24-28 | the inner loop of `part1` computes the scan of one time |
| Day13.Search | src/days/day13.rs:23-30 | with at least one id the time loop stops at the first time some id divides, answering that id times the wait |
| Day13.Part1 | src/days/day13.rs:22-31 | `part1` never ends exactly when no bus is in service, and otherwise answers the first id dividing the first time that some id divides, times the wait |
| Day13.Bezout | src/days/day13.rs:42-49 | the gcd of two numbers is an integer combination of them |
| Day13.ProductDivides | src/days/day13.rs:46-47 | a number divisible by two coprime ids is divisible by their product |
| Day13.ScheduleExact | src/days/day13.rs:34-37 | the schedule holds exactly the buses in service with their positions, in list order |
| Day13.Lift | src/days/day13.rs:43-45 | the inner loop's step count is the fewest from which `t + dt` is a multiple of `id`, if one exists below `id` |
| Day13.NeverAligns | src/days/day13.rs:43-45 | when none of the first `id` steps works, none ever does, so the inner loop never ends |
| Day13.Wait | src/days/day13.rs:43-45 | the inner loop returns `t` advanced by the fewest steps that align the bus, and never ends exactly when no step does |
| Day13.Align | src/days/day13.rs:42-49 | the outer loop computes the sieve over the remaining buses |
| Day13.Part2 | src/days/day13.rs:33-52 | `part2`'s loops compute the loop as written: a panic on a list without buses, otherwise the sieve from time 0 with the first id as stride, starting at the second bus so that the first bus's offset is never checked |
| Day13.Part2Corrected | src/days/day13.rs:33-52 | the same loops run over every bus from stride 1 compute the intended departure (see `Day13.Earliest`) |
| Day13.DividesProduct | src/days/day13.rs:46 | a number every pairwise coprime id divides is a multiple of their product |
| Day13.Unique | src/days/day13.rs:42-51 | below the product of pairwise coprime ids at most one time meets every bus |
| Day13.Finds | src/days/day13.rs:43-45 | with coprime ids the inner loop always finds a time for the next bus |
| Day13.KeepsMet | src/days/day13.rs:46-48 | stepping by the product of earlier ids keeps those buses on time |
| Day13.Round | src/days/day13.rs:42-49 | one round of the outer loop keeps its invariant: stride the product of the buses so far, time below it meeting them all |
| Day13.SieveMeets | src/days/day13.rs:42-51 | the outer loop ends with a time below the product that meets every bus |
| Day13.Earliest | src/days/day13.rs:33-52 | for positive pairwise coprime ids the corrected loop answers the earliest time at which every bus leaves at its offset |
| Day13.Agree | src/days/day13.rs:39-40 | the loop as written agrees with the corrected one when the first bus's offset is a multiple of its id, as when the list starts with a bus |
| Day13.FirstOffsetIgnored | src/days/day13.rs:39-40 | for "x,2,3" the loop as written answers 4, where bus 2 does not leave at its offset, while the earliest time is 1 |
| Day13.SamplePart1 | src/days/day13.rs:59-78 | from 939 bus 59 leaves first, at 944, so the example's answer is 295 |
| Day13.SampleCoprime | src/days/day13.rs:59-73 | the example's ids are pairwise coprime |
| Day13.SamplePart2 | src/days/day13.rs:80-83 | the example's answer is 1068781, both as intended and as written |
| Day14.Floats | src/days/day14.rs:17 | the starting mask has every bit floating |
| Day14.ValueBits | src/days/day14.rs:39-51 | reading the bits of a value that fits the word gives the value back |
| Day14.BitsValue | src/days/day14.rs:39-51 | writing the value of some bits gives the bits back |
| Day14.ValueInjective | src/days/day14.rs:53-75 | two words of one width with the same value are the same word |
| Day14.ApplyMask | src/days/day14.rs:39-51 | `apply_mask`'s loop sets the bits the mask gives, least significant first, and keeps the others |
| Day14.MaskIdempotent | src/days/day14.rs:39-51 | masking twice is masking once |
| Day14.NoMaskKeeps | src/days/day14.rs:39-51 | the all-`X` starting mask changes nothing |
| Day14.TotalPick | src/days/day14.rs:100 | the memory's sum does not depend on which address is taken first |
| Day14.Sum | src/days/day14.rs:100 | `memory.values().sum()` is the sum of every stored value |
| Day14.Run1Append | src/days/day14.rs:91-99 | running two pieces of program in turn is running them joined |
| Day14.Overwrite | src/days/day14.rs:94-97 | a write to an address makes an immediately earlier write to it irrelevant |
| Day14.Run1Keys | src/days/day14.rs:91-99 | the addresses in memory are exactly those the program writes to |
| Day14.Part1 | src/days/day14.rs:88-101 | `part1` is the sum of memory after running the program from the all-`X` mask and empty memory |
| Day14.FloatingExact | src/days/day14.rs:55-62 | the floating positions are exactly the `X` bits, in increasing order |
| Day14.ForceBits | src/days/day14.rs:54-62 | the first loop of `what` forces the 1 bits and collects the floating positions |
| Day14.SetEach | src/days/day14.rs:65-71 | setting or clearing one bit in every address of the list |
| Day14.What | src/days/day14.rs:53-75 | `what` returns the forced address expanded over the floating bits, each doubling the list |
| Day14.ExpandSize | src/days/day14.rs:63-73 | each floating bit doubles the list |
| Day14.ExpandDistinct | src/days/day14.rs:63-73 | the expanded addresses differ pairwise |
| Day14.ExpandComplete | src/days/day14.rs:63-73 | every word keeping the base's bits outside the floating ones is among the addresses |
| Day14.Addresses | src/days/day14.rs:53-75 | `what` lists each address the mask reaches exactly once: two to the power of the number of `X` bits, all distinct, and nothing else |
| Day14.WriteAllExact | src/days/day14.rs:110-113 | after the writes the listed keys hold the value and every other key is as it was |
| Day14.WriteReaches | src/days/day14.rs:109-114 | one write stores the value at exactly the keys the mask lets the address reach, two to the power of the `X` bits of them, and leaves every other key alone |
| Day14.WriteEach | src/days/day14.rs:110-113 | the write loop stores the value at every listed address in order |
| Day14.Part2 | src/days/day14.rs:103-118 | `part2` is the sum of memory after running the program with the floating-address decoder |
| Day14.FillOutcome | src/days/day14.rs:17-26 | the mask loop gives a mask when the text is at most 36 good characters (missing low bits stay `X`), an error when a bad character comes first, and a panic when a 37th good character would be stored |
| Day14.ReadMask | src/days/day14.rs:17-26 | the mask loop of `from_str` computes that outcome |
| Day14.RoundTrip | src/days/day14.rs:11-37 | reading back a written instruction with `u64` fields gives it again |
| Day14.ParseMask | src/days/day14.rs:15-27 | "mask = " followed by 36 mask characters reads as that mask |
| Day14.SamplePart1 | src/days/day14.rs:125-154 | the first example's memory sums to 165 |
| Day14.SampleKeys1 | src/days/day14.rs:140-141 | the first write of the second example lands on 26, 27, 58 and 59 |
| Day14.SampleKeys2 | src/days/day14.rs:142-143 | the second write lands on 16 to 19 and 24 to 27 |
| Day14.SamplePart2 | src/days/day14.rs:138-159 | the second example's memory sums to 208 |
| Day15.LastIndex | src/days/day15.rs:10-19 | the last position of a number in what was spoken: it is there and never later |
| Day15.Next | src/days/day15.rs:17-20 | the number spoken next is an age, smaller than the number of turns so far |
| Day15.Game | src/days/day15.rs:7-24 | the game's first n numbers begin with the seeds |
| Day15.Played | src/days/day15.rs:7-24 | the numbers `play_until` speaks begin with the seeds |
| Day15.GameBound | src/days/day15.rs:16-22 | each number spoken after the seeds is smaller than its own 0-based turn |
| Day15.PlayedBound | src/days/day15.rs:16-22 | so every answer after the seeds is below `end` |
| Day15.GameShift | src/days/day15.rs:16-22 | appending the game's next number to the seeds changes nothing after it |
| Day15.PlayedIsGame | src/days/day15.rs:11-22 | when the last seed is new, `play_until` speaks the game's numbers |
| Day15.RepeatedSeed | src/days/day15.rs:11-19 | with seeds 1, 1 the game's third number is 1 but `play_until`'s is 0 |
| Day15.IndexExact | src/days/day15.rs:10-14 | the map holds exactly the numbers spoken, each at its last turn |
| Day15.Extend | src/days/day15.rs:12-19 | one more number spoken updates its entry to the new turn |
| Day15.Age | src/days/day15.rs:17-18 | the age the map gives is the age of the last number spoken |
| Day15.FirstTurn | src/days/day15.rs:16-21 | the map already holds the last seed at the previous turn, so the first age is 0 and the state is that of the game seeded with the seeds and 0 |
| Day15.GameTurn | src/days/day15.rs:16-21 | one turn of the second loop keeps the map and the last number in step with the game |
| Day15.Seed | src/days/day15.rs:8-15 | the first loop records every seed at its turn and leaves the last seed as the last number |
| Day15.Speak | src/days/day15.rs:16-23 | the second loop computes the turn-by-turn specification, panicking only on a negative age |
| Day15.PlayUntil | src/days/day15.rs:7-24 | `play_until` answers turn `end`'s number as spoken by the code, the last seed when `end` is at most the number of seeds, and panics on no seeds |
| Day15.AnswerIsGame | src/days/day15.rs:7-24 | when the last seed is new, that answer is the game's |
| Day15.PlayGame | src/days/day15.rs:7-24 | with the last seed left out of the first loop, the loops answer the game's number |
| Day15.SpeakGame | src/days/day15.rs:16-23 | from a state the game explains, the second loop ends on turn `end`'s number of the game |
| Day15.Part1 | src/days/day15.rs:37-39 | `part1` is the 2020th number |
| Day15.Part2 | src/days/day15.rs:41-43 | `part2` is the 30000000th number |
| Day15.ParseAll | src/days/day15.rs:31-35 | each comma-separated piece, trimmed, is a `u64`, or reading fails |
| Day15.Read | src/days/day15.rs:31-35 | `read` gives one `u64` per comma-separated piece and fails only with a parse error, never a panic; Day15.ReadShow is its round trip |
| Day15.ReadShow | src/days/day15.rs:31-35 | reading back written seeds gives them again |
| Day15.NextAt | src/days/day15.rs:17-18 | after a number repeated with `mid` between, the next number is the distance between the two |
| Day15.NextNew | src/days/day15.rs:17-18 | after a new number, the next number is 0 |
| Day15.SampleTurns | src/days/day15.rs:50-52 | from 0, 3, 6 the first ten numbers are 0, 3, 6, 0, 3, 3, 1, 0, 4, 0, as the puzzle lists them |
| Day15.SampleStep | src/days/day15.rs:16-22 | one turn of a worked example: the next number appended |
| Day16.Flatten | src/days/day16.rs:136-138 | the flattened values are those of the earlier tickets followed by those of the last |
| Day16.Contains | src/days/day16.rs:30-34 | a value a rule's two ranges hold lies between the lower and the higher bounds, and when the ranges overlap or touch the rule holds exactly the values from the first range's start to the second's end |
| Day16.Invalid | src/days/day16.rs:36-38 | with no rules every value is invalid |
| Day16.InvalidInsert | src/days/day16.rs:36-38 | one more rule leaves a value invalid exactly when it was invalid for the other rules and the new rule rejects it too |
| Day16.Part1 | src/days/day16.rs:131-141 | the error rate never exceeds the sum of the nearby values, and equals it when there are no rules |
| Day16.InvalidSumAppend | src/days/day16.rs:136-140 | the error rate of two lists of values together is the sum of their rates |
| Day16.InvalidSumBounds | src/days/day16.rs:136-140 | the error rate counts each value no rule accepts once and nothing else: at most the sum of the values, equal to it when every value is invalid, 0 when none is |
| Day16.Initial | src/days/day16.rs:41-46 | every field starts with a candidate set |
| Day16.SiftExact | src/days/day16.rs:48-61 | after the first loop, position i is a candidate of field k exactly when i is below the number of fields and every clean ticket's value at i fits k's rule |
| Day16.SiftShrinks | src/days/day16.rs:48-61 | the first loop never adds a candidate |
| Day16.StrikeAt | src/days/day16.rs:55-59 | one value removes its position from exactly the fields whose rule rejects it |
| Day16.StrikeTicket | src/days/day16.rs:54-60 | the inner loops over one clean ticket strike every position whose value a field's rule rejects |
| Day16.Sieve | src/days/day16.rs:48-61 | the first loop skips each ticket with an invalid value and strikes with the others |
| Day16.WithoutKeeps | src/days/day16.rs:67-73 | taking a field's only candidate from the others keeps every fitting assignment |
| Day16.WithoutNothing | src/days/day16.rs:68-72 | taking a position nobody else has changes nothing |
| Day16.WithoutPairs | src/days/day16.rs:70 | removing a position some other field has strictly shrinks the candidate pairs |
| Day16.RemoveElsewhere | src/days/day16.rs:68-72 | the inner loop takes the position from every other field, and `changed` is set exactly when one had it |
| Day16.Pass | src/days/day16.rs:64-74 | one pass, in any field order, only shrinks the candidates and keeps every fitting assignment; a changing pass strictly shrinks them and a pass that changes nothing leaves them settled |
| Day16.Eliminate | src/days/day16.rs:63-79 | the second loop ends, with the candidates shrunk, every fitting assignment kept and no field's single position left in another field |
| Day16.FitsAllowed | src/days/day16.rs:40-87 | an assignment fits the candidates exactly when it gives every field a distinct position below the number of fields that its rule accepts on every clean ticket |
| Day16.Only | src/days/day16.rs:85 | `exactly_one()` on a one-element set gives that element |
| Day16.Extract | src/days/day16.rs:81-86 | the final step either answers or panics |
| Day16.ExtractAnswer | src/days/day16.rs:81-86 | the `assert!` passes exactly when every field is down to one position; the answer then fits the tickets and is the only assignment that does |
| Day16.DetermineFields | src/days/day16.rs:40-87 | `determine_fields` panics when a field keeps more than one position, and otherwise answers the one assignment of positions that fits the tickets |
| Day16.ProductPick | src/days/day16.rs:151-154 | the product does not depend on which field is taken first |
| Day16.ProductOf | src/days/day16.rs:151-154 | the product over the departure fields of my ticket's values at their positions |
| Day16.Part2 | src/days/day16.rs:143-155 | `part2` follows `determine_fields` and, on an answer, multiplies my ticket's values at the departure fields' positions of that one fitting assignment |
| Day16.SampleRates | src/days/day16.rs:162-177 | the first example ticket is clean and each other one has one invalid value: 4, 55 and 12 |
| Day16.SamplePart1 | src/days/day16.rs:180-183 | the example's error rate is 71 |
| Day16.SampleSift | src/days/day16.rs:162-177 | after the first loop class may be at 0 or 1, row only at 0, seat only at 2 |
| Day16.SampleSettles | src/days/day16.rs:63-79 | whatever order the second loop takes the fields in, it ends with class at 1, row at 0, seat at 2 |
| Day16.SampleDetermined | src/days/day16.rs:185-195 | `determine_fields` on the example gives row 0, class 1, seat 2 |
| Day16.ParseRange | src/days/day16.rs:11-16 | a range reads, or fails with "no dash" or a number error |
| Day16.ParseShowSpan | src/days/day16.rs:11-16 | a written range reads back as itself |
| Day16.ParseValues | src/days/day16.rs:18-20 | each piece of a ticket line is a `usize`, or reading fails |
| Day16.ParseTicket | src/days/day16.rs:18-20 | `parse_ticket` gives one `usize` per comma-separated piece, and fails only with a parse error |
| Day16.ParseShowTicket | src/days/day16.rs:18-20 | a written ticket reads back as itself |
| Day16.ParseField | src/days/day16.rs:105-113 | a field's name is everything before the first colon |
| Day16.ParseShowField | src/days/day16.rs:105-113 | a written rule line reads back as its name and rule |
| Day16.ParseTickets | src/days/day16.rs:122 | one ticket per nearby line |
| Day16.ReadRulesShow | src/days/day16.rs:99-114 | rule lines followed by a blank line read as those rules |
| Day16.ReadParts | src/days/day16.rs:96-129 | `read` is the rules, my ticket on the second line after them and the tickets from the fifth |
| Day16.Read | src/days/day16.rs:96-129 | a read input's rules are those of the rule lines, its ticket parses from the second line after them, and fewer than two lines after the rules fail with "expected my ticket" |
| Day16.ReadShowNotes | src/days/day16.rs:96-129 | written notes read back as their rules, in order, my ticket and the nearby tickets |
| Day17.Neighborhood | src/days/day17.rs:10-12 | the neighbourhood box holds exactly the points within 1 of the point on every axis |
| Day17.Ints | src/days/day17.rs:14-19 | a range `lo..=hi` holds its integers in increasing order |
| Day17.IterVolExact | src/days/day17.rs:14-19 | `iter_vol` yields exactly the points of the box |
| Day17.IterVolDistinct | src/days/day17.rs:14-19 | `iter_vol` yields each point of the box once, so as many points as the box holds |
| Day17.NeighborhoodSize | src/days/day17.rs:10-19 | a neighbourhood holds 3^N points |
| Day17.NeighbourCountExact | src/days/day17.rs:34-37 | the count `next` computes is the number of live neighbours, the cell itself filtered out |
| Day17.LiveNearPrev | src/days/day17.rs:39-41 | a point that will live has a live neighbour |
| Day17.Sparse | src/days/day17.rs:25-28 | with fewer than two live points nothing lives next, which the early return gives |
| Day17.InWidened | src/days/day17.rs:24-30 | every point that will live lies in the live points' bounding box widened by 1 |
| Day17.MinMaxAxis | src/days/day17.rs:22 | `minmax` on one axis reports the axis's least and greatest values, or that there are fewer than two points |
| Day17.Next | src/days/day17.rs:21-44 | `next` holds exactly the points with three live neighbours, or two and alive before |
| Day17.Bounds | src/days/day17.rs:23-30 | the first loop gives the widened bounding box, or returns only when fewer than two points live |
| Day17.Collect | src/days/day17.rs:32-43 | the second loop keeps exactly the box's points that obey the rule |
| Day17.BoxSuffices | src/days/day17.rs:32-43 | collecting over the widened box misses no point that obeys the rule |
| Day17.Place | src/days/day17.rs:51-53 | a live cell's point has its column and row on the first two axes and 0 elsewhere |
| Day17.Parse | src/days/day17.rs:46-59 | `parse` places exactly the live cells of the grid on the plane of the first two axes |
| Day17.Run | src/days/day17.rs:75-89 | the answer is the size of the state after six generations from the parsed grid |
| Day17.Part1 | src/days/day17.rs:75-81 | `part1` runs six generations in three dimensions |
| Day17.Part2 | src/days/day17.rs:83-89 | `part2` runs six generations in four dimensions |
| Day17.Read | src/days/day17.rs:68-73 | one row per line, one cell per character |
| Day17.ReadShow | src/days/day17.rs:68-73 | a grid written with '#' and '.' reads back as itself |
| Day17.SampleParsed | src/days/day17.rs:96-102 | the example's glider sits on the plane z = 0 at its five cells |
| Day18.Tokenize | src/days/day18.rs:14-26 | a line gives at most one token per character |
| Day18.TokenizeAccepts | src/days/day18.rs:14-26 | a line tokenizes exactly when each character is a space, a digit, `*`, `+`, `(` or `)`, and panics otherwise |
| Day18.TokenizeSpaces | src/days/day18.rs:17 | spaces make no difference to the tokens |
| Day18.CharOf | src/days/day18.rs:18-22 | each token with a one-digit number has a character that reads as it |
| Day18.TokenizeShow | src/days/day18.rs:14-26 | written tokens read back as themselves |
| Day18.Eval | src/days/day18.rs:29-81 | `eval`'s loops compute the shunting yard followed by the stack machine, panics included |
| Day18.RunAppend | src/days/day18.rs:32-58 | the shunting yard over two pieces of a line runs them in turn |
| Day18.CloseNeverOutput | src/days/day18.rs:47-55 | a `)` never reaches the reverse Polish queue, whatever the line |
| Day18.FlushRev | src/days/day18.rs:59-61 | the final loop appends the operator stack reversed |
| Day18.PopPending | src/days/day18.rs:35-45 | an operator pops the pending operators above the point where it stops, then goes on the stack |
| Day18.CloseOpen | src/days/day18.rs:47-55 | a `)` pops the pending operators above its `(` and drops the `(` |
| Day18.RpnPostfix | src/days/day18.rs:63-79 | running a tree's reverse Polish form pushes its value |
| Day18.PostfixValue | src/days/day18.rs:63-80 | a queue that is a tree's reverse Polish form evaluates to the tree's value |
| Day18.OperatorAfter | src/days/day18.rs:35-45 | an operator after a finished left operand moves the operand's pending operators to the output |
| Day18.CloseAfter | src/days/day18.rs:47-55 | a `)` after a finished inner expression moves its pending operators to the output |
| Day18.OperandRun | src/days/day18.rs:32-58 | in plain mode an operand goes to the output whole, whatever is on the stack |
| Day18.ChainRun | src/days/day18.rs:32-58 | in plain mode a chain of operators leaves only its last operator on the stack |
| Day18.LeftToRight | src/days/day18.rs:29-81 | in plain mode every line written from a chain evaluates to its value: `+` and `*` share one precedence and apply left to right |
| Day18.FactorRun | src/days/day18.rs:32-58 | in advanced mode a factor goes to the output whole |
| Day18.SumRun | src/days/day18.rs:32-58 | in advanced mode a sum leaves only `+` pending above a `(`, a `*` or the bottom |
| Day18.ProductRun | src/days/day18.rs:32-58 | in advanced mode a product leaves its `*` and its last sum's `+` pending |
| Day18.AdditionFirst | src/days/day18.rs:29-81 | in advanced mode every line written from a product of sums evaluates to its value: `+` binds tighter than `*` |
| Day18.RpnArity | src/days/day18.rs:63-79 | each operator pops two values and pushes one, so a successful run leaves the numbers less the operators on the stack |
| Day18.SumLines | src/days/day18.rs:92-98 | the sum over the lines of their values, or the first line's panic |
| Day18.Part1 | src/days/day18.rs:92-94 | `part1` sums the lines in plain mode |
| Day18.Part2 | src/days/day18.rs:96-98 | `part2` sums the lines in advanced mode |
| Day18.Read | src/days/day18.rs:88-90 | `read` gives each line's tokens, or the first line's panic |
| Day18Samples.SampleOne | src/days/day18.rs:107-137 | the first example line evaluates to 71 in plain mode and 231 in advanced mode |
| Day18Samples.SampleTwo | src/days/day18.rs:107-137 | the second line evaluates to 51 in both modes |
| Day18Samples.SampleThree | src/days/day18.rs:107-137 | the third line evaluates to 26 and 46 |
| Day18Samples.SampleFour | src/days/day18.rs:107-137 | the fourth line evaluates to 437 and 1445 |
| Day18Samples.SampleFive | src/days/day18.rs:107-137 | the fifth line evaluates to 12240 and 669060 |
| Day18Samples.SampleSix | src/days/day18.rs:107-137 | the sixth line evaluates to 13632 and 23340 |
| Day18Samples.SampleThreeTokens | src/days/day18.rs:109-114 | the third example line reads as its tokens |
| Day19.ParseIds | src/days/day19.rs:30-34 | an index list parses exactly when every word is a `usize`, giving one index per word |
| Day19.FromStr | src/days/day19.rs:18-37 | a rule that parses is well formed |
| Day19.ParseRule | src/days/day19.rs:39-44 | a rule line that parses gives a well-formed rule |
| Day19.ParseIdsShow | src/days/day19.rs:30-34 | reading written indices gives them back |
| Day19.SplitShowIds | src/days/day19.rs:30-34 | the words of a written index list are the written indices |
| Day19.FromStrShow | src/days/day19.rs:18-37 | reading a written rule gives the rule back |
| Day19.ParseRuleShow | src/days/day19.rs:39-44 | reading a written "idx: rule" line gives the pair back |
| Day19.Match | src/days/day19.rs:62-108 | `match_rule` never fails with an error: it answers the rest, no match, or a panic for a missing rule |
| Day19.MatchRule | src/days/day19.rs:62-108 | `match_rule`'s `Seq` loop threads the rest through each index in turn, as the recursive definition does |
| Day19.MatchEnd | src/days/day19.rs:110-123 | `match_suffix` never fails with an error |
| Day19.MatchSuffix | src/days/day19.rs:110-123 | `match_suffix`'s reversed loop computes the mirror-image definition |
| Day19.MatchSound | src/days/day19.rs:62-108 | what `match_rule` strips is a word of the rule, and it returns the rest of the input after that word |
| Day19.MatchSeqSound | src/days/day19.rs:66-71 | the `Seq` loop strips a word of the index sequence |
| Day19.MatchEndSound | src/days/day19.rs:110-123 | `match_suffix` keeps what is in front of a word of the rule |
| Day19.DerivesNonEmpty | src/days/day19.rs:62-108 | when no index list is empty every word of a rule has at least one letter |
| Day19.MatchConsumes | src/days/day19.rs:62-108 | so a successful match consumes input |
| Day19.MatchEndConsumes | src/days/day19.rs:110-123 | and so does a successful suffix match |
| Day19.MatchFuel | src/days/day19.rs:62-108 | more nesting depth changes nothing once the answer did not depend on it |
| Day19.NoBacktracking | src/days/day19.rs:72-73 | the match does not backtrack: with rule 0 = rule 1 then rule 2, rule 1 = one or two of rule 2 and rule 2 = "a", "aaa" is a word of rule 0 but the match leaves one letter over |
| Day19.Part1 | src/days/day19.rs:180-184 | `part1` counts at most the messages, and only panics |
| Day19.AcceptedDerives | src/days/day19.rs:182 | a message `part1` counts is a word of rule 0 |
| Day19.Part1Counts | src/days/day19.rs:180-184 | `part1` is the number of messages rule 0 consumes entirely |
| Day19.Shift | src/days/day19.rs:188-192 | shifting positions by one |
| Day19.RepeatsAppend | src/days/day19.rs:132-154 | a words of a rule followed by b more are a + b words of it |
| Day19.Trailing | src/days/day19.rs:134-137 | the loop on rule 31 never fails with an error |
| Day19.UpTo | src/days/day19.rs:139-143 | the loop on rule 42 from the end strips at most as many words as it tries |
| Day19.Leading | src/days/day19.rs:152-154 | the loop on rule 42 from the front never fails with an error |
| Day19.Part2Match | src/days/day19.rs:125-156 | `match_part2` never fails with an error |
| Day19.TrailingSound | src/days/day19.rs:134-137 | the loop on rule 31 strips n words of rule 31 off the end |
| Day19.UpToSound | src/days/day19.rs:139-143 | the loop on rule 42 from the end strips n words of rule 42 off the end |
| Day19.LeadingSound | src/days/day19.rs:152-154 | the loop on rule 42 from the front strips n words of rule 42 off the front |
| Day19.Part2Sound | src/days/day19.rs:125-156 | an accepted message is k words of rule 42 followed by n of rule 31, where m of the k, at most n, were taken as partners of the words of 31 and at least one more from the front |
| Day19.Part2Chain | src/days/day19.rs:127-155 | the words each step of a successful `match_part2` strips add up to that split |
| Day19.MatchPart2 | src/days/day19.rs:125-156 | `match_part2`'s loops compute the specification function |
| Day19.StripTrailing | src/days/day19.rs:134-137 | the `while let` on rule 31 counts the words it strips |
| Day19.StripUpTo | src/days/day19.rs:139-143 | the counted loop on rule 42 from the end |
| Day19.StripLeading | src/days/day19.rs:152-154 | the `while let` on rule 42 from the front |
| Day19.Part2Count | src/days/day19.rs:186-194 | the part 2 count is at most the number of messages, or a panic |
| Day19.Part2 | src/days/day19.rs:186-194 | `part2`'s loop computes that count |
| Day19.Part2Counts | src/days/day19.rs:186-194 | `part2` is the number of messages `match_part2` accepts |
| Day19.Read | src/days/day19.rs:165-178 | `read` yields only well-formed rules |
| Day19.Insert | src/days/day19.rs:173-174 | the rule map holds exactly the indices of the earlier and the inserted rules |
| Day19.ReadShow | src/days/day19.rs:165-178 | written rules, a blank line and messages read back as the rules, later ones overwriting, and the messages |
| Day19.ReadOne | src/days/day19.rs:168-175 | a rule line inserts its rule and reading goes on |
| Day19Samples.RuleZero | src/days/day19.rs:201-209 | the words of the example's rule 0 are 'a', four letters of rule 1, then 'b' |
| Day19Samples.AcceptsSample | src/days/day19.rs:201-215 | an example message is accepted exactly when it is 'a', a word of rule 1, 'b' |
| Day19Samples.SampleFirst | src/days/day19.rs:215 | "ababbb" is accepted |
| Day19Samples.SampleSecond | src/days/day19.rs:215 | "bababa" is not |
| Day19Samples.SampleThird | src/days/day19.rs:215 | "abbbab" is accepted |
| Day19Samples.SampleFourth | src/days/day19.rs:215 | "aaabbb" is not |
| Day19Samples.SampleFifth | src/days/day19.rs:215 | "aaaabbb" is not |
| Day19Samples.Part1Step | src/days/day19.rs:180-184 | each message adds one to the count exactly when it is accepted |
| Day19Samples.SamplePart1 | src/days/day19.rs:284-287 | `part1` on the example counts 2 |
| Day20.RotR | src/days/day20.rs:14-22 | the array-filling quarter turn builds exactly the turned tile, new pixel (y, x) being old pixel (n-1-x, y) |
| Day20.FlipV | src/days/day20.rs:24-32 | the row-copying flip builds exactly the tile with its rows reversed |
| Day20.HalfTurn | src/days/day20.rs:14-22 | two quarter turns send every pixel to the opposite corner |
| Day20.FourTurns | src/days/day20.rs:14-22 | four quarter turns give the tile back |
| Day20.FlipTwice | src/days/day20.rs:24-32 | flipping twice gives the tile back |
| Day20.SpinsAre | src/days/day20.rs:34-46 | the k-th tile pushed by a push-and-turn loop is the tile turned k times |
| Day20.OrientationsOf | src/days/day20.rs:34-46 | there are eight orientations, the first the tile itself, then its four turns and its flip's four turns, all of the tile's size |
| Day20.TurnedFour | src/days/day20.rs:34-46 | the fourth turn closes the cycle, so the flip applies to the original tile |
| Day20.Orient | src/days/day20.rs:34-46 | the push-turn loops produce exactly the eight orientations in order |
| Day20.LeftTurnsAbove | src/days/day20.rs:48-62 | a tile fits left of another exactly when, both turned a quarter clockwise, it fits above it |
| Day20.FitsAbove | src/days/day20.rs:48-50 | specification of `fits_above`: the last row of one tile is the first of the other; Day20.AboveTurnsRight relates it to `fits_right` |
| Day20.FitsBelow | src/days/day20.rs:52-54 | a tile fits below another exactly when, both flipped, it fits above it |
| Day20.FitsLeft | src/days/day20.rs:56-58 | specification of `fits_left`: the last column of one tile is the first of the other; Day20.LeftTurnsAbove relates it to `fits_above` |
| Day20.FitsRight | src/days/day20.rs:60-62 | specification of `fits_right`, the mirror of `fits_left`; Day20.AboveTurnsRight relates it to `fits_above` |
| Day20.AboveTurnsRight | src/days/day20.rs:48-62 | a tile fits above another exactly when, both turned a quarter clockwise, it fits right of it |
| Day20.TryTileSquare | src/days/day20.rs:80-93 | a list of rows converts to a tile exactly when it is an n-by-n square, and otherwise the error is "bad width" when some row has the wrong length and "bad height" when only the row count is wrong |
| Day20.Header | src/days/day20.rs:102 | an id that parses fits in a `usize` |
| Day20.Parse | src/days/day20.rs:95-112 | the parse loop returns the chunk-by-chunk reading of the text's lines into a map from id to tile |
| Day20.ParsedSquare | src/days/day20.rs:95-112 | every tile that parsing yields is ten by ten, and the tiles already read stay |
| Day20.PixelsLine | src/days/day20.rs:105 | reading a written pixel row gives it back |
| Day20.ReadBlock | src/days/day20.rs:97-110 | a well-formed twelve-line block inserts its tile under its id and parsing continues twelve lines later |
| Day20.ReadThenRest | src/days/day20.rs:97-110 | after a well-formed block, parsing goes on with the text after it |
| Day20.ReadBlocks | src/days/day20.rs:95-112 | reading written tiles, closed by a blank line, gives back exactly the map of those tiles |
| Day20.NothingTried | src/days/day20.rs:129-153 | a piece that fits no side of any placed tile attaches nowhere |
| Day20.Try | src/days/day20.rs:131-152 | one orientation against the placed tiles returns a free place beside a placed tile that it fits, or none exactly when it attaches nowhere |
| Day20.Place | src/days/day20.rs:129-155 | a tile is placed in one of its orientations at a place where it attaches, or is reported unplaceable when no orientation attaches anywhere |
| Day20.OrientedKeeps | src/days/day20.rs:136-147 | placing an orientation of an input tile keeps every placed tile an orientation of the tile whose id sits there |
| Day20.ValuesAdd | src/days/day20.rs:137 | inserting an id at a new place adds it to the placed ids |
| Day20.DistinctKeeps | src/days/day20.rs:137 | placing an id not yet placed keeps the placed ids distinct |
| Day20.ConnectedKeeps | src/days/day20.rs:136-147 | placing a piece where it attaches keeps the image connected, each tile matching an edge of a neighbour |
| Day20.PlaceKeeps | src/days/day20.rs:136-147 | placing a remaining tile where it attaches keeps the partial image invariant with that tile struck off |
| Day20.Visit | src/days/day20.rs:129-155 | one tile of a pass is either placed and struck off, or moved to the failed map, unchanged image, only when it is unplaceable |
| Day20.PassStep | src/days/day20.rs:129-156 | the pass invariant survives one more tile |
| Day20.PassEnd | src/days/day20.rs:126-158 | at the end of a pass the failed tiles are a subset of the remaining ones, and when none was placed the image is unchanged and every remaining tile is stuck |
| Day20.Pass | src/days/day20.rs:126-158 | one pass keeps the partial image invariant, only shrinks the remaining tiles, and when it places nothing every remaining tile is unplaceable |
| Day20.StuckAdd | src/days/day20.rs:155 | adding an unplaceable tile to the failed ones keeps them all stuck |
| Day20.Seeded | src/days/day20.rs:120-124 | the first tile at the origin starts a partial image with every other tile remaining |
| Day20.Assemble | src/days/day20.rs:114-162 | with no tiles the first `unwrap` panics; otherwise assembly either places every input tile once, connected and in one of its orientations, or runs forever with the remaining tiles all unplaceable |
| Day20.PlacedOnce | src/days/day20.rs:114-162 | once assembled, every input id sits at exactly one place |
| Day20.SubsetSmaller | src/days/day20.rs:126-159 | a strict subset is smaller, so a pass that places a tile brings the loop closer to its end |
| Day20.MinMax | src/days/day20.rs:226-227 | both ends of `minmax` are coordinates of places and every place lies between them |
| Day20.Bounds | src/days/day20.rs:226-227 | the two `minmax` runs give the box the places span |
| Day20.SpansUnique | src/days/day20.rs:226-227 | the box a set of places spans is unique |
| Day20.PrefixStep | src/days/day20.rs:229 | the product of a prefix of corners is in range when the whole is |
| Day20.ProductOk | src/days/day20.rs:229 | the corner product succeeds exactly when every corner is placed and no partial product exceeds the `usize` range, and then it is the plain product |
| Day20.Product | src/days/day20.rs:229 | the corner product fails only by panicking |
| Day20.CornerProduct | src/days/day20.rs:226-229 | the result is the corner product over the box the ids span |
| Day20.Part1 | src/days/day20.rs:223-230 | an empty input panics; otherwise either assembly completes and the answer is the corner product over the spanned box, or it runs forever with every remaining tile stuck |
| Day20.PartialPictures | src/days/day20.rs:136-147 | the placed tiles are all ten by ten |
| Day20.BandPixel | src/days/day20.rs:242-247 | pixel c of a band row is inner pixel c mod 8 of tile c div 8 of that band |
| Day20.BandsPixel | src/days/day20.rs:240-249 | the stitched pixel (r, c) is pixel (r mod 8 + 1, c mod 8 + 1) of the tile r div 8 bands down and c div 8 tiles across |
| Day20.Extend | src/days/day20.rs:244-246 | one more tile extends each of the band's eight rows by that tile's inner row |
| Day20.Stitch | src/days/day20.rs:238-249 | stitching succeeds exactly when every place in the box holds a tile, giving the stitched image, and otherwise panics on the missing key |
| Day20.CountMonsters | src/days/day20.rs:185-199 | the window loops count exactly the monster sightings of the image |
| Day20.RowMatchAccepts | src/days/day20.rs:164-169 | `row_match` accepts any pattern on a row of set pixels, and an all-blank pattern on any row |
| Day20.RowMonsters | src/days/day20.rs:187-198 | one band of rows holds at most one monster per corner scanned |
| Day20.RowMonstersZero | src/days/day20.rs:187-198 | a band counts no monster exactly when no corner in it shows one |
| Day20.MonstersUpTo | src/days/day20.rs:185-199 | a count above zero needs at least one band and an image at least 20 wide |
| Day20.MonstersUpToZero | src/days/day20.rs:185-199 | the first j bands count no monster exactly when no window in them shows one |
| Day20.Monsters | src/days/day20.rs:185-199 | a `monster_count` above zero needs an image at least 20 wide |
| Day20.MonstersZero | src/days/day20.rs:185-202 | an orientation counts no monster exactly when no window shows one, which is when the search moves on |
| Day20.RowCellsCount | src/days/day20.rs:172-177 | the set pixels of a row are as many as the row's hashes |
| Day20.RowHashes | src/days/day20.rs:172-177 | a row holds at most as many hashes as pixels |
| Day20.HashesCells | src/days/day20.rs:172-177 | `num_hash` is the number of set pixels |
| Day20.DoPart2 | src/days/day20.rs:171-208 | the search returns the roughness: the hash count less 15 per monster in the first orientation showing one, a panic when that underflows, and the hash count when no orientation shows a monster |
| Day20.Sighting | src/days/day20.rs:185-207 | the scan over the orientations never fails with an error, and an answer never exceeds the hash count |
| Day20.Roughness | src/days/day20.rs:171-208 | `do_part2` answers at most the image's hash count, or panics |
| Day20.Finish | src/days/day20.rs:235-255 | the box spans the image and the answer is the search over the stitched image, or a panic when a place in the box is empty |
| Day20.Part2 | src/days/day20.rs:232-256 | an empty input panics; otherwise either assembly completes and the answer is the search of the stitched image, or it runs forever with every remaining tile stuck |
| Day20.AllSet | src/days/day20.rs:171-208 | the all-set image is an n-by-n square |
| Day20.AllSetHashes | src/days/day20.rs:172-177 | the first j rows of an all-set n-wide image hold j times n hashes |
| Day20.AllSetRowMonsters | src/days/day20.rs:193-198 | every window of an all-set row band shows a monster |
| Day20.AllSetMonsters | src/days/day20.rs:187-199 | an all-set image shows a monster in every window |
| Day20.AllSetUnderflows | src/days/day20.rs:202 | on a 24-by-24 all-set image the subtraction underflows and the search panics |
| Day20.CoversSet | src/days/day20.rs:164-169 | a pixel a monster covers is set |
| Day20.CoveredCells | src/days/day20.rs:185-199 | monsters cover only set pixels |
| Day20.FirstSighting | src/days/day20.rs:185-204 | the first orientation showing a monster, or none exactly when no orientation shows one |
| Day20.Sighted | src/days/day20.rs:185-204 | the orientation sighted is an image of the same shape |
| Day20.WaterRoughnessMeaning | src/days/day20.rs:171-208 | the intended roughness is the set pixels not covered by a monster and never negative, and with no monster the hash count |
| Day20.SameSize | src/days/day20.rs:14-32 | a pair of inverse maps between two sets shows they are the same size |
| Day20.RotatedCells | src/days/day20.rs:14-22 | a quarter turn keeps the number of set pixels |
| Day20.FlippedCells | src/days/day20.rs:24-32 | a flip keeps the number of set pixels |
| Day20.TurnedCells | src/days/day20.rs:34-46 | any number of turns keeps the number of set pixels |
| Day20.OrientationCells | src/days/day20.rs:185 | each of the eight orientations has as many set pixels as the image, so `num_hash` is the same for all |
| Day20.SightingFirst | src/days/day20.rs:185-207 | the scan answers as if the first orientation showing a monster were the only one, or the hash count when none shows one |
| Day20.RoughnessAgrees | src/days/day20.rs:171-208 | with no monster, or with sighted monsters sharing no pixel, the search's result equals the intended roughness |
| Day20.RoughnessUnsighted | src/days/day20.rs:171-208 | with no monster in any orientation `do_part2` answers the intended roughness, the hash count |
| Day20.RoughnessApart | src/days/day20.rs:171-208 | with sighted monsters sharing no pixel `do_part2` answers the intended roughness |
| Day20.RoughnessSighted | src/days/day20.rs:185-207 | with a monster in sight `do_part2` takes 15 per monster of the first such orientation from the hash count, and panics below zero |
| Day20.SightedCells | src/days/day20.rs:185-202 | the orientation whose monsters are counted has exactly as many set pixels as the image has hashes |
| Day21.MarkerFrom | src/days/day21.rs:12-17 | the ingredient loop stops at the first "(contains" word, or at the end when there is none |
| Day21.StripPunctuation | src/days/day21.rs:19 | one trailing comma or parenthesis is stripped from an allergen word, and a word without one is kept |
| Day21.ParseLine | src/days/day21.rs:9-22 | the word loop builds the food the line describes: the words before "(contains" as ingredients, the stripped words after it as allergens |
| Day21.ListedWords | src/days/day21.rs:19 | each written allergen word strips back to its allergen |
| Day21.LineWords | src/days/day21.rs:10 | a written food line splits back into its words |
| Day21.WordsIngredients | src/days/day21.rs:12-17 | in a written line the marker follows the ingredients, which are the words before it |
| Day21.WordsAllergens | src/days/day21.rs:18-20 | in a written line the stripped words after the marker are the allergens |
| Day21.ParseLineShow | src/days/day21.rs:9-22 | reading a written food line gives back its ingredients and allergens |
| Day21.MarkerAt | src/days/day21.rs:12-17 | the loop stops at the first marker and nowhere else |
| Day21.Unions | src/days/day21.rs:27-34 | the first loop collects every ingredient and every allergen of every food |
| Day21.UnionsHold | src/days/day21.rs:27-34 | an ingredient or allergen is in the union exactly when some food holds it |
| Day21.InUnions | src/days/day21.rs:27-34 | each food's ingredients and allergens are in the unions |
| Day21.CandidatesStep | src/days/day21.rs:41-46 | one more food intersects the candidates of each allergen it lists with its ingredients and leaves the other allergens alone |
| Day21.Narrow | src/days/day21.rs:42-45 | one food's turn narrows the candidate map to the candidates of the foods up to it |
| Day21.Leftover | src/days/day21.rs:48-51 | the safe set is every ingredient in no candidate set |
| Day21.Shared | src/days/day21.rs:24-54 | the candidate map holds, for each allergen, the ingredients common to every food listing it, and the safe set is the ingredients in no candidate set |
| Day21.SafeMeaning | src/days/day21.rs:24-54 | an ingredient is safe exactly when some food holds it and every allergen is listed by some food without it |
| Day21.SafeApart | src/days/day21.rs:48-51 | safe ingredients are in no candidate set |
| Day21.Part1 | src/days/day21.rs:65-73 | the answer counts, food by food, the safe ingredients it holds |
| Day21.SafeCountBounds | src/days/day21.rs:68-72 | the count of safe ingredients is at most the count of all ingredients, and zero when no ingredient is safe |
| Day21.SafeCountMono | src/days/day21.rs:68-72 | counting a larger set of ingredients counts at least as many |
| Sets.SubsetCard | src/days/day21.rs:78-93 | a subset is no larger; the one copy behind the bounds of days 6, 7, 8 and 21 |
| Day21.Subtract | src/days/day21.rs:78-80 | every candidate set loses the safe ingredients and no allergen is added or dropped |
| Day21.ResolveStep | src/days/day21.rs:85-91 | resolving an allergen with one candidate keeps the resolution invariant: the pairs so far are candidates, distinct, and gone from the map |
| Day21.Take | src/days/day21.rs:85-91 | taking a resolved allergen removes it from the map, its ingredient from every set, and appends the pair to the list |
| Day21.Visit | src/days/day21.rs:84-92 | one allergen is taken exactly when it has one candidate, and otherwise nothing changes |
| Day21.Pass | src/days/day21.rs:84-92 | a pass keeps the invariant, and either removes an allergen or changes nothing because no set has exactly one candidate |
| Day21.Resolve | src/days/day21.rs:82-93 | the loop yields a list of allergen-ingredient pairs drawn from the candidates, covering every allergen when it ends, and is stuck forever otherwise |
| Day21.BelowTotal | src/days/day21.rs:95 | the allergen name order is total |
| Day21.InsertOrders | src/days/day21.rs:95 | inserting into a list sorted by allergen keeps it sorted |
| Day21.InsertPermutes | src/days/day21.rs:95 | inserting adds exactly that pair |
| Day21.SortOrders | src/days/day21.rs:95 | the sort orders the list by allergen |
| Day21.SortPermutes | src/days/day21.rs:95 | the sort keeps the list's pairs |
| Day21.SortKeeps | src/days/day21.rs:95 | a reordered list assigns the same pairs and covers the same allergens |
| Day21.Ingredients | src/days/day21.rs:96 | one ingredient per pair |
| Day21.Part2 | src/days/day21.rs:75-97 | the answer is the ingredients of a full assignment of allergens to candidate ingredients, sorted by allergen and joined by commas, unless resolution is stuck forever |
| Day21Samples.SampleUnions | src/days/day21.rs:104-113 | the sample's seven ingredients and three allergens |
| Day21Samples.SampleDairy | src/days/day21.rs:104-113 | the only dairy candidate is mxmxvkd |
| Day21Samples.SampleFish | src/days/day21.rs:104-113 | the fish candidates are mxmxvkd and sqjhc |
| Day21Samples.SampleSoy | src/days/day21.rs:104-113 | the soy candidates are sqjhc and fvjkl |
| Day21Samples.SampleSafeIs | src/days/day21.rs:104-113 | the sample's safe ingredients |
| Day21Samples.SamplePart1 | src/days/day21.rs:115-118 | the sample's safe ingredients appear five times |
| Day21Samples.SampleCandidatesAre | src/days/day21.rs:104-113 | the sample's candidate map |
| Day21Samples.SamplePairs | src/days/day21.rs:120-123 | only one full assignment of the sample's candidates exists |
| Day21Samples.SampleOrder | src/days/day21.rs:95 | sorted by allergen, the sample's pairs come in one order |
| Day21Samples.SampleJoin | src/days/day21.rs:96 | the sample's sorted pairs join to mxmxvkd,sqjhc,fvjkl |
| Day21Samples.SamplePart2 | src/days/day21.rs:120-123 | every sorted full assignment of the sample's candidates gives mxmxvkd,sqjhc,fvjkl |
| Day22.AwardKeepsCards | src/days/day22.rs:15-22 | a round keeps every card in play, the winner's deck growing by one and the loser's shrinking by one |
| Day22.Higher | src/days/day22.rs:17-25 | the round goes to the owner of the higher top card, and to neither on equal cards |
| Day22.CombatEnds | src/days/day22.rs:13-32 | a game that ends has an empty deck, the other player won it, and no card was lost or made |
| Day22.CombatFuel | src/days/day22.rs:14 | allowing more rounds than a game needs changes nothing |
| Day22.PlayCombat | src/days/day22.rs:14-26 | rounds played ahead leave the game's outcome as it was |
| Day22.NextRound | src/days/day22.rs:15-22 | the higher top card's owner puts both cards at the bottom of their deck, their own first |
| Day22.PlayGame | src/days/day22.rs:13-32 | the deque loop returns the outcome of Combat: the winner and final decks, or the `wat` panic on equal cards |
| Day22.RepeatWins | src/days/day22.rs:38-41 | a deck pair seen before in the same game hands it to player 1 at once |
| Day22.RecCombatWinner | src/days/day22.rs:34-78 | a recursive game ends with an empty deck and the other player winning, or on a repeat with player 1 winning |
| Day22.RecCombatKeepsCards | src/days/day22.rs:34-78 | no card is lost or made in a recursive game, the sub-games playing with copies |
| Day22.PlayRecGame | src/days/day22.rs:34-78 | the loop with the seen-states set and recursive sub-games on copies returns the outcome of Recursive Combat |
| Day22.Reverse | src/days/day22.rs:112 | reversing keeps the length |
| Day22.WeightedAppend | src/days/day22.rs:110-115 | one card more at the end of the weighting adds its weight times the card |
| Day22.WeightedShift | src/days/day22.rs:110-115 | raising every weight by one adds the sum of the cards |
| Day22.SumReverse | src/days/day22.rs:110-115 | reversing keeps the sum |
| Day22.SumAppend | src/days/day22.rs:110-115 | appending a card adds it to the sum |
| Day22.ReverseAppend | src/days/day22.rs:112 | reversing a deck with a card at the end puts that card first |
| Day22.ScoreTop | src/days/day22.rs:110-115 | the top card of an n-card deck counts n times |
| Day22.ScoreCons | src/days/day22.rs:110-115 | the top card counts once per card in the deck, on top of the rest's score |
| Day22.ScoreBottom | src/days/day22.rs:110-115 | a card put at the bottom counts once and every card above it once more |
| Day22.Part1 | src/days/day22.rs:104-116 | the answer is the score of the winner's deck after Combat, or the `wat` panic |
| Day22.Part2 | src/days/day22.rs:118-130 | the answer is the score of the winner's deck after Recursive Combat, or the `wat` panic |
| Day22.ParseCards | src/days/day22.rs:89-100 | a card per line, in order, or the parse error of the first bad line |
| Day22.PrependTwice | src/days/day22.rs:89-100 | prepending cards in two steps is prepending them at once |
| Day22.BlankFrom | src/days/day22.rs:89-95 | the first empty line at or after a position, or the end |
| Day22.ReadUntilBlank | src/days/day22.rs:88-95 | the first loop reads the cards up to the first empty line, which it consumes |
| Day22.ReadToEnd | src/days/day22.rs:97-100 | the second loop reads the cards on every remaining line |
| Day22.Read | src/days/day22.rs:85-102 | the reading skips the header, reads player 1 up to the empty line, skips one line and reads player 2 to the end |
| Day22.ShowDeck | src/days/day22.rs:85-102 | a line per card |
| Day22.ParseShowDeck | src/days/day22.rs:89-100 | written cards sit on non-empty lines and parse back |
| Day22.ShowFirst | src/days/day22.rs:86-95 | in written decks player 1's cards come after the header and are followed by an empty line |
| Day22.ShowSecond | src/days/day22.rs:96-100 | in written decks player 2's cards are the lines after the second header |
| Day22.ReadDecksAt | src/days/day22.rs:85-102 | the decks are read from the cards before the first empty line and after the line that follows it |
| Day22.BlankAt | src/days/day22.rs:89-95 | the first empty line is found where it is |
| Day22.ReadShow | src/days/day22.rs:85-102 | reading written decks gives them back |
| Day22Loop.CycleRounds | src/days/day22.rs:14-26 | each round of Combat on [43,19] against [2,29,14] leads to the next pair of a six-pair cycle |
| Day22Loop.CombatNext | src/days/day22.rs:14-26 | a round played before handing the game on leaves its outcome unchanged |
| Day22Loop.CycleNeverEnds | src/days/day22.rs:14-26 | from any pair of the cycle Combat never ends, however many rounds are allowed |
| Day22Loop.LoopingNeverEnds | src/days/day22.rs:13-32 | `play_game` never returns on [43,19] against [2,29,14] |
| Day22Loop.Words | src/days/day22.rs:14-26 | every sequence drawn from the cards has the length asked for |
| Day22Loop.InWords | src/days/day22.rs:14-26 | a sequence of cards is among the words of its length |
| Day22Loop.InLayouts | src/days/day22.rs:14-26 | every deck pair is one of the finitely many layouts of its cards |
| Day22Loop.SeenInLayouts | src/days/day22.rs:35-41 | deck pairs seen with the same cards are layouts of those cards |
| Day22Loop.FewerUnseen | src/days/day22.rs:35-41 | seeing a new layout leaves fewer unseen |
| Day22Loop.UnseenShrinks | src/days/day22.rs:14-41 | a round on an unseen pair keeps the cards and leaves fewer layouts unseen |
| Day22Loop.GuardedCombat | src/days/day22.rs:13-41 | Combat with the repeat rule always ends, with no round bound |
| Day22Loop.GuardedStep | src/days/day22.rs:14-41 | a round of the guarded game on a new pair hands it on with that pair seen |
| Day22Loop.CycleCards | src/days/day22.rs:14-26 | the pairs of a cycle hold the same cards |
| Day22Loop.CycleGuarded | src/days/day22.rs:35-41 | on a cycle the guarded game goes round and ends in player 1's favour at the first repeat |
| Day22Loop.LoopingGuarded | src/days/day22.rs:35-41 | on [43,19] against [2,29,14] the guarded game ends after six rounds with player 1 winning |
| Day22Loop.CombatAward | src/days/day22.rs:14-26 | one round of Combat hands the game on with one round fewer |
| Day22Loop.StuckBefore | src/days/day22.rs:14 | a game that does not end within some rounds does not end within fewer |
| Day22Loop.GuardedAgrees | src/days/day22.rs:13-41 | where Combat ends, the repeat rule never fires along the way, so the guarded game ends the same way |
| Day22Loop.LeastFuel | src/days/day22.rs:14 | a game that ends has a least number of rounds it needs |
| Day22Loop.CombatGuarded | src/days/day22.rs:13-41 | wherever `play_game` ends, the guarded game gives the same winner and decks, or the same panic |
| Day22Samples.SampleRounds | src/days/day22.rs:137-144 | the sample game ends after 29 rounds with player 2 holding 3, 2, 10, 6, 8, 5, 9, 4, 7, 1 |
| Day22Samples.SamplePart1 | src/days/day22.rs:141-144 | the sample's winning score is 306 |
| Day23.FirstFree | src/days/day23.rs:22-27 | among four labels one is not picked, so the destination search always stops |
| Day23.DestFrom | src/days/day23.rs:22-27 | the search settles on a label not picked up |
| Day23.DestinationLabel | src/days/day23.rs:18-27 | the destination is the first label below the current one, wrapping from 1 to the largest label, that was not picked up: every label tried before it was picked |
| Day23.DestFromTried | src/days/day23.rs:22-27 | each step of the search keeps every label passed over a picked one |
| Day23.FindDestination | src/days/day23.rs:18-27 | the destination loop computes the destination label |
| Day23.Probe | src/days/day23.rs:39-42 | every index the interleaved order visits is in range |
| Day23.FindFrom | src/days/day23.rs:39-44 | an index found holds the destination label |
| Day23.FindExact | src/days/day23.rs:39-44 | the interleaved search finds the label whenever it is there, and its one index when it is there once |
| Day23.IotaCount | src/days/day23.rs:7-59 | the labels 1 to n each occur once |
| Day23.LabelsFacts | src/days/day23.rs:7-59 | cups labelled 1 to n carry each label once and no other |
| Day23.MovePermutes | src/days/day23.rs:7-59 | a move keeps the same cups |
| Day23.MoveShape | src/days/day23.rs:10-58 | after a move the three picked cups sit right after the destination in order, the old current cup is last, and the cup after the picked ones is current |
| Day23.MoveLabelled | src/days/day23.rs:7-59 | with at least four cups labelled 1 to n a move never panics and keeps them labelled 1 to n |
| Day23.DoMove | src/days/day23.rs:7-59 | the deque steps of `do_move` give the move, or the panic of an `unwrap` on too few cups or a missing destination |
| Day23.MovesPermute | src/days/day23.rs:79-81 | any number of moves keeps the cups |
| Day23.MovesLabelled | src/days/day23.rs:79-81 | labelled cups, at least four, never panic over any number of moves |
| Day23.OneAt | src/days/day23.rs:82-84 | rotating right stops with cup 1 in front, reached from the front or from the last 1 |
| Day23.LastOne | src/days/day23.rs:82-84 | the last position holding label 1 |
| Day23.AfterOneOrder | src/days/day23.rs:82-86 | the answer lists the cups after cup 1 around the circle, in order |
| Day23.RotStep | src/days/day23.rs:83 | one more rotation right moves the last cup to the front |
| Day23.FrontOne | src/days/day23.rs:82-86 | the rotate-and-pop loop gives the cups after cup 1 |
| Day23.Part1 | src/days/day23.rs:78-87 | the answer is the labels after cup 1 once 100 moves are made, or the panic of a move |
| Day23.MovesFail | src/days/day23.rs:79-81 | once a move panics the result stays that panic |
| Day23.Append | src/days/day23.rs:91-93 | the labels 10 to one million follow the input cups in order |
| Day23.Part2 | src/days/day23.rs:89-104 | the answer is the product of the two labels after cup 1 in the extended circle after ten million moves |
| Day23.Read | src/days/day23.rs:66-76 | reading keeps the digits only, each a label at most 9 |
| Day23.ReadShow | src/days/day23.rs:66-76 | reading written labels gives them back |
| Day23Samples.MoveAt | src/days/day23.rs:7-59 | a move whose destination is found after some cups puts the picked cups back there and the current cup last |
| Day23Samples.MovesStep | src/days/day23.rs:79-81 | one more move extends a run of moves |
| Day23Samples.SampleMoves | src/days/day23.rs:111-118 | the sample cups after 100 moves are 1, 6, 7, 3, 8, 4, 5, 2, 9 |
| Day23Samples.SamplePart1 | src/days/day23.rs:115-118 | the sample's part 1 answer is 6, 7, 3, 8, 4, 5, 2, 9 |
| Day24.OppositeOffsets | src/days/day24.rs:41-50 | opposite directions have opposite offsets |
| Day24.Offset | src/days/day24.rs:41-50 | `to_offset` gives East and West a step of two along x, and the four diagonals one along x and two along y |
| Day24.OffsetInjective | src/days/day24.rs:41-50 | no two directions share an offset |
| Day24.SumZero | src/days/day24.rs:41-50 | walking the six directions in turn comes back to the start |
| Day24.AdjacentSteps | src/days/day24.rs:41-50 | the neighbours of a tile are exactly the tiles one step away, and being neighbours is symmetric |
| Day24.ParseShow | src/days/day24.rs:22-39 | reading a written path gives it back |
| Day24.ParseCode | src/days/day24.rs:22-39 | a direction's letters in front of the rest parse to that direction |
| Day24.ShowParse | src/days/day24.rs:22-39 | a line that parses is the written form of its path |
| Day24.SixDirections | src/days/day24.rs:77 | "eseswwnwne" names each of the six directions once |
| Day24.FromBytes | src/days/day24.rs:15-39 | the byte loop gives the path the line spells, or the `wat` panic on a bad letter pair and an index panic on a line cut short |
| Day24.PrependNone | src/days/day24.rs:22-39 | prepending nothing changes nothing |
| Day24.PrependCons | src/days/day24.rs:22-39 | prepending the directions read so far and then one more is prepending them all |
| Day24.Read | src/days/day24.rs:102-108 | reading parses every line in order, the first bad line deciding the panic |
| Day24.PanicStays | src/days/day24.rs:102-108 | a bad line decides the outcome whatever follows |
| Day24.ReadShow | src/days/day24.rs:102-108 | reading written paths gives them back |
| Day24.FlippedParity | src/days/day24.rs:53-66 | the floor holds exactly the tiles some path ends on, and a tile is black exactly when an odd number of paths end on it |
| Day24.FlippedTiles | src/days/day24.rs:53-66 | the flipping loop builds that floor |
| Day24.Part1 | src/days/day24.rs:110-112 | the answer is the number of tiles an odd number of paths end on |
| Day24.Reached | src/days/day24.rs:53-66 | a tile some path ends on is the end of a particular path |
| Day24.CountSix | src/days/day24.rs:75-84 | the black neighbours of a tile are counted over the six offsets |
| Day24.MoreBlack | src/days/day24.rs:75-84 | one more black tile adds one to the count of each of its neighbours |
| Day24.AroundExact | src/days/day24.rs:69-84 | a tile gets a count exactly when it is a neighbour of a black tile, or already on the floor |
| Day24.NextGenRule | src/days/day24.rs:68-93 | a tile is black the next day exactly when it has two black neighbours, or is black with one |
| Day24.NextGenStep | src/days/day24.rs:68-93 | the counting and recolouring give the next day's floor |
| Day24.RuleOnCounts | src/days/day24.rs:86-92 | colouring the counted tiles by the rule gives the next day's floor |
| Day24.CountNeighbours | src/days/day24.rs:69-84 | the counting loop counts, for every tile on the floor or next to a black one, its black neighbours |
| Day24.Scatter | src/days/day24.rs:77-82 | one black tile adds one to each neighbour's count |
| Day24.ScatterOne | src/days/day24.rs:78-81 | one step of the inner loop adds one to one neighbour's count |
| Day24.ScatterDone | src/days/day24.rs:77-82 | after the six steps the tile is counted |
| Day24.NearSteps | src/days/day24.rs:77-82 | the steps from a tile, one direction at a time |
| Day24.NearFresh | src/days/day24.rs:77-82 | no step repeats an earlier one |
| Day24.NearSix | src/days/day24.rs:77-82 | the six steps reach exactly the neighbours |
| Day24.Part2 | src/days/day24.rs:114-120 | the answer is the number of black tiles after 100 days |
| Day25.TransformPow | src/days/day25.rs:3-10 | the transform is the subject's power reduced modulo 20201227, so it stays below the modulus |
| Day25.NoOverflow | src/days/day25.rs:3-10 | with a subject below the modulus no `u64` multiplication overflows |
| Day25.TransformSubjNum | src/days/day25.rs:3-10 | the loop gives the transform, or the overflow panic when a `u64` product leaves the range |
| Day25.NoLaterRecovery | src/days/day25.rs:5-8 | once a step overflows, every longer run has overflowed |
| Day25.LoopSizeUnique | src/days/day25.rs:12-21 | there is at most one loop size, the first count of steps reaching the key |
| Day25.DeriveLoopSize | src/days/day25.rs:12-21 | the search never fails with an error: it returns the least number of steps that produces the public key, panicking only when an earlier step overflows, and never for a subject below the modulus |
| Day25.KeysAgree | src/days/day25.rs:23-30 | both parties end on 7 to the power of the product of the loop sizes, so their keys agree |
| Day25.Handshake | src/days/day25.rs:23-30 | the handshake key is 7 to the power of the product of the loop sizes, and the `assert_eq!` never fires |
| Day25.Transformed | src/days/day25.rs:3-10 | below the modulus the transform never panics and stays below it |
| Day25.Part1 | src/days/day25.rs:47-51 | the answer is the card key transformed by the door's loop size, which equals the door key transformed by the card's |
| Day25.Read | src/days/day25.rs:39-45 | reading succeeds exactly on two `u64` lines, and with more than three lines whose first three parse it panics in `Option::unwrap` |
| Day25.ReadFourLines | src/days/day25.rs:39-45 | three good numbers and a bad fourth line panic in `Option::unwrap`, the fourth line never parsed |
| Day25.ReadShow | src/days/day25.rs:39-45 | reading two written keys gives them back |
| Day25.TransformStep | src/days/day25.rs:5-8 | one more step multiplies by the subject modulo 20201227 |
| Day25.SevenPowers | src/days/day25.rs:60-68 | the reduced powers of 7 up to the 11th |
| Day25.SampleLoopSizes | src/days/day25.rs:64-68 | the sample's loop sizes are 8 for the card and 11 for the door |
| Day25.CardPowers | src/days/day25.rs:70-73 | the card's key transformed 11 times is 14897079 |
| Day25.SampleKey | src/days/day25.rs:70-73 | the sample's encryption key is 14897079 |

## Left out

Input, output and scale:
- Reading the input file (every `read(data: File)` is reduced to the parsers under it), the command-line driver, `Display` impls and debug `println!` output are I/O and are not modelled.
- The regex-based line readers of day 2 and day 4 (src/days/day02.rs:36-42, src/days/day04.rs:84-94) call a foreign regex library and are not modelled. Those days start from the parsed records. Day 1's plain per-line `u32` reader is modelled (Day01.Read).
- Parse error messages: every failed integer parse gives Rust's "invalid digit found in string". Rust's `ParseIntError` says "cannot parse integer from empty string" for an empty piece and "number too large to fit in target type" past the type's range. The model keeps when a parse fails and which part fails, but not which of the three messages is shown.
- Day 15 part 2 (30,000,000 turns) and day 23 part 2 (10,000,000 moves over 1,000,000 cups) differ from part 1 only in size. Their step functions are modelled and proved; their answers are not evaluated.
- HashMap iteration order is not modelled. Where it decides the result or the work order (day 16 and day 21 passes, day 20 seed tile and placement order), the model makes an arbitrary choice and proves the result for every choice.
- text.dfy reads and writes ASCII digits and letters as `char`s. It does not model UTF-8 decoding.
- Day24.Parse: `from_bytes` reads bytes, and the model reads `char`s, which is the same on ASCII input. A line holding only "é" is two bytes in the source, which panic "wat". In the model it is one char, which panics with an out-of-range index instead.

Integer widths (the model uses unbounded `int`/`nat` where the source wraps or panics on overflow; parsing does respect each type's range):
- Day01.PairFrom: the sum `a + b` tested against 2020 (src/days/day01.rs:11) is `u32` in the source and unbounded in the model. Entries near `u32::MAX` overflow it in the source (a panic in a debug build), and the model does not show that. The same holds for Day01.TripleFrom and `a + b + c` (src/days/day01.rs:19).
- Day08.Run: the accumulator and the instruction pointer are `i32` in the source (src/days/day08.rs:43-65). The model does not model overflow of either.
- Day09.Part2: the `usize` window sum (src/days/day09.rs:36) is unbounded in the model.
- Day09.CheckSum: the `usize` pair sum `input[j] + input[k]` (src/days/day09.rs:18) is unbounded in the model, so it never overflows.
- Day10.RunProduct: the `u64` product of the run multipliers (src/days/day10.rs:50-61) is unbounded in the model, so an input with enough runs of 4 or 5 does not overflow it as the source would.
- Day12.Part1: the `i64` position and amounts (src/days/day12.rs:54, src/days/day12.rs:84-85) are unbounded; so are Day12.Part2's.
- Day13.Part2: the `u64` time and step (src/days/day13.rs:33-52) are unbounded, so the model does not panic where the product of the ids exceeds `u64`.
- Day14.Part1: the sum of memory (src/days/day14.rs:100) is unbounded; so is Day14.Part2's (src/days/day14.rs:117). The values written are cut to 64 bits as in the source.
- Day16.Part2: the product of the departure fields (src/days/day16.rs:154) is unbounded.
- Day18.Eval: the `u64` values of the RPN stack (src/days/day18.rs:63-80) are unbounded; so are the sums in Day18.Part1 and Day18.Part2 (src/days/day18.rs:93-97).
- Day17.Parse: the source stores the column and row as `i8` (`x as _`, src/days/day17.rs:52-53), truncating past 127. The model keeps them as `int`, so it is exact only for grids narrower and shorter than 128.
- Day17.Next: the source's `RangeInclusive<i8>` bounds (src/days/day17.rs:7) overflow once a live cell reaches coordinate 127. The model's `int` bounds never do, so the two agree only while the grid plus the number of cycles stays below 127 on every axis.
- Day20.Assemble: tiles are keyed by `(i8, i8)` positions in the source (src/days/day20.rs:116). The model uses `int` positions, which is exact for fewer than 128 tiles in a row or a column.
- Day11.Generation: the neighbour counts are `u8` in the source. The model uses `nat`; a count never exceeds 9, so nothing is lost.

Panics and non-termination turned into preconditions or fuel:
- Day02.IsValidP2: requires `InRange` (1 <= lo and hi <= the password length). The source underflows on `lo - 1` or unwraps `None` from `nth` outside that range (src/days/day02.rs:24-27). Day02.Part2 requires it of every line.
- Day03.Traverse: requires dy > 0, without which the source never ends, and non-empty visited rows, without which the source's `%` by a zero width panics. Day03.Part1 and Day03.Part2 require the same of their slopes.
- Day05.SeatPos: requires at least 7 chars. The source panics on a shorter pass (src/days/day05.rs:7-25). Day05.Part1 and Day05.Part2 also require a non-empty list of passes, where the source's `max().unwrap()` panics.
- Day06.IntersectionMembers: part 2 requires `NoEmptyGroup`. The source's `fold1().unwrap()` panics on an empty group (src/days/day06.rs:38).
- Day07.Part2: requires a rank that falls along every rule reachable from shiny gold. The source loops forever on a cycle through shiny gold and panics on a missing reachable colour (src/days/day07.rs:91-110). Its `u64` amounts and count are unbounded in the model.
- Day11.Part: runs at most `fuel` generations. `None` means the grid was still changing, where the source would keep going (src/days/day11.rs:112-151).
- Day13.Part1: returns `None` for "never ends" when no bus is in service. Day13.Part2 does the same when two ids share a factor and the sieve never aligns (src/days/day13.rs:22-52).
- Day19.Match: matches with at most `fuel` nested rule calls and panics "stack overflow" past it. The source recurses until its stack overflows on left-recursive rules (src/days/day19.rs:62-123); Day19.Part1 and Day19.Part2 take the same fuel.
- Day22.PlayGame: requires that plain Combat end within `fuel` rounds (src/days/day22.rs:14-31); Day22.Part1 likewise. Day22Loop shows that some decks never end.
- Day22.PlayRecGame: requires that Recursive Combat end within `fuel` rounds; Day22.Part2 likewise.
- Day23.Part1: requires that cup 1 be present whenever the 100 moves succeed. Without it, the source's `while input[0] != 1` rotation never ends (src/days/day23.rs:78-87). Day23.Part2 likewise (src/days/day23.rs:89-104).
- Day25.DeriveLoopSize: requires the key to be a power of 7 modulo 20201227. Otherwise the loop at src/days/day25.rs:15 never ends. Day25.Part1 requires it of both keys.
- Day17.Run: requires at least two dimensions, as `parse` writes the row into coordinate 1.

Samples whose values are not proved (evaluating them is beyond what the verifier does in reasonable time):
- Day10Samples: the second sample's part 2 answer, 19208. Both samples are taken in sorted order, which any sort of the input gives.
- Day11: the sample's 37 and 26 occupied seats.
- Day15: the 2020th numbers of the seven samples. The first ten turns of "0,3,6" are proved.
- Day17: the sample's 112 and 848 live cells. Only the parse of the sample is proved.
- Day19Samples: the part 2 sample's 12.
- Day22Samples: the recursive game's 291, which would need large literal sets of seen decks.
- Day24: the sample's 10 and 2208 black tiles.
- Day23Samples: reading the sample from text; the moves are proved from the parsed cups.

## Findings

| source | as written | input that shows it | evidently intended | confidence | as-written member | corrected member |
|---|---|---|---|---|---|---|
| src/days/day13.rs:39-49 | `part2` starts at t = 0 with step equal to the first bus's id and ignores that bus's offset. | "x,2,3": the first bus is at offset 1, and the code answers 4, at which bus 2 does not leave 5. | The earliest time at which every bus leaves at its offset: 1 for "x,2,3". | not executed; puzzle inputs start with a bus, where both agree (Day13.Agree) | Day13.FirstOffsetIgnored | Day13.Earliest |
| src/days/day15.rs:11-19 | The seeding loop records the turn of every seed, the last one included, so the first turn after the seeds finds the last seed last spoken one turn ago and says 0, even when that seed was spoken earlier. | Seeds 1,1: the third number should be 1, the gap between turns 1 and 2; the code says 0. | Each new number is the gap since the last number's previous utterance, seeds included. | not executed; puzzle inputs have distinct seeds | Day15.RepeatedSeed | Day15.PlayGame |
| src/days/day20.rs:202 | Roughness is the number of set pixels minus 15 per sea monster, in `usize`. | A 24 by 24 image with every pixel set: 110 overlapping monsters, and 15 * 110 exceeds the 576 set pixels, so the subtraction underflows. | The set pixels that no monster covers. | not executed; puzzle images have non-overlapping monsters, where both agree (Day20.RoughnessAgrees) | Day20.AllSetUnderflows | Day20.WaterRoughnessMeaning |
| src/days/day22.rs:13-32 | `play_game` plays plain Combat until a deck empties, with no guard against a repeated deck pair. | Decks [43,19] and [2,29,14] return to themselves after six rounds, so the loop never ends. | Stop a game whose decks repeat, as the recursive game does: the repeat-guarded game always ends and agrees with `play_game` whenever that ends. | not executed; low, since the puzzle's own inputs end | Day22Loop.LoopingNeverEnds | Day22Loop.GuardedCombat |
