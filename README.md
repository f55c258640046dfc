# Three puzzle solvers: a verified model

This project models the solvers for days 1 to 3 of an Advent of Code 2024
repository. It covers the logic each solver runs once its input lines are
read and parsed.

- **Day 1, location lists** (`src/bin/01.rs`). The input has two columns of
  unsigned numbers.
  - The first answer sorts both columns, pairs them by rank and sums the
    absolute differences of the pairs.
  - The second answer builds an occurrence map of the right column. It then
    sums every left number times its count on the right.
- **Day 2, reactor reports** (`src/bin/02.rs`). A report is a sequence of
  levels. It is safe when it is strictly increasing or strictly decreasing,
  and every step has a size from 1 to 3.
  - `report_is_safe` scans the report once. It keeps a running direction,
    which the first step fixes. It can first remove one level from a clone
    of the report.
  - The first answer counts the safe reports.
  - The second answer adds the unsafe reports that become safe once some
    single level is removed.
- **Day 3, corrupted memory** (`src/bin/03.rs`). The instructions are the
  matches of `mul(a,b)`, where each operand has 1 to 3 digits, and of `do()`
  and `don't()`.
  - The first answer sums the products of the `mul` matches, line by line.
  - The second answer joins all lines into one string. It folds the matches
    through an `(enabled, sum)` state, which starts at `(true, 0)`.

## Files

- `wrappers.dfy`: the `Option` type.
- `report_safety.dfy` (module `ReportSafety`): `delta_is_safe`, and
  `report_is_safe` as an imperative method proved against the declarative
  predicate `Safe`. It also has the two counts and their relation.
- `list_distance.dfy` (module `ListDistance`):
  - the first answer, over an insertion sort specified as the unique sorted
    permutation
  - the occurrence-map loop as a method over a Dafny `map`
  - the similarity sum
- `mul_instructions.dfy` (module `MulInstructions`): the `Do | Dont | Mul(a, b)`
  tokens, the product sum, and the `(enabled, sum)` fold with its properties.
- `mul_scanner.dfy` (module `MulScanner`): a hand scanner for the literal
  pattern, which stands in for the regex. Its main properties:
  - The operand parser agrees with the regex's backtracking over `\d{1,3}`.
  - The `mul` matches do not depend on whether toggles are matched too.
  - Rendering any token stream as text and scanning it gives the stream back.
- `mul_fixtures.dfy` (module `MulFixtures`): the two example lines of day 3,
  plus a few corner inputs.

## Model

| member | source | states |
|---|---|---|
| ReportSafety.DeltaIsSafe | src/bin/02.rs:36-46 | A step of 0, or of size over 3, is rejected under every direction. Under `Unknown`, a step is accepted iff its size is 1..3. Under `Increasing`, iff it is in 1..3. Under `Decreasing`, iff it is in -3..-1. |
| ReportSafety.RemoveAt | src/bin/02.rs:52-54 | Removing index `i` shortens the report by one. Levels before `i` keep their place, and the levels after `i` move down by one. |
| ReportSafety.Skipped | src/bin/02.rs:51-54 | Without a skip index the scanned report is the report itself. With one, it is one level shorter and holds the same levels, as a multiset, less the removed one. |
| ReportSafety.ReportIsSafe | src/bin/02.rs:48-73 | The scan returns true exactly when the report is safe: all steps are in 1..3 or all are in -3..-1. With a skip index, it scans the report with that level removed. The caller's report is a value and stays as it was. |
| ReportSafety.AcceptedStep | src/bin/02.rs:60-67 | After every accepted step the direction equals the one the first step's sign gives (`FirstDirection`): the first step fixes it and later steps keep it. The steps checked so far all lie in that direction's class. |
| ReportSafety.RejectedStepUnsafe | src/bin/02.rs:68-70 | When the scan rejects a step and returns false, the report is unsafe. |
| ReportSafety.ScanCompleteSafe | src/bin/02.rs:55-72 | A scan that reaches the end without a rejection has seen a safe report. |
| ReportSafety.BadStepUnsafe | src/bin/02.rs:37-38 | A step of 0, or of size over 3, anywhere makes the report unsafe. |
| ReportSafety.ShortReportSafe | src/bin/02.rs:55-72 | Reports of length 0 or 1 are safe. |
| ReportSafety.PairSafe | src/bin/02.rs:55-72 | A two-level report is safe iff its one step has size 1 to 3. |
| ReportSafety.SafeReversed | src/bin/02.rs:40-44 | Reversing a report swaps the increasing and decreasing classes, and keeps the verdict. |
| ReportSafety.Part1 | src/bin/02.rs:75-84 | The count of safe reports is at most the number of reports. |
| ReportSafety.Partition | src/bin/02.rs:97-102 | Together, the two parts of the partition hold exactly the reports, as a multiset. The first part has as many reports as the first answer counts. |
| ReportSafety.PartitionBySafety | src/bin/02.rs:102 | Every report in the first part is safe, and every report in the second part is unsafe. |
| ReportSafety.FindRescue | src/bin/02.rs:107 | The search returns the least index whose removal makes the report safe. It returns none when no index does. |
| ReportSafety.CountRescued | src/bin/02.rs:104-107 | The number of rescued reports is at most the number of reports looked at. |
| ReportSafety.CountRescuedAppend | src/bin/02.rs:104-109 | The rescued count of a concatenation is the sum of the rescued counts of its parts. |
| ReportSafety.Part2 | src/bin/02.rs:96-110 | The second answer (safe count plus rescued count) lies between the first answer and the number of reports. |
| ReportSafety.Part2CountsTolerant | src/bin/02.rs:96-110 | A report counts in the second answer iff it is safe, or safe after removing some one level. |
| ReportSafety.Part1AtMostTolerant | src/bin/02.rs:81 | The first answer is at most the number of reports that are safe or safe after one removal. |
| ReportSafety.Part2AtLeastPart1 | src/bin/02.rs:96-110 | The second answer is never below the first. |
| ReportSafety.ShortReportTolerant | src/bin/02.rs:102-109 | Every report of length at most 2 counts in the second answer. |
| ReportSafety.FixtureReversal | src/bin/02.rs:17 | Report `1 3 2 4 5` is unsafe. Removing index 1 is the first removal that rescues it. |
| ReportSafety.FixtureFlat | src/bin/02.rs:18 | Report `8 6 4 4 1` is unsafe. Removing index 2 is the first removal that rescues it. |
| ReportSafety.Fixture | src/bin/02.rs:13-20 | On the six-report example, the first answer is 2 and the second is 4 (the asserts at lines 86 and 112). |
| ListDistance.Insert | src/bin/01.rs:38-39 | Inserting into a sorted column keeps it sorted and adds exactly the new element. |
| ListDistance.Sort | src/bin/01.rs:38-39 | `sorted` returns a sorted permutation of its column. |
| ListDistance.SortedUnique | src/bin/01.rs:38-39 | Two sorted permutations of the same column are equal, so the result of `sorted` is fully determined. |
| ListDistance.AbsDiff | src/bin/01.rs:40 | The distance is what must be added to the smaller number to reach the larger. |
| ListDistance.SumAbsDiff | src/bin/01.rs:38-41 | The sum of the distances of the positional pairs is zero exactly when every pair, up to the shorter sequence, is equal. |
| ListDistance.Part1 | src/bin/01.rs:29-44 | For columns of one length, the first answer is zero exactly when the two columns hold the same numbers, each as often. |
| ListDistance.Part1PairsByRank | src/bin/01.rs:38-41 | The first answer is the sum of the absolute differences of the sorted columns, paired by rank. Any sorted permutations give that sum. |
| ListDistance.Part1PermutationInvariant | src/bin/01.rs:38-39 | Reordering either column leaves the first answer unchanged. |
| ListDistance.SumAbsDiffSymmetric | src/bin/01.rs:39-40 | The paired distance sum is symmetric in its two sequences. |
| ListDistance.Part1Symmetric | src/bin/01.rs:38-40 | Swapping the two columns leaves the first answer unchanged. |
| ListDistance.OccurrenceMap | src/bin/01.rs:65-68 | After the loop, the map has an entry exactly for the values in the right column. Each entry is the number of times its value occurs there. |
| ListDistance.Lookup | src/bin/01.rs:71 | The looked-up count is zero exactly when the number has no entry or a zero entry. |
| ListDistance.SimilaritySum | src/bin/01.rs:69-72 | The sum of every left number times its looked-up count is zero exactly when each left number is zero or has count zero. |
| ListDistance.SimilaritySumMatches | src/bin/01.rs:69-72 | Summing `l * get(l).unwrap_or(0)` over any exact occurrence map gives the similarity: every left number times its count on the right. |
| ListDistance.Part2 | src/bin/01.rs:56-74 | The second answer is the similarity score of the two columns. |
| ListDistance.SimilarityOfMissing | src/bin/01.rs:71 | A left number that does not occur on the right contributes 0. |
| ListDistance.SimilarityAppend | src/bin/01.rs:69-72 | The similarity of a concatenated left column is the sum of the similarities of its parts. |
| ListDistance.SimilarityPermutationInvariant | src/bin/01.rs:65-72 | Reordering either column leaves the similarity unchanged. |
| ListDistance.Fixture | src/bin/01.rs:13-20 | On the six-row example, the first answer is 11 and the second is 31 (the asserts at lines 46 and 76). |
| MulInstructions.Product | src/bin/03.rs:23-25 | A match contributes at most 999 * 999, since operands have at most three digits. Its contribution is zero exactly when it is a toggle or a `mul` with a zero operand. |
| MulInstructions.ProductSum | src/bin/03.rs:28-33 | The product sum of `n` tokens is at most `999 * 999 * n`. |
| MulInstructions.ProductSumAppend | src/bin/03.rs:32-33 | The product sum of a concatenation is the sum of the product sums of its parts. |
| MulInstructions.ProductSumOfMuls | src/bin/03.rs:23-33 | Removing the `do()`/`don't()` tokens leaves the product sum unchanged. |
| MulInstructions.Step | src/bin/03.rs:60-74 | `do()` sets enabled and `don't()` clears it. A `mul` keeps enabled. The sum grows by the product exactly for a `mul` seen while enabled, and otherwise stays. |
| MulInstructions.Fold | src/bin/03.rs:59-75 | Along the fold the running sum never decreases, and grows by at most the product sum of the tokens seen. |
| MulInstructions.Run | src/bin/03.rs:59-75 | Starting from `(true, 0)`, the second answer's sum is at most the product sum of the same stream. |
| MulInstructions.FoldAppend | src/bin/03.rs:59-75 | Folding a concatenation is folding its first part, then its second. |
| MulInstructions.RunExtend | src/bin/03.rs:60-74 | `do()` sets enabled and `don't()` clears it, and neither changes the sum. A `mul` adds its product `a*b` when enabled. When disabled, the state is unchanged. |
| MulInstructions.EnabledIffLastToggle | src/bin/03.rs:60-66 | After any token stream, enabled is true iff the last toggle was `do()`, or there was none. |
| MulInstructions.SumMonotone | src/bin/03.rs:59-75 | The sum after a prefix is at most the sum after the whole stream. |
| MulInstructions.FoldWithoutToggles | src/bin/03.rs:67-71 | Starting enabled, a stream without toggles adds exactly its product sum, and stays enabled. |
| MulInstructions.RunWithoutToggles | src/bin/03.rs:59-75 | On a stream with no `do()`/`don't()`, the second answer's sum equals the first answer's product sum. |
| MulScanner.DigitRunIsMaximal | src/bin/03.rs:28 | The counted digit run is all digits. It stops short of its cap only at the end of the text or at a non-digit. |
| MulScanner.DigitsValue | src/bin/03.rs:24 | `n` digits parse to a value below 10^n. |
| MulScanner.ParseOperand | src/bin/03.rs:28 | A parsed operand is below 1000. The position after it moves forward and stays in bounds. |
| MulScanner.ParseOperandIsRegex | src/bin/03.rs:28 | `\d{1,3}` followed by a non-digit delimiter matches iff there is a split into 1 to 3 digits followed by the delimiter. The match then yields that split's value. |
| MulScanner.MatchMul | src/bin/03.rs:28 | A `mul` match starts with `m`, is at least 8 characters long and lies inside the text. |
| MulScanner.MatchToggle | src/bin/03.rs:50 | A toggle match is `do()` of length 4 or `don't()` of length 7, and starts with `d`. |
| MulScanner.MatchShape | src/bin/03.rs:50 | A match takes at least four characters and lies inside the text. Without toggles it is a `mul`. A toggle match and a `mul` match never start at one position, so a `mul` match is found whether or not toggles are looked for. |
| MulScanner.ScanFromLength | src/bin/03.rs:59 | Scanning from a position yields at most as many matches as there are characters left. |
| MulScanner.Scan | src/bin/03.rs:32 | A text holds at most as many matches as characters. |
| MulScanner.Join | src/bin/03.rs:55 | A single line joins to itself. |
| MulScanner.JoinAppend | src/bin/03.rs:55 | Joining the lines of two documents gives the two joined texts, one after the other. |
| MulScanner.Part1 | src/bin/03.rs:27-36 | The first answer, summed line by line, is at most 999 * 999 times the length of all the text. |
| MulScanner.Part2 | src/bin/03.rs:48-78 | The second answer is at most the product sum of the `mul` matches of the joined text. |
| MulScanner.SkipWithoutM | src/bin/03.rs:28 | A stretch with no `m` starts no `mul` match, and the scan steps over it. |
| MulScanner.ToggleSkipped | src/bin/03.rs:50 | The `mul`-only scan steps over a toggle match. |
| MulScanner.MulsOfScan | src/bin/03.rs:50 | The `mul` tokens of the combined scan are exactly the matches of the `mul` pattern alone. |
| MulScanner.Part2AtMostPart1 | src/bin/03.rs:27-78 | On one line, the second answer never exceeds the first. |
| MulScanner.Part2EqualsPart1WithoutToggles | src/bin/03.rs:27-78 | On one line with no toggle match, the two answers agree. |
| MulScanner.DecimalValue | src/bin/03.rs:68-69 | The decimal text of an operand is all digits, and parses back to the operand. |
| MulScanner.OperandRendered | src/bin/03.rs:28 | A rendered operand followed by its delimiter parses back to that operand. |
| MulScanner.MatchRendered | src/bin/03.rs:50 | A rendered token is matched whole, as itself, where it stands. |
| MulScanner.ScanStep | src/bin/03.rs:59 | Where a match is found, the scan emits it and resumes right after it. |
| MulScanner.ScanEmits | src/bin/03.rs:59 | When matches follow one another up to the end of the text, the scan yields exactly those matches. |
| MulScanner.ScanRendered | src/bin/03.rs:28-59 | Round trip: scanning the text of any token stream gives the stream back. Scanning for `mul` alone gives its `mul` tokens. |
| MulFixtures.FirstExample | src/bin/03.rs:13 | The first example line yields `mul(2,4)`, `mul(5,5)`, `mul(11,8)` and `mul(8,5)`, and its first answer is 161 (the assert at line 38). `mul[3,7]` and `mul(32,64]` yield nothing. |
| MulFixtures.SecondExample | src/bin/03.rs:14 | The second example line yields the matches with `don't()` and the `do()` inside `undo()`, and its second answer is 48 (the assert at line 80). |
| MulFixtures.FourDigitsRejected | src/bin/03.rs:28 | A four-digit operand is no match. |
| MulFixtures.ToggleCarriesAcrossLines | src/bin/03.rs:52-55 | A `don't()` on one line disables the `mul` on the next line in the second answer. The first answer still counts it. |
| MulFixtures.MulSplitOverLines | src/bin/03.rs:29-55 | A `mul` split over two lines counts only in the second answer, which joins the lines. |

## Left out

- Reading input: file opening, `BufReader`/`lines()`/`map_while`, `start_day`, `time_snippet!` and `println!`. This is I/O and timing. The models take the parsed lines or columns as parameters.
- The runs on the real input files. They have no expected value to state.
- Parsing rows with `split`, `split_once("   ")` and `parse().unwrap()`. Rows are taken as already parsed, and the panic on a malformed row is not modelled. Day 3's operand parse cannot fail on a match, and is modelled by `DigitsValue`.
- The `regex` crate. For day 3, `MulScanner` models only the two fixed patterns as a left-to-right scanner. `\d` is modelled as the ASCII digits 0-9. The crate's `\d` also matches other Unicode decimal digits, which `parse::<u32>` would then reject with a panic.
- Machine integer overflow. The model uses unbounded integers for:
  - the `i32` subtraction in `report_is_safe`
  - the `u32` sums in days 1 and 3
  - the `u32` product in day 3
  - the `usize` counts in day 2
  In the source, an overflowing value would panic in debug builds and wrap in release builds.
- `itertools::sorted` and `HashMap`. They are modelled as an insertion sort, specified as the unique sorted permutation, and as a Dafny `map` that is only looked up, as the source does. The input order of the columns does not matter to either answer: `ListDistance.Part1PermutationInvariant` and `ListDistance.SimilarityPermutationInvariant`.
- `Vec::remove(i)` with `i >= len` panics. `ReportSafety.ReportIsSafe` requires the skip index to be within the report, which every call site ensures (`0..report.len()`).
- `Vec::clone`: reports are values (`seq<int>`), so the caller's report is unchanged by construction rather than by a proof about aliasing.
- ReportSafety.Part1, ReportSafety.Partition and ReportSafety.FindRescue call the declarative `Safe` where the source calls `report_is_safe`. `ReportSafety.ReportIsSafe` proves the two agree on every input and every skip index.
- ListDistance.Part1: day 1's columns are modelled as two sequences of any lengths. `zip` pairs them up to the shorter one.
- The unused imports (`sorted` and `HashMap` in day 2).
- Reports of length 2 or less are sometimes described as always safe. The code rejects a two-level report whose step is 0 or larger than 3. The model follows the code (`ReportSafety.PairSafe`), and such a report still counts in the second answer (`ReportSafety.ShortReportTolerant`).
