# Longest chord of a rectangle: a Dafny model of the `Task` solver

The program lets a user place sample points and two opposite corners of an axis-aligned
rectangle. `solve` then looks for the line through two sample points that cuts the longest chord
out of the rectangle. It publishes the two points (`sPoints`) and the chord's two ends
(`crossPoints`). This project models the solver state of the `Task` class and proves properties
of the model:

- the state and its operations (`addPoint`, `addTop`, `clear`, `cancel`, `solve` and the query
  methods);
- the per-pair intersection step, with its vertical, horizontal and general branches;
- the pair scan, which carries the running `length`, `crossA` and `crossB` from one pair to the
  next.

Modules:

- `Geometry`: positions, rectangle bounds, lines, squared distances.
- `Engine`: the per-pair intersection step as the program writes it.
- `Scan`: the visiting order of the pairs, and the scan as a fold over the pairs' visits.
- `Task`: the state, the operations, the state invariant, and the properties of `solve`.
- `Intended`: the exact chord of a line and a longest-chord search. These are the corrected
  counterparts of the step and of the scan.
- `Scenarios`: the program's own test scenarios, traced pair by pair.
- `Findings`: inputs on which `solve` departs from its evident intent.

Coordinates are `real`, and every length is modelled by its square. The program compares
`Math.sqrt` distances, and the difference of two corners for vertical and horizontal lines,
against a running maximum that starts at `-1`. Squaring is monotone on non-negative values
(`Geometry.SquareMonotone`), and `-1` stays below every square, so every comparison has the
same outcome.

The model follows the code as written. Behaviours a reader might not expect are kept and stated
as proved properties:

- vertical pairs are never compared (`Findings.VerticalNeverCompared`);
- a pair that misses the rectangle is compared with the length left behind by the previous
  pair (`Findings.StaleChordPublished`);
- a rising line through the bottom-left corner, or a falling line through the bottom-right
  corner, that leaves the rectangle through the top side is recorded with both crossings at
  that corner and length 0 (`Intended.ShortOnlyAtCorner`); every other line that meets the
  rectangle is recorded with its exact chord;
- every `solve` appends its winner, so a second `solve` without any change publishes the same
  winner again (`Task.SolveAppendsAgain`);
- with a rectangle but fewer than two points, `solve` changes nothing, not even the `solved`
  flag (`Task.SolveWithoutPairs`).

The corrected search is `Task.SolveLongest`.

## Model

| member | source | states |
|---|---|---|
| Geometry.Normalise | src/main/java/app/Task.java:341-344 | the bounds from two corners are ordered (left <= right, bottom <= top); each side is one of the two corners' coordinates |
| Geometry.LineOf | src/main/java/app/Task.java:361-371 | the line through two sample points contains both of them, and it is vertical exactly when their x coordinates are equal |
| Geometry.SquareMonotone | src/main/java/app/Task.java:394 | comparing squared lengths orders non-negative lengths the same way as comparing the square roots |
| Engine.PairEffect | src/main/java/app/Task.java:361-422 | every crossing the step assigns lies on the line through the pair and on the rectangle's boundary, and the assigned length is the squared distance between the two crossings |
| Engine.SlopedEffect | src/main/java/app/Task.java:383-422 | in the general branch, each accepted crossing satisfies y = k*x + c and lies on the boundary, including the top crossing that the last branch takes without a check |
| Engine.AcceptCrossings | src/main/java/app/Task.java:388-422 | the general branch assigns nothing exactly when the left, right and bottom crossings all fall outside the sides; it assigns crossA alone exactly when one side crossing is accepted and no second crossing is |
| Engine.TopCrossingInRange | src/main/java/app/Task.java:416-421 | when neither the left nor the right crossing is accepted but the bottom one is, the unchecked top crossing lies on the top side |
| Engine.SecondCrossing | src/main/java/app/Task.java:388-415 | a line accepted on the left (or only the right) side always has a second accepted crossing |
| Engine.SlopedNeverHalf | src/main/java/app/Task.java:388-415 | the general branch never assigns crossA without crossB and length |
| Engine.HalfCrossingUnreachable | src/main/java/app/Task.java:361-422 | no pair leaves the running variables half assigned |
| Engine.NoCrossingOutside | src/main/java/app/Task.java:383-422 | a general line whose left, right and bottom crossings are all rejected has no point inside the rectangle over its whole width |
| Engine.MissIsDisjoint | src/main/java/app/Task.java:361-422 | a pair that assigns nothing has a line that misses the closed rectangle entirely |
| Engine.VerticalPair | src/main/java/app/Task.java:361-367 | a vertical pair meets the rectangle if and only if left <= x <= right; its crossings are (x, bottom) and (x, top), and its length is the height |
| Engine.HorizontalPair | src/main/java/app/Task.java:376-381 | a horizontal pair meets the rectangle if and only if bottom <= y <= top; its crossings are (left, y) and (right, y), and its length is the width |
| Intended.Chord | src/main/java/app/Task.java:361-422 | the corrected step: a chord's ends lie on the line and on the rectangle's boundary |
| Intended.SlopedChord | src/main/java/app/Task.java:383-422 | for a general line, the clipped range gives chord ends on the line and on the boundary |
| Intended.ChordIsIntersection | src/main/java/app/Task.java:361-422 | a point of the line lies in the closed rectangle if and only if the chord exists and the point lies on it |
| Intended.AsWrittenWithinChord | src/main/java/app/Task.java:388-422 | both crossings the program assigns lie on the exact chord, and the assigned length never exceeds the chord's |
| Intended.MeetsIffChord | src/main/java/app/Task.java:361-422 | the program's step assigns a chord if and only if the line meets the rectangle |
| Intended.LongestChord | src/main/java/app/Task.java:354-430 | the corrected scan finds a pair `i < j` whose chord is at least as long as every pair's chord, vertical pairs included, and strictly longer than every earlier pair's chord; there is no winner exactly when no pair's line meets the rectangle |
| Scan.PairsMembers | src/main/java/app/Task.java:354-355 | the two nested loops visit exactly the pairs `i < j < n` |
| Scan.PairsSorted | src/main/java/app/Task.java:354-355 | the loops visit the pairs in strictly increasing lexicographic order |
| Scan.PairIndex | src/main/java/app/Task.java:354-355 | every pair `i < j < n` is visited at some position |
| Scan.PositionOrder | src/main/java/app/Task.java:354-355 | a lexicographically smaller pair is visited at an earlier position |
| Scan.FoldSane | src/main/java/app/Task.java:338-351 | after any number of pairs, the running length is -1 or a length with both crossings set; a winner exists exactly when lengthMax has left -1; every crossing lies on the boundary |
| Scan.StaleLengthCarried | src/main/java/app/Task.java:339 | a pair that assigns a chord is compared with its own length; any other pair is compared with the previous pair's length, or with -1 when it comes first |
| Scan.MaxGrows | src/main/java/app/Task.java:424-425 | lengthMax never decreases along the scan |
| Scan.ComparedBelowMax | src/main/java/app/Task.java:424-430 | every compared pair was compared with a length no greater than the final lengthMax |
| Scan.MaxCoversFreshChords | src/main/java/app/Task.java:424-430 | the final lengthMax is at least the fresh chord length of every compared pair that meets the rectangle |
| Scan.WinnerIsFirstMaximum | src/main/java/app/Task.java:424-430 | the winner is a compared pair whose length equals the final lengthMax; every compared pair before it had a strictly smaller length; the winning crossings are the running crossings right after it |
| Scan.EarlierChordShorter | src/main/java/app/Task.java:424 | a compared pair visited before the winner that meets the rectangle has a strictly shorter chord, because the test is strict |
| Scan.NoWinnerIffNothingCompared | src/main/java/app/Task.java:437 | there is no winner if and only if every compared pair was compared with the sentinel -1 |
| Scan.Visits | src/main/java/app/Task.java:354-422 | one visit per pair, and every visit's effect is admissible: its crossings are on the boundary and its length is non-negative |
| Scan.FoldTied | src/main/java/app/Task.java:392-429 | when every pair assigns its length together with the crossings it is measured between, the running length and lengthMax each stay -1 or the squared distance between the crossings carried with them |
| Scan.Run | src/main/java/app/Task.java:354-433 | the accumulator after scanning the pairs satisfies the scan invariant |
| Task.AddPoint | src/main/java/app/Task.java:212-217 | exactly one point is appended at the end and the earlier points are kept; corners and results are unchanged; the task becomes unsolved |
| Task.AddTop | src/main/java/app/Task.java:224-240 | the task becomes unsolved; a corner sharing x or y with the single existing corner is rejected; a third corner is rejected; otherwise exactly one corner is appended; there are never more than two corners |
| Task.Clear | src/main/java/app/Task.java:316-322 | points, corners and sPoints are emptied and both flags reset; crossPoints is kept |
| Task.Cancel | src/main/java/app/Task.java:473-477 | the results are emptied and the task becomes unsolved; points, corners and the rectangle flag are kept |
| Task.Bnd | src/main/java/app/Task.java:341-344 | the bounds `solve` derives from the two corners are well formed |
| Task.Outcome | src/main/java/app/Task.java:338-433 | the scan over all pairs of the current points ends in a state satisfying the scan invariant |
| Task.SolveWithoutRectangle | src/main/java/app/Task.java:328-331 | without two corners, `solve` only clears the rectangle flag |
| Task.SolveWithoutPairs | src/main/java/app/Task.java:331 | with a rectangle but fewer than two points, `solve` changes nothing |
| Task.SolveNeedsLine | src/main/java/app/Task.java:331-435 | with a rectangle, the task is solved afterwards if and only if it was solved before or has at least two points; with two points the rectangle flag is set |
| Task.SolvePublishes | src/main/java/app/Task.java:435-441 | with a winner, exactly two entries are appended to each result list: the sample points `i < j` of the winning pair in the scan order, and the winner's crossings `crossAmax`, `crossBmax`, which lie on the boundary at squared distance `lengthMax`; without a winner both lists are untouched; the task is solved and the rectangle flag is set |
| Task.SolveMaximality | src/main/java/app/Task.java:424-441 | when a non-vertical pair meets the rectangle, a winner is published, and the two published crossings lie at least as far apart as that pair's own crossings |
| Task.SolveTiesKeepFirst | src/main/java/app/Task.java:424 | a non-vertical pair lexicographically before the winner that meets the rectangle has a strictly shorter chord than the winning length, so ties keep the first pair |
| Task.DegenerateSolve | src/main/java/app/Task.java:507-509 | on a task without earlier results, `isParallelLineCross` holds after `solve` if and only if every compared pair was compared with the sentinel length |
| Task.SolveAppendsAgain | src/main/java/app/Task.java:437-441 | a second `solve` without any change appends the same winner again |
| Task.NewIsValid | src/main/java/app/Task.java:100-106 | a new task with no corners satisfies the state invariant |
| Task.AddPointKeepsValid | src/main/java/app/Task.java:212-217 | `addPoint` keeps the state invariant |
| Task.AddTopKeepsValid | src/main/java/app/Task.java:224-240 | `addTop` keeps the state invariant: at most two corners, and two corners never share an x or a y coordinate |
| Task.CancelKeepsValid | src/main/java/app/Task.java:473-477 | `cancel` keeps the state invariant |
| Task.SolveKeepsValid | src/main/java/app/Task.java:327-450 | `solve` keeps the state invariant: results stay in step, published points are sample points, published crossings lie on the boundary |
| Task.CancelClears | src/main/java/app/Task.java:473-509 | after `cancel` the task is unsolved, both result lists are empty, and `isParallelLineCross` is false |
| Task.ClearKeepsCrossings | src/main/java/app/Task.java:316-322 | `clear` on a task with a published result breaks the state invariant: crossings are left without corners or points |
| Task.StaleCrossingsDrawn | src/main/java/app/Task.java:178-198 | after a `clear`, the next successful `solve` publishes one pair, and the first two crossings, which are the ones drawn, are still the old ones |
| Task.FreshCrossingsDrawn | src/main/java/app/Task.java:437-441 | on a valid task without results, `solve` publishes exactly the winner's own crossings |
| Task.ClearAll | src/main/java/app/Task.java:316-322 | the corrected `clear` empties every list, resets both flags and establishes the state invariant |
| Task.SolveLongest | src/main/java/app/Task.java:327-450 | the corrected `solve` has the same guards and flags; it publishes nothing exactly when no line through two points meets the rectangle; otherwise it publishes points `i < j` and their own chord ends, that chord is a longest one, and every pair before it in the nested-loop order has no chord or a strictly shorter one, as with the strict comparison at line 424; it keeps the state invariant |
| Scenarios.FirstScenario | src/test/java/UnitTest.java:44-65 | points (1,1), (9,9), (6,1), (6,9) with corners (9,8), (2,3): the task is solved, and publishes (1,1), (9,9) with crossings (3,3), (8,8) |
| Scenarios.SecondScenario | src/test/java/UnitTest.java:71-86 | points (-5,1), (-5,-8) with corners (1,1), (9,9): the task is solved, nothing is published, and `isParallelLineCross` holds |
| Findings.VerticalNeverCompared | src/main/java/app/Task.java:361-367 | a vertical line that crosses the rectangle is never published, although its chord exists |
| Findings.StaleChordPublished | src/main/java/app/Task.java:424-430 | a pair whose line misses the rectangle wins with the previous pair's length and is published with that pair's crossings |
| Findings.StaleGeometry | src/main/java/app/Task.java:383-422 | the line of that published pair misses the rectangle and passes through neither published crossing, (5,0) or (5,10) |
| Intended.AcceptedEnds | src/main/java/app/Task.java:388-422 | read against the clipped interval of the exact chord, the two accepted crossings of a general line sit at the interval's two ends, except in the two corner cases, where both sit at the corner and the interval is not a single point |
| Intended.SlopedChordEnds | src/main/java/app/Task.java:383-422 | a general line that meets the rectangle is reported with the exact chord's two ends and squared length, except in the two corner cases, where one end is reported twice with length 0 |
| Intended.ShortOnlyAtCorner | src/main/java/app/Task.java:361-422 | for every pair whose line meets the rectangle, the reported crossings are the exact chord's two ends if and only if the line is not a rising line through the bottom-left corner or a falling line through the bottom-right corner that leaves through the top side; outside those cases the reported length is the chord's; in them it is 0 while the chord's ends differ |
| Findings.CornerCollapse | src/main/java/app/Task.java:388-398 | the rising line through (0,0) and (1,2), with corners (0,0), (1,1), is a corner case: it gets both crossings at the bottom-left corner and length 0, although it leaves the square through the top side at (0.5,1) |
| Findings.CornerChord | src/main/java/app/Task.java:388-398 | the exact chord of that line runs from the corner (0,0) to (0.5,1) |
| Findings.CornerCollapseFalling | src/main/java/app/Task.java:404-410 | the falling line through (1,0) and (0,2), with the same corners, is the other corner case: it gets both crossings at the bottom-right corner (1,0) and length 0, while its exact chord runs from (0.5,1) to (1,0) |

## Left out

- Rendering (`paint`, `renderTask`, `renderGrid`, `paintMouse`, Task.java:115-205, 281-311, 560-577) is drawing code. This includes the `rectangle = true` assignment at Task.java:167, which only happens while drawing.
- Coordinate-system plumbing (`click`, `scale`, `getRealPos`, `getOwnCS`) depends on classes that are not part of this model.
- `addRandomPoints` (Task.java:263-272) draws random numbers.
- Logging through `PanelLog` is a side effect only.
- JSON serialisation and the annotated constructor are left out; `Task.New` takes the points and corners as given.
- Application.java is window creation and event dispatch.
- IEEE-754 doubles are modelled as exact reals: rounding, and exact `==` tests on computed doubles, behave as in real arithmetic.
- `Math.sqrt` is replaced by squared lengths, so the published lengths are squares. Only comparisons of lengths are observable, and `Geometry.SquareMonotone` shows they agree.
- The `Point` and `Vector2d` classes are plain coordinate pairs compared by value.
- The third test (UnitTest.java:91-106) expects empty lists, so it checks nothing and has no scenario. The second test (UnitTest.java:71-86) also expects empty lists and asserts nothing; the outcome `Scenarios.SecondScenario` states for its input is derived from the model, not taken from the test.
- Scan.Assign, Scan.Advance, Scan.Fold and Task.New carry no contracts of their own. They model the loop body (Task.java:361-430) and the constructor (Task.java:100-106); their behaviour is stated by `Scan.Run`, `Scan.FoldSane`, `Scan.FoldTied`, `Scan.WinnerIsFirstMaximum` and `Task.NewIsValid`.
- Task.Solve: its own contract states only that points and corners are kept. Its behaviour is stated by the lemmas `SolveWithoutRectangle`, `SolveWithoutPairs`, `SolveNeedsLine`, `SolvePublishes`, `SolveMaximality`, `SolveTiesKeepFirst` and `DegenerateSolve`.
- Task.IsSolved, Task.IsRectanglePaint, Task.IsLineAble, Task.IsParallelLineCross, Task.GetsPoints and Task.GetCrossPoints are plain getters without contracts, and so is `getPoints`, which is the `points` field of `Task`. The `solve` and `cancel` lemmas state their values.

## Findings

| source | as written | input that shows it | evidently intended | confidence | as-written member | corrected member |
|---|---|---|---|---|---|---|
| src/main/java/app/Task.java:361-367 | the vertical branch assigns a length, but the comparison at line 424 sits in the `else` branch opened at line 368, so a vertical pair never wins | points (5,0), (5,1); corners (0,0), (10,10): nothing is published although x = 5 crosses from (5,0) to (5,10) | vertical pairs are compared like all others | high (not executed) | Findings.VerticalNeverCompared | Task.SolveLongest |
| src/main/java/app/Task.java:424-430 | `length`, `crossA` and `crossB` are declared once before the loops (lines 339, 348-349), so a pair that misses the rectangle is compared with the previous pair's values | points (5,20), (5,30), (30,30); corners (0,0), (10,10): (5,20), (30,30) is published with crossings (5,0), (5,10), and its line misses the rectangle | only a pair whose own line meets the rectangle competes, with its own chord | high (not executed) | Findings.StaleChordPublished | Task.SolveLongest |
| src/main/java/app/Task.java:388-398 | a rising line through the bottom-left corner that leaves through the top side is accepted on the left side and then on the bottom side at the same corner, giving a chord of length 0 | points (0,0), (1,2); corners (0,0), (1,1): crossings (0,0), (0,0) and length 0 | the chord from (0,0) to (0.5, 1) is taken, with squared length 1.25 | high (not executed) | Findings.CornerCollapse | Intended.ChordIsIntersection |
| src/main/java/app/Task.java:404-410 | a falling line through the bottom-right corner that leaves through the top side is accepted on the right side and then on the bottom side at the same corner, giving a chord of length 0 | points (1,0), (0,2); corners (0,0), (1,1): crossings (1,0), (1,0) and length 0 | the chord from (0.5, 1) to (1,0) is taken, with squared length 1.25 | high (not executed) | Findings.CornerCollapseFalling | Intended.ChordIsIntersection |
| src/main/java/app/Task.java:316-322 | `clear` empties `sPoints` but not `crossPoints`; after the next `solve` the drawing code (lines 178-198) draws the two oldest crossings with the new pair | a solved task, then `clear`, two corners, two points and `solve` | `clear` also empties `crossPoints` | high (not executed) | Task.StaleCrossingsDrawn | Task.ClearAll |
