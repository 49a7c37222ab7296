# Prisoner's Dilemma Visualized — the numeric core in Dafny

This project models the numeric core of `PrisonersDilemma.js`, in six modules:

- **Outcome** covers one pairing of the iterated Prisoner's Dilemma:
  - the 4×4 Markov matrix `markovT` over the joint-history states CC, CD, DC, DD;
  - the Tit-for-Tat override of the chosen eigenvector;
  - the normalisation by `vsum`;
  - the two expected payoffs `vnorm·Sx` and `vnorm·Sy`, where `Sy` is `Sx` with Sucker and Temptation swapped.
- **Engine** models `createVisualization` as an imperative method over an `array2<real>` outcome matrix and a `Player` class whose fields `gets`, `gives`, `ratio` and `wins` are updated in place. The nested loops overwrite earlier writes, so the cell `matrix[a][b]` ends with the *later* of its two writes. Each player's figures are the running totals over its own row of pairings. `FinalEntry` states the cell rule and `Expected` states the figures.
- **Standings** proves facts about those figures:
  - result-mode row and column sums;
  - at most one win per opponent and never a win in self-play;
  - the two sides of a pairing can never both win (in strategy mode, when the eigenvector choice is equivariant at that pairing's matrix);
  - a player whose final row equals its final column wins nothing (same condition, for each pairing with a later player);
  - the table agrees with the final matrix (same condition, for each pairing with a later player);
  - Tit-for-Tat against itself.
- **Input** models `parseCSVInput`. It trims each cell and cuts it at the first `#`. It checks the row width (5, or one more than the number of textarea lines). A single `/` means division. A cell must be numeric and, in strategy mode, a probability. One failing cell makes the whole row `false`.
- **Loading** models the two loaders' gate: the engine runs only when no row is `false`, and then on the accepted rows in input order.
- **Wrappers** holds the `Option` type. `None` stands for JavaScript's NaN, an infinity, or the row value `false`.

The globals `Sx`, `Sy` and `isResultMatrix` become a `Session` value. The eigenvector library becomes a function parameter `eigen`. The textarea line count and the string-to-number conversion become a `Reader` value.

The matrix is laid out as `m[to][from]`. Strategy entries 0..3 are the source's `p[1]..p[4]`. A player's `values` are the row's cells after the name.

## Model

| member | source | states |
|---|---|---|
| Outcome.Transition | PrisonersDilemma.js:33-38 | definition of `markovT`: entry `[to][from]` is the probability of joint move `to` after state `from`, with X's probability `p[from]` and Y's for the mirrored state; its properties are the lemmas below |
| Outcome.Total | PrisonersDilemma.js:47 | definition of `vsum`, the sum of the four components |
| Outcome.Dot | PrisonersDilemma.js:49-50 | definition of the one-row-times-one-column `Matrix.mult` |
| Outcome.RowPayoffs | PrisonersDilemma.js:232 | definition of `Sx = [R, S, T, P]` |
| Outcome.PayoffX | PrisonersDilemma.js:49-50 | definition of X's expected payoff `vnorm·Sx`, for a vector whose `vsum` is not zero |
| Outcome.PayoffY | PrisonersDilemma.js:49-50 | definition of Y's expected payoff `vnorm·Sy`, for a vector whose `vsum` is not zero |
| Outcome.Mirror | PrisonersDilemma.js:233 | relabelling a state vector from the other player's side: component i becomes component Swap(i), exchanging CD and DC |
| Outcome.MirrorMatrix | PrisonersDilemma.js:33-38 | relabelling a matrix permutes both its rows and its columns by Swap |
| Outcome.TransitionEntry | PrisonersDilemma.js:33-38 | `markovT[to][from]` is the probability of joint move `to` when X uses its own probability for `from` and Y uses its probability for the mirrored state (so `q[3]` in CD, `q[2]` in DC) |
| Outcome.JointMoveBounds | PrisonersDilemma.js:33-38 | for probabilities a and b, each joint-move product is a probability, and the four products sum to 1 |
| Outcome.ProductOfProbabilities | PrisonersDilemma.js:33-38 | the product of two probabilities is a probability |
| Outcome.TransitionIsStochastic | PrisonersDilemma.js:33-38 | for strategies in [0,1], every entry of `markovT` is in [0,1] and every from-column sums to 1 |
| Outcome.StepTotal | PrisonersDilemma.js:33-38 | one step of the chain redistributes each state's mass by that state's column total |
| Outcome.StepPreservesTotal | PrisonersDilemma.js:33-38 | with genuine strategies a step of the chain keeps the total probability mass |
| Outcome.TransitionRoleSymmetry | PrisonersDilemma.js:33-38 | Y's matrix against X equals X's matrix against Y with CD and DC exchanged in both rows and columns |
| Outcome.ColumnPayoffs | PrisonersDilemma.js:232-233 | `Sy` is `[R, T, S, P]` |
| Outcome.MirrorInvolution | PrisonersDilemma.js:233 | swapping Sucker and Temptation twice gives back `Sx` (relabelling is an involution) |
| Outcome.MirrorPreservesTotal | PrisonersDilemma.js:47 | relabelling keeps `vsum` |
| Outcome.MirrorPreservesDot | PrisonersDilemma.js:49-50 | relabelling both factors keeps a payoff product |
| Outcome.Scale | PrisonersDilemma.js:48 | `Matrix.scale` multiplies every component by the factor |
| Outcome.DotScale | PrisonersDilemma.js:48-49 | scaling the vector scales its payoff product by the same factor |
| Outcome.Normalize | PrisonersDilemma.js:47-48 | when `vsum` is not zero, `vnorm` sums to 1 and is proportional to `v` component by component |
| Outcome.NormalizeMirror | PrisonersDilemma.js:47-48 | normalising commutes with relabelling |
| Outcome.StepScale | PrisonersDilemma.js:48 | a step of the chain commutes with scaling |
| Outcome.ScaleKeepsFixedPoint | PrisonersDilemma.js:48 | any multiple of a fixed point of the chain is a fixed point |
| Outcome.NormalizeKeepsFixedPoint | PrisonersDilemma.js:39-48 | if the library's vector is stationary, the normalised `vnorm` is stationary too |
| Outcome.Stationary | PrisonersDilemma.js:39-45 | the override `[1,0,0,0]` applies exactly when both strategies are `(1,0,1,0)`; otherwise the library's eigenvector of `markovT` is used |
| Outcome.PayoffRoleSymmetry | PrisonersDilemma.js:47-50 | when the eigenvector choice is equivariant at `Transition(p, q)` (`EquivariantAt`), Y's payoff in pairing (q, p) is X's payoff in (p, q), and the other way round |
| Outcome.TitForTatOverride | PrisonersDilemma.js:43-50 | Tit-for-Tat against itself uses `[1,0,0,0]`, which is a fixed point of its `markovT`, and both payoffs are Reward |
| Outcome.ConstantChainMass | PrisonersDilemma.js:39-40 | when every column of the matrix is the unit vector of state k, any fixed point has all its mass on k |
| Outcome.ConstantChain | PrisonersDilemma.js:39-48 | for such a matrix, whatever stationary vector the library returns normalises to the unit vector of state k |
| Outcome.AllCooperateAgainstAllDefect | PrisonersDilemma.js:33-50 | for a stationary library vector, always-cooperate against always-defect pays X the Sucker payoff and Y the Temptation |
| Outcome.AllDefectAgainstAllDefect | PrisonersDilemma.js:33-50 | for a stationary library vector, mutual always-defect pays both players Punishment |
| Outcome.AllCooperateAgainstAllCooperate | PrisonersDilemma.js:33-50 | for a stationary library vector, mutual always-cooperate pays both players Reward |
| Engine.Player.constructor | PrisonersDilemma.js:224 | an accepted row becomes a player record with its name and values, and with its figures at zero and no ratio |
| Engine.Values | PrisonersDilemma.js:16-25 | the strategy or result values of the players, in order |
| Engine.XWrite | PrisonersDilemma.js:28-49 | definition of the value pairing (x, y) stores in `matrix[x][y]`: `players[x][y+1]` in result mode, X's payoff otherwise |
| Engine.YWrite | PrisonersDilemma.js:28-50 | definition of the value pairing (x, y) then stores in `matrix[y][x]`: `players[y][x+1]` in result mode, Y's payoff otherwise |
| Engine.Received | PrisonersDilemma.js:54 | definition of what pairing (x, y) adds to `gets`: `matrix[x][y]` just after the pairing, which on the diagonal is the second write |
| Engine.Given | PrisonersDilemma.js:55 | definition of what pairing (x, y) adds to `gives`: `matrix[y][x]` just after the pairing |
| Engine.Round2 | PrisonersDilemma.js:57 | definition of `d3.round(v, 2)` scaled by 100: round half up to the nearest hundredth |
| Engine.Win | PrisonersDilemma.js:57 | definition of the win test: the rounded value received beats the rounded value given |
| Engine.Sum | PrisonersDilemma.js:54-55 | definition of the left-to-right running total that `+=` builds |
| Engine.Count | PrisonersDilemma.js:57 | the number of `true` flags that `+=` of booleans builds, never more than the number of flags |
| Engine.Expected | PrisonersDilemma.js:54-57 | definition of a player's figures after its row: the total received, the total given, their ratio and the number of wins |
| Engine.Ratio | PrisonersDilemma.js:56 | a ratio exists exactly when `gives` is not zero, and then ratio × gives = gets |
| Engine.FinalEntry | PrisonersDilemma.js:21-50 | last-write rule: in result mode the cell is `players[a][b+1]`; in strategy mode an off-diagonal cell with a > b holds line 49's X payoff of pairing (a, b), and one with a ≤ b (the diagonal included) holds line 50's Y payoff of pairing (b, a) |
| Engine.FinalProgress | PrisonersDilemma.js:15-58 | once all pairings are done, the loops' view of every cell is its final entry |
| Engine.ProgressAfterPairing | PrisonersDilemma.js:29-50 | the two writes of pairing (x, y) change exactly `matrix[x][y]` and `matrix[y][x]` (the second wins on the diagonal) |
| Engine.ClosingIsExpected | PrisonersDilemma.js:54-57 | the figures read off the tables of writes are the totals the pairings promise |
| Engine.SumStep | PrisonersDilemma.js:54-55 | `+=` over one more pairing adds that pairing's value to the running total |
| Engine.CountStep | PrisonersDilemma.js:57 | adding a boolean adds 1 exactly when the pairing is won |
| Engine.WritePairing | PrisonersDilemma.js:28-50 | pairing (x, y) writes the copied result cells or the two payoffs into `matrix[x][y]` and then `matrix[y][x]`; every other cell is unchanged |
| Engine.EmptyRow | PrisonersDilemma.js:17 | row x is replaced by an empty row, so earlier writes to it are lost |
| Engine.Tally | PrisonersDilemma.js:54-57 | one pairing adds to `gets` and `gives`, recomputes `ratio`, and adds one win exactly when the rounded figure received beats the rounded figure given |
| Engine.CreditPairing | PrisonersDilemma.js:54-57 | crediting pairing (x, y) moves x's running figures from the first y opponents to the first y+1 |
| Engine.PlayPairing | PrisonersDilemma.js:21-58 | one inner iteration keeps both the matrix invariant and x's running figures |
| Engine.PlayRow | PrisonersDilemma.js:15-59 | one outer iteration resets x's figures, empties row x, and ends with x's figures equal to the totals over its row of pairings |
| Engine.CreateVisualization | PrisonersDilemma.js:13-59 | afterwards every matrix cell holds its last surviving write (`FinalEntry`) and every player's table is `Expected`: the sums of what it received and gave, their ratio, and its rounded wins |
| Standings.ResultModeTotals | PrisonersDilemma.js:28-55 | in result mode `gets[x]` is the sum of x's own result row and `gives[x]` the sum of column x over every row, x's own included |
| Standings.CountWithFalse | PrisonersDilemma.js:57 | a row of flags with one `false` counts fewer wins than its length |
| Standings.WinsAtMostOpponents | PrisonersDilemma.js:20-57 | self-play is never a win, and wins never exceed the number of other players |
| Standings.WinsAntisymmetric | PrisonersDilemma.js:57 | x beating y and y beating x are never both counted (in result mode unconditionally, in strategy mode when the eigenvector choice is equivariant at `Transition(vals[x], vals[y])`) |
| Standings.CreditsMatchFinalMatrix | PrisonersDilemma.js:49-55 | what pairing (x, y) credits to x equals the final `matrix[x][y]` and `matrix[y][x]` (in strategy mode with a later player y > x, under the same condition for that pairing; otherwise unconditionally) |
| Standings.TableMatchesMatrix | PrisonersDilemma.js:54-55 | when that condition holds for each pairing of x with a later player (y > x), `gets` is the final matrix's row sum and `gives` its column sum |
| Standings.CountAllFalse | PrisonersDilemma.js:57 | a row of flags with no `true` counts no wins |
| Standings.SymmetricRowNoWins | PrisonersDilemma.js:54-57 | a player whose final row equals its final column (`payoff(x, y) = payoff(y, x)` for every y) ends with zero wins, under the same condition for each pairing of x with a later player (y > x) |
| Standings.RoundedComparison | PrisonersDilemma.js:57 | a lead of at least 0.01 is always a win, and a win always means a strict lead |
| Standings.TitForTatPairing | PrisonersDilemma.js:43-57 | two Tit-for-Tat players both receive and give Reward, and neither wins |
| Input.Trim | PrisonersDilemma.js:190 | definition of `column.trim()`: the cell without its leading and trailing white space |
| Input.CleanCell | PrisonersDilemma.js:190 | definition of line 190's cleaning: trim, then keep what comes before the first `#` |
| Input.IsDivision | PrisonersDilemma.js:205 | definition of `split("/").length === 2`: the cell holds exactly one `/` |
| Input.WidthOk | PrisonersDilemma.js:193-194 | definition of the width check: 5 cells for strategies, one more than the textarea's line count for results |
| Input.CellOk | PrisonersDilemma.js:205-214 | definition of a passing value cell: it has a number and, for strategies, that number lies in [0, 1] |
| Input.ParseRow | PrisonersDilemma.js:221-225 | definition of the row rule: no failing cell gives the name and the numbers, any failing cell gives `false`; its properties are `ParseRowRejects` and `ParseRowKeeps` |
| Input.LeadingSpace | PrisonersDilemma.js:190 | the count of leading white-space characters, which is followed by a non-white-space character or the end |
| Input.TrailingSpace | PrisonersDilemma.js:190 | the count of trailing white-space characters, which is preceded by a non-white-space character or the start |
| Input.TrimSlice | PrisonersDilemma.js:190 | `trim()` keeps a contiguous middle part of the cell and removes only white space around it |
| Input.TrimEnds | PrisonersDilemma.js:190 | a trimmed cell neither starts nor ends with white space |
| Input.TrimIdempotent | PrisonersDilemma.js:190 | trimming twice is trimming once |
| Input.IndexOf | PrisonersDilemma.js:190 | the first position of a character, or the length when the character does not occur |
| Input.BeforeHash | PrisonersDilemma.js:190 | `split("#")[0]` is a prefix with no `#`, ending just before the first `#` when there is one |
| Input.Operands | PrisonersDilemma.js:205-206 | a cell with exactly one `/` is the two operands joined by that `/`, neither containing `/` |
| Input.CellValue | PrisonersDilemma.js:205-210 | a cell without a single `/` has the value of its conversion; a division cell has a value exactly when both operands convert and the divisor is not zero, and then value × divisor = dividend |
| Input.ParseCell | PrisonersDilemma.js:188-218 | a cell fails exactly when the row width is wrong, or when it is a value cell that is not numeric or (for strategies) outside [0,1]; otherwise the name stays as cleaned text and a value cell becomes its number |
| Input.MapRow | PrisonersDilemma.js:188-218 | the mapped row has the same length, and each cell is parsed with its own index and the row's width |
| Input.RowRejection | PrisonersDilemma.js:188-225 | a mapped row contains a failing cell exactly when the width is wrong or some value cell fails |
| Input.ParseRowRejects | PrisonersDilemma.js:221-225 | a row is `false` exactly when its width is wrong or some value cell fails |
| Input.ParseRowKeeps | PrisonersDilemma.js:199-216 | an accepted row keeps its cleaned name and has one number per value cell, in order, each the value of that cell |
| Input.ParseCSVInput | PrisonersDilemma.js:186-227 | every tokenised row is validated on its own, keeping the row count and order |
| Input.LoadPlayers | PrisonersDilemma.js:234 | the loader goes on exactly when no row is `false`, and the players are then the accepted rows in order |
| Loading.AcceptedStrategy | PrisonersDilemma.js:193-214 | an accepted strategy row has four values, each in [0,1] |
| Loading.AcceptedResults | PrisonersDilemma.js:193-194 | an accepted result row has one value per textarea line |
| Loading.LoadedIsWellFormed | PrisonersDilemma.js:231-238 | rows that pass the gate are input the engine accepts |
| Loading.MakePlayers | PrisonersDilemma.js:231 | one fresh and distinct player per accepted row, with that row's name and values |
| Loading.Load | PrisonersDilemma.js:229-240 | the engine runs exactly when every row is acceptable; then the players are the parsed rows in order, and the matrix and figures are those of `createVisualization` |

## Left out

- The eigen-decomposition `Matrix.eigenstructure` / `Matrix.transpose(eig.V).mat[0]` (lines 39-40) is a library that is not part of this model. The chosen vector is the parameter `eigen`, a function of the matrix. It is never assumed stationary, except by the lemmas that say so in their `requires`.
- Floating point is modelled as exact `real` arithmetic. `d3.round(x, 2)` is `Floor(100·x + 1/2)`, compared as integers.
- Engine.CreateVisualization: requires that `vsum` is not zero for every strategy pairing (`Playable`), where the JavaScript program would divide by zero and carry NaN into the table.
- Engine.Ratio: `gives == 0` gives `None`; the JavaScript program stores Infinity or NaN.
- Input.CellValue: a zero divisor is rejected. The JavaScript program yields NaN for `0/0`, which it rejects, and an infinity otherwise. Strategy mode rejects an infinity by the range test, but result mode accepts it.
- `d3.csv.parseRows` tokenisation and quoting (line 187) and the `CSVstring.trim()` before it are not modelled. The input is a sequence of tokenised rows, each with at least one field.
- In result mode, lines 209-216 accept a cell whose conversion is an infinity (for example `Infinity` or `1e999`). `Reader.num` returns a real or `None`, so the model cannot express such a cell. Strategy mode rejects it anyway by the range test.
- JavaScript's `+s` string-to-number grammar is the abstract partial function `Reader.num` (`None` for NaN). For example, `+""` being 0 is left to that function.
- Reading the textareas and the payoff inputs (lines 194, 231-232, 252) is not modelled. The line count, the payoffs and the rows are parameters. A payoff input that converts to NaN is not modelled.
- Loading.Load: requires `Ready`. In result mode that means there are no more rows than textarea lines, which holds whenever the rows come from that textarea. In strategy mode it means every accepted pair is `Playable`.
- The `faulty` classes, table building and sorting, the chord diagram, colours, text truncation, fades, preset buttons and event wiring (lines 60-185, 235-237, 242-248, 254-256, 261-287) are DOM work and out of scope.
- Standings.WinsAntisymmetric: in strategy mode this is proved only where the eigenvector choice commutes with relabelling at the pairing's matrix (`EquivariantAt`). That holds for a choice that returns the eigenvalue-1 eigenvector, on matrices whose eigenvalue-1 eigenspace is one-dimensional. Line 40 takes the library's first eigenvector and does not select by eigenvalue, so the model assumes the condition and does not prove it.
- Standings.CreditsMatchFinalMatrix: the same per-pairing condition in strategy mode, for a pairing with a later player (y > x). Without it, the values summed into `gets`/`gives` for x < y can differ from the final matrix cells.
- Standings.TableMatchesMatrix: the same condition in strategy mode, for each pairing with a later player (y > x).
- Standings.SymmetricRowNoWins: the same condition in strategy mode, for each pairing with a later player (y > x).
- The JavaScript matrix is a jagged array whose row x is replaced by a new empty array at line 17. The model uses an n×n `array2` and reads an emptied or unwritten cell as 0. By the end every cell has been written, so the final matrix is unaffected.
- The player records are the source's row arrays with extra properties. The model keeps the name and the numbers as separate constant fields of `Player`.
