/**
 * The outcome engine: for every ordered pair of players it writes both cells
 * of the pairing into the outcome matrix, overwriting what earlier pairings
 * wrote there, and accumulates each player's table figures (points received,
 * points given, their ratio and the number of wins).
 *
 * Line numbers in the comments below refer to `createVisualization` in
 * PrisonersDilemma.js.
 */
module Engine {
  import opened Wrappers
  import opened Outcome

  /**
   * One input row turned player: its name, the numbers that follow the name
   * (four probabilities, or one result per opponent) and the table figures
   * the engine stores on it.
   */
  class Player {
    const name: string
    const values: seq<real>
    var gets: real
    var gives: real
    var ratio: Option<real>
    var wins: nat

    constructor (name: string, values: seq<real>)
      ensures this.name == name && this.values == values
      ensures gets == 0.0 && gives == 0.0 && ratio == None && wins == 0
    {
      this.name := name;
      this.values := values;
      gets, gives, ratio, wins := 0.0, 0.0, None, 0;
    }

    /** The four figures the table shows for this player. */
    function Table(): Figures
      reads this
    {
      Figures(gets, gives, ratio, wins)
    }
  }

  /** Points received, points given, their ratio and the number of wins. */
  datatype Figures = Figures(gets: real, gives: real, ratio: Option<real>, wins: nat)

  /** What the JavaScript program keeps in globals: the mode, `Sx`/`Sy`, and the eigenvector library. */
  datatype Session = Session(resultMode: bool, pay: Payoffs, eigen: Mat4 -> Vec4)

  function Values(players: seq<Player>): (vals: seq<seq<real>>)
    ensures |vals| == |players|
    ensures forall i :: 0 <= i < |players| ==> vals[i] == players[i].values
  {
    seq(|players|, i requires 0 <= i < |players| => players[i].values)
  }

  /**
   * What the engine needs of its input: a result row long enough to index
   * every opponent, or four probabilities per player whose chosen vector does
   * not sum to zero (the JavaScript program would divide by zero there).
   */
  predicate WellFormed(vals: seq<seq<real>>, s: Session)
  {
    if s.resultMode then
      forall i :: 0 <= i < |vals| ==> |vals[i]| >= |vals|
    else
      (forall i :: 0 <= i < |vals| ==> |vals[i]| == 4) &&
      forall x, y :: 0 <= x < |vals| && 0 <= y < |vals| ==> Playable(vals[x], vals[y], s)
  }

  /** The vector chosen for strategies `p` against `q` can be normalised (`vsum` is not zero). */
  predicate Playable(p: seq<real>, q: seq<real>, s: Session)
  {
    |p| == 4 && |q| == 4 && Total(Stationary(p, q, s.eigen)) != 0.0
  }

  /** The value pairing (x, y) writes into `matrix[x][y]`. */
  function XWrite(vals: seq<seq<real>>, s: Session, x: nat, y: nat): real
    requires WellFormed(vals, s) && x < |vals| && y < |vals|
  {
    if s.resultMode then vals[x][y] else PayoffX(vals[x], vals[y], s.pay, s.eigen)
  }

  /** The value pairing (x, y) writes into `matrix[y][x]`, after the one above. */
  function YWrite(vals: seq<seq<real>>, s: Session, x: nat, y: nat): real
    requires WellFormed(vals, s) && x < |vals| && y < |vals|
  {
    if s.resultMode then vals[y][x] else PayoffY(vals[x], vals[y], s.pay, s.eigen)
  }

  /** `matrix[x][y]` just after pairing (x, y): what x is credited with against y. */
  function Received(vals: seq<seq<real>>, s: Session, x: nat, y: nat): real
    requires WellFormed(vals, s) && x < |vals| && y < |vals|
  {
    if x == y then YWrite(vals, s, x, x) else XWrite(vals, s, x, y)
  }

  /** `matrix[y][x]` just after pairing (x, y): what x is debited with against y. */
  function Given(vals: seq<seq<real>>, s: Session, x: nat, y: nat): real
    requires WellFormed(vals, s) && x < |vals| && y < |vals|
  {
    YWrite(vals, s, x, y)
  }

  /** `d3.round(v, 2)` scaled by 100: round half up to the nearest hundredth. */
  function Round2(v: real): int
  {
    (100.0 * v + 0.5).Floor
  }

  /** Whether pairing (x, y) adds a win to x: x's figure beats y's after rounding. */
  function Win(vals: seq<seq<real>>, s: Session, x: nat, y: nat): bool
    requires WellFormed(vals, s) && x < |vals| && y < |vals|
  {
    Round2(Received(vals, s, x, y)) > Round2(Given(vals, s, x, y))
  }

  function ReceivedRow(vals: seq<seq<real>>, s: Session, x: nat): (r: seq<real>)
    requires WellFormed(vals, s) && x < |vals|
    ensures |r| == |vals| && forall y :: 0 <= y < |vals| ==> r[y] == Received(vals, s, x, y)
  {
    seq(|vals|, y requires 0 <= y < |vals| => Received(vals, s, x, y))
  }

  function GivenRow(vals: seq<seq<real>>, s: Session, x: nat): (r: seq<real>)
    requires WellFormed(vals, s) && x < |vals|
    ensures |r| == |vals| && forall y :: 0 <= y < |vals| ==> r[y] == Given(vals, s, x, y)
  {
    seq(|vals|, y requires 0 <= y < |vals| => Given(vals, s, x, y))
  }

  function WinRow(vals: seq<seq<real>>, s: Session, x: nat): (r: seq<bool>)
    requires WellFormed(vals, s) && x < |vals|
    ensures |r| == |vals| && forall y :: 0 <= y < |vals| ==> r[y] == Win(vals, s, x, y)
  {
    seq(|vals|, y requires 0 <= y < |vals| => Win(vals, s, x, y))
  }

  /** Left-to-right running total, as `+=` accumulates it. */
  function Sum(xs: seq<real>): real
  {
    if xs == [] then 0.0 else Sum(xs[..|xs| - 1]) + xs[|xs| - 1]
  }

  /** Number of `true` entries, as `+=` of booleans accumulates it. */
  function Count(bs: seq<bool>): (r: nat)
    ensures r <= |bs|
  {
    if bs == [] then 0 else Count(bs[..|bs| - 1]) + (if bs[|bs| - 1] then 1 else 0)
  }

  /** `gets / gives`; None where the JavaScript program would produce Infinity or NaN. */
  function Ratio(gets: real, gives: real): (r: Option<real>)
    ensures r.Some? <==> gives != 0.0
    ensures r.Some? ==> r.value * gives == gets
  {
    if gives == 0.0 then None else Some(gets / gives)
  }

  /**
   * The final content of `matrix[a][b]`: the later of the two writes to it.
   * Pairing (a, b) writes it first when a < b and pairing (b, a) overwrites
   * it; when a > b the order is the other way round; on the diagonal the
   * second write of the same pairing wins.
   */
  function FinalEntry(vals: seq<seq<real>>, s: Session, a: nat, b: nat): (r: real)
    requires WellFormed(vals, s) && a < |vals| && b < |vals|
    ensures s.resultMode ==> r == vals[a][b]
    ensures !s.resultMode && a > b ==> r == PayoffX(vals[a], vals[b], s.pay, s.eigen)
    ensures !s.resultMode && a <= b ==> r == PayoffY(vals[b], vals[a], s.pay, s.eigen)
  {
    if a > b then XWrite(vals, s, a, b) else YWrite(vals, s, b, a)
  }

  /** Pairing (a, b) has been processed once the loops reach pairing (x, y). */
  predicate Done(a: nat, b: nat, x: nat, y: nat)
  {
    a < x || (a == x && b < y)
  }
  /** Points x receives over all its pairings (`gets`). */
  function TotalReceived(vals: seq<seq<real>>, s: Session, x: nat): real
    requires WellFormed(vals, s) && x < |vals|
  {
    Sum(ReceivedRow(vals, s, x))
  }

  /** Points x hands out over all its pairings (`gives`). */
  function TotalGiven(vals: seq<seq<real>>, s: Session, x: nat): real
    requires WellFormed(vals, s) && x < |vals|
  {
    Sum(GivenRow(vals, s, x))
  }

  /** Pairings x wins (`wins`). */
  function TotalWins(vals: seq<seq<real>>, s: Session, x: nat): nat
    requires WellFormed(vals, s) && x < |vals|
  {
    Count(WinRow(vals, s, x))
  }

  /** The table figures of player x once its outer iteration is over. */
  function Expected(vals: seq<seq<real>>, s: Session, x: nat): Figures
    requires WellFormed(vals, s) && x < |vals|
  {
    var gets, gives := TotalReceived(vals, s, x), TotalGiven(vals, s, x);
    Figures(gets, gives, Ratio(gets, gives), TotalWins(vals, s, x))
  }

  ghost predicate Tallied(p: Player, vals: seq<seq<real>>, s: Session, x: nat)
    reads p
    requires WellFormed(vals, s) && x < |vals|
  {
    p.Table() == Expected(vals, s, x)
  }

  /**
   * Both writes of every pairing, as tables: `xw[x][y]` is what pairing
   * (x, y) stores in `matrix[x][y]`, `yw[x][y]` what it then stores in
   * `matrix[y][x]`.  The loop proofs below speak of these tables only.
   */
  datatype Script = Script(xw: seq<seq<real>>, yw: seq<seq<real>>)

  /** Both tables are n by n, with n = |xw|. */
  predicate Square(sc: Script)
  {
    && |sc.yw| == |sc.xw|
    && forall a :: 0 <= a < |sc.xw| ==> |sc.xw[a]| == |sc.xw| && |sc.yw[a]| == |sc.xw|
  }

  /** The tables hold the writes the players `vals` make under session `s`. */
  ghost predicate Scripts(sc: Script, vals: seq<seq<real>>, s: Session)
    requires WellFormed(vals, s)
  {
    && Square(sc) && |sc.xw| == |vals|
    && (forall a, b {:trigger XWrite(vals, s, a, b)} :: 0 <= a < |vals| && 0 <= b < |vals| ==>
          sc.xw[a][b] == XWrite(vals, s, a, b))
    && (forall a, b {:trigger YWrite(vals, s, a, b)} :: 0 <= a < |vals| && 0 <= b < |vals| ==>
          sc.yw[a][b] == YWrite(vals, s, a, b))
  }

  ghost method ScriptOf(vals: seq<seq<real>>, s: Session) returns (sc: Script)
    requires WellFormed(vals, s)
    ensures Scripts(sc, vals, s)
  {
    var n := |vals|;
    sc := Script(seq(n, a requires 0 <= a < n => seq(n, b requires 0 <= b < n => XWrite(vals, s, a, b))),
                 seq(n, a requires 0 <= a < n => seq(n, b requires 0 <= b < n => YWrite(vals, s, a, b))));
  }

  /**
   * Content of `matrix[a][b]` when the loops are about to process pairing
   * (x, y); `emptied` says whether row x has already been replaced by an empty
   * row (line 17).  An empty or not yet created cell reads 0.  A write to row
   * a made before row a was replaced is lost.
   */
  ghost function Progress(sc: Script, a: nat, b: nat, x: nat, y: nat, emptied: bool): real
    requires Square(sc) && a < |sc.xw| && b < |sc.xw|
  {
    var replaced := a < x || (a == x && emptied);
    if Done(b, a, x, y) && (b >= a || !replaced) then sc.yw[b][a]
    else if Done(a, b, x, y) then sc.xw[a][b]
    else 0.0
  }

  /** The whole matrix as the loops leave it just before pairing (x, y). */
  ghost predicate Written(matrix: array2<real>, sc: Script, x: nat, y: nat, emptied: bool)
    reads matrix
    requires Square(sc)
  {
    && matrix.Length0 == |sc.xw| && matrix.Length1 == |sc.xw|
    && forall a, b :: 0 <= a < |sc.xw| && 0 <= b < |sc.xw| ==> matrix[a, b] == Progress(sc, a, b, x, y, emptied)
  }

  /** Once every pairing is done, every cell holds its last surviving write. */
  lemma FinalProgress(sc: Script, vals: seq<seq<real>>, s: Session, a: nat, b: nat)
    requires WellFormed(vals, s) && Scripts(sc, vals, s) && a < |vals| && b < |vals|
    ensures Progress(sc, a, b, |vals|, 0, false) == FinalEntry(vals, s, a, b)
  {
  }

  /** The two writes of pairing (x, y) move the loops' view of the matrix one pairing on. */
  lemma ProgressAfterPairing(sc: Script, a: nat, b: nat, x: nat, y: nat)
    requires Square(sc) && a < |sc.xw| && b < |sc.xw| && x < |sc.xw| && y < |sc.xw|
    ensures Progress(sc, a, b, x, y + 1, true) ==
      if a == y && b == x then sc.yw[x][y]
      else if a == x && b == y then sc.xw[x][y]
      else Progress(sc, a, b, x, y, true)
  {
  }

  /**
   * `matrix[x][y]` just after pairing (x, y): `Received` read off the tables.
   * This copy exists to keep the loop proofs cheap; `ClosingIsExpected`
   * connects the two.
   */
  function Got(sc: Script, x: nat, y: nat): real
    requires Square(sc) && x < |sc.xw| && y < |sc.xw|
  {
    if x == y then sc.yw[x][x] else sc.xw[x][y]
  }

  /** `matrix[y][x]` just after pairing (x, y): `Given` read off the tables. */
  function Paid(sc: Script, x: nat, y: nat): real
    requires Square(sc) && x < |sc.xw| && y < |sc.xw|
  {
    sc.yw[x][y]
  }

  ghost function GotRow(sc: Script, x: nat): (r: seq<real>)
    requires Square(sc) && x < |sc.xw|
    ensures |r| == |sc.xw| && forall y :: 0 <= y < |sc.xw| ==> r[y] == Got(sc, x, y)
  {
    seq(|sc.xw|, y requires 0 <= y < |sc.xw| => Got(sc, x, y))
  }

  ghost function PaidRow(sc: Script, x: nat): (r: seq<real>)
    requires Square(sc) && x < |sc.xw|
    ensures |r| == |sc.xw| && forall y :: 0 <= y < |sc.xw| ==> r[y] == Paid(sc, x, y)
  {
    seq(|sc.xw|, y requires 0 <= y < |sc.xw| => Paid(sc, x, y))
  }

  ghost function BeatRow(sc: Script, x: nat): (r: seq<bool>)
    requires Square(sc) && x < |sc.xw|
    ensures |r| == |sc.xw| && forall y :: 0 <= y < |sc.xw| ==> r[y] == (Round2(Got(sc, x, y)) > Round2(Paid(sc, x, y)))
  {
    seq(|sc.xw|, y requires 0 <= y < |sc.xw| => Round2(Got(sc, x, y)) > Round2(Paid(sc, x, y)))
  }

  /** Player x's running figures after its pairings with 0 .. y-1. */
  ghost predicate Credited(p: Player, sc: Script, x: nat, y: nat)
    reads p
    requires Square(sc) && x < |sc.xw| && y <= |sc.xw|
  {
    && p.gets == Sum(GotRow(sc, x)[..y])
    && p.gives == Sum(PaidRow(sc, x)[..y])
    && p.wins == Count(BeatRow(sc, x)[..y])
    && (y > 0 ==> p.ratio == Ratio(p.gets, p.gives))
  }

  /** The figures of player x after its whole row, read off the tables. */
  ghost function Closing(sc: Script, x: nat): Figures
    requires Square(sc) && x < |sc.xw|
  {
    var gets, gives := Sum(GotRow(sc, x)), Sum(PaidRow(sc, x));
    Figures(gets, gives, Ratio(gets, gives), Count(BeatRow(sc, x)))
  }

  /** Every player's closing figures, listed once so that a loop can refer to them. */
  ghost method ClosingTable(sc: Script) returns (want: seq<Figures>)
    requires Square(sc)
    ensures |want| == |sc.xw|
    ensures forall i {:trigger Closing(sc, i)} :: 0 <= i < |sc.xw| ==> want[i] == Closing(sc, i)
  {
    want := seq(|sc.xw|, i requires 0 <= i < |sc.xw| => Closing(sc, i));
  }

  /** The tables' row figures are the figures the pairings promise. */
  lemma ClosingIsExpected(sc: Script, vals: seq<seq<real>>, s: Session, x: nat)
    requires WellFormed(vals, s) && Scripts(sc, vals, s) && x < |vals|
    ensures Closing(sc, x) == Expected(vals, s, x)
  {
    assert GotRow(sc, x) == ReceivedRow(vals, s, x);
    assert PaidRow(sc, x) == GivenRow(vals, s, x);
    assert BeatRow(sc, x) == WinRow(vals, s, x);
  }

  lemma SumStep(xs: seq<real>, k: nat)
    requires k < |xs|
    ensures Sum(xs[..k + 1]) == Sum(xs[..k]) + xs[k]
  {
    assert xs[..k + 1][..k] == xs[..k];
  }

  lemma CountStep(bs: seq<bool>, k: nat)
    requires k < |bs|
    ensures Count(bs[..k + 1]) == Count(bs[..k]) + (if bs[k] then 1 else 0)
  {
    assert bs[..k + 1][..k] == bs[..k];
  }

  /** The two cells pairing (x, y) writes (lines 29-30, or 33-50 in strategy mode). */
  method WritePairing(matrix: array2<real>, ghost sc: Script, ghost vals: seq<seq<real>>, s: Session,
                      p: Player, q: Player, x: nat, y: nat)
    requires WellFormed(vals, s) && Scripts(sc, vals, s) && x < |vals| && y < |vals|
    requires p.values == vals[x] && q.values == vals[y]
    requires Written(matrix, sc, x, y, true)
    modifies matrix
    ensures Written(matrix, sc, x, y + 1, true)
    ensures matrix[x, y] == Got(sc, x, y) && matrix[y, x] == Paid(sc, x, y)
  {
    var first, second;
    if s.resultMode {
      first, second := p.values[y], q.values[x];
    } else {
      var vnorm := Normalize(Stationary(p.values, q.values, s.eigen));
      first, second := Dot(vnorm, RowPayoffs(s.pay)), Dot(vnorm, ColumnPayoffs(s.pay));
    }
    assert first == XWrite(vals, s, x, y) && second == YWrite(vals, s, x, y);
    matrix[x, y] := first;
    matrix[y, x] := second;
    forall a, b | 0 <= a < |vals| && 0 <= b < |vals|
      ensures matrix[a, b] == Progress(sc, a, b, x, y + 1, true)
    {
      ProgressAfterPairing(sc, a, b, x, y);
    }
  }

  /** Line 17: row x is replaced by an empty row. */
  method EmptyRow(matrix: array2<real>, ghost sc: Script, x: nat)
    requires Square(sc) && x < |sc.xw|
    requires Written(matrix, sc, x, 0, false)
    modifies matrix
    ensures Written(matrix, sc, x, 0, true)
  {
    forall j | 0 <= j < matrix.Length1 {
      matrix[x, j] := 0.0;
    }
  }

  /** Lines 54-57: credit one pairing to player `p`. */
  method Tally(p: Player, mine: real, theirs: real)
    modifies p
    ensures p.gets == old(p.gets) + mine && p.gives == old(p.gives) + theirs
    ensures p.ratio == Ratio(p.gets, p.gives)
    ensures p.wins == old(p.wins) + if Round2(mine) > Round2(theirs) then 1 else 0
  {
    p.gets := p.gets + mine;
    p.gives := p.gives + theirs;
    p.ratio := Ratio(p.gets, p.gives);
    p.wins := p.wins + if Round2(mine) > Round2(theirs) then 1 else 0;
  }

  /** Lines 54-57 for pairing (x, y): credit the two values just written to player x. */
  method CreditPairing(p: Player, ghost sc: Script, x: nat, y: nat, mine: real, theirs: real)
    requires Square(sc) && x < |sc.xw| && y < |sc.xw|
    requires mine == Got(sc, x, y) && theirs == Paid(sc, x, y)
    requires Credited(p, sc, x, y)
    modifies p
    ensures Credited(p, sc, x, y + 1)
  {
    ghost var got, paid, beat := GotRow(sc, x), PaidRow(sc, x), BeatRow(sc, x);
    assert mine == got[y] && theirs == paid[y] && (Round2(mine) > Round2(theirs)) == beat[y];
    SumStep(got, y);
    SumStep(paid, y);
    CountStep(beat, y);
    Tally(p, mine, theirs);
  }

  /** One iteration of the inner `forEach` (lines 21-58): play x against y and credit x. */
  method PlayPairing(matrix: array2<real>, p: Player, q: Player, ghost sc: Script, ghost vals: seq<seq<real>>,
                     s: Session, x: nat, y: nat)
    requires WellFormed(vals, s) && Scripts(sc, vals, s) && x < |vals| && y < |vals|
    requires p.values == vals[x] && q.values == vals[y]
    requires Written(matrix, sc, x, y, true) && Credited(p, sc, x, y)
    modifies matrix, p
    ensures Written(matrix, sc, x, y + 1, true) && Credited(p, sc, x, y + 1)
  {
    WritePairing(matrix, sc, vals, s, p, q, x, y);
    CreditPairing(p, sc, x, y, matrix[x, y], matrix[y, x]);
  }

  /**
   * One pass of the outer `forEach` (lines 15-59): reset player x's figures,
   * replace row x by an empty row, then play x against every y in turn.
   */
  method PlayRow(matrix: array2<real>, players: seq<Player>, ghost sc: Script, ghost vals: seq<seq<real>>,
                 s: Session, x: nat)
    requires vals == Values(players) && WellFormed(vals, s) && Scripts(sc, vals, s) && x < |players|
    requires Written(matrix, sc, x, 0, false)
    modifies matrix, players[x]
    ensures Written(matrix, sc, x + 1, 0, false)
    ensures players[x].Table() == Closing(sc, x)
  {
    var n := |players|;
    var p := players[x];
    EmptyRow(matrix, sc, x);
    p.gets, p.gives, p.wins := 0.0, 0.0, 0;
    var y := 0;
    while y < n
      invariant 0 <= y <= n
      invariant Written(matrix, sc, x, y, true) && Credited(p, sc, x, y)
    {
      PlayPairing(matrix, p, players[y], sc, vals, s, x, y);
      y := y + 1;
    }
    ghost var got, paid, beat := GotRow(sc, x), PaidRow(sc, x), BeatRow(sc, x);
    assert got[..n] == got && paid[..n] == paid && beat[..n] == beat;
  }

  /**
   * The outcome matrix and the table figures of `createVisualization`.
   * The matrix ends with the last surviving write to each cell and every
   * player's figures are the totals over its own row of pairings.
   */
  method CreateVisualization(players: seq<Player>, s: Session) returns (matrix: array2<real>)
    requires forall i, j :: 0 <= i < j < |players| ==> players[i] != players[j]
    requires WellFormed(Values(players), s)
    modifies players
    ensures fresh(matrix) && matrix.Length0 == |players| && matrix.Length1 == |players|
    ensures forall a, b :: 0 <= a < |players| && 0 <= b < |players| ==>
      matrix[a, b] == FinalEntry(Values(players), s, a, b)
    ensures forall x :: 0 <= x < |players| ==> Tallied(players[x], Values(players), s, x)
  {
    var n := |players|;
    ghost var vals := Values(players);
    ghost var sc := ScriptOf(vals, s);
    ghost var want := ClosingTable(sc);
    matrix := new real[n, n]((i, j) => 0.0);
    var x := 0;
    while x < n
      invariant 0 <= x <= n
      invariant Written(matrix, sc, x, 0, false)
      invariant forall i :: 0 <= i < x ==> players[i].Table() == want[i]
    {
      assert forall i :: 0 <= i < x ==> players[i] != players[x];
      PlayRow(matrix, players, sc, vals, s, x);
      x := x + 1;
    }
    forall a, b | 0 <= a < n && 0 <= b < n
      ensures matrix[a, b] == FinalEntry(vals, s, a, b)
    {
      FinalProgress(sc, vals, s, a, b);
    }
    forall i | 0 <= i < n
      ensures Tallied(players[i], vals, s, i)
    {
      ClosingIsExpected(sc, vals, s, i);
    }
  }
}
