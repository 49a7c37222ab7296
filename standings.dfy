/**
 * Facts about the standings the engine produces: how the table figures
 * relate to the input rows and to the final outcome matrix, and what the
 * rounded win test can and cannot count.
 */
module Standings {
  import opened Outcome
  import opened Engine

  /** Column x of the result rows: what every player reports against x. */
  function Column(vals: seq<seq<real>>, x: nat): (c: seq<real>)
    requires forall i :: 0 <= i < |vals| ==> x < |vals[i]|
    ensures |c| == |vals| && forall y :: 0 <= y < |vals| ==> c[y] == vals[y][x]
  {
    seq(|vals|, y requires 0 <= y < |vals| => vals[y][x])
  }

  /**
   * Result mode: a player receives the sum of its own row of results and
   * gives the sum of column x over every row, its own included.
   */
  lemma ResultModeTotals(vals: seq<seq<real>>, s: Session, x: nat)
    requires WellFormed(vals, s) && s.resultMode && x < |vals|
    ensures TotalReceived(vals, s, x) == Sum(vals[x][..|vals|])
    ensures TotalGiven(vals, s, x) == Sum(Column(vals, x))
  {
    assert ReceivedRow(vals, s, x) == vals[x][..|vals|];
    assert GivenRow(vals, s, x) == Column(vals, x);
  }

  /** A row of flags with a `false` somewhere counts fewer `true`s than its length. */
  lemma {:induction false} CountWithFalse(bs: seq<bool>, k: nat)
    requires k < |bs| && !bs[k]
    ensures Count(bs) < |bs|
  {
    if k < |bs| - 1 {
      CountWithFalse(bs[..|bs| - 1], k);
    }
  }

  /** Self-play is never a win, so a player wins at most once per other player. */
  lemma WinsAtMostOpponents(vals: seq<seq<real>>, s: Session, x: nat)
    requires WellFormed(vals, s) && x < |vals|
    ensures !Win(vals, s, x, x)
    ensures TotalWins(vals, s, x) <= |vals| - 1
  {
    CountWithFalse(WinRow(vals, s, x), x);
  }

  /**
   * Two players are never both counted as beating each other: in result mode
   * because the two comparisons read the same pair of cells, in strategy mode
   * when the eigenvector choice at their matrix does not depend on which
   * player is X.
   */
  lemma WinsAntisymmetric(vals: seq<seq<real>>, s: Session, x: nat, y: nat)
    requires WellFormed(vals, s) && x < |vals| && y < |vals|
    requires s.resultMode || EquivariantAt(s.eigen, Transition(vals[x], vals[y]))
    ensures !(Win(vals, s, x, y) && Win(vals, s, y, x))
  {
    if !s.resultMode {
      PayoffRoleSymmetry(vals[x], vals[y], s.pay, s.eigen);
    }
  }

  /**
   * The values pairing (x, y) credits to x are the ones the final matrix shows
   * in row x and column x.  For y <= x the overwrite order alone gives this;
   * for a later player y the condition of `WinsAntisymmetric` is needed.
   */
  lemma CreditsMatchFinalMatrix(vals: seq<seq<real>>, s: Session, x: nat, y: nat)
    requires WellFormed(vals, s) && x < |vals| && y < |vals|
    requires s.resultMode || y <= x || EquivariantAt(s.eigen, Transition(vals[x], vals[y]))
    ensures Received(vals, s, x, y) == FinalEntry(vals, s, x, y)
    ensures Given(vals, s, x, y) == FinalEntry(vals, s, y, x)
  {
    if !s.resultMode && x < y {
      PayoffRoleSymmetry(vals[x], vals[y], s.pay, s.eigen);
    }
  }

  /** A row of flags with no `true` counts nothing. */
  lemma {:induction false} CountAllFalse(bs: seq<bool>)
    requires forall k :: 0 <= k < |bs| ==> !bs[k]
    ensures Count(bs) == 0
  {
    if bs != [] {
      CountAllFalse(bs[..|bs| - 1]);
    }
  }

  /**
   * A player whose final row equals its final column, so that it scores
   * against every opponent what that opponent scores against it, wins nothing.
   */
  lemma SymmetricRowNoWins(vals: seq<seq<real>>, s: Session, x: nat)
    requires WellFormed(vals, s) && x < |vals|
    requires s.resultMode || forall y :: x < y < |vals| ==> EquivariantAt(s.eigen, Transition(vals[x], vals[y]))
    requires forall y :: 0 <= y < |vals| ==> FinalEntry(vals, s, x, y) == FinalEntry(vals, s, y, x)
    ensures TotalWins(vals, s, x) == 0
  {
    var wins := WinRow(vals, s, x);
    forall y | 0 <= y < |vals|
      ensures !wins[y]
    {
      CreditsMatchFinalMatrix(vals, s, x, y);
    }
    CountAllFalse(wins);
  }

  function FinalRow(vals: seq<seq<real>>, s: Session, x: nat): (r: seq<real>)
    requires WellFormed(vals, s) && x < |vals|
    ensures |r| == |vals| && forall y :: 0 <= y < |vals| ==> r[y] == FinalEntry(vals, s, x, y)
  {
    seq(|vals|, y requires 0 <= y < |vals| => FinalEntry(vals, s, x, y))
  }

  function FinalColumn(vals: seq<seq<real>>, s: Session, x: nat): (c: seq<real>)
    requires WellFormed(vals, s) && x < |vals|
    ensures |c| == |vals| && forall y :: 0 <= y < |vals| ==> c[y] == FinalEntry(vals, s, y, x)
  {
    seq(|vals|, y requires 0 <= y < |vals| => FinalEntry(vals, s, y, x))
  }

  /** The table's `gets` and `gives` are the row and column sums of the final matrix. */
  lemma TableMatchesMatrix(vals: seq<seq<real>>, s: Session, x: nat)
    requires WellFormed(vals, s) && x < |vals|
    requires s.resultMode || forall y :: x < y < |vals| ==> EquivariantAt(s.eigen, Transition(vals[x], vals[y]))
    ensures TotalReceived(vals, s, x) == Sum(FinalRow(vals, s, x))
    ensures TotalGiven(vals, s, x) == Sum(FinalColumn(vals, s, x))
  {
    forall y | 0 <= y < |vals|
      ensures ReceivedRow(vals, s, x)[y] == FinalRow(vals, s, x)[y]
      ensures GivenRow(vals, s, x)[y] == FinalColumn(vals, s, x)[y]
    {
      CreditsMatchFinalMatrix(vals, s, x, y);
    }
    assert ReceivedRow(vals, s, x) == FinalRow(vals, s, x);
    assert GivenRow(vals, s, x) == FinalColumn(vals, s, x);
  }

  /**
   * The rounded comparison: a lead of a hundredth or more is always a win,
   * and a win always means a strict lead.
   */
  lemma RoundedComparison(a: real, b: real)
    ensures a >= b + 0.01 ==> Round2(a) > Round2(b)
    ensures Round2(a) > Round2(b) ==> a > b
  {
  }

  /** Tit-for-Tat against Tit-for-Tat: both cells hold Reward and neither side wins. */
  lemma TitForTatPairing(vals: seq<seq<real>>, s: Session, x: nat, y: nat)
    requires WellFormed(vals, s) && !s.resultMode && x < |vals| && y < |vals|
    requires vals[x] == TitForTat && vals[y] == TitForTat
    ensures Received(vals, s, x, y) == s.pay.reward && Given(vals, s, x, y) == s.pay.reward
    ensures !Win(vals, s, x, y)
  {
    TitForTatOverride(s.pay, s.eigen);
  }
}
