/**
 * The numeric heart of one pairing: the Markov chain over the joint-history
 * states CC, CD, DC, DD (indices 0..3, first letter is player X's last move),
 * its normalised stationary vector and the expected payoffs of both players.
 *
 * A strategy is the four cooperation probabilities of a player, indexed by the
 * state as that player sees it (its own move first).  `markovT`, `vsum`,
 * `vnorm`, `Sx` and `Sy` are the names used in PrisonersDilemma.js.
 */
module Outcome {

  type Vec4 = s: seq<real> | |s| == 4 witness [0.0, 0.0, 0.0, 0.0]

  /** A 4x4 matrix laid out as `m[to][from]`: every column is a from-state. */
  type Mat4 = m: seq<Vec4> | |m| == 4 witness [Zero4, Zero4, Zero4, Zero4]

  const Zero4: Vec4 := [0.0, 0.0, 0.0, 0.0]

  /** Reward, Sucker, Temptation and Punishment of one round. */
  datatype Payoffs = Payoffs(reward: real, sucker: real, temptation: real, punishment: real)

  /** The state index seen from the other player's side: CD and DC trade places. */
  function Swap(i: nat): nat
  {
    if i == 1 then 2 else if i == 2 then 1 else i
  }

  /** A state-indexed vector relabelled from the other player's point of view. */
  function Mirror(v: Vec4): (w: Vec4)
    ensures forall i :: 0 <= i < 4 ==> w[i] == v[Swap(i)]
  {
    [v[0], v[2], v[1], v[3]]
  }

  /** A state-indexed matrix with both its rows and its columns relabelled. */
  function MirrorMatrix(m: Mat4): (r: Mat4)
    ensures forall i, j :: 0 <= i < 4 && 0 <= j < 4 ==> r[i][j] == m[Swap(i)][Swap(j)]
  {
    [Mirror(m[0]), Mirror(m[2]), Mirror(m[1]), Mirror(m[3])]
  }

  /** Sum of the four components (`v.reduce` with `+`). */
  function Total(v: Vec4): real
  {
    v[0] + v[1] + v[2] + v[3]
  }

  /** Dot product, the one-row-times-one-column `Matrix.mult`. */
  function Dot(a: Vec4, b: Vec4): real
  {
    a[0] * b[0] + a[1] * b[1] + a[2] * b[2] + a[3] * b[3]
  }

  /** One step of the chain: the distribution after one more round. */
  function Step(m: Mat4, v: Vec4): Vec4
  {
    [Dot(m[0], v), Dot(m[1], v), Dot(m[2], v), Dot(m[3], v)]
  }

  /**
   * Probability of the joint move `to` when X cooperates with probability `a`
   * and Y, independently, with probability `b`.
   */
  function JointMove(to: nat, a: real, b: real): real
  {
    if to == 0 then a * b
    else if to == 1 then a * (1.0 - b)
    else if to == 2 then (1.0 - a) * b
    else (1.0 - a) * (1.0 - b)
  }

  /** The transition matrix `markovT` for X playing `p` against Y playing `q`. */
  function Transition(p: Vec4, q: Vec4): Mat4
  {
    [ [p[0] * q[0], p[1] * q[2], p[2] * q[1], p[3] * q[3]],
      [p[0] * (1.0 - q[0]), p[1] * (1.0 - q[2]), p[2] * (1.0 - q[1]), p[3] * (1.0 - q[3])],
      [(1.0 - p[0]) * q[0], (1.0 - p[1]) * q[2], (1.0 - p[2]) * q[1], (1.0 - p[3]) * q[3]],
      [(1.0 - p[0]) * (1.0 - q[0]), (1.0 - p[1]) * (1.0 - q[2]), (1.0 - p[2]) * (1.0 - q[1]), (1.0 - p[3]) * (1.0 - q[3])] ]
  }

  /**
   * Reading of the matrix: from state `from`, X uses its own probability for
   * that state and Y uses its probability for the mirrored state.
   */
  lemma TransitionEntry(p: Vec4, q: Vec4, to: nat, from: nat)
    requires to < 4 && from < 4
    ensures Transition(p, q)[to][from] == JointMove(to, p[from], q[Swap(from)])
  {
    if to == 0 {
      if from == 0 {} else if from == 1 {} else if from == 2 {} else {}
    } else if to == 1 {
      if from == 0 {} else if from == 1 {} else if from == 2 {} else {}
    } else if to == 2 {
      if from == 0 {} else if from == 1 {} else if from == 2 {} else {}
    } else {
      if from == 0 {} else if from == 1 {} else if from == 2 {} else {}
    }
  }

  predicate IsProbability(x: real)
  {
    0.0 <= x <= 1.0
  }

  predicate IsStrategy(p: Vec4)
  {
    forall i :: 0 <= i < 4 ==> IsProbability(p[i])
  }

  lemma JointMoveBounds(to: nat, a: real, b: real)
    requires IsProbability(a) && IsProbability(b)
    ensures IsProbability(JointMove(to, a, b))
    ensures JointMove(0, a, b) + JointMove(1, a, b) + JointMove(2, a, b) + JointMove(3, a, b) == 1.0
  {
    ProductOfProbabilities(a, b);
    ProductOfProbabilities(a, 1.0 - b);
    ProductOfProbabilities(1.0 - a, b);
    ProductOfProbabilities(1.0 - a, 1.0 - b);
  }

  lemma ProductOfProbabilities(a: real, b: real)
    requires IsProbability(a) && IsProbability(b)
    ensures IsProbability(a * b)
  {
    NonnegativeProduct(a, b);
    NonnegativeProduct(1.0 - a, b);
    assert (1.0 - a) * b == b - a * b;
  }

  lemma NonnegativeProduct(x: real, y: real)
    requires 0.0 <= x && 0.0 <= y
    ensures 0.0 <= x * y
  {
  }

  /** For genuine strategies every entry is a probability and every column sums to 1. */
  lemma TransitionIsStochastic(p: Vec4, q: Vec4)
    requires IsStrategy(p) && IsStrategy(q)
    ensures forall to, from :: 0 <= to < 4 && 0 <= from < 4 ==> IsProbability(Transition(p, q)[to][from])
    ensures forall from :: 0 <= from < 4 ==>
      Transition(p, q)[0][from] + Transition(p, q)[1][from] + Transition(p, q)[2][from] + Transition(p, q)[3][from] == 1.0
  {
    forall to, from | 0 <= to < 4 && 0 <= from < 4
      ensures IsProbability(Transition(p, q)[to][from])
    {
      TransitionEntry(p, q, to, from);
      JointMoveBounds(to, p[from], q[Swap(from)]);
    }
    forall from | 0 <= from < 4
      ensures Transition(p, q)[0][from] + Transition(p, q)[1][from] + Transition(p, q)[2][from] + Transition(p, q)[3][from] == 1.0
    {
      TransitionEntry(p, q, 0, from);
      TransitionEntry(p, q, 1, from);
      TransitionEntry(p, q, 2, from);
      TransitionEntry(p, q, 3, from);
      JointMoveBounds(0, p[from], q[Swap(from)]);
    }
  }

  /** The probability mass that a step sends out of state `from`. */
  function ColumnTotal(m: Mat4, from: nat): real
    requires from < 4
  {
    m[0][from] + m[1][from] + m[2][from] + m[3][from]
  }

  /** A step redistributes each state's mass by that state's column. */
  lemma StepTotal(m: Mat4, v: Vec4)
    ensures Total(Step(m, v)) ==
      ColumnTotal(m, 0) * v[0] + ColumnTotal(m, 1) * v[1] + ColumnTotal(m, 2) * v[2] + ColumnTotal(m, 3) * v[3]
  {
  }

  /** A column-stochastic step neither creates nor loses probability mass. */
  lemma StepPreservesTotal(p: Vec4, q: Vec4, v: Vec4)
    requires IsStrategy(p) && IsStrategy(q)
    ensures Total(Step(Transition(p, q), v)) == Total(v)
  {
    var t := Transition(p, q);
    TransitionIsStochastic(p, q);
    StepTotal(t, v);
    assert ColumnTotal(t, 0) == 1.0 && ColumnTotal(t, 1) == 1.0 && ColumnTotal(t, 2) == 1.0 && ColumnTotal(t, 3) == 1.0;
  }

  /** Role symmetry: Y's chain against X is X's chain against Y, relabelled. */
  lemma TransitionRoleSymmetry(p: Vec4, q: Vec4)
    ensures Transition(q, p) == MirrorMatrix(Transition(p, q))
  {
    var a, b := Transition(q, p), MirrorMatrix(Transition(p, q));
    forall i, j | 0 <= i < 4 && 0 <= j < 4
      ensures a[i][j] == b[i][j]
    {
      TransitionEntry(q, p, i, j);
      TransitionEntry(p, q, Swap(i), Swap(j));
    }
    assert forall i | 0 <= i < 4 :: a[i] == b[i];
  }

  /** X's payoff per state: `Sx = [R, S, T, P]`. */
  function RowPayoffs(pay: Payoffs): Vec4
  {
    [pay.reward, pay.sucker, pay.temptation, pay.punishment]
  }

  /** Y's payoff per state, derived from X's by relabelling (`Sy = [Sx[0], Sx[2], Sx[1], Sx[3]]`). */
  function ColumnPayoffs(pay: Payoffs): (sy: Vec4)
    ensures sy == [pay.reward, pay.temptation, pay.sucker, pay.punishment]
  {
    Mirror(RowPayoffs(pay))
  }

  /** Relabelling twice is the identity, so swapping Sucker and Temptation twice gives back Sx. */
  lemma MirrorInvolution(v: Vec4)
    ensures Mirror(Mirror(v)) == v
  {
  }

  lemma MirrorPreservesTotal(v: Vec4)
    ensures Total(Mirror(v)) == Total(v)
  {
  }

  lemma MirrorPreservesDot(a: Vec4, b: Vec4)
    ensures Dot(Mirror(a), Mirror(b)) == Dot(a, b)
  {
  }

  /** Every component multiplied by `c` (`Matrix.scale`). */
  function Scale(v: Vec4, c: real): (r: Vec4)
    ensures forall i :: 0 <= i < 4 ==> r[i] == v[i] * c
  {
    [v[0] * c, v[1] * c, v[2] * c, v[3] * c]
  }

  lemma DotScale(a: Vec4, v: Vec4, c: real)
    ensures Dot(a, Scale(v, c)) == Dot(a, v) * c
  {
  }

  /** The vector scaled by `1 / vsum`: a distribution proportional to `v`. */
  function Normalize(v: Vec4): (r: Vec4)
    requires Total(v) != 0.0
    ensures Total(r) == 1.0
    ensures forall i :: 0 <= i < 4 ==> r[i] * Total(v) == v[i]
  {
    var c := 1.0 / Total(v);
    assert Total(v) * c == 1.0;
    var r := Scale(v, c);
    assert Total(r) == Total(v) * c;
    r
  }

  lemma NormalizeMirror(v: Vec4)
    requires Total(v) != 0.0
    ensures Total(Mirror(v)) != 0.0
    ensures Normalize(Mirror(v)) == Mirror(Normalize(v))
  {
    MirrorPreservesTotal(v);
    var c := 1.0 / Total(v);
    var a, b := Scale(Mirror(v), c), Mirror(Scale(v, c));
    assert Normalize(Mirror(v)) == a;
    assert Mirror(Normalize(v)) == b;
    forall i | 0 <= i < 4
      ensures a[i] == b[i]
    {
      assert a[i] == v[Swap(i)] * c == b[i];
    }
  }

  /** Scaling a fixed point of the chain keeps it a fixed point. */
  lemma NormalizeKeepsFixedPoint(m: Mat4, v: Vec4)
    requires Step(m, v) == v && Total(v) != 0.0
    ensures Step(m, Normalize(v)) == Normalize(v)
  {
    ScaleKeepsFixedPoint(m, v, 1.0 / Total(v));
  }

  lemma ScaleKeepsFixedPoint(m: Mat4, v: Vec4, c: real)
    requires Step(m, v) == v
    ensures Step(m, Scale(v, c)) == Scale(v, c)
  {
    StepScale(m, v, c);
  }

  /** One step of the chain commutes with scaling. */
  lemma StepScale(m: Mat4, v: Vec4, c: real)
    ensures Step(m, Scale(v, c)) == Scale(Step(m, v), c)
  {
    var a, b := Step(m, Scale(v, c)), Scale(Step(m, v), c);
    DotScale(m[0], v, c);
    assert a[0] == b[0];
    DotScale(m[1], v, c);
    assert a[1] == b[1];
    DotScale(m[2], v, c);
    assert a[2] == b[2];
    DotScale(m[3], v, c);
    assert a[3] == b[3];
  }

  /** Tit-for-Tat: cooperate after the opponent cooperated, defect after it defected. */
  const TitForTat: Vec4 := [1.0, 0.0, 1.0, 0.0]
  const AllCooperate: Vec4 := [1.0, 1.0, 1.0, 1.0]
  const AllDefect: Vec4 := [0.0, 0.0, 0.0, 0.0]
  const MutualCooperation: Vec4 := [1.0, 0.0, 0.0, 0.0]

  /**
   * The vector the engine uses for X = `p` against Y = `q`: the library's
   * eigenvector `eigen` of the transition matrix, except for Tit-for-Tat
   * against Tit-for-Tat, which is pinned to mutual cooperation.
   */
  function Stationary(p: Vec4, q: Vec4, eigen: Mat4 -> Vec4): (v: Vec4)
    ensures p == TitForTat && q == TitForTat ==> v == MutualCooperation
    ensures !(p == TitForTat && q == TitForTat) ==> v == eigen(Transition(p, q))
  {
    if p[0] == 1.0 && p[1] == 0.0 && p[2] == 1.0 && p[3] == 0.0
       && q[0] == 1.0 && q[1] == 0.0 && q[2] == 1.0 && q[3] == 0.0
    then MutualCooperation
    else eigen(Transition(p, q))
  }

  /** X's expected payoff per round, `vnorm . Sx`. */
  function PayoffX(p: Vec4, q: Vec4, pay: Payoffs, eigen: Mat4 -> Vec4): real
    requires Total(Stationary(p, q, eigen)) != 0.0
  {
    Dot(Normalize(Stationary(p, q, eigen)), RowPayoffs(pay))
  }

  /** Y's expected payoff per round, `vnorm . Sy`. */
  function PayoffY(p: Vec4, q: Vec4, pay: Payoffs, eigen: Mat4 -> Vec4): real
    requires Total(Stationary(p, q, eigen)) != 0.0
  {
    Dot(Normalize(Stationary(p, q, eigen)), ColumnPayoffs(pay))
  }

  /**
   * At the matrix `m`, the eigenvector choice commutes with relabelling: once
   * normalised, the vector chosen for the mirrored matrix is the mirrored
   * vector.  This holds for a choice that returns the eigenvalue-1
   * eigenvector, on a matrix whose eigenvalue-1 eigenspace is
   * one-dimensional; line 40 of PrisonersDilemma.js takes the library's first
   * eigenvector and does not select by eigenvalue.
   */
  ghost predicate EquivariantAt(eigen: Mat4 -> Vec4, m: Mat4)
  {
    Total(eigen(m)) != 0.0 ==>
      Total(eigen(MirrorMatrix(m))) != 0.0 &&
      Normalize(eigen(MirrorMatrix(m))) == Mirror(Normalize(eigen(m)))
  }

  /**
   * When the eigenvector choice is equivariant at X's matrix against Y, what
   * Y earns in the pairing (Y, X) is what X earns in (X, Y), and the other
   * way round.
   */
  lemma PayoffRoleSymmetry(p: Vec4, q: Vec4, pay: Payoffs, eigen: Mat4 -> Vec4)
    requires EquivariantAt(eigen, Transition(p, q))
    requires Total(Stationary(p, q, eigen)) != 0.0
    ensures Total(Stationary(q, p, eigen)) != 0.0
    ensures PayoffY(q, p, pay, eigen) == PayoffX(p, q, pay, eigen)
    ensures PayoffX(q, p, pay, eigen) == PayoffY(p, q, pay, eigen)
  {
    var v, w := Stationary(p, q, eigen), Stationary(q, p, eigen);
    if p == TitForTat && q == TitForTat {
      assert w == v == Mirror(v);
    } else {
      TransitionRoleSymmetry(p, q);
      assert w == eigen(MirrorMatrix(Transition(p, q)));
    }
    assert Total(w) != 0.0 && Normalize(w) == Mirror(Normalize(v));
    MirrorInvolution(RowPayoffs(pay));
    MirrorPreservesDot(Normalize(v), RowPayoffs(pay));
    MirrorPreservesDot(Normalize(v), ColumnPayoffs(pay));
  }

  /** Tit-for-Tat against itself: mutual cooperation, a fixed point, and Reward for both. */
  lemma TitForTatOverride(pay: Payoffs, eigen: Mat4 -> Vec4)
    ensures Stationary(TitForTat, TitForTat, eigen) == MutualCooperation
    ensures Step(Transition(TitForTat, TitForTat), MutualCooperation) == MutualCooperation
    ensures PayoffX(TitForTat, TitForTat, pay, eigen) == pay.reward
    ensures PayoffY(TitForTat, TitForTat, pay, eigen) == pay.reward
  {
    assert Normalize(MutualCooperation) == MutualCooperation;
  }

  /**
   * A chain in which every column is the same unit vector `[k]`: an eigenvector
   * for eigenvalue 1 normalises to that unit vector, whatever the library returns.
   */
  lemma ConstantChain(m: Mat4, v: Vec4, k: nat)
    requires k < 4
    requires forall i, j :: 0 <= i < 4 && 0 <= j < 4 ==> m[i][j] == (if i == k then 1.0 else 0.0)
    requires Step(m, v) == v && Total(v) != 0.0
    ensures forall i :: 0 <= i < 4 ==> Normalize(v)[i] == (if i == k then 1.0 else 0.0)
  {
    ConstantChainMass(m, v, k);
    var r := Normalize(v);
    forall i | 0 <= i < 4
      ensures r[i] == if i == k then 1.0 else 0.0
    {
      assert r[i] * Total(v) == v[i];
    }
  }

  /** In such a chain a fixed point carries all its mass on state `k`. */
  lemma ConstantChainMass(m: Mat4, v: Vec4, k: nat)
    requires k < 4
    requires forall i, j :: 0 <= i < 4 && 0 <= j < 4 ==> m[i][j] == (if i == k then 1.0 else 0.0)
    requires Step(m, v) == v
    ensures forall i :: 0 <= i < 4 ==> v[i] == if i == k then Total(v) else 0.0
  {
    forall i | 0 <= i < 4
      ensures v[i] == if i == k then Total(v) else 0.0
    {
      assert v[i] == Step(m, v)[i] == Dot(m[i], v);
    }
  }

  /** Always-cooperate against always-defect: X is the sucker, Y collects the temptation. */
  lemma AllCooperateAgainstAllDefect(pay: Payoffs, eigen: Mat4 -> Vec4)
    requires Step(Transition(AllCooperate, AllDefect), eigen(Transition(AllCooperate, AllDefect)))
             == eigen(Transition(AllCooperate, AllDefect))
    requires Total(eigen(Transition(AllCooperate, AllDefect))) != 0.0
    ensures Total(Stationary(AllCooperate, AllDefect, eigen)) != 0.0
    ensures PayoffX(AllCooperate, AllDefect, pay, eigen) == pay.sucker
    ensures PayoffY(AllCooperate, AllDefect, pay, eigen) == pay.temptation
  {
    var m := Transition(AllCooperate, AllDefect);
    ConstantChain(m, eigen(m), 1);
  }

  /** Always-defect against itself: Punishment for both. */
  lemma AllDefectAgainstAllDefect(pay: Payoffs, eigen: Mat4 -> Vec4)
    requires Step(Transition(AllDefect, AllDefect), eigen(Transition(AllDefect, AllDefect)))
             == eigen(Transition(AllDefect, AllDefect))
    requires Total(eigen(Transition(AllDefect, AllDefect))) != 0.0
    ensures Total(Stationary(AllDefect, AllDefect, eigen)) != 0.0
    ensures PayoffX(AllDefect, AllDefect, pay, eigen) == pay.punishment
    ensures PayoffY(AllDefect, AllDefect, pay, eigen) == pay.punishment
  {
    var m := Transition(AllDefect, AllDefect);
    ConstantChain(m, eigen(m), 3);
  }

  /** Always-cooperate against itself: Reward for both. */
  lemma AllCooperateAgainstAllCooperate(pay: Payoffs, eigen: Mat4 -> Vec4)
    requires Step(Transition(AllCooperate, AllCooperate), eigen(Transition(AllCooperate, AllCooperate)))
             == eigen(Transition(AllCooperate, AllCooperate))
    requires Total(eigen(Transition(AllCooperate, AllCooperate))) != 0.0
    ensures Total(Stationary(AllCooperate, AllCooperate, eigen)) != 0.0
    ensures PayoffX(AllCooperate, AllCooperate, pay, eigen) == pay.reward
    ensures PayoffY(AllCooperate, AllCooperate, pay, eigen) == pay.reward
  {
    var m := Transition(AllCooperate, AllCooperate);
    ConstantChain(m, eigen(m), 0);
  }
}
