/**
 * The two loaders `loadStrategies` and `loadResultMatrix`: parse the rows,
 * stop when any row is `false`, otherwise turn the rows into players and run
 * the engine on them.  Line numbers refer to PrisonersDilemma.js.
 */
module Loading {
  import opened Wrappers
  import opened Outcome
  import opened Engine
  import opened Input

  /**
   * The numbers of every accepted row, in order: `Engine.Values` for rows
   * that are not yet players (`Load` asserts that the two agree).
   */
  function ValuesOf(ps: seq<Row>): (vals: seq<seq<real>>)
    ensures |vals| == |ps| && forall i :: 0 <= i < |ps| ==> vals[i] == ps[i].values
  {
    seq(|ps|, i requires 0 <= i < |ps| => ps[i].values)
  }

  /**
   * What the engine needs beyond a successful parse: in result mode no more
   * rows than textarea lines, in strategy mode a chosen vector that can be
   * normalised for every pair of accepted rows.
   */
  predicate Ready(rows: seq<Fields>, rd: Reader, s: Session)
  {
    var parsed := ParseCSVInput(rows, rd);
    if rd.results then |rows| <= rd.lineCount
    else forall i, j :: 0 <= i < |rows| && 0 <= j < |rows| && parsed[i].Some? && parsed[j].Some? ==>
      Playable(parsed[i].value.values, parsed[j].value.values, s)
  }

  /** An accepted strategy row holds four probabilities. */
  lemma AcceptedStrategy(row: Fields, rd: Reader)
    requires !rd.results && ParseRow(row, rd).Some?
    ensures |ParseRow(row, rd).value.values| == 4
    ensures forall i :: 0 <= i < 4 ==> IsProbability(ParseRow(row, rd).value.values[i])
  {
    ParseRowRejects(row, rd);
    ParseRowKeeps(row, rd);
    var values := ParseRow(row, rd).value.values;
    forall i | 0 <= i < 4
      ensures IsProbability(values[i])
    {
      assert CellOk(row[i + 1], rd);
    }
  }

  /** An accepted result row holds one number per textarea line. */
  lemma AcceptedResults(row: Fields, rd: Reader)
    requires rd.results && ParseRow(row, rd).Some?
    ensures |ParseRow(row, rd).value.values| == rd.lineCount
  {
    ParseRowRejects(row, rd);
    ParseRowKeeps(row, rd);
  }

  /** Rows that pass the loader's gate are input the engine accepts. */
  lemma LoadedIsWellFormed(rows: seq<Fields>, rd: Reader, s: Session, ps: seq<Row>)
    requires s.resultMode == rd.results && Ready(rows, rd, s)
    requires LoadPlayers(ParseCSVInput(rows, rd)) == Some(ps)
    ensures WellFormed(ValuesOf(ps), s)
  {
    var parsed := ParseCSVInput(rows, rd);
    var vals := ValuesOf(ps);
    forall i | 0 <= i < |ps|
      ensures parsed[i] == ParseRow(rows[i], rd) == Some(ps[i])
      ensures if rd.results then |vals[i]| == rd.lineCount else |vals[i]| == 4
    {
      if rd.results {
        AcceptedResults(rows[i], rd);
      } else {
        AcceptedStrategy(rows[i], rd);
      }
    }
  }

  /** The `players` of lines 231 and 252: one record per accepted row, no two the same object. */
  method MakePlayers(ps: seq<Row>) returns (players: seq<Player>)
    ensures |players| == |ps|
    ensures forall i :: 0 <= i < |ps| ==> fresh(players[i])
    ensures forall i :: 0 <= i < |ps| ==> players[i].name == ps[i].name && players[i].values == ps[i].values
    ensures forall i, j :: 0 <= i < j < |ps| ==> players[i] != players[j]
  {
    players := [];
    var k := 0;
    while k < |ps|
      invariant 0 <= k <= |ps| && |players| == k
      invariant forall i :: 0 <= i < k ==> fresh(players[i])
      invariant forall i :: 0 <= i < k ==> players[i].name == ps[i].name && players[i].values == ps[i].values
      invariant forall i, j :: 0 <= i < j < k ==> players[i] != players[j]
    {
      var p := new Player(ps[k].name, ps[k].values);
      players := players + [p];
      k := k + 1;
    }
  }

  /**
   * Lines 229-240 and 250-259: the engine runs exactly when every row is
   * accepted, on the accepted rows in input order.
   */
  method Load(rows: seq<Fields>, rd: Reader, s: Session) returns (outcome: Option<(seq<Player>, array2<real>)>)
    requires s.resultMode == rd.results && Ready(rows, rd, s)
    ensures outcome.Some? <==> forall i :: 0 <= i < |rows| ==> RowAcceptable(rows[i], rd)
    ensures outcome.Some? ==>
      var (players, matrix) := outcome.value;
      && |players| == |rows|
      && (forall i :: 0 <= i < |rows| ==> Some(Row(players[i].name, players[i].values)) == ParseRow(rows[i], rd))
      && WellFormed(Values(players), s)
      && matrix.Length0 == |players| && matrix.Length1 == |players|
      && (forall a, b :: 0 <= a < |players| && 0 <= b < |players| ==>
            matrix[a, b] == FinalEntry(Values(players), s, a, b))
      && (forall x :: 0 <= x < |players| ==> Tallied(players[x], Values(players), s, x))
  {
    var parsed := ParseCSVInput(rows, rd);
    forall i | 0 <= i < |rows|
      ensures parsed[i].Some? <==> RowAcceptable(rows[i], rd)
    {
      ParseRowRejects(rows[i], rd);
    }
    var loaded := LoadPlayers(parsed);
    if loaded.None? {
      return None;
    }
    var ps := loaded.value;
    LoadedIsWellFormed(rows, rd, s, ps);
    var players := MakePlayers(ps);
    assert Values(players) == ValuesOf(ps);
    var matrix := CreateVisualization(players, s);
    outcome := Some((players, matrix));
  }
}
