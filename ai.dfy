/** The move chooser of engine/ai.py: among the legal moves, those with the largest
    material gain, one of which is picked. */
module Ai {
  import opened Chessboard
  import opened Rules
  import opened RuleMethods

  /** The best gain after scanning gains, starting from -999 and replaced by any larger
      gain. */
  function Best(gains: seq<int>): int {
    if gains == [] then -999
    else
      var best, gain := Best(gains[..|gains| - 1]), gains[|gains| - 1];
      if gain > best then gain else best
  }

  /** The moves whose gain (the entry of gains at the same position) is v, in order. */
  function WithGain(ms: seq<Move>, gains: seq<int>, v: int): seq<Move>
    requires |ms| == |gains|
  {
    if ms == [] then []
    else
      var n := |ms| - 1;
      WithGain(ms[..n], gains[..n], v) + (if gains[n] == v then [ms[n]] else [])
  }

  /** On a list of gains above -999 the best gain is the largest one: the initial -999 never
      survives. */
  lemma {:induction false} BestIsMax(gains: seq<int>)
    requires gains != [] && forall i :: 0 <= i < |gains| ==> gains[i] > -999
    ensures forall i :: 0 <= i < |gains| ==> gains[i] <= Best(gains)
    ensures exists i :: 0 <= i < |gains| && gains[i] == Best(gains)
  {
    var n := |gains| - 1;
    var pre := gains[..n];
    if pre != [] {
      BestIsMax(pre);
      if Best(gains) != gains[n] {
        var i :| 0 <= i < n && pre[i] == Best(pre);
        assert gains[i] == Best(gains);
      }
    }
  }

  /** A gain above the best one belongs to no move. */
  lemma {:induction false} NothingAboveBest(ms: seq<Move>, gains: seq<int>, v: int)
    requires |ms| == |gains| && v > Best(gains)
    ensures WithGain(ms, gains, v) == []
  {
    if ms != [] {
      var n := |ms| - 1;
      NothingAboveBest(ms[..n], gains[..n], v);
    }
  }

  /** The moves with gain v are kept in their order. */
  lemma {:induction false} WithGainSubseq(ms: seq<Move>, gains: seq<int>, v: int)
    requires |ms| == |gains|
    ensures Subseq(WithGain(ms, gains, v), ms)
  {
    if ms != [] {
      var n := |ms| - 1;
      var rest := WithGain(ms[..n], gains[..n], v);
      WithGainSubseq(ms[..n], gains[..n], v);
      if gains[n] == v {
        assert WithGain(ms, gains, v) == rest + [ms[n]];
        SubseqKeepLast(rest, ms);
      } else {
        assert WithGain(ms, gains, v) == rest;
        SubseqDropLast(rest, ms);
      }
    }
  }

  /** A move is kept exactly when it stands in ms at a position whose gain is v. */
  lemma {:induction false} WithGainSpec(ms: seq<Move>, gains: seq<int>, v: int, m: Move)
    requires |ms| == |gains|
    ensures m in WithGain(ms, gains, v) <==> exists i :: 0 <= i < |ms| && ms[i] == m && gains[i] == v
  {
    if ms != [] {
      var n := |ms| - 1;
      var pre, pg := ms[..n], gains[..n];
      WithGainSpec(pre, pg, v, m);
      if exists i :: 0 <= i < |ms| && ms[i] == m && gains[i] == v {
        var i :| 0 <= i < |ms| && ms[i] == m && gains[i] == v;
        if i < n {
          assert pre[i] == m && pg[i] == v;
        }
      }
      if m in WithGain(pre, pg, v) {
        var i :| 0 <= i < n && pre[i] == m && pg[i] == v;
        assert ms[i] == m && gains[i] == v;
      }
    }
  }

  /** One more gain in the scan. */
  lemma ScanSnoc(ms: seq<Move>, gains: seq<int>, i: int, v: int)
    requires |ms| == |gains| && 0 <= i < |ms|
    ensures Best(gains[..i + 1]) == if gains[i] > Best(gains[..i]) then gains[i] else Best(gains[..i])
    ensures WithGain(ms[..i + 1], gains[..i + 1], v) ==
              WithGain(ms[..i], gains[..i], v) + (if gains[i] == v then [ms[i]] else [])
  {
    assert ms[..i + 1][..i] == ms[..i] && gains[..i + 1][..i] == gains[..i];
  }

  /** The gain of each move of ms, in order. */
  ghost function GainsOf(g: Grid, color: string, ms: seq<Move>): (gains: seq<int>)
    requires WellFormed(g) && AllApplicable(g, ms)
    ensures |gains| == |ms|
    ensures forall i :: 0 <= i < |ms| ==> gains[i] == Gain(g, color, ms[i])
  {
    seq(|ms|, i requires 0 <= i < |ms| => Gain(g, color, ms[i]))
  }

  lemma LegalApplicable(g: Grid, color: string)
    requires WellFormed(g)
    ensures AllApplicable(g, Legal(g, color))
  {
    forall i | 0 <= i < |Legal(g, color)| ensures Applicable(g, Legal(g, color)[i]) {
      LegalSpec(g, color, Legal(g, color)[i]);
    }
  }

  /** The legal moves of `color` with the best gain, in order. */
  ghost function BestMoves(g: Grid, color: string): seq<Move>
    requires WellFormed(g)
  {
    LegalApplicable(g, color);
    var legal := Legal(g, color);
    var gains := GainsOf(g, color, legal);
    WithGain(legal, gains, Best(gains))
  }

  /** Every gain is above -999: no move loses more than all the material there is. */
  lemma GainsAboveFloor(g: Grid, color: string, ms: seq<Move>)
    requires WellFormed(g) && AllApplicable(g, ms)
    ensures forall i :: 0 <= i < |ms| ==> GainsOf(g, color, ms)[i] > -999
  {
    forall i | 0 <= i < |ms| ensures GainsOf(g, color, ms)[i] > -999 {
      GainBound(g, color, ms[i]);
    }
  }

  /** A move kept at the best gain stands at a position whose gain no other reaches. */
  lemma WithBestIsMax(ms: seq<Move>, gains: seq<int>, choice: Move)
    requires |ms| == |gains| && forall i :: 0 <= i < |gains| ==> gains[i] > -999
    requires choice in WithGain(ms, gains, Best(gains))
    ensures exists c :: 0 <= c < |ms| && ms[c] == choice && forall j :: 0 <= j < |gains| ==> gains[j] <= gains[c]
  {
    WithGainSpec(ms, gains, Best(gains), choice);
    BestIsMax(gains);
  }

  /** Some move has the best gain, since every gain is above -999. */
  lemma BestMovesExist(g: Grid, color: string, legal: seq<Move>)
    requires WellFormed(g) && AllApplicable(g, legal) && legal != []
    ensures WithGain(legal, GainsOf(g, color, legal), Best(GainsOf(g, color, legal))) != []
  {
    var gains := GainsOf(g, color, legal);
    GainsAboveFloor(g, color, legal);
    BestIsMax(gains);
    var k :| 0 <= k < |gains| && gains[k] == Best(gains);
    WithGainSpec(legal, gains, Best(gains), legal[k]);
  }

  /** A best move is a legal move, and no legal move gains more material. */
  lemma BestMovesAreBest(g: Grid, color: string, choice: Move)
    requires WellFormed(g) && choice in BestMoves(g, color)
    ensures choice in Legal(g, color) && Applicable(g, choice)
    ensures forall m :: m in Legal(g, color) && Applicable(g, m) ==> Gain(g, color, m) <= Gain(g, color, choice)
  {
    LegalApplicable(g, color);
    var legal := Legal(g, color);
    var gains := GainsOf(g, color, legal);
    GainsAboveFloor(g, color, legal);
    WithBestIsMax(legal, gains, choice);
    var c :| 0 <= c < |legal| && legal[c] == choice && forall j :: 0 <= j < |gains| ==> gains[j] <= gains[c];
    forall m | m in legal && Applicable(g, m) ensures Gain(g, color, m) <= Gain(g, color, choice) {
      var j :| 0 <= j < |legal| && legal[j] == m;
      assert gains[j] <= gains[c];
    }
  }

  /** The scan of `choose_move`: the gain of each legal move, and the moves reaching the
      best gain so far. */
  method BestByGain(board: Board, color: string, legal: seq<Move>) returns (bestMoves: seq<Move>)
    requires board.Valid() && WellFormed(board.grid) && AllApplicable(board.grid, legal)
    ensures bestMoves == WithGain(legal, GainsOf(board.grid, color, legal), Best(GainsOf(board.grid, color, legal)))
  {
    ghost var g := board.grid;
    ghost var gains := GainsOf(g, color, legal);
    bestMoves := [];
    var bestGain := -999;
    for i := 0 to |legal|
      invariant bestGain == Best(gains[..i])
      invariant bestMoves == WithGain(legal[..i], gains[..i], bestGain)
    {
      var move := legal[i];
      var before := MaterialScore(board, color);
      var nb := board.ApplyMove(move);
      AfterMoveWellFormed(g, move);
      var after := MaterialScore(nb, color);
      var gain := after - before;
      assert gain == gains[i];
      if gain > bestGain {
        NothingAboveBest(legal[..i], gains[..i], gain);
        ScanSnoc(legal, gains, i, gain);
        bestGain := gain;
        bestMoves := [move];
      } else {
        ScanSnoc(legal, gains, i, bestGain);
        if gain == bestGain {
          bestMoves := bestMoves + [move];
        }
      }
    }
    assert legal[..|legal|] == legal && gains[..|gains|] == gains;
  }

  /** `SimpleAI`. */
  class SimpleAI {
    var color: string

    constructor (color: string)
      ensures this.color == color
    {
      this.color := color;
    }

    /** `choose_move`: None when there is no legal move; otherwise one of the legal moves
        with the largest material gain (the source picks among them at random). */
    method ChooseMove(board: Board) returns (mv: Option<Move>)
      requires board.Valid() && WellFormed(board.grid)
      ensures mv == None <==> Legal(board.grid, color) == []
      ensures mv.Some? ==> mv.value in BestMoves(board.grid, color)
      ensures mv.Some? ==>
                mv.value in Legal(board.grid, color) && Applicable(board.grid, mv.value) &&
                forall m :: m in Legal(board.grid, color) && Applicable(board.grid, m) ==>
                  Gain(board.grid, color, m) <= Gain(board.grid, color, mv.value)
    {
      var legal := GenerateLegalMoves(board, color);
      if legal == [] {
        return None;
      }
      LegalApplicable(board.grid, color);
      var bestMoves := BestByGain(board, color, legal);
      BestMovesExist(board.grid, color, legal);
      assert bestMoves[0] in bestMoves;
      var choice :| choice in bestMoves;
      BestMovesAreBest(board.grid, color, choice);
      mv := Some(choice);
    }
  }
}
