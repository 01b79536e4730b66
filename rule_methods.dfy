/** The procedures of engine/rules.py with their loops, each proved to compute the
    specification function of the same name in module Rules. */
module RuleMethods {
  import opened Chessboard
  import opened Rules

  /** The four promotion moves to dest, appended in the order Q, R, B, N. */
  method AddPromotions(moves: seq<Move>, color: string, origin: Coord, dest: Coord) returns (out: seq<Move>)
    requires dest.row == PromoRank(color)
    ensures out == moves + PawnTargets(color, origin, dest)
  {
    out := moves;
    for k := 0 to |PromoLetters|
      invariant out == moves + seq(k, i requires 0 <= i < k => Move(origin, dest, Some(PromoLetters[i])))
    {
      out := out + [Move(origin, dest, Some(PromoLetters[k]))];
    }
  }

  /** The pawn branch of `generate_pseudo_legal`: pushes, then captures. */
  method AddPawnMoves(board: Board, color: string, r: int, c: int, moves: seq<Move>) returns (out: seq<Move>)
    requires board.Valid() && InBounds(r, c)
    ensures out == moves + PawnMoves(board.grid, color, r, c)
  {
    ghost var g := board.grid;
    out := AddPawnPushes(board, color, r, c, moves);
    out := AddPawnCaptures(board, color, r, c, out);
    ghost var pushes, left, right := PawnPushes(g, color, r, c), PawnCapture(g, color, r, c, -1), PawnCapture(g, color, r, c, 1);
    Associative(moves, pushes, left);
    Associative(moves + pushes, left, right);
    Associative(moves, pushes + left, right);
  }

  /** The single push, then the double push from the start rank. */
  method AddPawnPushes(board: Board, color: string, r: int, c: int, moves: seq<Move>) returns (out: seq<Move>)
    requires board.Valid() && InBounds(r, c)
    ensures out == moves + PawnPushes(board.grid, color, r, c)
  {
    var forward := if color == "w" then -1 else 1;
    var startRank := if color == "w" then 6 else 1;
    var promoRank := if color == "w" then 0 else 7;
    out := moves;
    var nr := r + forward;
    if InBounds(nr, c) && board.grid[nr][c] == '.' {
      if nr == promoRank {
        out := AddPromotions(out, color, Coord(r, c), Coord(nr, c));
      } else {
        out := out + [Move(Coord(r, c), Coord(nr, c), None)];
      }
      if r == startRank {
        var nnr := r + 2 * forward;
        DoublePushInBounds(color, r);
        if board.grid[nnr][c] == '.' {
          Associative(moves, PawnTargets(color, Coord(r, c), Coord(nr, c)), [Move(Coord(r, c), Coord(nnr, c), None)]);
          out := out + [Move(Coord(r, c), Coord(nnr, c), None)];
        }
      }
    }
  }

  /** The diagonal captures, towards column c - 1 and then c + 1. */
  method AddPawnCaptures(board: Board, color: string, r: int, c: int, moves: seq<Move>) returns (out: seq<Move>)
    requires board.Valid() && InBounds(r, c)
    ensures out == moves + PawnCapture(board.grid, color, r, c, -1) + PawnCapture(board.grid, color, r, c, 1)
  {
    ghost var g := board.grid;
    ghost var left, right := PawnCapture(g, color, r, c, -1), PawnCapture(g, color, r, c, 1);
    var forward := if color == "w" then -1 else 1;
    var promoRank := if color == "w" then 0 else 7;
    out := moves;
    var sides := [-1, 1];
    for k := 0 to 2
      invariant k == 0 ==> out == moves
      invariant k == 1 ==> out == moves + left
      invariant k == 2 ==> out == moves + left + right
    {
      ghost var before := out;
      var dc := sides[k];
      var nr, nc := r + forward, c + dc;
      if InBounds(nr, nc) {
        var tp := board.grid[nr][nc];
        if tp != '.' && ColorOf(tp) == Some(Enemy(color)) {
          if nr == promoRank {
            out := AddPromotions(out, color, Coord(r, c), Coord(nr, nc));
          } else {
            out := out + [Move(Coord(r, c), Coord(nr, nc), None)];
          }
        }
      }
      assert out == before + PawnCapture(g, color, r, c, dc);
    }
  }

  /** The knight and king branch: one step along each offset. */
  method AddStepMoves(board: Board, color: string, r: int, c: int, dirs: seq<(int, int)>, moves: seq<Move>)
    returns (out: seq<Move>)
    requires board.Valid()
    ensures out == moves + StepMoves(board.grid, color, r, c, dirs)
  {
    out := moves;
    for i := 0 to |dirs|
      invariant out == moves + StepMoves(board.grid, color, r, c, dirs[..i])
    {
      assert dirs[..i + 1][..i] == dirs[..i];
      Associative(moves, StepMoves(board.grid, color, r, c, dirs[..i]), StepTo(board.grid, color, r, c, dirs[i]));
      var nr, nc := r + dirs[i].0, c + dirs[i].1;
      if !InBounds(nr, nc) {
        continue;
      }
      var tp := board.grid[nr][nc];
      if tp == '.' || ColorOf(tp) == Some(Enemy(color)) {
        out := out + [Move(Coord(r, c), Coord(nr, nc), None)];
      }
    }
    assert dirs[..|dirs|] == dirs;
  }

  /** One slider ray: empty squares are entered and the walk goes on; the first occupied
      square is entered when it holds an enemy piece, and ends the walk. */
  method AddRay(board: Board, color: string, r: int, c: int, d: (int, int), moves: seq<Move>) returns (out: seq<Move>)
    requires board.Valid() && InBounds(r, c) && UnitDir(d)
    ensures out == moves + Ray(board.grid, color, r, c, d, 1)
  {
    var g := board.grid;
    ghost var target := moves + Ray(g, color, r, c, d, 1);
    out := moves;
    var nr, nc := r + d.0, c + d.1;
    ghost var k := 1;
    while InBounds(nr, nc)
      invariant k >= 1 && nr == Along(r, d.0, k) && nc == Along(c, d.1, k)
      invariant out + Ray(g, color, r, c, d, k) == target
      decreases 8 - k
    {
      var tp := board.grid[nr][nc];
      var step := [Move(Coord(r, c), Coord(nr, nc), None)];
      if tp == '.' {
        assert Ray(g, color, r, c, d, k) == step + Ray(g, color, r, c, d, k + 1);
        Associative(out, step, Ray(g, color, r, c, d, k + 1));
        out := out + step;
      } else {
        if ColorOf(tp) == Some(Enemy(color)) {
          assert Ray(g, color, r, c, d, k) == step;
          out := out + step;
        } else {
          assert Ray(g, color, r, c, d, k) == [];
        }
        return;
      }
      nr, nc := nr + d.0, nc + d.1;
      k := k + 1;
    }
    assert Ray(g, color, r, c, d, k) == [];
  }

  /** The bishop, rook and queen branch: one ray per direction. */
  method AddSlideMoves(board: Board, color: string, r: int, c: int, dirs: seq<(int, int)>, moves: seq<Move>)
    returns (out: seq<Move>)
    requires board.Valid() && InBounds(r, c) && UnitDirs(dirs)
    ensures out == moves + SlideMoves(board.grid, color, r, c, dirs, |dirs|)
  {
    ghost var g := board.grid;
    out := moves;
    for i := 0 to |dirs|
      invariant out == moves + SlideMoves(g, color, r, c, dirs, i)
    {
      ghost var done, ray := SlideMoves(g, color, r, c, dirs, i), Ray(g, color, r, c, dirs[i], 1);
      assert SlideMoves(g, color, r, c, dirs, i + 1) == done + ray;
      Associative(moves, done, ray);
      out := AddRay(board, color, r, c, dirs[i], out);
    }
  }

  /** `generate_pseudo_legal`. */
  method GeneratePseudoLegal(board: Board, color: string) returns (moves: seq<Move>)
    requires board.Valid() && WellFormed(board.grid)
    ensures moves == PseudoLegal(board.grid, color)
  {
    var pieces := board.AllPiecesList();
    AllPiecesAreAPieceList(board.grid);
    moves := [];
    for i := 0 to |pieces|
      invariant PieceList(board.grid, pieces[..i])
      invariant moves == MovesOf(board.grid, color, pieces[..i])
    {
      MovesOfSnoc(board.grid, color, pieces, i);
      var (piece, sq) := pieces[i];
      if ColorOf(piece) != Some(color) {
        continue;
      }
      var up := Upper(piece);
      if up == 'P' {
        moves := AddPawnMoves(board, color, sq.row, sq.col, moves);
      } else if up == 'N' || up == 'K' {
        moves := AddStepMoves(board, color, sq.row, sq.col, Dirs(up), moves);
      } else {
        SliderDirs(up);
        moves := AddSlideMoves(board, color, sq.row, sq.col, Dirs(up), moves);
      }
    }
    assert pieces[..|pieces|] == pieces;
  }

  /** `is_square_attacked`: does some pseudo-legal move of `attacker` land on sq? */
  method IsSquareAttacked(board: Board, sq: Coord, attacker: string) returns (hit: bool)
    requires board.Valid() && WellFormed(board.grid)
    ensures hit == Attacked(board.grid, sq, attacker)
  {
    var moves := GeneratePseudoLegal(board, attacker);
    for i := 0 to |moves|
      invariant forall j :: 0 <= j < i ==> moves[j].dest != sq
    {
      if moves[i].dest == sq {
        return true;
      }
    }
    return false;
  }

  /** `in_check`: false without a king, else whether the enemy attacks the king square. */
  method InCheck(board: Board, color: string) returns (check: bool)
    requires board.Valid() && WellFormed(board.grid)
    ensures check == Checked(board.grid, color)
  {
    var ksq := board.FindKing(color);
    if ksq.None? {
      return false;
    }
    check := IsSquareAttacked(board, ksq.value, Enemy(color));
  }

  /** `generate_legal_moves`: keep the pseudo-legal moves after which the mover is not in
      check. */
  method GenerateLegalMoves(board: Board, color: string) returns (moves: seq<Move>)
    requires board.Valid() && WellFormed(board.grid)
    ensures moves == Legal(board.grid, color)
  {
    var pseudo := GeneratePseudoLegal(board, color);
    PseudoLegalApplicable(board.grid, color);
    moves := [];
    for i := 0 to |pseudo|
      invariant AllApplicable(board.grid, pseudo[..i])
      invariant moves == KeepSafe(board.grid, color, pseudo[..i])
    {
      KeepSafeSnoc(board.grid, color, pseudo, i);
      var mv := pseudo[i];
      var nb := board.ApplyMove(mv);
      AfterMoveWellFormed(board.grid, mv);
      var check := InCheck(nb, color);
      if !check {
        moves := moves + [mv];
      }
    }
    assert pseudo[..|pseudo|] == pseudo;
  }

  /** `material_score`. */
  method MaterialScore(board: Board, color: string) returns (score: int)
    requires board.Valid() && WellFormed(board.grid)
    ensures score == Material(board.grid, color)
  {
    var pieces := board.AllPiecesList();
    AllPiecesAreAPieceList(board.grid);
    score := 0;
    for i := 0 to |pieces|
      invariant score == Tally(pieces[..i], color)
    {
      assert pieces[..i + 1][..i] == pieces[..i];
      var (p, _) := pieces[i];
      var val := Value(p);
      if ColorOf(p) == Some(color) {
        score := score + val;
      } else {
        score := score - val;
      }
    }
    assert pieces[..|pieces|] == pieces;
  }
}
