/** The move rules of the engine (engine/rules.py): pseudo-legal generation per piece type,
    the attack test that reuses it, check detection, the legality filter and the material
    scorer. Each operation is a specification function over grid values plus a method with
    the source's loops, proved equal to it. */
module Rules {
  import opened Chessboard

  // ---------------------------------------------------------------------------
  // Tables

  const KnightDirs: seq<(int, int)> := [(-2, -1), (-2, 1), (-1, -2), (-1, 2), (1, -2), (1, 2), (2, -1), (2, 1)]
  const BishopDirs: seq<(int, int)> := [(-1, -1), (-1, 1), (1, -1), (1, 1)]
  const RookDirs: seq<(int, int)> := [(-1, 0), (1, 0), (0, -1), (0, 1)]
  const QueenDirs: seq<(int, int)> := [(-1, -1), (-1, 1), (1, -1), (1, 1), (-1, 0), (1, 0), (0, -1), (0, 1)]
  const KingDirs: seq<(int, int)> := [(-1, -1), (-1, 0), (-1, 1), (0, -1), (0, 1), (1, -1), (1, 0), (1, 1)]

  /** `PIECE_DIRS`, indexed by upper-case piece letter. */
  function Dirs(kind: char): seq<(int, int)>
    requires kind in "NBRQK"
  {
    match kind
    case 'N' => KnightDirs
    case 'B' => BishopDirs
    case 'R' => RookDirs
    case 'Q' => QueenDirs
    case 'K' => KingDirs
  }

  /** `MATERIAL[p.lower()]`. */
  function Value(p: char): (v: int)
    requires IsPiece(p)
    ensures 0 <= v <= 9
    ensures Lower(p) == 'k' <==> v == 0
  {
    match Lower(p)
    case 'p' => 1
    case 'n' => 3
    case 'b' => 3
    case 'r' => 5
    case 'q' => 9
    case 'k' => 0
  }

  /** The promotion letters, in emission order. */
  const PromoLetters: seq<char> := ['Q', 'R', 'B', 'N']

  /** `enemy`: "b" for "w", "w" for anything else. */
  function Enemy(color: string): (e: string)
    ensures e == "b" <==> color == "w"
    ensures e == "w" <==> color != "w"
  {
    if color == "w" then "b" else "w"
  }

  function Forward(color: string): int { if color == "w" then -1 else 1 }
  function StartRank(color: string): int { if color == "w" then 6 else 1 }
  function PromoRank(color: string): int { if color == "w" then 0 else 7 }

  /** The double push reads the square two ahead without a bounds check; from the start
      rank that square is always on the board. */
  lemma DoublePushInBounds(color: string, r: int)
    requires r == StartRank(color)
    ensures 0 <= r + 2 * Forward(color) < 8 && 0 <= r + Forward(color) < 8
    ensures r + Forward(color) != PromoRank(color) && r + 2 * Forward(color) != PromoRank(color)
  {
  }

  // ---------------------------------------------------------------------------
  // Specification of `generate_pseudo_legal`

  /** The destination may be entered: empty, or an enemy piece. */
  predicate Enterable(p: char, color: string) {
    p == '.' || ColorOf(p) == Some(Enemy(color))
  }

  /** The moves to one pawn destination: four promotions on the promotion rank, else one. */
  function PawnTargets(color: string, origin: Coord, dest: Coord): seq<Move> {
    if dest.row == PromoRank(color) then
      seq(4, i requires 0 <= i < 4 => Move(origin, dest, Some(PromoLetters[i])))
    else [Move(origin, dest, None)]
  }

  /** Single push, then (from the start rank, both squares empty) the double push. */
  function PawnPushes(g: Grid, color: string, r: int, c: int): seq<Move>
    requires IsGrid(g) && InBounds(r, c)
  {
    var nr := r + Forward(color);
    if InBounds(nr, c) && g[nr][c] == '.' then
      PawnTargets(color, Coord(r, c), Coord(nr, c)) +
      (if r == StartRank(color) && g[r + 2 * Forward(color)][c] == '.'
       then [Move(Coord(r, c), Coord(r + 2 * Forward(color), c), None)] else [])
    else []
  }

  /** The diagonal capture towards column c + dc, only onto an enemy piece. */
  function PawnCapture(g: Grid, color: string, r: int, c: int, dc: int): seq<Move>
    requires IsGrid(g) && InBounds(r, c)
  {
    var nr, nc := r + Forward(color), c + dc;
    if InBounds(nr, nc) && g[nr][nc] != '.' && ColorOf(g[nr][nc]) == Some(Enemy(color))
    then PawnTargets(color, Coord(r, c), Coord(nr, nc))
    else []
  }

  function PawnMoves(g: Grid, color: string, r: int, c: int): seq<Move>
    requires IsGrid(g) && InBounds(r, c)
  {
    PawnPushes(g, color, r, c) + PawnCapture(g, color, r, c, -1) + PawnCapture(g, color, r, c, 1)
  }

  /** The knight/king move along one offset, if the target is on the board and enterable. */
  function StepTo(g: Grid, color: string, r: int, c: int, d: (int, int)): seq<Move>
    requires IsGrid(g)
  {
    var nr, nc := r + d.0, c + d.1;
    if InBounds(nr, nc) && Enterable(g[nr][nc], color) then [Move(Coord(r, c), Coord(nr, nc), None)] else []
  }

  function StepMoves(g: Grid, color: string, r: int, c: int, dirs: seq<(int, int)>): seq<Move>
    requires IsGrid(g)
  {
    if dirs == [] then []
    else StepMoves(g, color, r, c, dirs[..|dirs| - 1]) + StepTo(g, color, r, c, dirs[|dirs| - 1])
  }

  /** A ray direction: one step in each coordinate at most, and not standing still. */
  predicate UnitDir(d: (int, int)) {
    -1 <= d.0 <= 1 && -1 <= d.1 <= 1 && d != (0, 0)
  }

  /** Every direction of dirs is a ray direction. */
  predicate UnitDirs(dirs: seq<(int, int)>) {
    forall i :: 0 <= i < |dirs| ==> UnitDir(dirs[i])
  }

  /** x moved k steps in direction d (d in {-1, 0, 1}), i.e. x + k * d. */
  function Along(x: int, d: int, k: int): int {
    if d > 0 then x + k else if d < 0 then x - k else x
  }

  lemma RayLeavesBoard(r: int, c: int, d: (int, int), k: int)
    requires InBounds(r, c) && UnitDir(d) && k >= 8
    ensures !InBounds(Along(r, d.0, k), Along(c, d.1, k))
  {
  }

  /** The slider's ray from step k on: empty squares are entered and the ray goes on; the
      first occupied square ends it, entered only when it holds an enemy piece. */
  function Ray(g: Grid, color: string, r: int, c: int, d: (int, int), k: int): seq<Move>
    requires IsGrid(g) && InBounds(r, c) && UnitDir(d) && k >= 1
    decreases 8 - k
  {
    var nr, nc := Along(r, d.0, k), Along(c, d.1, k);
    if !InBounds(nr, nc) then []
    else if g[nr][nc] == '.' then [Move(Coord(r, c), Coord(nr, nc), None)] + Ray(g, color, r, c, d, k + 1)
    else if ColorOf(g[nr][nc]) == Some(Enemy(color)) then [Move(Coord(r, c), Coord(nr, nc), None)]
    else []
  }

  /** The sliders' direction tables hold ray directions only. */
  lemma SliderDirs(kind: char)
    requires kind in "BRQ"
    ensures UnitDirs(Dirs(kind))
  {
  }

  /** The rays of the first n directions of dirs, in order. */
  function SlideMoves(g: Grid, color: string, r: int, c: int, dirs: seq<(int, int)>, n: int): seq<Move>
    requires IsGrid(g) && InBounds(r, c) && 0 <= n <= |dirs| && UnitDirs(dirs)
  {
    if n == 0 then [] else SlideMoves(g, color, r, c, dirs, n - 1) + Ray(g, color, r, c, dirs[n - 1], 1)
  }

  /** The moves the generator emits for piece p standing on (r, c). */
  function PieceMoves(g: Grid, color: string, p: char, r: int, c: int): seq<Move>
    requires IsGrid(g) && InBounds(r, c) && IsPiece(p)
  {
    if ColorOf(p) != Some(color) then []
    else
      var up := Upper(p);
      if up == 'P' then PawnMoves(g, color, r, c)
      else if up == 'N' || up == 'K' then StepMoves(g, color, r, c, Dirs(up))
      else SlideMoves(g, color, r, c, Dirs(up), |Dirs(up)|)
  }

  /** Each entry of a piece list is a piece letter on its own square. */
  ghost predicate PieceList(g: Grid, ps: seq<(char, Coord)>)
    requires IsGrid(g)
  {
    forall i :: 0 <= i < |ps| ==> OnBoard(ps[i].1) && IsPiece(ps[i].0) && ps[i].0 == At(g, ps[i].1)
  }

  function MovesOf(g: Grid, color: string, ps: seq<(char, Coord)>): seq<Move>
    requires IsGrid(g) && PieceList(g, ps)
  {
    if ps == [] then []
    else
      var e := ps[|ps| - 1];
      MovesOf(g, color, ps[..|ps| - 1]) + PieceMoves(g, color, e.0, e.1.row, e.1.col)
  }

  lemma PieceListPrefix(g: Grid, ps: seq<(char, Coord)>, n: int)
    requires IsGrid(g) && PieceList(g, ps) && 0 <= n <= |ps|
    ensures PieceList(g, ps[..n])
  {
    forall i | 0 <= i < n ensures OnBoard(ps[..n][i].1) && IsPiece(ps[..n][i].0) && ps[..n][i].0 == At(g, ps[..n][i].1) {
      assert ps[..n][i] == ps[i];
    }
  }

  lemma MovesOfSnoc(g: Grid, color: string, ps: seq<(char, Coord)>, i: int)
    requires IsGrid(g) && PieceList(g, ps) && 0 <= i < |ps|
    ensures PieceList(g, ps[..i]) && PieceList(g, ps[..i + 1])
    ensures MovesOf(g, color, ps[..i + 1]) ==
              MovesOf(g, color, ps[..i]) + PieceMoves(g, color, ps[i].0, ps[i].1.row, ps[i].1.col)
  {
    PieceListPrefix(g, ps, i);
    PieceListPrefix(g, ps, i + 1);
    assert ps[..i + 1][..i] == ps[..i];
  }

  lemma AllPiecesAreAPieceList(g: Grid)
    requires WellFormed(g)
    ensures PieceList(g, AllPieces(g))
  {
    AllPiecesSpec(g);
  }

  /** `generate_pseudo_legal`: the moves of every piece of `color`, in board-scan order. */
  function PseudoLegal(g: Grid, color: string): seq<Move>
    requires WellFormed(g)
  {
    AllPiecesAreAPieceList(g);
    MovesOf(g, color, AllPieces(g))
  }

  // ---------------------------------------------------------------------------
  // Specification of the attack test, check and legality

  /** `is_square_attacked`: some pseudo-legal move of `by` lands on `sq`. */
  ghost predicate Attacked(g: Grid, sq: Coord, attacker: string)
    requires WellFormed(g)
  {
    exists i :: 0 <= i < |PseudoLegal(g, attacker)| && PseudoLegal(g, attacker)[i].dest == sq
  }

  /** `in_check`: false without a king, else the king square is attacked by the enemy. */
  ghost predicate Checked(g: Grid, color: string)
    requires WellFormed(g)
  {
    match KingSquare(g, color)
    case None => false
    case Some(k) => Attacked(g, k, Enemy(color))
  }

  /** A move that can be applied to g and keeps it well formed. */
  predicate Applicable(g: Grid, m: Move) {
    OnBoard(m.origin) && OnBoard(m.dest) &&
    (m.promo == None || m.promo.value in PromoLetters)
  }

  lemma AfterMoveWellFormed(g: Grid, m: Move)
    requires WellFormed(g) && Applicable(g, m)
    ensures WellFormed(AfterMove(g, m))
  {
    var g' := AfterMove(g, m);
    forall r, c | InBounds(r, c) ensures g'[r][c] == '.' || IsPiece(g'[r][c]) {
      if Coord(r, c) == m.dest {
        var p := At(g, m.origin);
        assert p == '.' || IsPiece(p);
      }
    }
  }

  /** Playing m on g leaves `color`'s king attacked. */
  ghost predicate LeavesInCheck(g: Grid, color: string, m: Move)
    requires WellFormed(g) && Applicable(g, m)
  {
    AfterMoveWellFormed(g, m);
    Checked(AfterMove(g, m), color)
  }

  /** Every move of ms can be played on g. */
  predicate AllApplicable(g: Grid, ms: seq<Move>) {
    forall i :: 0 <= i < |ms| ==> Applicable(g, ms[i])
  }

  lemma AllApplicablePrefix(g: Grid, ms: seq<Move>, n: int)
    requires AllApplicable(g, ms) && 0 <= n <= |ms|
    ensures AllApplicable(g, ms[..n])
  {
    forall i | 0 <= i < n ensures Applicable(g, ms[..n][i]) {
      assert ms[..n][i] == ms[i];
    }
  }

  /** The moves of ms that do not leave `color` in check, in order. */
  ghost function KeepSafe(g: Grid, color: string, ms: seq<Move>): seq<Move>
    requires WellFormed(g) && AllApplicable(g, ms)
  {
    if ms == [] then []
    else
      var m := ms[|ms| - 1];
      KeepSafe(g, color, ms[..|ms| - 1]) + (if LeavesInCheck(g, color, m) then [] else [m])
  }

  // ---------------------------------------------------------------------------
  // Soundness of the generator

  /** What every generated move satisfies. */
  ghost predicate Sound(g: Grid, color: string, m: Move)
    requires IsGrid(g)
  {
    OnBoard(m.origin) && OnBoard(m.dest) && m.origin != m.dest &&
    ColorOf(At(g, m.origin)) == Some(color) &&
    Enterable(At(g, m.dest), color) &&
    (m.promo == None || m.promo.value in PromoLetters)
  }

  lemma PawnTargetsSpec(color: string, origin: Coord, dest: Coord, m: Move)
    ensures m in PawnTargets(color, origin, dest) <==>
              m.origin == origin && m.dest == dest &&
              (if dest.row == PromoRank(color) then m.promo.Some? && m.promo.value in PromoLetters
               else m.promo == None)
  {
    if dest.row == PromoRank(color) && m.origin == origin && m.dest == dest && m.promo.Some? &&
       m.promo.value in PromoLetters {
      var i :| 0 <= i < 4 && PromoLetters[i] == m.promo.value;
      assert PawnTargets(color, origin, dest)[i] == m;
    }
  }

  /** The pawn rules: single push onto an empty square one step forward; double push only
      from the start rank with both squares empty; diagonal steps only onto enemy pieces; a
      promotion letter exactly when the destination is the promotion rank. */
  ghost predicate PawnRule(g: Grid, color: string, r: int, c: int, m: Move)
    requires IsGrid(g) && InBounds(r, c)
  {
    var f := Forward(color);
    m.origin == Coord(r, c) && OnBoard(m.dest) &&
    ( (m.dest == Coord(r + f, c) && g[r + f][c] == '.')
    || (r == StartRank(color) && m.dest == Coord(r + 2 * f, c) && g[r + f][c] == '.' && g[r + 2 * f][c] == '.')
    || ((m.dest == Coord(r + f, c - 1) || m.dest == Coord(r + f, c + 1)) &&
        ColorOf(At(g, m.dest)) == Some(Enemy(color))) ) &&
    (if m.dest.row == PromoRank(color) then m.promo.Some? && m.promo.value in PromoLetters
     else m.promo == None)
  }

  lemma PawnMovesSpec(g: Grid, color: string, r: int, c: int, m: Move)
    requires IsGrid(g) && InBounds(r, c)
    ensures m in PawnMoves(g, color, r, c) <==> PawnRule(g, color, r, c, m)
  {
    var f := Forward(color);
    PawnTargetsSpec(color, Coord(r, c), Coord(r + f, c), m);
    PawnTargetsSpec(color, Coord(r, c), Coord(r + f, c - 1), m);
    PawnTargetsSpec(color, Coord(r, c), Coord(r + f, c + 1), m);
    if r == StartRank(color) {
      DoublePushInBounds(color, r);
    }
  }

  /** m is the knight/king move along offset d. */
  ghost predicate StepHit(g: Grid, color: string, r: int, c: int, d: (int, int), m: Move)
    requires IsGrid(g)
  {
    m == Move(Coord(r, c), Coord(r + d.0, c + d.1), None) &&
    InBounds(r + d.0, c + d.1) && Enterable(g[r + d.0][c + d.1], color)
  }

  lemma {:induction false} StepMovesSound(g: Grid, color: string, r: int, c: int, dirs: seq<(int, int)>, m: Move)
    requires IsGrid(g) && m in StepMoves(g, color, r, c, dirs)
    ensures exists i :: 0 <= i < |dirs| && StepHit(g, color, r, c, dirs[i], m)
  {
    var n := |dirs| - 1;
    var pre := dirs[..n];
    assert StepMoves(g, color, r, c, dirs) == StepMoves(g, color, r, c, pre) + StepTo(g, color, r, c, dirs[n]);
    if m in StepTo(g, color, r, c, dirs[n]) {
      assert StepHit(g, color, r, c, dirs[n], m);
    } else {
      StepMovesSound(g, color, r, c, pre, m);
      var i :| 0 <= i < n && StepHit(g, color, r, c, pre[i], m);
      assert dirs[i] == pre[i];
    }
  }

  lemma {:induction false} StepMovesComplete(g: Grid, color: string, r: int, c: int, dirs: seq<(int, int)>, i: int, m: Move)
    requires IsGrid(g) && 0 <= i < |dirs| && StepHit(g, color, r, c, dirs[i], m)
    ensures m in StepMoves(g, color, r, c, dirs)
  {
    var n := |dirs| - 1;
    var pre := dirs[..n];
    assert StepMoves(g, color, r, c, dirs) == StepMoves(g, color, r, c, pre) + StepTo(g, color, r, c, dirs[n]);
    if i == n {
      assert m in StepTo(g, color, r, c, dirs[n]);
    } else {
      assert pre[i] == dirs[i];
      StepMovesComplete(g, color, r, c, pre, i, m);
    }
  }

  /** Knight and king moves: origin plus one of the offsets, on the board, enterable. */
  lemma StepMovesSpec(g: Grid, color: string, r: int, c: int, dirs: seq<(int, int)>, m: Move)
    requires IsGrid(g)
    ensures m in StepMoves(g, color, r, c, dirs) <==> exists i :: 0 <= i < |dirs| && StepHit(g, color, r, c, dirs[i], m)
  {
    if m in StepMoves(g, color, r, c, dirs) {
      StepMovesSound(g, color, r, c, dirs, m);
    }
    if exists i :: 0 <= i < |dirs| && StepHit(g, color, r, c, dirs[i], m) {
      var i :| 0 <= i < |dirs| && StepHit(g, color, r, c, dirs[i], m);
      StepMovesComplete(g, color, r, c, dirs, i, m);
    }
  }

  /** The ray square at step j. */
  function RaySquare(r: int, c: int, d: (int, int), j: int): Coord {
    Coord(Along(r, d.0, j), Along(c, d.1, j))
  }

  /** The squares at steps k .. j - 1 of the ray are on the board and empty. */
  ghost predicate ClearBetween(g: Grid, r: int, c: int, d: (int, int), k: int, j: int)
    requires IsGrid(g)
  {
    forall i :: k <= i < j ==> OnBoard(RaySquare(r, c, d, i)) && At(g, RaySquare(r, c, d, i)) == '.'
  }

  /** m is the move to the ray square at step j, reached over empty squares from step k. */
  ghost predicate RayHit(g: Grid, color: string, r: int, c: int, d: (int, int), k: int, j: int, m: Move)
    requires IsGrid(g)
  {
    k <= j < 8 && m == Move(Coord(r, c), RaySquare(r, c, d, j), None) &&
    OnBoard(RaySquare(r, c, d, j)) && ClearBetween(g, r, c, d, k, j) &&
    Enterable(At(g, RaySquare(r, c, d, j)), color)
  }

  lemma {:induction false} RaySound(g: Grid, color: string, r: int, c: int, d: (int, int), k: int, m: Move)
    requires IsGrid(g) && InBounds(r, c) && UnitDir(d) && k >= 1
    requires m in Ray(g, color, r, c, d, k)
    ensures exists j :: RayHit(g, color, r, c, d, k, j, m)
    decreases 8 - k
  {
    var sq := RaySquare(r, c, d, k);
    assert OnBoard(sq);
    assert k < 8 by {
      if k >= 8 {
        RayLeavesBoard(r, c, d, k);
      }
    }
    var step := Move(Coord(r, c), sq, None);
    if m == step {
      assert RayHit(g, color, r, c, d, k, k, m);
    } else {
      assert At(g, sq) == '.' && Ray(g, color, r, c, d, k) == [step] + Ray(g, color, r, c, d, k + 1);
      RaySound(g, color, r, c, d, k + 1, m);
      var j :| RayHit(g, color, r, c, d, k + 1, j, m);
      RayHitBack(g, color, r, c, d, k, j, m);
    }
  }

  /** A hit reached over empty squares from step k + 1 is one from step k when step k is empty. */
  lemma RayHitBack(g: Grid, color: string, r: int, c: int, d: (int, int), k: int, j: int, m: Move)
    requires IsGrid(g) && RayHit(g, color, r, c, d, k + 1, j, m)
    requires OnBoard(RaySquare(r, c, d, k)) && At(g, RaySquare(r, c, d, k)) == '.'
    ensures RayHit(g, color, r, c, d, k, j, m)
  {
  }

  lemma {:induction false} RayComplete(g: Grid, color: string, r: int, c: int, d: (int, int), k: int, j: int, m: Move)
    requires IsGrid(g) && InBounds(r, c) && UnitDir(d) && k >= 1
    requires RayHit(g, color, r, c, d, k, j, m)
    ensures m in Ray(g, color, r, c, d, k)
    decreases j - k
  {
    if j > k {
      assert OnBoard(RaySquare(r, c, d, k)) && At(g, RaySquare(r, c, d, k)) == '.';
      assert RayHit(g, color, r, c, d, k + 1, j, m);
      RayComplete(g, color, r, c, d, k + 1, j, m);
    }
  }

  /** A ray from step k yields exactly the squares j >= k that are on the board, enterable,
      and reached over empty squares only: it passes empty squares and stops at the first
      occupied one. */
  lemma RaySpec(g: Grid, color: string, r: int, c: int, d: (int, int), k: int, m: Move)
    requires IsGrid(g) && InBounds(r, c) && UnitDir(d) && k >= 1
    ensures m in Ray(g, color, r, c, d, k) <==> exists j :: RayHit(g, color, r, c, d, k, j, m)
  {
    if m in Ray(g, color, r, c, d, k) {
      RaySound(g, color, r, c, d, k, m);
    }
    if exists j :: RayHit(g, color, r, c, d, k, j, m) {
      var j :| RayHit(g, color, r, c, d, k, j, m);
      RayComplete(g, color, r, c, d, k, j, m);
    }
  }

  /** m is a move along the ray in direction d. */
  ghost predicate SlideHit(g: Grid, color: string, r: int, c: int, d: (int, int), m: Move)
    requires IsGrid(g)
  {
    exists j :: RayHit(g, color, r, c, d, 1, j, m)
  }

  lemma {:induction false} SlideMovesSound(g: Grid, color: string, r: int, c: int, dirs: seq<(int, int)>, n: int, m: Move)
    requires IsGrid(g) && InBounds(r, c) && 0 <= n <= |dirs| && UnitDirs(dirs)
    requires m in SlideMoves(g, color, r, c, dirs, n)
    ensures exists i :: 0 <= i < n && SlideHit(g, color, r, c, dirs[i], m)
  {
    if m in Ray(g, color, r, c, dirs[n - 1], 1) {
      RaySpec(g, color, r, c, dirs[n - 1], 1, m);
      assert SlideHit(g, color, r, c, dirs[n - 1], m);
    } else {
      SlideMovesSound(g, color, r, c, dirs, n - 1, m);
    }
  }

  lemma {:induction false} SlideMovesComplete(g: Grid, color: string, r: int, c: int, dirs: seq<(int, int)>, n: int, i: int, m: Move)
    requires IsGrid(g) && InBounds(r, c) && 0 <= n <= |dirs| && UnitDirs(dirs)
    requires 0 <= i < n && SlideHit(g, color, r, c, dirs[i], m)
    ensures m in SlideMoves(g, color, r, c, dirs, n)
  {
    var pre, ray := SlideMoves(g, color, r, c, dirs, n - 1), Ray(g, color, r, c, dirs[n - 1], 1);
    assert SlideMoves(g, color, r, c, dirs, n) == pre + ray;
    if i == n - 1 {
      var j :| RayHit(g, color, r, c, dirs[i], 1, j, m);
      RayComplete(g, color, r, c, dirs[i], 1, j, m);
      assert m in ray;
    } else {
      SlideMovesComplete(g, color, r, c, dirs, n - 1, i, m);
      assert m in pre;
    }
  }

  /** Bishop, rook and queen moves: for some direction of the piece, a square of its ray
      reached over empty squares only, entered when empty or enemy. */
  lemma SlideMovesSpec(g: Grid, color: string, r: int, c: int, dirs: seq<(int, int)>, m: Move)
    requires IsGrid(g) && InBounds(r, c) && UnitDirs(dirs)
    ensures m in SlideMoves(g, color, r, c, dirs, |dirs|) <==> exists i :: 0 <= i < |dirs| && SlideHit(g, color, r, c, dirs[i], m)
  {
    if m in SlideMoves(g, color, r, c, dirs, |dirs|) {
      SlideMovesSound(g, color, r, c, dirs, |dirs|, m);
    }
    if exists i :: 0 <= i < |dirs| && SlideHit(g, color, r, c, dirs[i], m) {
      var i :| 0 <= i < |dirs| && SlideHit(g, color, r, c, dirs[i], m);
      SlideMovesComplete(g, color, r, c, dirs, |dirs|, i, m);
    }
  }

  /** A lone rook in the corner of an otherwise empty board. */
  const LoneRookGrid: Grid := seq(8, r => seq(8, c => if r == 0 && c == 0 then 'R' else '.'))

  lemma {:induction false} EmptyRayLength(g: Grid, color: string, r: int, c: int, d: (int, int), k: int, n: int)
    requires IsGrid(g) && InBounds(r, c) && UnitDir(d) && 1 <= k <= n
    requires forall j :: k <= j < n ==> OnBoard(RaySquare(r, c, d, j)) && At(g, RaySquare(r, c, d, j)) == '.'
    requires !OnBoard(RaySquare(r, c, d, n))
    ensures |Ray(g, color, r, c, d, k)| == n - k
    decreases n - k
  {
    if k < n {
      assert OnBoard(RaySquare(r, c, d, k)) && At(g, RaySquare(r, c, d, k)) == '.';
      EmptyRayLength(g, color, r, c, d, k + 1, n);
    }
  }

  lemma {:induction false} LoneRookRow(r: int, c: int)
    requires 0 <= r < 8 && 0 <= c <= 8
    ensures RowPieces(LoneRookGrid, r, c) == if r == 0 && c > 0 then [('R', Coord(0, 0))] else []
  {
    if c > 0 {
      LoneRookRow(r, c - 1);
    }
  }

  lemma {:induction false} LoneRookRows(r: int)
    requires 0 <= r <= 8
    ensures PiecesBefore(LoneRookGrid, r) == if r > 0 then [('R', Coord(0, 0))] else []
  {
    if r > 0 {
      LoneRookRows(r - 1);
      LoneRookRow(r - 1, 8);
    }
  }

  lemma LoneRookPieces()
    ensures WellFormed(LoneRookGrid)
    ensures AllPieces(LoneRookGrid) == [('R', Coord(0, 0))]
  {
    LoneRookRows(8);
  }

  /** The lone rook's moves are its four rays. */
  lemma LoneRookSlides()
    ensures PseudoLegal(LoneRookGrid, "w") == SlideMoves(LoneRookGrid, "w", 0, 0, RookDirs, 4)
  {
    var g := LoneRookGrid;
    LoneRookPieces();
    AllPiecesAreAPieceList(g);
    var ps := AllPieces(g);
    assert ps[..0] == [];
    assert MovesOf(g, "w", ps) == MovesOf(g, "w", []) + PieceMoves(g, "w", 'R', 0, 0);
  }

  /** Up and left leave the board at once; down and right cross seven empty squares. */
  lemma LoneRookRays()
    ensures |Ray(LoneRookGrid, "w", 0, 0, (-1, 0), 1)| == 0 && |Ray(LoneRookGrid, "w", 0, 0, (1, 0), 1)| == 7
    ensures |Ray(LoneRookGrid, "w", 0, 0, (0, -1), 1)| == 0 && |Ray(LoneRookGrid, "w", 0, 0, (0, 1), 1)| == 7
  {
    var g := LoneRookGrid;
    EmptyRayLength(g, "w", 0, 0, (-1, 0), 1, 1);
    EmptyRayLength(g, "w", 0, 0, (1, 0), 1, 8);
    EmptyRayLength(g, "w", 0, 0, (0, -1), 1, 1);
    EmptyRayLength(g, "w", 0, 0, (0, 1), 1, 8);
  }

  /** The rook at (0, 0) of an otherwise empty board has exactly 14 moves. */
  lemma LoneRookHas14Moves()
    ensures |PseudoLegal(LoneRookGrid, "w")| == 14
  {
    var g, d := LoneRookGrid, RookDirs;
    LoneRookSlides();
    LoneRookRays();
    assert d[0] == (-1, 0) && d[1] == (1, 0) && d[2] == (0, -1) && d[3] == (0, 1);
    assert |SlideMoves(g, "w", 0, 0, d, 1)| == 0;
    assert |SlideMoves(g, "w", 0, 0, d, 2)| == 7;
    assert |SlideMoves(g, "w", 0, 0, d, 3)| == 7;
  }

  // ---------------------------------------------------------------------------
  // What the generator yields

  lemma PawnMovesSound(g: Grid, color: string, r: int, c: int, m: Move)
    requires IsGrid(g) && InBounds(r, c) && ColorOf(g[r][c]) == Some(color)
    requires m in PawnMoves(g, color, r, c)
    ensures m.origin == Coord(r, c) && Sound(g, color, m)
  {
    PawnMovesSpec(g, color, r, c, m);
  }

  lemma StepPieceSound(g: Grid, color: string, r: int, c: int, kind: char, m: Move)
    requires IsGrid(g) && InBounds(r, c) && ColorOf(g[r][c]) == Some(color) && (kind == 'N' || kind == 'K')
    requires m in StepMoves(g, color, r, c, Dirs(kind))
    ensures m.origin == Coord(r, c) && Sound(g, color, m)
  {
    var dirs := Dirs(kind);
    StepMovesSpec(g, color, r, c, dirs, m);
    var i :| 0 <= i < |dirs| && StepHit(g, color, r, c, dirs[i], m);
    StepDirsMove(kind);
    assert dirs[i] in dirs;
    StepHitSound(g, color, r, c, dirs[i], m);
  }

  lemma StepHitSound(g: Grid, color: string, r: int, c: int, d: (int, int), m: Move)
    requires IsGrid(g) && InBounds(r, c) && ColorOf(g[r][c]) == Some(color) && d != (0, 0)
    requires StepHit(g, color, r, c, d, m)
    ensures m.origin == Coord(r, c) && Sound(g, color, m)
  {
  }

  /** No knight or king offset stands still. */
  lemma StepDirsMove(kind: char)
    requires kind == 'N' || kind == 'K'
    ensures (0, 0) !in Dirs(kind)
  {
  }

  lemma SlidePieceSound(g: Grid, color: string, r: int, c: int, dirs: seq<(int, int)>, m: Move)
    requires IsGrid(g) && InBounds(r, c) && ColorOf(g[r][c]) == Some(color)
    requires UnitDirs(dirs)
    requires m in SlideMoves(g, color, r, c, dirs, |dirs|)
    ensures m.origin == Coord(r, c) && Sound(g, color, m)
  {
    SlideMovesSound(g, color, r, c, dirs, |dirs|, m);
    var i :| 0 <= i < |dirs| && SlideHit(g, color, r, c, dirs[i], m);
    var j :| RayHit(g, color, r, c, dirs[i], 1, j, m);
  }

  /** Every move of a piece starts on the piece's square and is sound. */
  lemma PieceMovesSound(g: Grid, color: string, r: int, c: int, m: Move)
    requires IsGrid(g) && InBounds(r, c) && IsPiece(g[r][c])
    requires m in PieceMoves(g, color, g[r][c], r, c)
    ensures m.origin == Coord(r, c) && Sound(g, color, m)
  {
    var up := Upper(g[r][c]);
    if up == 'P' {
      PawnMovesSound(g, color, r, c, m);
    } else if up == 'N' || up == 'K' {
      StepPieceSound(g, color, r, c, up, m);
    } else {
      SlidePieceSound(g, color, r, c, Dirs(up), m);
    }
  }

  lemma {:induction false} MovesOfSound(g: Grid, color: string, ps: seq<(char, Coord)>, m: Move)
    requires IsGrid(g) && PieceList(g, ps)
    requires m in MovesOf(g, color, ps)
    ensures exists i :: 0 <= i < |ps| && m in PieceMoves(g, color, ps[i].0, ps[i].1.row, ps[i].1.col)
  {
    var n := |ps| - 1;
    var e := ps[n];
    if m !in PieceMoves(g, color, e.0, e.1.row, e.1.col) {
      MovesOfSound(g, color, ps[..n], m);
      var i :| 0 <= i < n && m in PieceMoves(g, color, ps[..n][i].0, ps[..n][i].1.row, ps[..n][i].1.col);
      assert ps[..n][i] == ps[i];
    }
  }

  lemma MovesOfGrows(g: Grid, color: string, ps: seq<(char, Coord)>, m: Move)
    requires IsGrid(g) && PieceList(g, ps) && |ps| > 0 && PieceList(g, ps[..|ps| - 1])
    requires m in MovesOf(g, color, ps[..|ps| - 1])
    ensures m in MovesOf(g, color, ps)
  {
  }

  lemma MovesOfLast(g: Grid, color: string, ps: seq<(char, Coord)>, i: int, m: Move)
    requires IsGrid(g) && PieceList(g, ps) && i == |ps| - 1 >= 0
    requires m in PieceMoves(g, color, ps[i].0, ps[i].1.row, ps[i].1.col)
    ensures m in MovesOf(g, color, ps)
  {
  }

  lemma {:induction false} MovesOfComplete(g: Grid, color: string, ps: seq<(char, Coord)>, i: int, m: Move)
    requires IsGrid(g) && PieceList(g, ps)
    requires 0 <= i < |ps| && m in PieceMoves(g, color, ps[i].0, ps[i].1.row, ps[i].1.col)
    ensures m in MovesOf(g, color, ps)
  {
    var n := |ps| - 1;
    if i < n {
      var pre := ps[..n];
      PieceListPrefix(g, ps, n);
      assert pre[i] == ps[i];
      MovesOfComplete(g, color, pre, i, m);
      MovesOfGrows(g, color, ps, m);
    } else {
      MovesOfLast(g, color, ps, i, m);
    }
  }

  /** The moves of a piece list are the moves of its entries. */
  lemma MovesOfSpec(g: Grid, color: string, ps: seq<(char, Coord)>, m: Move)
    requires IsGrid(g) && PieceList(g, ps)
    ensures m in MovesOf(g, color, ps) <==>
              exists i :: 0 <= i < |ps| && m in PieceMoves(g, color, ps[i].0, ps[i].1.row, ps[i].1.col)
  {
    if m in MovesOf(g, color, ps) {
      MovesOfSound(g, color, ps, m);
    }
    if exists i :: 0 <= i < |ps| && m in PieceMoves(g, color, ps[i].0, ps[i].1.row, ps[i].1.col) {
      var i :| 0 <= i < |ps| && m in PieceMoves(g, color, ps[i].0, ps[i].1.row, ps[i].1.col);
      MovesOfComplete(g, color, ps, i, m);
    }
  }

  /** A pseudo-legal move is a move of the piece on its origin square. */
  lemma PseudoLegalSpec(g: Grid, color: string, m: Move)
    requires WellFormed(g)
    ensures m in PseudoLegal(g, color) <==>
              OnBoard(m.origin) && IsPiece(At(g, m.origin)) &&
              m in PieceMoves(g, color, At(g, m.origin), m.origin.row, m.origin.col)
  {
    var ps := AllPieces(g);
    AllPiecesSpec(g);
    AllPiecesAreAPieceList(g);
    MovesOfSpec(g, color, ps, m);
    if m in PseudoLegal(g, color) {
      var i :| 0 <= i < |ps| && m in PieceMoves(g, color, ps[i].0, ps[i].1.row, ps[i].1.col);
      PieceMovesSound(g, color, ps[i].1.row, ps[i].1.col, m);
    }
    if OnBoard(m.origin) && IsPiece(At(g, m.origin)) &&
       m in PieceMoves(g, color, At(g, m.origin), m.origin.row, m.origin.col) {
      assert (At(g, m.origin), m.origin) in ps;
      var i :| 0 <= i < |ps| && ps[i] == (At(g, m.origin), m.origin);
    }
  }

  /** Every pseudo-legal move starts on a piece of the mover's colour and ends on the board,
      on an empty square or an enemy piece. */
  lemma PseudoLegalSound(g: Grid, color: string)
    requires WellFormed(g)
    ensures forall i :: 0 <= i < |PseudoLegal(g, color)| ==> Sound(g, color, PseudoLegal(g, color)[i])
  {
    forall i | 0 <= i < |PseudoLegal(g, color)| ensures Sound(g, color, PseudoLegal(g, color)[i]) {
      var m := PseudoLegal(g, color)[i];
      PseudoLegalSpec(g, color, m);
      PieceMovesSound(g, color, m.origin.row, m.origin.col, m);
    }
  }

  /** What the rules allow the piece on m's origin: the pawn rules, one knight or king
      offset, or one ray square reached over empty squares. */
  ghost predicate MoveRule(g: Grid, color: string, m: Move)
    requires IsGrid(g) && OnBoard(m.origin) && IsPiece(At(g, m.origin))
  {
    var p, r, c := At(g, m.origin), m.origin.row, m.origin.col;
    var up := Upper(p);
    ColorOf(p) == Some(color) &&
    if up == 'P' then PawnRule(g, color, r, c, m)
    else if up == 'N' || up == 'K' then exists i :: 0 <= i < |Dirs(up)| && StepHit(g, color, r, c, Dirs(up)[i], m)
    else exists i :: 0 <= i < |Dirs(up)| && SlideHit(g, color, r, c, Dirs(up)[i], m)
  }

  lemma PieceMovesSpec(g: Grid, color: string, r: int, c: int, m: Move)
    requires IsGrid(g) && InBounds(r, c) && IsPiece(g[r][c])
    ensures m in PieceMoves(g, color, g[r][c], r, c) <==> m.origin == Coord(r, c) && MoveRule(g, color, m)
  {
    var up := Upper(g[r][c]);
    if up == 'P' {
      PawnMovesSpec(g, color, r, c, m);
    } else if up == 'N' || up == 'K' {
      StepMovesSpec(g, color, r, c, Dirs(up), m);
    } else {
      SlideMovesSpec(g, color, r, c, Dirs(up), m);
    }
  }

  /** The pseudo-legal moves are exactly the moves the rules allow a piece of `color`. */
  lemma PseudoLegalIff(g: Grid, color: string, m: Move)
    requires WellFormed(g)
    ensures m in PseudoLegal(g, color) <==> OnBoard(m.origin) && IsPiece(At(g, m.origin)) && MoveRule(g, color, m)
  {
    PseudoLegalSpec(g, color, m);
    if OnBoard(m.origin) && IsPiece(At(g, m.origin)) {
      PieceMovesSpec(g, color, m.origin.row, m.origin.col, m);
    }
  }

  /** Moves are grouped by origin square, origins in row-major order. */
  ghost predicate OriginsInOrder(ms: seq<Move>) {
    forall i, j :: 0 <= i < j < |ms| ==> Index(ms[i].origin) <= Index(ms[j].origin)
  }

  lemma {:induction false} MovesOfOrdered(g: Grid, color: string, ps: seq<(char, Coord)>)
    requires IsGrid(g) && PieceList(g, ps) && RowMajor(ps)
    ensures OriginsInOrder(MovesOf(g, color, ps))
  {
    if ps != [] {
      var n := |ps| - 1;
      var pre, e := ps[..n], ps[n];
      var a, b := MovesOf(g, color, pre), PieceMoves(g, color, e.0, e.1.row, e.1.col);
      MovesOfOrdered(g, color, pre);
      assert MovesOf(g, color, ps) == a + b;
      forall k | 0 <= k < |b| ensures b[k].origin == e.1 {
        PieceMovesSound(g, color, e.1.row, e.1.col, b[k]);
      }
      forall k | 0 <= k < |a| ensures Index(a[k].origin) < Index(e.1) {
        MovesOfSound(g, color, pre, a[k]);
        var i :| 0 <= i < n && a[k] in PieceMoves(g, color, pre[i].0, pre[i].1.row, pre[i].1.col);
        PieceMovesSound(g, color, pre[i].1.row, pre[i].1.col, a[k]);
      }
    }
  }

  /** `generate_pseudo_legal` lists the moves piece by piece in board-scan order. */
  lemma PseudoLegalOrdered(g: Grid, color: string)
    requires WellFormed(g)
    ensures OriginsInOrder(PseudoLegal(g, color))
  {
    AllPiecesSpec(g);
    AllPiecesAreAPieceList(g);
    MovesOfOrdered(g, color, AllPieces(g));
  }

  // ---------------------------------------------------------------------------
  // Attacks and check

  /** The attack test compares destinations only, so a pawn's straight push onto an empty
      square counts as attacking that square. */
  lemma PawnPushAttacks(g: Grid, attacker: string, r: int, c: int)
    requires WellFormed(g) && InBounds(r, c) && g[r][c] in "Pp" && ColorOf(g[r][c]) == Some(attacker)
    requires InBounds(r + Forward(attacker), c) && g[r + Forward(attacker)][c] == '.'
    ensures Attacked(g, Coord(r + Forward(attacker), c), attacker)
  {
    var dest := Coord(r + Forward(attacker), c);
    var m := Move(Coord(r, c), dest, if dest.row == PromoRank(attacker) then Some('Q') else None);
    PawnMovesSpec(g, attacker, r, c, m);
    PseudoLegalSpec(g, attacker, m);
    var ms := PseudoLegal(g, attacker);
    var i :| 0 <= i < |ms| && ms[i] == m;
  }

  /** `in_check` is false for a side with no king on the board. */
  lemma NoKingNoCheck(g: Grid, color: string)
    requires WellFormed(g)
    requires forall r, c :: InBounds(r, c) ==> g[r][c] != KingOf(color)
    ensures !Checked(g, color)
  {
    KingSquareSpec(g, color);
  }

  // ---------------------------------------------------------------------------
  // Legality

  /** a is b with some entries removed, order kept. */
  ghost predicate Subseq(a: seq<Move>, b: seq<Move>)
    decreases |b|
  {
    a == [] ||
    (b != [] &&
     (Subseq(a, b[..|b| - 1]) ||
      (a[|a| - 1] == b[|b| - 1] && Subseq(a[..|a| - 1], b[..|b| - 1]))))
  }

  lemma {:induction false} KeepSafeSubseq(g: Grid, color: string, ms: seq<Move>)
    requires WellFormed(g) && AllApplicable(g, ms)
    ensures Subseq(KeepSafe(g, color, ms), ms)
  {
    if ms != [] {
      var n := |ms| - 1;
      var pre := ms[..n];
      var rest := KeepSafe(g, color, pre);
      KeepSafeSubseq(g, color, pre);
      if LeavesInCheck(g, color, ms[n]) {
        assert KeepSafe(g, color, ms) == rest;
        SubseqDropLast(rest, ms);
      } else {
        assert KeepSafe(g, color, ms) == rest + [ms[n]];
        SubseqKeepLast(rest, ms);
      }
    }
  }

  lemma SubseqDropLast(a: seq<Move>, b: seq<Move>)
    requires b != [] && Subseq(a, b[..|b| - 1])
    ensures Subseq(a, b)
  {
  }

  lemma SubseqKeepLast(a: seq<Move>, b: seq<Move>)
    requires b != [] && Subseq(a, b[..|b| - 1])
    ensures Subseq(a + [b[|b| - 1]], b)
  {
    assert (a + [b[|b| - 1]])[..|a|] == a;
  }

  lemma {:induction false} KeepSafeSpec(g: Grid, color: string, ms: seq<Move>, m: Move)
    requires WellFormed(g) && AllApplicable(g, ms)
    ensures m in KeepSafe(g, color, ms) <==> m in ms && Applicable(g, m) && !LeavesInCheck(g, color, m)
  {
    if ms != [] {
      var n := |ms| - 1;
      KeepSafeSpec(g, color, ms[..n], m);
      assert ms == ms[..n] + [ms[n]];
    }
  }

  lemma PseudoLegalApplicable(g: Grid, color: string)
    requires WellFormed(g)
    ensures AllApplicable(g, PseudoLegal(g, color))
  {
    PseudoLegalSound(g, color);
  }

  /** One more move: KeepSafe of the longer prefix extends that of the shorter one. */
  lemma KeepSafeSnoc(g: Grid, color: string, ms: seq<Move>, i: int)
    requires WellFormed(g) && AllApplicable(g, ms) && 0 <= i < |ms|
    ensures AllApplicable(g, ms[..i]) && AllApplicable(g, ms[..i + 1])
    ensures KeepSafe(g, color, ms[..i + 1]) ==
              KeepSafe(g, color, ms[..i]) + (if LeavesInCheck(g, color, ms[i]) then [] else [ms[i]])
  {
    AllApplicablePrefix(g, ms, i);
    AllApplicablePrefix(g, ms, i + 1);
    assert ms[..i + 1][..i] == ms[..i];
  }

  /** `generate_legal_moves`: the pseudo-legal moves after which `color` is not in check. */
  ghost function Legal(g: Grid, color: string): seq<Move>
    requires WellFormed(g)
  {
    PseudoLegalApplicable(g, color);
    KeepSafe(g, color, PseudoLegal(g, color))
  }

  /** The legal list keeps the pseudo-legal order, and a pseudo-legal move is dropped exactly
      when it leaves the mover in check. */
  lemma LegalSpec(g: Grid, color: string, m: Move)
    requires WellFormed(g)
    ensures Subseq(Legal(g, color), PseudoLegal(g, color))
    ensures m in Legal(g, color) <==> m in PseudoLegal(g, color) && Applicable(g, m) && !LeavesInCheck(g, color, m)
  {
    PseudoLegalApplicable(g, color);
    KeepSafeSubseq(g, color, PseudoLegal(g, color));
    KeepSafeSpec(g, color, PseudoLegal(g, color), m);
  }

  // ---------------------------------------------------------------------------
  // Material

  /** One occupant's share of `material_score` for `color`: its value when it is `color`'s,
      minus its value otherwise; an empty cell has no share. */
  function Share(p: char, color: string): (v: int)
    ensures -9 <= v <= 9
    ensures p == '.' ==> v == 0
  {
    if !IsPiece(p) then 0
    else if ColorOf(p) == Some(color) then Value(p)
    else -Value(p)
  }

  /** The running score of `material_score` over a piece list. */
  function Tally(ps: seq<(char, Coord)>, color: string): int {
    if ps == [] then 0 else Tally(ps[..|ps| - 1], color) + Share(ps[|ps| - 1].0, color)
  }

  /** `material_score`: the sum of the shares of all pieces on the board. */
  function Material(g: Grid, color: string): int
    requires WellFormed(g)
  {
    Tally(AllPieces(g), color)
  }

  /** The shares of the first c cells of a row. */
  function RowShare(row: seq<char>, c: int, color: string): int
    requires 0 <= c <= |row|
  {
    if c == 0 then 0 else RowShare(row, c - 1, color) + Share(row[c - 1], color)
  }

  /** The shares of the cells of rows 0 .. r - 1. */
  function GridShare(g: Grid, r: int, color: string): int
    requires IsGrid(g) && 0 <= r <= 8
  {
    if r == 0 then 0 else GridShare(g, r - 1, color) + RowShare(g[r - 1], 8, color)
  }

  lemma {:induction false} TallyAppend(a: seq<(char, Coord)>, b: seq<(char, Coord)>, color: string)
    ensures Tally(a + b, color) == Tally(a, color) + Tally(b, color)
  {
    if b != [] {
      var n := |b| - 1;
      assert (a + b)[..|a + b| - 1] == a + b[..n];
      TallyAppend(a, b[..n], color);
    } else {
      assert a + b == a;
    }
  }

  lemma {:induction false} RowTally(g: Grid, r: int, c: int, color: string)
    requires IsGrid(g) && 0 <= r < 8 && 0 <= c <= 8
    ensures Tally(RowPieces(g, r, c), color) == RowShare(g[r], c, color)
  {
    if c > 0 {
      RowTally(g, r, c - 1, color);
      var cell := if g[r][c - 1] != '.' then [(g[r][c - 1], Coord(r, c - 1))] else [];
      TallyAppend(RowPieces(g, r, c - 1), cell, color);
      assert Tally(cell, color) == Share(g[r][c - 1], color) by {
        if cell != [] {
          assert cell[..0] == [];
        }
      }
    }
  }

  lemma {:induction false} GridTally(g: Grid, r: int, color: string)
    requires IsGrid(g) && 0 <= r <= 8
    ensures Tally(PiecesBefore(g, r), color) == GridShare(g, r, color)
  {
    if r > 0 {
      GridTally(g, r - 1, color);
      RowTally(g, r - 1, 8, color);
      TallyAppend(PiecesBefore(g, r - 1), RowPieces(g, r - 1, 8), color);
    }
  }

  /** The score is the sum of the shares over all 64 cells. */
  lemma MaterialIsCellSum(g: Grid, color: string)
    requires WellFormed(g)
    ensures Material(g, color) == GridShare(g, 8, color)
  {
    GridTally(g, 8, color);
  }

  lemma {:induction false} RowShareSet(row: seq<char>, j: int, p: char, c: int, color: string)
    requires 0 <= j < |row| && 0 <= c <= |row|
    ensures RowShare(row[j := p], c, color) ==
              RowShare(row, c, color) + (if j < c then Share(p, color) - Share(row[j], color) else 0)
  {
    if c > 0 {
      var row' := row[j := p];
      RowShareSet(row, j, p, c - 1, color);
      var a, b := Share(p, color), Share(row[j], color);
      var before, after := RowShare(row, c - 1, color), RowShare(row', c - 1, color);
      assert RowShare(row', c, color) == after + Share(row'[c - 1], color);
      assert RowShare(row, c, color) == before + Share(row[c - 1], color);
      if j < c - 1 {
        assert row'[c - 1] == row[c - 1] && after == before + a - b;
      } else if j == c - 1 {
        assert row'[c - 1] == p && after == before;
      } else {
        assert row'[c - 1] == row[c - 1] && after == before;
      }
    }
  }

  lemma {:induction false} GridShareSet(g: Grid, sq: Coord, p: char, r: int, color: string)
    requires IsGrid(g) && OnBoard(sq) && 0 <= r <= 8
    ensures GridShare(SetCell(g, sq, p), r, color) ==
              GridShare(g, r, color) + (if sq.row < r then Share(p, color) - Share(At(g, sq), color) else 0)
  {
    if r > 0 {
      GridShareSet(g, sq, p, r - 1, color);
      var g' := SetCell(g, sq, p);
      if r - 1 == sq.row {
        RowShareSet(g[sq.row], sq.col, p, 8, color);
        assert g'[r - 1] == g[sq.row][sq.col := p];
      } else {
        assert g'[r - 1] == g[r - 1];
      }
    }
  }

  /** Writing one cell changes the score by the new occupant's share minus the old one's. */
  lemma MaterialSetCell(g: Grid, sq: Coord, p: char, color: string)
    requires WellFormed(g) && OnBoard(sq) && (p == '.' || IsPiece(p))
    ensures WellFormed(SetCell(g, sq, p))
    ensures Material(SetCell(g, sq, p), color) == Material(g, color) + Share(p, color) - Share(At(g, sq), color)
  {
    var g' := SetCell(g, sq, p);
    MaterialIsCellSum(g, color);
    MaterialIsCellSum(g', color);
    GridShareSet(g, sq, p, 8, color);
  }

  lemma {:induction false} TallyZeroSum(ps: seq<(char, Coord)>)
    ensures Tally(ps, "w") == -Tally(ps, "b")
  {
    if ps != [] {
      TallyZeroSum(ps[..|ps| - 1]);
    }
  }

  /** The score is zero-sum: White's is the negation of Black's. */
  lemma MaterialZeroSum(g: Grid)
    requires WellFormed(g)
    ensures Material(g, "w") == -Material(g, "b")
  {
    TallyZeroSum(AllPieces(g));
  }

  lemma BlackShares()
    ensures Share('r', "w") == -5 && Share('n', "w") == -3 && Share('b', "w") == -3
    ensures Share('q', "w") == -9 && Share('k', "w") == 0 && Share('p', "w") == -1
  {
  }

  lemma WhiteShares()
    ensures Share('R', "w") == 5 && Share('N', "w") == 3 && Share('B', "w") == 3
    ensures Share('Q', "w") == 9 && Share('K', "w") == 0 && Share('P', "w") == 1
  {
  }

  lemma {:induction false} UniformRowShare(row: seq<char>, c: int, p: char, color: string)
    requires 0 <= c <= |row| && forall j :: 0 <= j < |row| ==> row[j] == p
    ensures RowShare(row, c, color) == c * Share(p, color)
  {
    if c > 0 {
      UniformRowShare(row, c - 1, p, color);
    }
  }

  lemma BlackBackRankShare()
    ensures RowShare("rnbqkbnr", 8, "w") == -31
  {
    BlackShares();
    var row := "rnbqkbnr";
    assert RowShare(row, 2, "w") == -8;
    assert RowShare(row, 4, "w") == -20;
    assert RowShare(row, 6, "w") == -23;
  }

  lemma WhiteBackRankShare()
    ensures RowShare("RNBQKBNR", 8, "w") == 31
  {
    WhiteShares();
    var row := "RNBQKBNR";
    assert RowShare(row, 2, "w") == 8;
    assert RowShare(row, 4, "w") == 20;
    assert RowShare(row, 6, "w") == 23;
  }

  lemma BlackPawnRowShare()
    ensures RowShare(StartGrid[1], 8, "w") == -8
  {
    var row := "pppppppp";
    assert StartGrid[1] == row;
    assert Share('p', "w") == -1;
    UniformRowShare(row, 8, 'p', "w");
  }

  lemma WhitePawnRowShare()
    ensures RowShare(StartGrid[6], 8, "w") == 8
  {
    var row := "PPPPPPPP";
    assert StartGrid[6] == row;
    assert Share('P', "w") == 1;
    UniformRowShare(row, 8, 'P', "w");
  }

  lemma EmptyRowShares()
    ensures forall r :: 2 <= r < 6 ==> RowShare(StartGrid[r], 8, "w") == 0
  {
    forall r | 2 <= r < 6 ensures RowShare(StartGrid[r], 8, "w") == 0 {
      UniformRowShare(StartGrid[r], 8, '.', "w");
    }
  }

  lemma StartGridWellFormed()
    ensures WellFormed(StartGrid)
  {
    forall r, c | InBounds(r, c) ensures StartGrid[r][c] == '.' || IsPiece(StartGrid[r][c]) {
    }
  }

  /** The shares of a whole grid, row by row. */
  lemma GridShareRows(g: Grid, color: string)
    requires IsGrid(g)
    ensures GridShare(g, 8, color) ==
              RowShare(g[0], 8, color) + RowShare(g[1], 8, color) + RowShare(g[2], 8, color) +
              RowShare(g[3], 8, color) + RowShare(g[4], 8, color) + RowShare(g[5], 8, color) +
              RowShare(g[6], 8, color) + RowShare(g[7], 8, color)
  {
    assert GridShare(g, 1, color) == RowShare(g[0], 8, color);
    assert GridShare(g, 2, color) == GridShare(g, 1, color) + RowShare(g[1], 8, color);
    assert GridShare(g, 3, color) == GridShare(g, 2, color) + RowShare(g[2], 8, color);
    assert GridShare(g, 4, color) == GridShare(g, 3, color) + RowShare(g[3], 8, color);
    assert GridShare(g, 5, color) == GridShare(g, 4, color) + RowShare(g[4], 8, color);
    assert GridShare(g, 6, color) == GridShare(g, 5, color) + RowShare(g[5], 8, color);
    assert GridShare(g, 7, color) == GridShare(g, 6, color) + RowShare(g[6], 8, color);
  }

  lemma StartGridShare()
    ensures GridShare(StartGrid, 8, "w") == 0
  {
    assert StartGrid[0] == "rnbqkbnr" && StartGrid[7] == "RNBQKBNR";
    BlackBackRankShare();
    WhiteBackRankShare();
    BlackPawnRowShare();
    WhitePawnRowShare();
    EmptyRowShares();
    StartGridIsGrid();
    GridShareRows(StartGrid, "w");
  }

  /** The starting position scores 0 for White (and so, zero-sum, for Black). */
  lemma StartMaterial()
    ensures WellFormed(StartGrid)
    ensures Material(StartGrid, "w") == 0 && Material(StartGrid, "b") == 0
  {
    StartGridWellFormed();
    MaterialIsCellSum(StartGrid, "w");
    StartGridShare();
    MaterialZeroSum(StartGrid);
  }

  /** The material change `choose_move` computes for m: the score after m minus the score
      before it. */
  function Gain(g: Grid, color: string, m: Move): int
    requires WellFormed(g) && Applicable(g, m)
  {
    AfterMoveWellFormed(g, m);
    Material(AfterMove(g, m), color) - Material(g, color)
  }

  /** A move changes the score by the placed letter's share, minus the shares of the
      captured and of the moving occupant. */
  lemma GainSpec(g: Grid, color: string, m: Move)
    requires WellFormed(g) && Applicable(g, m) && m.origin != m.dest
    ensures Gain(g, color, m) ==
              Share(Placed(At(g, m.origin), m.promo), color) - Share(At(g, m.dest), color) - Share(At(g, m.origin), color)
  {
    var g1 := SetCell(g, m.origin, '.');
    MaterialSetCell(g, m.origin, '.', color);
    AfterMoveWellFormed(g, m);
    var placed := Placed(At(g, m.origin), m.promo);
    assert placed == '.' || IsPiece(placed) by {
      assert At(AfterMove(g, m), m.dest) == placed;
    }
    MaterialSetCell(g1, m.dest, placed, color);
  }

  /** For a sound move of `color`: the gain is the value of the captured piece (0 onto an
      empty square) plus what a promotion adds to the pawn's value. */
  lemma GainOfSound(g: Grid, color: string, m: Move)
    requires WellFormed(g) && Sound(g, color, m)
    ensures Applicable(g, m)
    ensures Gain(g, color, m) ==
              (if At(g, m.dest) == '.' then 0 else Value(At(g, m.dest))) +
              Value(Placed(At(g, m.origin), m.promo)) - Value(At(g, m.origin))
  {
    var mover := At(g, m.origin);
    PlacedKeepsColour(mover, m.promo);
    GainSpec(g, color, m);
  }

  /** A promotion letter takes the mover's case, so the placed piece keeps its colour. */
  lemma PlacedKeepsColour(p: char, promo: Option<char>)
    requires IsPiece(p) && (promo == None || promo.value in PromoLetters)
    ensures IsPiece(Placed(p, promo)) && ColorOf(Placed(p, promo)) == ColorOf(p)
  {
    if promo.Some? {
      assert promo.value in "QRBN";
    }
  }

  /** The gain always lies within -27 .. 27, so it always beats the initial best gain of -999. */
  lemma GainBound(g: Grid, color: string, m: Move)
    requires WellFormed(g) && Applicable(g, m)
    ensures -27 <= Gain(g, color, m) <= 27
  {
    if m.origin != m.dest {
      GainSpec(g, color, m);
    } else {
      var g1 := SetCell(g, m.origin, '.');
      MaterialSetCell(g, m.origin, '.', color);
      AfterMoveWellFormed(g, m);
      var placed := Placed(At(g, m.origin), m.promo);
      assert placed == '.' || IsPiece(placed) by {
        assert At(AfterMove(g, m), m.dest) == placed;
      }
      MaterialSetCell(g1, m.dest, placed, color);
    }
  }

  // ---------------------------------------------------------------------------
  // The starting position: White has twenty moves and all of them are legal

  /** The moves the generator emits for the occupant of (r, c), none for an empty square. */
  function CellMoves(g: Grid, color: string, r: int, c: int): seq<Move>
    requires IsGrid(g) && InBounds(r, c)
  {
    if IsPiece(g[r][c]) then PieceMoves(g, color, g[r][c], r, c) else []
  }

  /** The moves of the squares (r, 0) .. (r, c - 1), left to right. */
  function RowMoves(g: Grid, color: string, r: int, c: int): seq<Move>
    requires IsGrid(g) && 0 <= r < 8 && 0 <= c <= 8
  {
    if c == 0 then [] else RowMoves(g, color, r, c - 1) + CellMoves(g, color, r, c - 1)
  }

  /** The moves of the squares of rows 0 .. r - 1, square by square in row-major order. */
  function GridMoves(g: Grid, color: string, r: int): seq<Move>
    requires IsGrid(g) && 0 <= r <= 8
  {
    if r == 0 then [] else GridMoves(g, color, r - 1) + RowMoves(g, color, r - 1, 8)
  }

  /** On a well-formed grid the occupants listed by a scan are pieces. */
  lemma OccupantsArePieces(g: Grid, ps: seq<(char, Coord)>)
    requires WellFormed(g) && Occupants(g, ps)
    ensures PieceList(g, ps)
  {
    forall i | 0 <= i < |ps| ensures IsPiece(ps[i].0) {
      assert ps[i].0 == g[ps[i].1.row][ps[i].1.col];
    }
  }

  lemma PieceListAppend(g: Grid, a: seq<(char, Coord)>, b: seq<(char, Coord)>)
    requires IsGrid(g) && PieceList(g, a) && PieceList(g, b)
    ensures PieceList(g, a + b)
  {
    var ab := a + b;
    forall i | 0 <= i < |ab| ensures OnBoard(ab[i].1) && IsPiece(ab[i].0) && ab[i].0 == At(g, ab[i].1) {
      if i < |a| {
        assert ab[i] == a[i];
      } else {
        assert ab[i] == b[i - |a|];
      }
    }
  }

  /** The moves of two piece lists back to back are the moves of each, back to back. */
  lemma {:induction false} MovesOfAppend(g: Grid, color: string, a: seq<(char, Coord)>, b: seq<(char, Coord)>)
    requires IsGrid(g) && PieceList(g, a) && PieceList(g, b)
    ensures PieceList(g, a + b)
    ensures MovesOf(g, color, a + b) == MovesOf(g, color, a) + MovesOf(g, color, b)
    decreases |b|
  {
    PieceListAppend(g, a, b);
    if b == [] {
      assert a + b == a;
    } else {
      var n := |b| - 1;
      var e := b[n];
      var em := PieceMoves(g, color, e.0, e.1.row, e.1.col);
      PieceListPrefix(g, b, n);
      MovesOfAppend(g, color, a, b[..n]);
      var ab := a + b;
      assert ab[..|ab| - 1] == a + b[..n] && ab[|ab| - 1] == e;
      assert MovesOf(g, color, ab) == MovesOf(g, color, a + b[..n]) + em;
      assert MovesOf(g, color, b) == MovesOf(g, color, b[..n]) + em;
      Associative(MovesOf(g, color, a), MovesOf(g, color, b[..n]), em);
    }
  }

  lemma {:induction false} RowPiecesMoves(g: Grid, color: string, r: int, c: int)
    requires WellFormed(g) && 0 <= r < 8 && 0 <= c <= 8
    ensures PieceList(g, RowPieces(g, r, c))
    ensures MovesOf(g, color, RowPieces(g, r, c)) == RowMoves(g, color, r, c)
  {
    RowPiecesSpec(g, r, c);
    OccupantsArePieces(g, RowPieces(g, r, c));
    if c > 0 {
      RowPiecesMoves(g, color, r, c - 1);
      var pre := RowPieces(g, r, c - 1);
      var cell: seq<(char, Coord)> := if g[r][c - 1] != '.' then [(g[r][c - 1], Coord(r, c - 1))] else [];
      assert RowPieces(g, r, c) == pre + cell;
      assert PieceList(g, cell);
      MovesOfAppend(g, color, pre, cell);
      if cell != [] {
        assert cell[..0] == [];
      }
    }
  }

  lemma {:induction false} PiecesBeforeMoves(g: Grid, color: string, r: int)
    requires WellFormed(g) && 0 <= r <= 8
    ensures PieceList(g, PiecesBefore(g, r))
    ensures MovesOf(g, color, PiecesBefore(g, r)) == GridMoves(g, color, r)
  {
    PiecesBeforeSpec(g, r);
    OccupantsArePieces(g, PiecesBefore(g, r));
    if r > 0 {
      PiecesBeforeMoves(g, color, r - 1);
      RowPiecesMoves(g, color, r - 1, 8);
      MovesOfAppend(g, color, PiecesBefore(g, r - 1), RowPieces(g, r - 1, 8));
    }
  }

  /** The pseudo-legal list, read square by square: the generator's scan over the piece list
      emits the same moves as a scan over all 64 squares. */
  lemma PseudoLegalByCells(g: Grid, color: string)
    requires WellFormed(g)
    ensures PseudoLegal(g, color) == GridMoves(g, color, 8)
  {
    PiecesBeforeMoves(g, color, 8);
  }

  /** A row holding no piece of `color` yields no moves for it. */
  lemma {:induction false} ForeignRow(g: Grid, color: string, r: int, c: int)
    requires IsGrid(g) && 0 <= r < 8 && 0 <= c <= 8
    requires forall j :: 0 <= j < 8 ==> ColorOf(g[r][j]) != Some(color)
    ensures RowMoves(g, color, r, c) == []
  {
    if c > 0 {
      ForeignRow(g, color, r, c - 1);
    }
  }

  lemma {:induction false} ForeignRows(g: Grid, color: string, r: int)
    requires IsGrid(g) && 0 <= r <= 8
    requires forall i, j :: 0 <= i < r && 0 <= j < 8 ==> ColorOf(g[i][j]) != Some(color)
    ensures GridMoves(g, color, r) == []
  {
    if r > 0 {
      ForeignRows(g, color, r - 1);
      ForeignRow(g, color, r - 1, 8);
    }
  }

  /** The starting grid, row by row: Black's pieces on rows 0 and 1, rows 2 to 5 empty,
      White's pawns on row 6 and White's pieces on rows 6 and 7. */
  lemma StartGridCells()
    ensures IsGrid(StartGrid)
    ensures forall r, c :: 0 <= r < 2 && 0 <= c < 8 ==> ColorOf(StartGrid[r][c]) == Some("b")
    ensures forall r, c :: 2 <= r < 6 && 0 <= c < 8 ==> StartGrid[r][c] == '.'
    ensures forall c :: 0 <= c < 8 ==> StartGrid[1][c] == 'p' && StartGrid[6][c] == 'P'
    ensures forall r, c :: 6 <= r < 8 && 0 <= c < 8 ==> ColorOf(StartGrid[r][c]) == Some("w")
  {
    StartGridIsGrid();
    forall r, c | 0 <= r < 2 && 0 <= c < 8 ensures ColorOf(StartGrid[r][c]) == Some("b") {
      assert r == 0 ==> StartGrid[r] == "rnbqkbnr";
      assert r == 1 ==> StartGrid[r] == "pppppppp";
    }
    forall r, c | 2 <= r < 6 && 0 <= c < 8 ensures StartGrid[r][c] == '.' {
      assert StartGrid[r] == "........";
    }
    forall r, c | 6 <= r < 8 && 0 <= c < 8 ensures ColorOf(StartGrid[r][c]) == Some("w") {
      assert r == 6 ==> StartGrid[r] == "PPPPPPPP";
      assert r == 7 ==> StartGrid[r] == "RNBQKBNR";
    }
  }

  /** The pawn ranks of the starting grid. */
  lemma PawnRanks()
    ensures |StartGrid| == 8 && |StartGrid[1]| == 8 && |StartGrid[6]| == 8
    ensures forall c :: 0 <= c < 8 ==> StartGrid[1][c] == 'p' && StartGrid[6][c] == 'P'
  {
  }

  /** Each White pawn has its single and its double push, and nothing to capture. */
  lemma StartPawnCell(c: int)
    requires 0 <= c < 8
    ensures IsGrid(StartGrid)
    ensures CellMoves(StartGrid, "w", 6, c) ==
      [Move(Coord(6, c), Coord(5, c), None), Move(Coord(6, c), Coord(4, c), None)]
  {
    StartGridCells();
    var g := StartGrid;
    assert g[6][c] == 'P' && g[5][c] == '.' && g[4][c] == '.';
    assert PawnPushes(g, "w", 6, c) ==
      [Move(Coord(6, c), Coord(5, c), None), Move(Coord(6, c), Coord(4, c), None)];
    assert PawnCapture(g, "w", 6, c, -1) == [] by {
      if c > 0 {
        assert g[5][c - 1] == '.';
      }
    }
    assert PawnCapture(g, "w", 6, c, 1) == [] by {
      if c < 7 {
        assert g[5][c + 1] == '.';
      }
    }
  }

  lemma {:induction false} StartPawnRow(c: int)
    requires 0 <= c <= 8
    ensures IsGrid(StartGrid) && |RowMoves(StartGrid, "w", 6, c)| == 2 * c
  {
    StartGridIsGrid();
    if c > 0 {
      StartPawnRow(c - 1);
      StartPawnCell(c - 1);
    }
  }

  /** The square one step along d from (r, c) is off the board or holds a piece of `color`. */
  predicate Blocked(g: Grid, color: string, r: int, c: int, d: (int, int))
    requires IsGrid(g)
  {
    !InBounds(r + d.0, c + d.1) || ColorOf(g[r + d.0][c + d.1]) == Some(color)
  }

  /** Steps blocked from index k on add nothing to the first k. */
  lemma {:induction false} BlockedSteps(g: Grid, color: string, r: int, c: int, dirs: seq<(int, int)>, k: int)
    requires IsGrid(g) && 0 <= k <= |dirs|
    requires forall i :: k <= i < |dirs| ==> Blocked(g, color, r, c, dirs[i])
    ensures StepMoves(g, color, r, c, dirs) == StepMoves(g, color, r, c, dirs[..k])
  {
    if |dirs| == k {
      assert dirs[..k] == dirs;
    } else {
      var n := |dirs| - 1;
      BlockedSteps(g, color, r, c, dirs[..n], k);
      assert dirs[..n][..k] == dirs[..k];
    }
  }

  /** A ray whose first square is blocked reaches nothing. */
  lemma BlockedRayHit(g: Grid, color: string, r: int, c: int, d: (int, int), j: int, m: Move)
    requires IsGrid(g) && InBounds(r, c) && UnitDir(d) && Blocked(g, color, r, c, d)
    ensures !RayHit(g, color, r, c, d, 1, j, m)
  {
    var sq := RaySquare(r, c, d, 1);
    assert sq == Coord(r + d.0, c + d.1);
    assert Enemy(color) != color;
    if OnBoard(sq) {
      assert ColorOf(At(g, sq)) == Some(color);
    }
  }

  /** Rays that all start on a blocked square give no moves. */
  lemma BlockedSlides(g: Grid, color: string, r: int, c: int, dirs: seq<(int, int)>)
    requires IsGrid(g) && InBounds(r, c) && UnitDirs(dirs)
    requires forall i :: 0 <= i < |dirs| ==> Blocked(g, color, r, c, dirs[i])
    ensures SlideMoves(g, color, r, c, dirs, |dirs|) == []
  {
    var ms := SlideMoves(g, color, r, c, dirs, |dirs|);
    if ms != [] {
      SlideMovesSound(g, color, r, c, dirs, |dirs|, ms[0]);
      var i :| 0 <= i < |dirs| && SlideHit(g, color, r, c, dirs[i], ms[0]);
      var j :| RayHit(g, color, r, c, dirs[i], 1, j, ms[0]);
      BlockedRayHit(g, color, r, c, dirs[i], j, ms[0]);
      assert false;
    }
  }

  /** The queen, rooks and bishops of the starting position cannot move. */
  lemma StartSliderCell(c: int)
    requires c == 0 || c == 2 || c == 3 || c == 5 || c == 7
    ensures IsGrid(StartGrid) && CellMoves(StartGrid, "w", 7, c) == []
  {
    StartAtHome();
    assert StartGrid[7] == "RNBQKBNR";
    HomeSliderCell(StartGrid, "w", c);
  }

  /** The king of the starting position cannot move. */
  lemma StartKingCell()
    ensures IsGrid(StartGrid) && CellMoves(StartGrid, "w", 7, 4) == []
  {
    StartAtHome();
    var g := StartGrid;
    assert g[7][4] == 'K';
    forall i | 0 <= i < 8 ensures Blocked(g, "w", 7, 4, KingDirs[i]) {
      HomeRankBlocked(g, "w", 4, KingDirs[i]);
    }
    BlockedSteps(g, "w", 7, 4, KingDirs, 0);
    assert KingDirs[..0] == [];
  }

  /** Each knight of the starting position has its two moves onto row 5. */
  lemma StartKnightCell(c: int)
    requires c == 1 || c == 6
    ensures IsGrid(StartGrid) && |CellMoves(StartGrid, "w", 7, c)| == 2
  {
    StartGridCells();
    var g := StartGrid;
    assert g[7] == "RNBQKBNR";
    assert g[7][c] == 'N';
    var dirs := KnightDirs;
    StartAtHome();
    forall i | 2 <= i < 8 ensures Blocked(g, "w", 7, c, dirs[i]) {
      HomeRankBlocked(g, "w", c, dirs[i]);
    }
    BlockedSteps(g, "w", 7, c, dirs, 2);
    assert g[5][c - 1] == '.' && g[5][c + 1] == '.';
    var two := dirs[..2];
    assert two[..1] == [(-2, -1)] && two[1] == (-2, 1);
    assert two[..1][..0] == [];
    assert |StepTo(g, "w", 7, c, (-2, -1))| == 1 && |StepTo(g, "w", 7, c, (-2, 1))| == 1;
    assert |StepMoves(g, "w", 7, c, two[..1])| == 1;
    assert |StepMoves(g, "w", 7, c, two)| == 2;
  }

  /** White's back rank moves: two knight moves each, nothing for the other pieces. */
  lemma StartBackRow()
    ensures IsGrid(StartGrid) && |RowMoves(StartGrid, "w", 7, 8)| == 4
  {
    StartGridIsGrid();
    var g := StartGrid;
    StartSliderCell(0);
    StartKnightCell(1);
    StartSliderCell(2);
    StartSliderCell(3);
    StartKingCell();
    StartSliderCell(5);
    StartKnightCell(6);
    StartSliderCell(7);
    assert |RowMoves(g, "w", 7, 2)| == 2;
    assert |RowMoves(g, "w", 7, 5)| == 2;
    assert |RowMoves(g, "w", 7, 7)| == 4;
  }

  /** Square by square, the starting grid gives White sixteen pawn moves and four knight
      moves. */
  lemma StartGridMoves()
    ensures IsGrid(StartGrid) && |GridMoves(StartGrid, "w", 8)| == 20
  {
    StartGridCells();
    var g := StartGrid;
    ForeignRows(g, "w", 6);
    StartPawnRow(8);
    StartBackRow();
    assert GridMoves(g, "w", 7) == GridMoves(g, "w", 6) + RowMoves(g, "w", 6, 8);
    assert GridMoves(g, "w", 8) == GridMoves(g, "w", 7) + RowMoves(g, "w", 7, 8);
  }

  /** From the starting position the generator gives White twenty moves. */
  lemma StartPseudoLegalCount()
    ensures WellFormed(StartGrid) && |PseudoLegal(StartGrid, "w")| == 20
  {
    StartGridWellFormed();
    PseudoLegalByCells(StartGrid, "w");
    StartGridMoves();
  }

  /** The back rank of `color`: row 7 for White, row 0 otherwise. */
  function HomeRank(color: string): int { if color == "w" then 7 else 0 }

  /** `color`'s back rank and pawn rank are as in the starting position. */
  ghost predicate HomeRanks(g: Grid, color: string)
    requires IsGrid(g)
  {
    g[HomeRank(color)] == StartGrid[HomeRank(color)] &&
    g[StartRank(color)] == StartGrid[StartRank(color)]
  }

  /** `color`'s back rank and pawn rank are as in the starting position, and `color` has
      no piece anywhere else. */
  ghost predicate AtHome(g: Grid, color: string)
    requires IsGrid(g)
  {
    HomeRanks(g, color) &&
    forall r, c :: InBounds(r, c) && r != HomeRank(color) && r != StartRank(color) ==>
      ColorOf(g[r][c]) != Some(color)
  }

  /** Within three rows of `color`'s back rank. */
  predicate NearHome(color: string, row: int) {
    if color == "w" then row >= 4 else row <= 3
  }

  /** While a side's back rank and pawn rank are as at the start, every step from its back
      rank that does not go two rows forward lands off the board or on a piece of that side. */
  lemma HomeRankBlocked(g: Grid, color: string, c: int, d: (int, int))
    requires IsGrid(g) && HomeRanks(g, color) && (color == "w" || color == "b")
    requires 0 <= c < 8 && d != (0, 0) && Forward(color) * d.0 <= 1
    ensures Blocked(g, color, HomeRank(color), c, d)
  {
    StartGridCells();
    var r := HomeRank(color) + d.0;
    if InBounds(r, c + d.1) {
      assert r == HomeRank(color) || r == StartRank(color);
      assert g[r][c + d.1] == StartGrid[r][c + d.1];
    }
  }

  /** While a side's back rank and pawn rank are as at the start, the bishops, rooks and
      queen on its back rank have no move: each ray starts on one of its own pieces or off
      the board. Pieces of that side elsewhere on the board make no difference. */
  lemma HomeSliderStuck(g: Grid, color: string, c: int, i: int, m: Move)
    requires IsGrid(g) && HomeRanks(g, color) && (color == "w" || color == "b") && 0 <= c < 8
    requires Upper(g[HomeRank(color)][c]) in "BRQ" && 0 <= i < |Dirs(Upper(g[HomeRank(color)][c]))|
    ensures !SlideHit(g, color, HomeRank(color), c, Dirs(Upper(g[HomeRank(color)][c]))[i], m)
  {
    var d := Dirs(Upper(g[HomeRank(color)][c]))[i];
    SliderDirs(Upper(g[HomeRank(color)][c]));
    assert UnitDir(d);
    HomeRankBlocked(g, color, c, d);
    forall j ensures !RayHit(g, color, HomeRank(color), c, d, 1, j, m) {
      BlockedRayHit(g, color, HomeRank(color), c, d, j, m);
    }
  }

  /** The same, as the generator sees it: it emits nothing for such a slider. */
  lemma HomeSliderCell(g: Grid, color: string, c: int)
    requires IsGrid(g) && HomeRanks(g, color) && (color == "w" || color == "b") && 0 <= c < 8
    requires Upper(g[HomeRank(color)][c]) in "BRQ"
    ensures CellMoves(g, color, HomeRank(color), c) == []
  {
    var r := HomeRank(color);
    var up := Upper(g[r][c]);
    SliderDirs(up);
    forall i | 0 <= i < |Dirs(up)| ensures Blocked(g, color, r, c, Dirs(up)[i]) {
      HomeRankBlocked(g, color, c, Dirs(up)[i]);
    }
    BlockedSlides(g, color, r, c, Dirs(up));
    if IsPiece(g[r][c]) && ColorOf(g[r][c]) == Some(color) {
      assert CellMoves(g, color, r, c) == SlideMoves(g, color, r, c, Dirs(up), |Dirs(up)|);
    }
  }

  /** A move of a side at home starts from its back rank or its pawn rank. */
  lemma HomeOrigin(g: Grid, color: string, m: Move)
    requires WellFormed(g) && AtHome(g, color) && m in PseudoLegal(g, color)
    ensures OnBoard(m.origin) && IsPiece(At(g, m.origin)) && MoveRule(g, color, m)
    ensures color == "w" || color == "b"
    ensures m.origin.row == HomeRank(color) || m.origin.row == StartRank(color)
    ensures Upper(At(g, m.origin)) != 'P' ==> m.origin.row == HomeRank(color)
  {
    PawnRanks();
    PseudoLegalIff(g, color, m);
  }

  lemma PawnStaysNear(g: Grid, color: string, r: int, c: int, m: Move)
    requires IsGrid(g) && InBounds(r, c) && (r == HomeRank(color) || r == StartRank(color))
    requires PawnRule(g, color, r, c, m)
    ensures NearHome(color, m.dest.row)
  {
    var f := Forward(color);
    assert m.dest.row == r + f || (r == StartRank(color) && m.dest.row == r + 2 * f);
  }

  lemma StepStaysNear(g: Grid, color: string, r: int, c: int, kind: char, i: int, m: Move)
    requires IsGrid(g) && (r == HomeRank(color) || r == StartRank(color))
    requires (kind == 'N' || kind == 'K') && 0 <= i < |Dirs(kind)| && StepHit(g, color, r, c, Dirs(kind)[i], m)
    ensures NearHome(color, m.dest.row)
  {
    assert -2 <= Dirs(kind)[i].0 <= 2;
  }

  /** While a side's back rank and pawn rank are exactly as at the start and it has no
      other piece, its moves reach no further than three rows from its back rank: pawns and
      knights go at most two rows forward, the king one, and the sliders cannot move at all. */
  lemma HomeMovesStayNear(g: Grid, color: string, m: Move)
    requires WellFormed(g) && AtHome(g, color) && m in PseudoLegal(g, color)
    ensures NearHome(color, m.dest.row)
  {
    HomeOrigin(g, color, m);
    var o := m.origin;
    var up := Upper(At(g, o));
    if up == 'P' {
      PawnStaysNear(g, color, o.row, o.col, m);
    } else if up == 'N' || up == 'K' {
      var i :| 0 <= i < |Dirs(up)| && StepHit(g, color, o.row, o.col, Dirs(up)[i], m);
      StepStaysNear(g, color, o.row, o.col, up, i, m);
    } else {
      var i :| 0 <= i < |Dirs(up)| && SlideHit(g, color, o.row, o.col, Dirs(up)[i], m);
      HomeSliderStuck(g, color, o.col, i, m);
      assert false;
    }
  }

  /** Such a side attacks no square beyond those three rows. */
  lemma NoAttackFar(g: Grid, color: string, sq: Coord)
    requires WellFormed(g) && AtHome(g, color) && !NearHome(color, sq.row)
    ensures !Attacked(g, sq, color)
  {
    if Attacked(g, sq, color) {
      var ms := PseudoLegal(g, color);
      var i :| 0 <= i < |ms| && ms[i].dest == sq;
      HomeMovesStayNear(g, color, ms[i]);
    }
  }

  /** Both sides of the starting position are at home. */
  lemma StartAtHome()
    ensures IsGrid(StartGrid) && AtHome(StartGrid, "w") && AtHome(StartGrid, "b")
  {
    StartGridCells();
  }

  /** A White move while White is at home starts on row 6 or 7, ends on row 4 or below,
      and puts a White piece on its destination. */
  lemma HomeMoveShape(g: Grid, m: Move)
    requires WellFormed(g) && AtHome(g, "w") && m in PseudoLegal(g, "w")
    ensures Applicable(g, m) && m.origin.row >= 6 && m.dest.row >= 4
    ensures ColorOf(Placed(At(g, m.origin), m.promo)) == Some("w")
  {
    PseudoLegalSpec(g, "w", m);
    PieceMovesSound(g, "w", m.origin.row, m.origin.col, m);
    HomeMovesStayNear(g, "w", m);
    PlacedKeepsColour(At(g, m.origin), m.promo);
  }

  /** A move whose squares both lie on row lo or below leaves the rows above lo alone. */
  lemma AfterMoveKeepsRows(g: Grid, m: Move, lo: int)
    requires IsGrid(g) && OnBoard(m.origin) && OnBoard(m.dest) && m.origin.row >= lo && m.dest.row >= lo
    ensures forall r :: 0 <= r < lo ==> AfterMove(g, m)[r] == g[r]
  {
  }

  /** While both sides are at home, a White move leaves rows 0 to 3 alone and Black at home. */
  lemma AfterHomeMove(g: Grid, m: Move)
    requires WellFormed(g) && AtHome(g, "w") && AtHome(g, "b") && m in PseudoLegal(g, "w")
    ensures Applicable(g, m) && WellFormed(AfterMove(g, m))
    ensures forall r :: 0 <= r < 4 ==> AfterMove(g, m)[r] == g[r]
    ensures AtHome(AfterMove(g, m), "b")
  {
    HomeMoveShape(g, m);
    AfterMoveWellFormed(g, m);
    AfterMoveKeepsRows(g, m, 4);
    var g' := AfterMove(g, m);
    forall r, c | InBounds(r, c) && r != 0 && r != 1 ensures ColorOf(g'[r][c]) != Some("b") {
      if Coord(r, c) == m.dest {
        assert g'[r][c] == Placed(At(g, m.origin), m.promo);
      }
    }
  }

  /** While both sides are at home no White move leaves White's king attacked: White's
      moves stay on rows 4 .. 7, where its king is, and Black reaches no further than row 3. */
  lemma HomeMoveIsSafe(g: Grid, m: Move)
    requires WellFormed(g) && AtHome(g, "w") && AtHome(g, "b") && m in PseudoLegal(g, "w")
    ensures Applicable(g, m) && !LeavesInCheck(g, "w", m)
  {
    AfterHomeMove(g, m);
    var g' := AfterMove(g, m);
    KingSquareSpec(g', "w");
    if KingSquare(g', "w").Some? {
      var k := KingSquare(g', "w").value;
      assert k.row >= 4;
      NoAttackFar(g', "b", k);
    }
  }

  /** Filtering keeps every move when none of them leaves the mover in check. */
  lemma {:induction false} KeepSafeAll(g: Grid, color: string, ms: seq<Move>)
    requires WellFormed(g) && AllApplicable(g, ms)
    requires forall i :: 0 <= i < |ms| ==> !LeavesInCheck(g, color, ms[i])
    ensures KeepSafe(g, color, ms) == ms
  {
    if ms != [] {
      var n := |ms| - 1;
      AllApplicablePrefix(g, ms, n);
      forall i | 0 <= i < n ensures !LeavesInCheck(g, color, ms[..n][i]) {
        assert ms[..n][i] == ms[i];
      }
      KeepSafeAll(g, color, ms[..n]);
      assert ms == ms[..n] + [ms[n]];
    }
  }

  /** From the starting position White has exactly twenty moves, and all of them are legal. */
  lemma StartHasTwentyLegalMoves()
    ensures WellFormed(StartGrid)
    ensures |PseudoLegal(StartGrid, "w")| == 20
    ensures Legal(StartGrid, "w") == PseudoLegal(StartGrid, "w")
  {
    StartPseudoLegalCount();
    var ms := PseudoLegal(StartGrid, "w");
    PseudoLegalApplicable(StartGrid, "w");
    StartAtHome();
    forall i | 0 <= i < |ms| ensures !LeavesInCheck(StartGrid, "w", ms[i]) {
      HomeMoveIsSafe(StartGrid, ms[i]);
    }
    KeepSafeAll(StartGrid, "w", ms);
  }
}
