/** The board value of the engine (engine/board.py): an 8x8 grid of one-character
    occupants ('.' empty, upper case White, lower case Black), the FEN piece-placement
    parser, and a Board object whose `ApplyMove` edits a fresh copy. */
module Chessboard {

  datatype Option<T> = None | Some(value: T)

  /** A square as (row, column); row 0 is Black's back rank, row 7 White's. */
  datatype Coord = Coord(row: int, col: int)

  /** From-square, to-square and an optional promotion letter. */
  datatype Move = Move(origin: Coord, dest: Coord, promo: Option<char>)

  type Grid = seq<seq<char>>


  const StartFen: string := "rnbqkbnr/pppppppp/8/8/8/8/PPPPPPPP/RNBQKBNR w"

  /** The grid the starting position is expected to parse to, rank by rank. */
  const StartGrid: Grid := [
    "rnbqkbnr", "pppppppp", "........", "........",
    "........", "........", "PPPPPPPP", "RNBQKBNR"]

  // ---------------------------------------------------------------------------
  // Characters

  predicate IsUpper(ch: char) { 'A' <= ch <= 'Z' }

  predicate IsLower(ch: char) { 'a' <= ch <= 'z' }

  function Upper(ch: char): (u: char)
    ensures IsLower(ch) ==> IsUpper(u) && u as int == ch as int - 32
    ensures !IsLower(ch) ==> u == ch
  {
    if IsLower(ch) then (ch as int - 32) as char else ch
  }

  function Lower(ch: char): (l: char)
    ensures IsUpper(ch) ==> IsLower(l) && l as int == ch as int + 32
    ensures !IsUpper(ch) ==> l == ch
  {
    if IsUpper(ch) then (ch as int + 32) as char else ch
  }

  predicate IsDigit(ch: char) { '0' <= ch <= '9' }

  /** The characters a well-formed grid may hold besides '.'. */
  predicate IsPiece(ch: char) {
    ch == 'P' || ch == 'N' || ch == 'B' || ch == 'R' || ch == 'Q' || ch == 'K' ||
    ch == 'p' || ch == 'n' || ch == 'b' || ch == 'r' || ch == 'q' || ch == 'k'
  }

  /** Sequence concatenation is associative: (a + b) + c and a + (b + c) are the same sequence. */
  lemma Associative<T>(a: seq<T>, b: seq<T>, c: seq<T>)
    ensures a + b + c == a + (b + c)
  {
  }

  // ---------------------------------------------------------------------------
  // Grid geometry

  /** `in_bounds`: the square lies on the 8x8 board. */
  predicate InBounds(r: int, c: int) {
    0 <= r < 8 && 0 <= c < 8
  }

  predicate OnBoard(sq: Coord) { InBounds(sq.row, sq.col) }

  /** The grid has 8 rows of 8 cells. */
  predicate IsGrid(g: Grid) {
    |g| == 8 && forall r :: 0 <= r < 8 ==> |g[r]| == 8
  }

  /** 8x8 and every cell is '.' or one of the twelve piece letters. */
  ghost predicate WellFormed(g: Grid) {
    IsGrid(g) && forall r, c :: InBounds(r, c) ==> g[r][c] == '.' || IsPiece(g[r][c])
  }

  function At(g: Grid, sq: Coord): char
    requires IsGrid(g) && OnBoard(sq)
  {
    g[sq.row][sq.col]
  }

  /** `color_of`: None for '.', "w" for upper case, "b" for anything else. */
  function ColorOf(p: char): (col: Option<string>)
    ensures col == None <==> p == '.'
    ensures col == Some("w") <==> IsUpper(p)
    ensures col == Some("b") <==> p != '.' && !IsUpper(p)
  {
    if p == '.' then None
    else if IsUpper(p) then Some("w")
    else Some("b")
  }

  /** The grid with one cell replaced (what `set_piece` does to `grid`). */
  function SetCell(g: Grid, sq: Coord, p: char): (g': Grid)
    requires IsGrid(g) && OnBoard(sq)
    ensures IsGrid(g')
    ensures At(g', sq) == p
    ensures forall r, c :: InBounds(r, c) && Coord(r, c) != sq ==> g'[r][c] == g[r][c]
  {
    g[sq.row := g[sq.row][sq.col := p]]
  }

  /** What lands on the destination: the mover, or the promotion letter in the mover's case. */
  function Placed(piece: char, promo: Option<char>): char {
    match promo
    case None => piece
    case Some(pr) => if IsUpper(piece) then Upper(pr) else Lower(pr)
  }

  /** The grid of `apply_move`: origin emptied, then the destination written. */
  function AfterMove(g: Grid, mv: Move): (g': Grid)
    requires IsGrid(g) && OnBoard(mv.origin) && OnBoard(mv.dest)
    ensures IsGrid(g')
    ensures At(g', mv.dest) == Placed(At(g, mv.origin), mv.promo)
    ensures mv.origin != mv.dest ==> At(g', mv.origin) == '.'
    ensures forall r, c :: InBounds(r, c) && Coord(r, c) != mv.origin && Coord(r, c) != mv.dest ==>
              g'[r][c] == g[r][c]
  {
    SetCell(SetCell(g, mv.origin, '.'), mv.dest, Placed(At(g, mv.origin), mv.promo))
  }

  /** `apply_move` flips the side to move: "b" after "w", "w" after anything else. */
  function NextSide(side: string): (s: string)
    ensures s == "b" <==> side == "w"
    ensures s == "w" <==> side != "w"
  {
    if side == "w" then "b" else "w"
  }

  // ---------------------------------------------------------------------------
  // Row-major scans (`all_pieces`, `find_king`)

  /** Index of a square in row-major order. */
  function Index(sq: Coord): int { 8 * sq.row + sq.col }

  /** The occupied squares (r, 0) .. (r, c - 1), left to right. */
  function RowPieces(g: Grid, r: int, c: int): seq<(char, Coord)>
    requires IsGrid(g) && 0 <= r < 8 && 0 <= c <= 8
  {
    if c == 0 then []
    else RowPieces(g, r, c - 1) + (if g[r][c - 1] != '.' then [(g[r][c - 1], Coord(r, c - 1))] else [])
  }

  /** The occupied squares of rows 0 .. r - 1, in row-major order. */
  function PiecesBefore(g: Grid, r: int): seq<(char, Coord)>
    requires IsGrid(g) && 0 <= r <= 8
  {
    if r == 0 then [] else PiecesBefore(g, r - 1) + RowPieces(g, r - 1, 8)
  }

  /** `all_pieces`: every occupied square with its occupant. */
  function AllPieces(g: Grid): seq<(char, Coord)>
    requires IsGrid(g)
  {
    PiecesBefore(g, 8)
  }

  /** The first square at or after (r, c) in row-major order holding `target`. */
  function FirstFrom(g: Grid, target: char, r: int, c: int): Option<Coord>
    requires IsGrid(g) && 0 <= r <= 8 && 0 <= c <= 8
    decreases 8 - r, 8 - c
  {
    if r == 8 then None
    else if c == 8 then FirstFrom(g, target, r + 1, 0)
    else if g[r][c] == target then Some(Coord(r, c))
    else FirstFrom(g, target, r, c + 1)
  }

  function KingOf(color: string): char {
    if color == "w" then 'K' else 'k'
  }

  /** `find_king`: the first square holding the colour's king letter. */
  function KingSquare(g: Grid, color: string): Option<Coord>
    requires IsGrid(g)
  {
    FirstFrom(g, KingOf(color), 0, 0)
  }

  /** (r, c) is at or after (r0, c0) in row-major order. */
  predicate NotBefore(r: int, c: int, r0: int, c0: int) {
    r > r0 || (r == r0 && c >= c0)
  }

  /** Each entry names an occupied square and its occupant. */
  ghost predicate Occupants(g: Grid, ps: seq<(char, Coord)>)
    requires IsGrid(g)
  {
    forall i :: 0 <= i < |ps| ==> OnBoard(ps[i].1) && ps[i].0 == At(g, ps[i].1) && ps[i].0 != '.'
  }

  /** The entries are in strictly increasing row-major order. */
  ghost predicate RowMajor(ps: seq<(char, Coord)>) {
    forall i, j :: 0 <= i < j < |ps| ==> Index(ps[i].1) < Index(ps[j].1)
  }

  lemma {:induction false} RowPiecesSpec(g: Grid, r: int, c: int)
    requires IsGrid(g) && 0 <= r < 8 && 0 <= c <= 8
    ensures Occupants(g, RowPieces(g, r, c)) && RowMajor(RowPieces(g, r, c))
    ensures forall i :: 0 <= i < |RowPieces(g, r, c)| ==>
              RowPieces(g, r, c)[i].1.row == r && RowPieces(g, r, c)[i].1.col < c
    ensures forall p, sq :: (p, sq) in RowPieces(g, r, c) <==>
              sq.row == r && 0 <= sq.col < c && At(g, sq) != '.' && p == At(g, sq)
  {
    if c > 0 {
      RowPiecesSpec(g, r, c - 1);
      var pre := RowPieces(g, r, c - 1);
      var cell: seq<(char, Coord)> := if g[r][c - 1] != '.' then [(g[r][c - 1], Coord(r, c - 1))] else [];
      assert RowPieces(g, r, c) == pre + cell;
      forall p, sq ensures (p, sq) in pre + cell <==> (p, sq) in pre || (p, sq) in cell {
      }
    }
  }

  lemma {:induction false} PiecesBeforeSpec(g: Grid, r: int)
    requires IsGrid(g) && 0 <= r <= 8
    ensures Occupants(g, PiecesBefore(g, r)) && RowMajor(PiecesBefore(g, r))
    ensures forall i :: 0 <= i < |PiecesBefore(g, r)| ==> PiecesBefore(g, r)[i].1.row < r
    ensures forall p, sq :: (p, sq) in PiecesBefore(g, r) <==>
              0 <= sq.row < r && 0 <= sq.col < 8 && At(g, sq) != '.' && p == At(g, sq)
  {
    if r > 0 {
      PiecesBeforeSpec(g, r - 1);
      RowPiecesSpec(g, r - 1, 8);
      var a, b := PiecesBefore(g, r - 1), RowPieces(g, r - 1, 8);
      var ab: seq<(char, Coord)> := a + b;
      assert PiecesBefore(g, r) == ab;
      forall i, j | 0 <= i < j < |ab| ensures Index(ab[i].1) < Index(ab[j].1) {
        if j < |a| {
        } else if i >= |a| {
          assert ab[i] == b[i - |a|] && ab[j] == b[j - |a|];
        } else {
          assert ab[i] == a[i] && ab[j] == b[j - |a|];
        }
      }
    }
  }

  /** `all_pieces` returns exactly the non-'.' squares, each with its occupant, in
      row-major order. */
  lemma AllPiecesSpec(g: Grid)
    requires IsGrid(g)
    ensures Occupants(g, AllPieces(g)) && RowMajor(AllPieces(g))
    ensures forall p, sq :: (p, sq) in AllPieces(g) <==> OnBoard(sq) && At(g, sq) != '.' && p == At(g, sq)
  {
    PiecesBeforeSpec(g, 8);
  }

  /** `find_king` from (r0, c0): None iff the target is absent from there on, otherwise the
      first occurrence. */
  lemma {:induction false} FirstFromSpec(g: Grid, target: char, r0: int, c0: int)
    requires IsGrid(g) && 0 <= r0 <= 8 && 0 <= c0 <= 8
    ensures FirstFrom(g, target, r0, c0).None? <==>
              forall r, c :: InBounds(r, c) && NotBefore(r, c, r0, c0) ==> g[r][c] != target
    ensures FirstFrom(g, target, r0, c0).Some? ==>
              var sq := FirstFrom(g, target, r0, c0).value;
              OnBoard(sq) && NotBefore(sq.row, sq.col, r0, c0) && At(g, sq) == target &&
              forall r, c :: InBounds(r, c) && NotBefore(r, c, r0, c0) && Index(Coord(r, c)) < Index(sq) ==>
                g[r][c] != target
    decreases 8 - r0, 8 - c0
  {
    if r0 == 8 {
    } else if c0 == 8 {
      FirstFromSpec(g, target, r0 + 1, 0);
    } else if g[r0][c0] != target {
      FirstFromSpec(g, target, r0, c0 + 1);
    }
  }

  /** `find_king`: None iff the colour's king letter is nowhere on the grid; otherwise the
      first such square in row-major order, which holds the king. */
  lemma KingSquareSpec(g: Grid, color: string)
    requires IsGrid(g)
    ensures KingSquare(g, color).None? <==> forall r, c :: InBounds(r, c) ==> g[r][c] != KingOf(color)
    ensures KingSquare(g, color).Some? ==>
              var sq := KingSquare(g, color).value;
              OnBoard(sq) && At(g, sq) == KingOf(color) &&
              forall r, c :: InBounds(r, c) && Index(Coord(r, c)) < Index(sq) ==> g[r][c] != KingOf(color)
  {
    FirstFromSpec(g, KingOf(color), 0, 0);
  }

  // ---------------------------------------------------------------------------
  // FEN placement parsing (`fen_to_board`)

  /** Python's `str.isspace` on one character. */
  predicate IsSpace(ch: char) {
    '\t' <= ch <= '\r' || '\U{1C}' <= ch <= ' ' || ch == '\U{85}' || ch == '\U{A0}' ||
    ch == '\U{1680}' || '\U{2000}' <= ch <= '\U{200A}' || ch == '\U{2028}' || ch == '\U{2029}' ||
    ch == '\U{202F}' || ch == '\U{205F}' || ch == '\U{3000}'
  }

  /** The longest prefix of `s` holding no whitespace. */
  function Word(s: string): (w: string)
    ensures |w| <= |s|
    ensures s != [] && !IsSpace(s[0]) ==> |w| > 0
  {
    if s == [] || IsSpace(s[0]) then [] else [s[0]] + Word(s[1..])
  }

  /** Python's `str.split()` with no argument: the maximal runs of non-whitespace. */
  function Words(s: string): seq<string>
    decreases |s|
  {
    if s == [] then []
    else if IsSpace(s[0]) then Words(s[1..])
    else
      var w := Word(s);
      [w] + Words(s[|w|..])
  }

  /** Python's `str.split(sep)` with a one-character separator, `cur` being the part
      read so far; never empty. */
  function SplitFrom(s: string, sep: char, cur: string): (parts: seq<string>)
    ensures |parts| >= 1
  {
    if s == [] then [cur]
    else if s[0] == sep then [cur] + SplitFrom(s[1..], sep, [])
    else SplitFrom(s[1..], sep, cur + [s[0]])
  }

  function SplitOn(s: string, sep: char): (parts: seq<string>)
    ensures |parts| >= 1
  {
    SplitFrom(s, sep, [])
  }

  /** `[".."] * n`. */
  function Dots(n: nat): (d: seq<char>)
    ensures |d| == n && forall i :: 0 <= i < n ==> d[i] == '.'
  {
    seq(n, _ => '.')
  }

  /** The cells one placement character stands for. */
  function Cells(ch: char): seq<char> {
    if IsDigit(ch) then Dots(ch as int - '0' as int) else [ch]
  }

  /** One rank of the placement with its digit runs expanded. */
  function Expand(rank: string): seq<char> {
    if rank == [] then [] else Expand(rank[..|rank| - 1]) + Cells(rank[|rank| - 1])
  }

  function DigitSum(rank: string): nat {
    if rank == [] then 0
    else DigitSum(rank[..|rank| - 1]) + (if IsDigit(rank[|rank| - 1]) then rank[|rank| - 1] as int - '0' as int else 0)
  }

  function NonDigits(rank: string): nat {
    if rank == [] then 0
    else NonDigits(rank[..|rank| - 1]) + (if IsDigit(rank[|rank| - 1]) then 0 else 1)
  }

  /** Each digit d becomes d cells and every other character one cell. */
  lemma {:induction false} ExpandLength(rank: string)
    ensures |Expand(rank)| == DigitSum(rank) + NonDigits(rank)
  {
    if rank != [] {
      ExpandLength(rank[..|rank| - 1]);
    }
  }

  /** Expanding a concatenation expands each part. */
  lemma {:induction false} ExpandAppend(a: string, b: string)
    ensures Expand(a + b) == Expand(a) + Expand(b)
    decreases |b|
  {
    if b == [] {
      assert a + b == a;
    } else {
      var b' := b[..|b| - 1];
      assert (a + b)[..|a + b| - 1] == a + b';
      ExpandAppend(a, b');
    }
  }

  /** What `fen_to_board` returns: None where Python's tuple unpacking of `fen.split()`
      raises (not exactly two fields), otherwise the expanded ranks and the side token. */
  function ParseFen(fen: string): Option<(Grid, string)> {
    var fields := Words(fen);
    if |fields| != 2 then None
    else
      var ranks := SplitOn(fields[0], '/');
      Some((seq(|ranks|, i requires 0 <= i < |ranks| => Expand(ranks[i])), fields[1]))
  }

  /** `fen_to_board`, building each row by `extend`/`append` as the source does. */
  method FenToBoard(fen: string) returns (result: Option<(Grid, string)>)
    ensures result == ParseFen(fen)
  {
    var fields := Words(fen);
    if |fields| != 2 {
      return None;
    }
    var position, side := fields[0], fields[1];
    var ranks := SplitOn(position, '/');
    var board: Grid := [];
    for i := 0 to |ranks|
      invariant |board| == i
      invariant forall k :: 0 <= k < i ==> board[k] == Expand(ranks[k])
    {
      var rank := ranks[i];
      var row: seq<char> := [];
      for j := 0 to |rank|
        invariant row == Expand(rank[..j])
      {
        var ch := rank[j];
        if IsDigit(ch) {
          row := row + Dots(ch as int - '0' as int);
        } else {
          row := row + [ch];
        }
        assert rank[..j + 1][..j] == rank[..j];
      }
      assert rank[..|rank|] == rank;
      board := board + [row];
    }
    assert board == seq(|ranks|, i requires 0 <= i < |ranks| => Expand(ranks[i]));
    result := Some((board, side));
  }

  lemma {:induction false} WordOf(a: string, b: string)
    requires forall i :: 0 <= i < |a| ==> !IsSpace(a[i])
    requires b == [] || IsSpace(b[0])
    ensures Word(a + b) == a
  {
    if a == [] {
      assert a + b == b;
    } else {
      assert (a + b)[1..] == a[1..] + b;
      WordOf(a[1..], b);
    }
  }

  /** A run of non-whitespace followed by whitespace (or nothing) is the next field. */
  lemma WordsCons(a: string, b: string)
    requires a != [] && forall i :: 0 <= i < |a| ==> !IsSpace(a[i])
    requires b == [] || IsSpace(b[0])
    ensures Words(a + b) == [a] + Words(b)
  {
    WordOf(a, b);
    assert (a + b)[|a|..] == b;
  }

  lemma {:induction false} SplitNoSep(a: string, sep: char, cur: string)
    requires forall i :: 0 <= i < |a| ==> a[i] != sep
    ensures SplitFrom(a, sep, cur) == [cur + a]
  {
    if a == [] {
      assert cur + a == cur;
    } else {
      SplitNoSep(a[1..], sep, cur + [a[0]]);
      assert cur + [a[0]] + a[1..] == cur + a;
    }
  }

  /** A part without separators, then a separator: the part is the next field. */
  lemma {:induction false} SplitCons(a: string, b: string, sep: char, cur: string)
    requires forall i :: 0 <= i < |a| ==> a[i] != sep
    ensures SplitFrom(a + [sep] + b, sep, cur) == [cur + a] + SplitFrom(b, sep, [])
  {
    if a == [] {
      assert (a + [sep] + b)[1..] == b;
      assert cur + a == cur;
    } else {
      assert (a + [sep] + b)[1..] == a[1..] + [sep] + b;
      SplitCons(a[1..], b, sep, cur + [a[0]]);
      assert cur + [a[0]] + a[1..] == cur + a;
    }
  }

  lemma {:induction false} ExpandLetters(rank: string)
    requires forall i :: 0 <= i < |rank| ==> !IsDigit(rank[i])
    ensures Expand(rank) == rank
  {
    if rank != [] {
      ExpandLetters(rank[..|rank| - 1]);
      assert rank[..|rank| - 1] + [rank[|rank| - 1]] == rank;
    }
  }

  const StartPlacement: string := "rnbqkbnr/pppppppp/8/8/8/8/PPPPPPPP/RNBQKBNR"

  const StartRanks: seq<string> :=
    ["rnbqkbnr", "pppppppp", "8", "8", "8", "8", "PPPPPPPP", "RNBQKBNR"]

  lemma PlacementHasNoSpace()
    ensures forall i :: 0 <= i < |StartPlacement| ==> !IsSpace(StartPlacement[i])
  {
  }

  lemma SideField()
    ensures Words(" w") == ["w"]
  {
    assert Words(" w") == Words("w");
    WordsCons("w", "");
    assert "w" + "" == "w";
  }

  /** `fen.split()` of the starting FEN gives the placement and "w". */
  lemma StartFenFields()
    ensures Words(StartFen) == [StartPlacement, "w"]
  {
    PlacementHasNoSpace();
    SideField();
    assert StartFen == StartPlacement + " w";
    WordsCons(StartPlacement, " w");
  }

  /** Ranks joined with a separator they do not contain. */
  function Join(ranks: seq<string>, sep: char): string
    requires |ranks| >= 1
  {
    if |ranks| == 1 then ranks[0] else ranks[0] + [sep] + Join(ranks[1..], sep)
  }

  /** `split(sep)` undoes joining with `sep` when no part contains `sep`. */
  lemma {:induction false} SplitJoin(ranks: seq<string>, sep: char)
    requires |ranks| >= 1
    requires forall k, i :: 0 <= k < |ranks| && 0 <= i < |ranks[k]| ==> ranks[k][i] != sep
    ensures SplitOn(Join(ranks, sep), sep) == ranks
  {
    if |ranks| == 1 {
      SplitNoSep(ranks[0], sep, []);
      assert [] + ranks[0] == ranks[0];
    } else {
      SplitJoin(ranks[1..], sep);
      SplitCons(ranks[0], Join(ranks[1..], sep), sep, []);
      assert [] + ranks[0] == ranks[0];
      assert [ranks[0]] + ranks[1..] == ranks;
    }
  }

  lemma StartGridIsGrid()
    ensures IsGrid(StartGrid)
  {
    forall r | 0 <= r < 8 ensures |StartGrid[r]| == 8 {
    }
  }

  /** Joining two non-empty lists of parts puts one separator between their joins. */
  lemma {:induction false} JoinAppend(a: seq<string>, b: seq<string>, sep: char)
    requires |a| >= 1 && |b| >= 1
    ensures Join(a + b, sep) == Join(a, sep) + [sep] + Join(b, sep)
  {
    assert (a + b)[1..] == a[1..] + b;
    if |a| > 1 {
      JoinAppend(a[1..], b, sep);
      var x, y := Join(a[1..], sep), Join(b, sep);
      Associative(a[0] + [sep], x, [sep] + y);
      Associative(a[0] + [sep] + x, [sep], y);
      Associative(x, [sep], y);
    }
  }

  /** Joining peels off the last part as well as the first. */
  lemma {:induction false} JoinSnoc(rs: seq<string>, sep: char)
    requires |rs| >= 2
    ensures Join(rs, sep) == Join(rs[..|rs| - 1], sep) + [sep] + rs[|rs| - 1]
  {
    var n := |rs|;
    if n == 2 {
      assert rs[1..] == [rs[1]] && rs[..1] == [rs[0]];
    } else {
      var front, tail := rs[..n - 1], rs[1..];
      JoinSnoc(tail, sep);
      assert tail[..n - 2] == front[1..];
      var middle := Join(front[1..], sep);
      Associative(rs[0] + [sep], middle, [sep] + rs[n - 1]);
      Associative(rs[0] + [sep] + middle, [sep], rs[n - 1]);
      Associative(middle, [sep], rs[n - 1]);
    }
  }

  /** Joining four parts, written out. */
  lemma JoinFour(rs: seq<string>, sep: char)
    requires |rs| == 4
    ensures Join(rs, sep) == rs[0] + [sep] + rs[1] + [sep] + rs[2] + [sep] + rs[3]
  {
    var p3, p2 := rs[..3], rs[..2];
    JoinSnoc(rs, sep);
    JoinSnoc(p3, sep);
    assert p3[..2] == p2;
    JoinSnoc(p2, sep);
  }

  lemma StartPlacementHalves()
    ensures StartPlacement == "rnbqkbnr/pppppppp/8/8" + "/" + "8/8/PPPPPPPP/RNBQKBNR"
  {
  }

  lemma BlackHalfJoin()
    ensures Join(StartRanks[..4], '/') == "rnbqkbnr/pppppppp/8/8"
  {
    JoinFour(StartRanks[..4], '/');
  }

  lemma WhiteHalfJoin()
    ensures Join(StartRanks[4..], '/') == "8/8/PPPPPPPP/RNBQKBNR"
  {
    JoinFour(StartRanks[4..], '/');
  }

  lemma StartRanksJoin()
    ensures Join(StartRanks, '/') == StartPlacement
  {
    assert StartRanks[..4] + StartRanks[4..] == StartRanks;
    JoinAppend(StartRanks[..4], StartRanks[4..], '/');
    BlackHalfJoin();
    WhiteHalfJoin();
    StartPlacementHalves();
  }

  lemma StartRanksHaveNoSlash()
    ensures forall k, i :: 0 <= k < |StartRanks| && 0 <= i < |StartRanks[k]| ==> StartRanks[k][i] != '/'
  {
  }

  /** `position.split("/")` of the starting placement gives its eight ranks. */
  lemma StartPlacementRanks()
    ensures SplitOn(StartPlacement, '/') == StartRanks
  {
    StartRanksJoin();
    StartRanksHaveNoSlash();
    SplitJoin(StartRanks, '/');
  }

  lemma LetterRanksExpand()
    ensures Expand("rnbqkbnr") == "rnbqkbnr" && Expand("pppppppp") == "pppppppp"
    ensures Expand("PPPPPPPP") == "PPPPPPPP" && Expand("RNBQKBNR") == "RNBQKBNR"
  {
    ExpandLetters("rnbqkbnr");
    ExpandLetters("pppppppp");
    ExpandLetters("PPPPPPPP");
    ExpandLetters("RNBQKBNR");
  }

  lemma EmptyRankExpands()
    ensures Expand("8") == "........"
  {
    assert Expand("8") == Expand([]) + Cells('8');
  }

  lemma StartRanksExpand()
    ensures forall i :: 0 <= i < 8 ==> Expand(StartRanks[i]) == StartGrid[i]
  {
    LetterRanksExpand();
    EmptyRankExpands();
    forall i | 0 <= i < 8 ensures Expand(StartRanks[i]) == StartGrid[i] {
      if i == 0 || i == 7 {
        assert StartRanks[i] == StartGrid[i];
      } else if i == 1 || i == 6 {
        assert StartRanks[i] == StartGrid[i];
      } else {
        assert StartRanks[i] == "8" && StartGrid[i] == "........";
      }
    }
  }

  /** The starting FEN parses to the standard arrangement with White to move. */
  lemma StartFenParses()
    ensures ParseFen(StartFen) == Some((StartGrid, "w"))
  {
    StartFenFields();
    StartPlacementRanks();
    StartRanksExpand();
    assert seq(8, i requires 0 <= i < 8 => Expand(StartRanks[i])) == StartGrid;
  }

  // ---------------------------------------------------------------------------
  // The Board object

  /** `Board`: a mutable record; the engine only ever mutates fresh copies. */
  class Board {
    var grid: Grid
    var sideToMove: string
    var halfmoveClock: int
    var fullmoveNumber: int

    ghost predicate Valid()
      reads this
    {
      IsGrid(grid)
    }

    /** The dataclass constructor. */
    constructor (grid: Grid, sideToMove: string, halfmoveClock: int, fullmoveNumber: int)
      ensures this.grid == grid && this.sideToMove == sideToMove
      ensures this.halfmoveClock == halfmoveClock && this.fullmoveNumber == fullmoveNumber
    {
      this.grid := grid;
      this.sideToMove := sideToMove;
      this.halfmoveClock := halfmoveClock;
      this.fullmoveNumber := fullmoveNumber;
    }

    /** `Board.starting`: the parsed starting FEN with the default counters. */
    static method Starting() returns (b: Board)
      ensures fresh(b) && b.Valid()
      ensures b.grid == StartGrid && b.sideToMove == "w"
      ensures b.halfmoveClock == 0 && b.fullmoveNumber == 1
    {
      var parsed := FenToBoard(StartFen);
      StartFenParses();
      StartGridIsGrid();
      var (grid, side) := parsed.value;
      b := new Board(grid, side, 0, 1);
    }

    /** `copy`: a new Board with equal fields (`clone_grid` of a value grid). */
    method Copy() returns (nb: Board)
      ensures fresh(nb)
      ensures nb.grid == grid && nb.sideToMove == sideToMove
      ensures nb.halfmoveClock == halfmoveClock && nb.fullmoveNumber == fullmoveNumber
    {
      nb := new Board(grid, sideToMove, halfmoveClock, fullmoveNumber);
    }

    /** `piece_at`. */
    function PieceAt(sq: Coord): (p: char)
      reads this
      requires Valid() && OnBoard(sq)
      ensures p == At(grid, sq)
    {
      grid[sq.row][sq.col]
    }

    /** `set_piece`: one cell changes, nothing else. */
    method SetPiece(sq: Coord, p: char)
      requires Valid() && OnBoard(sq)
      modifies this`grid
      ensures Valid()
      ensures grid == SetCell(old(grid), sq, p)
    {
      grid := grid[sq.row := grid[sq.row][sq.col := p]];
    }

    /** `apply_move`: copies the board, edits the copy, and leaves this board untouched. */
    method ApplyMove(mv: Move) returns (nb: Board)
      requires Valid() && OnBoard(mv.origin) && OnBoard(mv.dest)
      ensures fresh(nb) && nb.Valid()
      ensures nb.grid == AfterMove(grid, mv)
      ensures nb.sideToMove == NextSide(sideToMove)
      ensures nb.fullmoveNumber == if nb.sideToMove == "w" then fullmoveNumber + 1 else fullmoveNumber
      ensures nb.halfmoveClock == halfmoveClock
    {
      nb := Copy();
      var piece := nb.PieceAt(mv.origin);
      nb.SetPiece(mv.origin, '.');
      match mv.promo {
        case Some(pr) =>
          if IsUpper(piece) {
            nb.SetPiece(mv.dest, Upper(pr));
          } else {
            nb.SetPiece(mv.dest, Lower(pr));
          }
        case None =>
          nb.SetPiece(mv.dest, piece);
      }
      nb.sideToMove := if sideToMove == "w" then "b" else "w";
      if nb.sideToMove == "w" {
        nb.fullmoveNumber := nb.fullmoveNumber + 1;
      }
    }

    /** `all_pieces`: the nested row/column loop appending each occupied square. */
    method AllPiecesList() returns (out: seq<(char, Coord)>)
      requires Valid()
      ensures out == AllPieces(grid)
    {
      out := [];
      for r := 0 to 8
        invariant out == PiecesBefore(grid, r)
      {
        for c := 0 to 8
          invariant out == PiecesBefore(grid, r) + RowPieces(grid, r, c)
        {
          var p := grid[r][c];
          if p != '.' {
            out := out + [(p, Coord(r, c))];
          }
        }
      }
    }

    /** `find_king`: the nested loop with an early return. */
    method FindKing(color: string) returns (k: Option<Coord>)
      requires Valid()
      ensures k == KingSquare(grid, color)
    {
      var target := if color == "w" then 'K' else 'k';
      for r := 0 to 8
        invariant FirstFrom(grid, target, r, 0) == KingSquare(grid, color)
      {
        for c := 0 to 8
          invariant FirstFrom(grid, target, r, c) == KingSquare(grid, color)
        {
          if grid[r][c] == target {
            return Some(Coord(r, c));
          }
        }
      }
      return None;
    }
  }
}
