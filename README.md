# A verified model of a small chess engine

This project models the rules core of a small Python chess engine in Dafny. The core has three parts:

- **`engine/board.py`** — the board. It holds an 8x8 grid of one-character occupants: `'.'` for an empty square, upper case for White, lower case for Black. It also has:
  - the FEN placement parser;
  - `apply_move`, which copies the board and edits the copy;
  - the row-major piece enumeration and the king lookup.
- **`engine/rules.py`** — the move rules:
  - pseudo-legal move generation for each piece type;
  - the attack test, which reuses the generator;
  - `in_check`;
  - the legality filter;
  - the material scorer.
- **`engine/ai.py`** — the greedy move chooser.

The project has four modules, one file each:

- `board.dfy`, module `Chessboard`:
  - the value types `Coord`, `Move` and `Grid`;
  - the FEN parser: the specification function `ParseFen`, and the method `FenToBoard`, which has the source's `extend`/`append` loops;
  - the specification functions `AfterMove`, `AllPieces` and `KingSquare`;
  - the class `Board`. Its fields are the dataclass's fields. Its methods `Copy`, `SetPiece` and `ApplyMove` are straight-line code, as in the source. `AllPiecesList` and `FindKing` are written with the source's nested loops. Each method is proved to compute its specification function.
- `rules.dfy`, module `Rules`:
  - the specifications of move generation: `PawnMoves`, `StepMoves`, `Ray`/`SlideMoves` and `PseudoLegal`;
  - the specifications of attack, check and legality: `Attacked`, `Checked` and `Legal`;
  - the specifications of scoring: `Material` and `Gain`;
  - the lemmas that say what these mean.
- `rule_methods.dfy`, module `RuleMethods` — the procedures of `rules.py` with their loops. The ray walk is a `while` loop. Each procedure is proved equal to its specification function.
- `ai.dfy`, module `Ai` — `SimpleAI.ChooseMove` and the best-gain scan `BestByGain`. Both are specified through `Best`, `WithGain` and `BestMoves`.

`rules.py` is modelled by two modules. `Rules` holds what the procedures are proved against: the specification functions and every lemma about them. `RuleMethods` holds the procedures themselves, written with the source's loops. The split keeps each procedure next to nothing but its loop invariants. It also lets the lemmas of `Rules` be stated without the methods, which lemmas cannot call.

Among the proved properties:

- The starting FEN parses to the standard arrangement.
- `apply_move` changes only the origin and the destination.
- Pseudo-legal moves are exactly the moves the piece rules allow, in both directions. They never land on a friendly piece.
- A lone rook in a corner has 14 moves.
- From the starting position White has exactly 20 pseudo-legal moves: two pushes per pawn and two moves per knight. None of them leaves White's king attacked, so all 20 are legal.
  Here a side is *at home* when its back rank and its pawn rank are exactly as in the starting position and it has no other piece anywhere on the board (`Rules.AtHome`). Both sides are at home in the starting position.
- The attack test counts pawn pushes.
- The legal list is the order-preserving subsequence of moves that do not leave the mover in check.
- Material is zero-sum and is 0 in the starting position.
- The chooser returns `None` exactly when there is no legal move. Otherwise it returns a legal move whose gain no legal move exceeds.

## Model

| member | source | states |
|---|---|---|
| Chessboard.InBounds | engine/board.py:63-64 | a square is on the board exactly when its row and its column both lie in 0 .. 7 |
| Chessboard.IsDigit | engine/board.py:23 | the characters read as run lengths: the ASCII digits only (see Left out) |
| Chessboard.Words | engine/board.py:17 | `split()` with no argument: the maximal runs of non-whitespace, with Python's whitespace set, in order |
| Chessboard.Cells | engine/board.py:23-26 | a digit d stands for d empty cells, any other character for itself |
| Chessboard.Expand | engine/board.py:21-27 | a rank text becomes the cells of its characters, left to right |
| Chessboard.ParseFen | engine/board.py:16-28 | None unless `split()` gives exactly two fields; otherwise the '/'-separated ranks of the first field, each expanded, and the second field as the side |
| Chessboard.Placed | engine/board.py:72-79 | without a promotion the mover itself; with one, the promotion letter upper-cased for an upper-case mover and lower-cased otherwise |
| Chessboard.RowPieces | engine/board.py:88-91 | the inner loop over one row: its occupied squares with their occupants, left to right |
| Chessboard.PiecesBefore | engine/board.py:87-91 | the outer loop after r rows: the occupied squares of those rows, row by row |
| Chessboard.AllPieces | engine/board.py:85-92 | all occupied squares with their occupants, rows top to bottom, columns left to right |
| Chessboard.FirstFrom | engine/board.py:101-105 | the scan from a square onward returns the first square holding the target, or None at the end of the board |
| Chessboard.KingOf | engine/board.py:100 | the target letter: 'K' for "w", 'k' for any other colour |
| Chessboard.KingSquare | engine/board.py:99-105 | the scan from (0, 0) for the colour's king letter |
| Chessboard.Upper | engine/board.py:74-75 | a lower-case letter becomes its upper-case letter; every other character is unchanged |
| Chessboard.Lower | engine/board.py:76-77 | an upper-case letter becomes its lower-case letter; every other character is unchanged |
| Chessboard.ColorOf | engine/board.py:94-97 | None exactly for '.', "w" exactly for upper case, "b" for every other character |
| Chessboard.SetCell | engine/board.py:59-61 | the grid stays 8x8, the written square holds the new occupant, every other square is unchanged |
| Chessboard.AfterMove | engine/board.py:68-79 | the destination holds the mover, or for a promotion the promotion letter in the mover's case; the origin becomes '.' when it differs from the destination; all other squares are unchanged |
| Chessboard.NextSide | engine/board.py:80 | the new side is "b" exactly when the old one is "w", and "w" otherwise |
| Chessboard.RowPiecesSpec | engine/board.py:88-91 | the scan of one row lists exactly its occupied squares with their occupants, left to right |
| Chessboard.PiecesBeforeSpec | engine/board.py:87-91 | the scan of the first r rows lists exactly their occupied squares, in strictly increasing row-major order |
| Chessboard.AllPiecesSpec | engine/board.py:85-92 | `all_pieces` contains (p, sq) exactly when sq is on the board and holds p != '.', and lists the entries in strictly increasing row-major order |
| Chessboard.FirstFromSpec | engine/board.py:101-105 | the scan from (r0, c0) finds nothing exactly when the target is absent from there on; otherwise it finds a square holding the target with no earlier occurrence |
| Chessboard.KingSquareSpec | engine/board.py:99-105 | `find_king` is None exactly when the colour's king letter is nowhere on the grid; otherwise it is the first such square in row-major order and holds the king |
| Chessboard.SplitOn | engine/board.py:18 | `split("/")` always yields at least one part |
| Chessboard.Dots | engine/board.py:24 | `["."] * n` is n empty cells |
| Chessboard.ExpandLength | engine/board.py:21-27 | an expanded rank has as many cells as the sum of its digits plus the number of its other characters |
| Chessboard.ExpandAppend | engine/board.py:21-27 | expanding a concatenation of two rank texts expands each of them |
| Chessboard.FenToBoard | engine/board.py:16-28 | the parse fails (tuple unpacking raises) unless `split()` yields exactly two fields; otherwise each rank of the placement becomes its expanded row, and the side is the second field |
| Chessboard.WordsCons | engine/board.py:17 | `split()` takes a whitespace-free run followed by whitespace as its next field |
| Chessboard.SplitJoin | engine/board.py:18 | `split(sep)` recovers the parts of a text joined with a separator that no part contains |
| Chessboard.StartFenFields | engine/board.py:13-17 | `START_FEN.split()` yields the placement and "w" |
| Chessboard.StartPlacementRanks | engine/board.py:13-18 | the starting placement splits into its eight rank texts |
| Chessboard.StartRanksExpand | engine/board.py:21-27 | the eight starting rank texts expand to rnbqkbnr, eight p, four empty rows, eight P, RNBQKBNR |
| Chessboard.StartFenParses | engine/board.py:13-28 | `fen_to_board(START_FEN)` gives the standard 8x8 starting grid and "w" |
| Chessboard.Board.constructor | engine/board.py:35-40 | the new board holds the given grid, side and counters |
| Chessboard.Board.Starting | engine/board.py:42-45 | a fresh board with the starting grid, White to move, halfmove clock 0 and fullmove number 1 |
| Chessboard.Board.Copy | engine/board.py:47-53 | a fresh board with equal fields |
| Chessboard.Board.PieceAt | engine/board.py:55-57 | the occupant of the square |
| Chessboard.Board.SetPiece | engine/board.py:59-61 | only the grid changes, by writing one cell; the board stays 8x8 |
| Chessboard.Board.ApplyMove | engine/board.py:66-83 | a fresh board whose grid is `AfterMove` of this one; the side flips; the fullmove number grows by one exactly when the new side is "w"; the halfmove clock is kept; nothing existing is modified (no `modifies` clause) |
| Chessboard.Board.AllPiecesList | engine/board.py:85-92 | the nested loop yields `AllPieces(grid)` |
| Chessboard.Board.FindKing | engine/board.py:99-105 | the nested loop with early return yields `KingSquare(grid, color)` |
| Rules.Dirs | engine/rules.py:7-13 | the offsets of N, B, R, Q and K, in the table's order |
| Rules.Forward | engine/rules.py:55 | -1 for "w", 1 for any other colour |
| Rules.StartRank | engine/rules.py:56 | 6 for "w", 1 for any other colour |
| Rules.PromoRank | engine/rules.py:57 | 0 for "w", 7 for any other colour |
| Rules.Enterable | engine/rules.py:96 | a square may be entered when it is empty or holds a piece of the enemy colour |
| Rules.PawnTargets | engine/rules.py:67-71 | on the promotion rank the four moves with Q, R, B, N; elsewhere one move without promotion |
| Rules.PawnPushes | engine/rules.py:64-76 | the single push when the square ahead is on the board and empty, then the double push from the start rank when the square two ahead is empty |
| Rules.PawnCapture | engine/rules.py:78-88 | the diagonal step towards one side, only onto an on-board enemy piece |
| Rules.PawnMoves | engine/rules.py:63-88 | the pushes, then the capture towards c - 1, then towards c + 1 |
| Rules.StepTo | engine/rules.py:92-97 | the move along one offset when the target is on the board and enterable |
| Rules.StepMoves | engine/rules.py:90-97 | the steps along the offsets, in the table's order |
| Rules.Ray | engine/rules.py:101-111 | the walk along one direction: each empty square is a move and the walk goes on; the first occupied square ends it and is a move only when it holds an enemy piece |
| Rules.SlideMoves | engine/rules.py:98-111 | the rays of the directions, in the table's order |
| Rules.PieceMoves | engine/rules.py:60-111 | nothing for a piece of the other colour; otherwise the pawn, step or slider moves by upper-case letter |
| Rules.MovesOf | engine/rules.py:59-111 | the moves of the listed pieces, piece by piece |
| Rules.PseudoLegal | engine/rules.py:53-113 | the moves of every piece of `all_pieces`, in board-scan order |
| Rules.Attacked | engine/rules.py:29-34 | some pseudo-legal move of the attacker lands on the square |
| Rules.Checked | engine/rules.py:37-41 | false without a king; otherwise the enemy attacks the king square |
| Rules.LeavesInCheck | engine/rules.py:47-48 | after the move the mover is in check |
| Rules.KeepSafe | engine/rules.py:44-50 | the moves of a list that do not leave the mover in check, in order |
| Rules.Legal | engine/rules.py:44-50 | `KeepSafe` of the pseudo-legal moves |
| Rules.Tally | engine/rules.py:117-124 | the running score over a piece list: plus the value of each own piece, minus the value of each other piece |
| Rules.Material | engine/rules.py:116-124 | the tally over `all_pieces` |
| Rules.Gain | engine/ai.py:22-25 | the score after the move minus the score before it |
| Rules.Value | engine/rules.py:15-22 | a piece is worth 0 to 9, and 0 exactly when it is a king |
| Rules.Enemy | engine/rules.py:25-26 | the enemy is "b" exactly for "w", and "w" for every other colour |
| Rules.DoublePushInBounds | engine/rules.py:73-76 | from the start rank, the squares one and two steps ahead are on the board and neither is the promotion rank |
| Rules.RayLeavesBoard | engine/rules.py:102 | after 8 steps every ray has left the board, so the ray walk ends |
| Rules.PawnTargetsSpec | engine/rules.py:67-71 | a pawn destination on the promotion rank yields exactly the moves with promotion Q, R, B, N; any other destination yields exactly one move with no promotion |
| Rules.PawnMovesSpec | engine/rules.py:63-88 | a pawn's moves are exactly: the single push onto an empty square, the double push from the start rank over two empty squares, and the diagonal steps onto enemy pieces, each with a promotion letter exactly on the promotion rank |
| Rules.StepMovesSound | engine/rules.py:91-97 | every knight or king move is a step along one of the offsets to an on-board square that is empty or holds an enemy piece, with no promotion |
| Rules.StepMovesComplete | engine/rules.py:91-97 | every such step is generated |
| Rules.StepMovesSpec | engine/rules.py:90-97 | knight and king moves are exactly the on-board, enterable steps along the offsets |
| Rules.RaySound | engine/rules.py:101-111 | every move of a ray goes to a ray square that is on the board and enterable, and every ray square before it is empty |
| Rules.RayComplete | engine/rules.py:101-111 | every enterable ray square that is reached over empty squares is generated |
| Rules.RaySpec | engine/rules.py:101-111 | a ray yields exactly the enterable squares reached over empty squares: it passes empty squares and stops at the first occupied one |
| Rules.SlideMovesSound | engine/rules.py:100-111 | every slider move lies on the ray of one of the directions |
| Rules.SlideMovesComplete | engine/rules.py:100-111 | every move on the ray of one of the directions is generated |
| Rules.SlideMovesSpec | engine/rules.py:98-111 | bishop, rook and queen moves are exactly the ray moves of their directions |
| Rules.LoneRookHas14Moves | engine/rules.py:98-111 | a rook alone on (0, 0) of an empty board has exactly 14 pseudo-legal moves |
| Rules.StepDirsMove | engine/rules.py:8-12 | no knight or king offset is (0, 0) |
| Rules.PawnMovesSound | engine/rules.py:63-88 | every pawn move starts on the pawn, ends on the board at another square that is empty or holds an enemy piece, and carries only a promotion letter from Q, R, B, N |
| Rules.StepPieceSound | engine/rules.py:90-97 | the same for knight and king moves |
| Rules.SlidePieceSound | engine/rules.py:98-111 | the same for bishop, rook and queen moves |
| Rules.PieceMovesSound | engine/rules.py:59-111 | the same for the moves of any piece |
| Rules.MovesOfSpec | engine/rules.py:59-111 | the moves of a piece list are exactly the moves of its entries |
| Rules.PseudoLegalSpec | engine/rules.py:53-113 | a move is pseudo-legal exactly when its origin holds a piece and the move is among that piece's moves |
| Rules.PseudoLegalSound | engine/rules.py:53-113 | every pseudo-legal move starts on a piece of the mover's colour and lands on the board, on an empty square or an enemy piece, never a friendly one |
| Rules.PieceMovesSpec | engine/rules.py:59-111 | a piece's moves are exactly the moves its rule allows (pawn rules, one step along an offset, or one ray square) |
| Rules.PseudoLegalIff | engine/rules.py:53-113 | the pseudo-legal moves are exactly the moves the piece rules allow a piece of that colour |
| Rules.MovesOfOrdered | engine/rules.py:59-113 | the moves of a row-major piece list are grouped by origin, with origins in row-major order |
| Rules.PseudoLegalOrdered | engine/rules.py:59-113 | the generator lists moves piece by piece in board-scan order |
| Rules.AfterMoveWellFormed | engine/board.py:68-79 | applying an on-board move whose promotion letter is Q, R, B or N keeps the grid well formed |
| Rules.PawnPushAttacks | engine/rules.py:29-34 | a square a pawn can push onto counts as attacked by the pawn's side, because only destinations are compared |
| Rules.NoKingNoCheck | engine/rules.py:37-40 | a side with no king on the board is never in check |
| Rules.KeepSafeSubseq | engine/rules.py:44-50 | the filter keeps the moves in their order, as a subsequence |
| Rules.KeepSafeSpec | engine/rules.py:44-50 | a move is kept exactly when it is in the list and does not leave the mover in check |
| Rules.KeepSafeSnoc | engine/rules.py:46-49 | one more candidate extends the kept list by that candidate exactly when it does not leave the mover in check |
| Rules.LegalSpec | engine/rules.py:44-50 | the legal list is a subsequence of the pseudo-legal list, and a pseudo-legal move is dropped exactly when it leaves the mover in check |
| Rules.Share | engine/rules.py:119-123 | a piece's share of the score lies within -9 .. 9, and an empty cell has none |
| Rules.MaterialIsCellSum | engine/rules.py:116-124 | the score is the sum of the shares over all 64 cells |
| Rules.MaterialSetCell | engine/rules.py:116-124 | writing one cell changes the score by the new occupant's share minus the old occupant's |
| Rules.MaterialZeroSum | engine/rules.py:116-124 | White's score is the negation of Black's |
| Rules.StartMaterial | engine/rules.py:116-124 | the starting position scores 0 for both sides |
| Rules.GainSpec | engine/ai.py:22-25 | for a move whose origin and destination differ, the gain is the placed piece's share, minus the captured piece's share, minus the mover's share |
| Rules.GainOfSound | engine/ai.py:22-25 | for a generated move, the gain is the captured piece's value plus what a promotion adds over the pawn |
| Rules.PlacedKeepsColour | engine/board.py:72-77 | a promotion letter takes the mover's case, so the placed piece keeps the mover's colour |
| Rules.GainBound | engine/ai.py:19-28 | every gain lies within -27 .. 27, so it always beats the initial -999 |
| Rules.PseudoLegalByCells | engine/rules.py:59-113 | reading the board square by square gives the same move list as the generator's loop over `all_pieces` |
| Rules.MovesOfAppend | engine/rules.py:59-111 | the moves of two piece lists back to back are the moves of each, back to back |
| Rules.BlockedSteps | engine/rules.py:91-97 | offsets whose target is off the board or friendly add no move |
| Rules.BlockedSlides | engine/rules.py:100-111 | rays whose first square is off the board or friendly give no move |
| Rules.StartPawnCell | engine/rules.py:63-88 | each White pawn of the starting position has exactly two moves, its single and its double push |
| Rules.StartKnightCell | engine/rules.py:90-97 | each White knight of the starting position has exactly two moves |
| Rules.StartSliderCell | engine/rules.py:98-111 | White's rooks, bishops and queen have no move in the starting position |
| Rules.StartKingCell | engine/rules.py:90-97 | White's king has no move in the starting position |
| Rules.StartPseudoLegalCount | engine/rules.py:53-113 | from the starting position the generator gives White exactly 20 moves |
| Rules.HomeRankBlocked | engine/rules.py:91-111 | while a side's back rank and pawn rank are as at the start, every step from its back rank that does not go two rows forward lands off the board or on a piece of that side, whatever else stands on the board |
| Rules.HomeSliderStuck | engine/rules.py:98-111 | while a side's back rank and pawn rank are as at the start, the bishops, rooks and queen on its back rank have no ray move, whatever else stands on the board |
| Rules.HomeSliderCell | engine/rules.py:98-111 | under the same condition the generator emits nothing for a bishop, rook or queen on that side's back rank |
| Rules.HomeMovesStayNear | engine/rules.py:53-113 | while a side is at home (its back rank and pawn rank exactly as at the start, and no other piece of its colour), none of its moves goes more than three rows out from its back rank |
| Rules.NoAttackFar | engine/rules.py:29-34 | while a side is at home, it attacks no square more than three rows out from its back rank |
| Rules.AfterMoveKeepsRows | engine/board.py:66-83 | a move whose squares both lie below a row leaves every row above it unchanged |
| Rules.AfterHomeMove | engine/board.py:66-83 | while both sides are at home, a White move leaves rows 0 to 3 unchanged and Black at home |
| Rules.HomeMoveIsSafe | engine/rules.py:37-50 | while both sides are at home, no White move leaves White's king attacked |
| Rules.KeepSafeAll | engine/rules.py:44-50 | when no move leaves the mover in check, the filter keeps every move |
| Rules.StartHasTwentyLegalMoves | engine/rules.py:44-113 | from the starting position White has exactly 20 pseudo-legal moves, and the legal moves are exactly these 20 |
| RuleMethods.AddPromotions | engine/rules.py:68-69 | appends the four promotion moves in the order Q, R, B, N |
| RuleMethods.AddPawnMoves | engine/rules.py:63-88 | appends `PawnMoves` |
| RuleMethods.AddPawnPushes | engine/rules.py:64-76 | appends the single and double pushes |
| RuleMethods.AddPawnCaptures | engine/rules.py:77-88 | appends the captures towards c - 1, then towards c + 1 |
| RuleMethods.AddStepMoves | engine/rules.py:90-97 | appends `StepMoves` for the offsets |
| RuleMethods.AddRay | engine/rules.py:101-111 | the `while` walk appends exactly `Ray` |
| RuleMethods.AddSlideMoves | engine/rules.py:98-111 | appends the rays of all directions, in order |
| Rules.SliderDirs | engine/rules.py:9-11 | the bishop, rook and queen directions are unit steps |
| RuleMethods.GeneratePseudoLegal | engine/rules.py:53-113 | the generator's loop yields `PseudoLegal` |
| RuleMethods.IsSquareAttacked | engine/rules.py:29-34 | true exactly when some pseudo-legal move of the attacker lands on the square |
| RuleMethods.InCheck | engine/rules.py:37-41 | false without a king, otherwise whether the enemy attacks the king square |
| RuleMethods.GenerateLegalMoves | engine/rules.py:44-50 | the filtering loop yields `Legal` |
| RuleMethods.MaterialScore | engine/rules.py:116-124 | the accumulating loop yields `Material` |
| Ai.Best | engine/ai.py:19-28 | the best gain: -999 at first, replaced by each larger gain |
| Ai.WithGain | engine/ai.py:26-30 | the moves whose gain equals a value, in order |
| Ai.BestMoves | engine/ai.py:18-30 | the legal moves whose gain equals the best gain, in legal-list order |
| Ai.BestIsMax | engine/ai.py:19-30 | on gains above -999, the scanned best gain is the largest gain, and some move reaches it |
| Ai.NothingAboveBest | engine/ai.py:26-28 | no move has a gain above the best gain seen so far, so replacing the list by the new move drops nothing |
| Ai.WithGainSubseq | engine/ai.py:26-30 | the moves with a given gain keep the legal-list order |
| Ai.WithGainSpec | engine/ai.py:26-30 | a move is kept exactly when it stands at a position whose gain is the given one |
| Ai.ScanSnoc | engine/ai.py:26-30 | one more gain updates the best gain to the larger of the two, and extends the kept list exactly when the gain equals the target |
| Ai.GainsOf | engine/ai.py:22-25 | each entry is the gain of the move at the same position |
| Ai.GainsAboveFloor | engine/ai.py:19 | every gain is above -999 |
| Ai.WithBestIsMax | engine/ai.py:26-30 | a move kept at the best gain stands at a position whose gain no other position exceeds |
| Ai.BestMovesExist | engine/ai.py:19-28 | if there is a legal move, some move has the best gain |
| Ai.BestMovesAreBest | engine/ai.py:18-31 | a best move is legal, and no legal move gains more |
| Ai.BestByGain | engine/ai.py:18-30 | the loop yields the legal moves whose gain equals the largest gain, in legal-list order |
| Ai.SimpleAI.constructor | engine/ai.py:10-11 | stores the colour |
| Ai.SimpleAI.ChooseMove | engine/ai.py:13-31 | None exactly when there is no legal move; otherwise one of the best moves: a legal move that no legal move out-gains |

## Left out

- `random.choice` (engine/ai.py:31) is library randomness. `ChooseMove` makes an arbitrary choice from the best moves, and its contract holds for every choice.
- The user interface in `main.py` is not part of this model.
- Aliasing of the grid is not modelled. The grid is a `seq<seq<char>>` value, so `clone_grid` (engine/board.py:31-32) is just copying that value. `set_piece` writes the copied board's grid field, and no other board can observe the write.
- FEN validation is not modelled, and the source has none. `ParseFen` returns None exactly when `split()` does not give two fields. The source has one more failure, `int()` on a non-ASCII digit (see the `Chessboard.FenToBoard` line below).
- Move generation and scoring require an 8x8 grid of '.' and the twelve piece letters (`WellFormed`). On a grid holding other characters the source behaves unevenly, and the model does not reproduce it:
  - `generate_pseudo_legal` raises `KeyError` in `PIECE_DIRS` only for a stray character of the generating colour (engine/rules.py:60, 100);
  - a stray character of the other colour counts as an enemy piece, which can be captured;
  - `material_score` raises `KeyError` in `MATERIAL` for any stray character (engine/rules.py:119).
- Chessboard.FenToBoard counts only the ASCII digits '0' .. '9' as run lengths (`IsDigit`). Python's `str.isdigit` (engine/board.py:23) also accepts other Unicode digits. On some of them `int()` gives a run length: '٣' and '３' both give three '.' cells. On others `int()` raises `ValueError` (engine/board.py:24), for example '²'. The model keeps any such character as a single cell.
- Chessboard.ParseFen, Chessboard.IsDigit and Chessboard.Cells use the same ASCII-only digit test.
- `Board.PieceAt`, `Board.SetPiece` and `Board.ApplyMove` require on-board coordinates. They do not model Python's negative indexing or `IndexError`. Every call in the engine passes on-board squares, and `DoublePushInBounds` covers the one unchecked index.
- `Chessboard.Upper`, `Chessboard.Lower` and `Chessboard.ColorOf` use ASCII case. Python's `isupper`, `upper` and `lower` follow Unicode, which matters only for non-ASCII characters. Such characters are outside well-formed grids and outside the promotion letters.
- The promotion is an `Option<char>`. Python's truthiness test `if promo:` on a string would also treat "" as no promotion, but the generator only emits None or one of Q, R, B, N.
- Castling, en passant, the fifty-move and repetition rules, and checkmate or stalemate detection are not modelled, because the source has none of them. The halfmove clock is carried but never changed, as in the source.
