# Xiangqi rules and state engine

A Dafny model of the `XiangqiGame` class in `game.js`, the rules engine of a Xiangqi
(Chinese chess) desktop application. The model covers:

- the 10x9 board and the opening layout;
- one raw move generator per piece kind, and the dispatch between them;
- the legal-move filter, which simulates each move and reverts it;
- check, with the flying-general rule, and checkmate;
- the move / undo / redo / reset history machine and the replay loop of `importGame`;
- the FEN export and import;
- the traditional move notation.

Layout, one module per file:

- `wrappers.dfy` (`Wrappers`): `Option`, for the source's `null`.
- `board.dfy` (`Board`): colours, kinds, pieces, the board value `Grid`, `getPiece` and the opening table.
- `moves.dfy` (`Moves`): the raw move generators as functions on a board value.
- `move_laws.dfy` (`MoveLaws`): what each generator promises (geometry, the Cannon's screen, the Soldier rule).
- `check.dfy` (`Check`): `findKing`, facing Generals, check, legal moves and checkmate.
- `text.dfy` (`Text`): `split`, `join`, decimal printing and `parseInt` as the engine uses them.
- `fen.dfy` (`Fen`): FEN export and import, and the round trip between them.
- `notation.dfy` (`Notation`): move notation, file numbering and front/rear indices.
- `history.dfy` (`History`): the game state as a value, one function per state-changing operation, and the undo/redo laws.
- `engine.dfy` (`Engine`): the class `XiangqiGame`. It holds an `array2` board and the engine's fields, and its methods follow the source's loops.

The class keeps a ghost board value `grid` equal to the array (`Valid()`). Each method's
`ensures` ties its result, or its new state, to the matching function of the value modules.
Reading methods give the function's value, for example `GetLegalMoves` gives `LegalMoves(grid, x, y)`.
Mutating methods end in the function's new state, for example `Move` ends in
`MoveSpec(old(State()), …)`. The laws are then proved as lemmas about those functions.

Pieces are modelled as a `Kind` plus a `Color`. The source names a piece by a glyph and stores
its colour beside it. Each glyph belongs to one kind (game.js:309-316). The opening layout
(game.js:120-137) and the FEN import (game.js:61-69) always pair the Red glyph with Red and the
Black glyph with Black; only the Chariot uses one glyph for both colours. So every test the
engine makes on a (glyph, colour) pair is a test on (kind, colour).

Behaviour kept as written:

- `importFen` reads the move counter from the fifth field, but `exportFen` writes `0` there.
  A round trip therefore sets the counter to 1 (`Fen.ExportImport`).
- `importFen` replaces the board before it checks the rank count and the Generals. A rejected
  string leaves the board empty (wrong rank count) or filled from the string (wrong General
  count). The turn and the history are left untouched (`History.ImportFenSpec`). A rejected
  string is not rolled back.
- `importFen` does not update the saved initial board.
- `importGame` reads `currentMoveIndex || -1`, so a saved cursor of 0 comes back as -1 and the
  first move is undone (`History.GameRoundTripLosesFirstMove`). It does not touch the move
  counter. Records are replayed without a legality check, so an illegal record does not make
  the import fail.
- `move` cuts the history with `slice(0, cursor + 1)`. A cursor below -1, which `importGame`
  can store, makes that end negative, and `slice` then counts back from the end of the list:
  four records with the cursor at -3 keep the first two (`History.MoveBelowCursor`).
- A history record's FEN is exported after the piece moves but before the turn passes. It
  therefore still names the mover as the side to move.
- `move` tests the mover's General again after the piece has moved (game.js:250-255). The model
  proves that this test never fires, because the destination already passed the legal-move
  filter (`Engine.XiangqiGame.Recheck`).

## Model

| member | source | states |
|---|---|---|
| `Board.GetPiece` | game.js:207-217 | off-board coordinates give no piece; on-board ones give the occupant |
| `Board.Opponent` | game.js:371 | the enemy colour is never the colour itself |
| `Engine.XiangqiGame.constructor` | game.js:6-33 | a new engine holds the opening position, with Red to move at move 1, an empty history, the cursor at -1 and the opening saved as the initial board |
| `Engine.XiangqiGame.Place` | game.js:139-141 | one entry of the table is written to its square |
| `Engine.XiangqiGame.SaveInitialBoard` | game.js:185-187 | a copy of the board is saved as the initial board |
| `Engine.XiangqiGame.CopyBoard` | game.js:186 | the copy is equal to the board |
| `Engine.XiangqiGame.SetupInitialPosition` | game.js:118-143 | the 32 table entries are written over the board in order; the board stays 10x9 and in step with its value |
| `Board.InitialGridIsOpening` | game.js:118-143 | the table written onto an empty board gives the opening position rank by rank: Black's back rank on row 0, its Cannons on columns 1 and 7 of row 2, its Soldiers on the even columns of row 3, Red's mirrored on rows 9, 7 and 6, the other rows empty |
| `Board.InitialGridContents` | game.js:118-143 | the opening position holds, for each colour, exactly one General, five Soldiers and two of every other kind |
| `Engine.XiangqiGame.GetPiece` | game.js:207-213 | reads the array and answers as `Board.GetPiece` on the board value |
| `Check.RawMovesValid` | game.js:304-320 | every raw move of any square lies on the board |
| `MoveLaws.ChariotScanIff` | game.js:510-521 | along one ray, t is pushed iff it is on the ray, every square before it is empty, and t is empty or an enemy |
| `MoveLaws.ChariotRaysIff` | game.js:506-523 | the scans of a list of directions reach t iff one of them does |
| `MoveLaws.CannonRaysIff` | game.js:468-504 | the Cannon scans of a list of directions reach t iff one of them does |
| `MoveLaws.KeepTargetsIff` | game.js:465 | the corrected Soldier filter keeps t iff t is a candidate, on the board and not friendly |
| `MoveLaws.KeepOnBoardIff` | game.js:465 | the filter as written keeps t iff t is a candidate on the board, whoever stands there |
| `MoveLaws.HopShape` | game.js:525-581 | an allowed hop of a Horse, Elephant, Advisor or General lands on the board, not on a friend, with its kind's shape |
| `Moves.Ray` | game.js:474-477 | the squares a sliding scan visits are all on the board |
| `MoveLaws.CannonMovesIff` | game.js:468-504 | a Cannon reaches t iff t is on one of its four rays and either t and every square before it are empty, or t holds an enemy and exactly one piece stands between |
| `MoveLaws.CannonScanIff` | game.js:476-500 | along one ray, after `jumps` screens: t is pushed iff it is empty with no piece passed, or an enemy with exactly one piece passed; the screen itself and squares beyond a second piece are never reached |
| `MoveLaws.ChariotMovesIff` | game.js:506-523 | a Chariot reaches t iff t is on one of its rays, nothing stands before it, and t is empty or an enemy |
| `MoveLaws.HopsIff` | game.js:525-581 | a Horse, Elephant, Advisor or General reaches t iff some offset of its table lands on t with that kind's condition met |
| `MoveLaws.SoldierMovesIff` | game.js:450-466 | a Soldier reaches t iff t is on the board, not friendly, and either one step forward (y-1 for Red, y+1 for Black) or one step sideways once across the river (y ≤ 4 for Red, y ≥ 5 for Black); never backwards |
| `MoveLaws.SoldierAsWrittenTakesFriend` | game.js:465 | the soldier filter as written keeps a square held by a friendly piece: a Red Soldier on (0,6) may move onto a Red Cannon on (0,5) |
| `MoveLaws.RawMoveGeometry` | game.js:304-320 | every raw move starts from a piece, lands on the board, never on a friend, and has its kind's shape: the Horse's leg and the Elephant's eye are empty, the Elephant stays on its side of the river, the Advisor and General stay in the palace (columns 3-5, rows 7-9 for Red and 0-2 for Black) |
| `MoveLaws.RawMoveLeaves` | game.js:304-320 | no raw move stays on its own square |
| `Engine.XiangqiGame.KeepTargetSquares` | game.js:465 | the filter loop returns the candidates that are on the board and not friendly |
| `Engine.XiangqiGame.GetSoldierMoves` | game.js:450-466 | returns the corrected Soldier generator of the board |
| `Engine.XiangqiGame.GetCannonMoves` | game.js:468-504 | the four ray loops together return the Cannon moves, in the source's order |
| `Engine.XiangqiGame.CannonRay` | game.js:471-501 | the `jumpCount` loop along one direction returns exactly the Cannon's scan of that ray |
| `Engine.XiangqiGame.GetRookMoves` | game.js:506-523 | the four ray loops return the Chariot moves |
| `Engine.XiangqiGame.RookRay` | game.js:510-521 | the loop along one direction returns exactly the Chariot's scan of that ray |
| `Engine.XiangqiGame.GetKnightMoves` | game.js:525-538 | the loop over the eight offsets returns the allowed Horse hops in table order |
| `Engine.XiangqiGame.GetElephantMoves` | game.js:540-553 | the loop over the four offsets returns the allowed Elephant leaps |
| `Engine.XiangqiGame.GetGuardMoves` | game.js:555-567 | the loop returns the allowed Advisor steps |
| `Engine.XiangqiGame.GetKingMoves` | game.js:569-581 | the loop returns the allowed General steps |
| `Engine.XiangqiGame.GetRawMoves` | game.js:304-320 | the dispatch on the piece kind returns `RawMoves` of the board (none for an empty or off-board square) |
| `Check.KingPos` | game.js:425-435 | the result, if any, holds a General of that colour; it is absent iff no such General is on the board |
| `Check.KingFrom` | game.js:425-435 | the scan from a square returns the first General in row-major order at or after it |
| `Engine.XiangqiGame.FindKing` | game.js:425-435 | the nested scan returns `KingPos` |
| `Engine.XiangqiGame.WillKingsFaceEachOther` | game.js:437-448 | true iff both Generals exist, share a column, and no piece lies strictly between them |
| `Engine.XiangqiGame.IsKingInCheck` | game.js:367-386 | true iff the colour has a General and it is the target of an enemy raw move or the Generals face each other |
| `Check.FacingGeneralsCheckBoth` | game.js:437-448 | Generals facing each other on an open column put both colours in check |
| `Check.OpeningGenerals` | game.js:118-143 | in the opening position `findKing` finds Red's General on (4, 9) and Black's on (4, 0) |
| `Check.OpeningNotCheckmate` | game.js:367-423 | in the opening position neither colour is in check, so neither is checkmated |
| `Check.LegalFilterIff` | game.js:348-363 | the filter keeps t iff t is among the given moves and, after the piece moves there, its own General is not in check |
| `Check.LegalMovesIff` | game.js:340-365 | t is a legal move iff it is a raw move of the piece and, after the piece moves there, its own General is not in check |
| `Engine.XiangqiGame.TryMove` | game.js:349-359 | the simulation writes two squares, tests the General, and writes them back: the board and all fields end as they began |
| `Engine.XiangqiGame.GetLegalMoves` | game.js:340-365 | returns `LegalMoves` of the board, so it is a subset of the raw moves, and leaves the board and every field unchanged |
| `Check.NoLegalMovesIff` | game.js:396-419 | a piece of the colour has no legal move iff none of its raw moves leaves its General out of check |
| `Engine.XiangqiGame.CanEscape` | game.js:398-417 | the loop over one piece's legal moves answers true iff the piece has a legal move, and leaves the state unchanged |
| `Check.CheckmateIff` | game.js:388-423 | checkmate iff in check and every raw move of every piece of that colour leaves its General in check |
| `Engine.XiangqiGame.IsCheckmate` | game.js:388-423 | returns `Checkmate` of the board (in check, and no piece of the colour has a legal move) and leaves the state unchanged |
| `Fen.ExportFields` | game.js:144-175 | the export splits at spaces into six fields: the board, the turn letter, and `0` in the fifth |
| `Fen.BoardFieldSplits` | game.js:148-171 | the board field splits at `/` into the ten encoded ranks and holds no space |
| `Fen.EncodeRankRead` | game.js:74-97 | the import's rank loop reads back every rank the export encodes |
| `Fen.ParseRankCounts` | game.js:74-97 | the General counters of one rank equal the Generals placed on it |
| `Fen.ParsedGrid` | game.js:74-97 | row y of the imported board is what the rank loop makes of rank y |
| `Fen.FenCharRead` | game.js:35-41 | the FEN import reads every letter the export writes back as the same piece, and no piece letter is a digit |
| `Fen.ExportImport` | game.js:42-175 | importing an exported FEN restores the board and the side to move and sets the counter to 1; a board without exactly one General per colour is rejected and left in place |
| `Fen.ParseFenKings` | game.js:71-102 | an accepted FEN yields a board with exactly one Red and one Black General; one rejected for its Generals does not |
| `Fen.KingCountsMatchBoard` | game.js:86-87 | the two counters the import checks equal the number of Generals on the board it built |
| `Text.JoinSplit` | game.js:44 | joining the parts of `split` gives the string back |
| `Text.SplitFree` | game.js:44 | a string without the separator splits into itself alone |
| `Text.SixFields` | game.js:173 | the tail the export appends splits into the fields `b`, `t`, `-`, `-`, `0`, `c` |
| `Text.ParseIntOr1` | game.js:52 | the counter read with a fallback of 1 is never 0 and keeps every nonzero number read |
| `Text.LeadingDigitNonZero` | game.js:173 | a printed number of two or more digits does not start with `0` |
| `Text.SplitJoin` | game.js:44 | `split` undoes `join` for pieces without the separator |
| `Text.ParseIntStr` | game.js:52 | `parseInt` reads back every integer printed in decimal |
| `Engine.XiangqiGame.ReadRanks` | game.js:74-96 | the loop over the ten ranks builds the imported board and returns the Red and Black General counts |
| `Engine.XiangqiGame.ClearBoard` | game.js:54 | a new empty board replaces the old one; nothing else changes |
| `Engine.XiangqiGame.StartFrom` | game.js:104-108 | turn and counter set, history cleared, cursor -1, snapshot dropped; the board is kept |
| `Engine.XiangqiGame.BoardText` | game.js:148-171 | the nested loop writes the board field: each rank run-length encoded, `/` between ranks |
| `Engine.XiangqiGame.ExportFen` | game.js:144-175 | returns the board field, then ` w` or ` b`, then ` - - 0 ` and the counter (1 when it is 0), and takes the board snapshot |
| `Engine.XiangqiGame.ReadRank` | game.js:75-97 | one rank's loop fills row y as `ParseRank` does and returns the number of Generals of each colour it placed |
| `Engine.XiangqiGame.ImportFen` | game.js:42-116 | false with nothing changed for fewer than 6 fields; false with the board cleared for a rank count other than 10; false with the board filled for a General count other than one each; otherwise true, with board, turn and counter set and the history cleared |
| `Notation.File` | game.js:760 | an on-board column gets a file number from 1 to 9 |
| `Notation.FileMirror` | game.js:760-761 | Red's and Black's numbers of one column add up to 10, and each numbering tells columns apart |
| `Notation.SymbolAdvances` | game.js:765-777 | `+` always means towards the opponent and `-` means back, for both colours and all kinds |
| `Notation.ColumnRows` | game.js:729-738 | the rows holding the piece in the column, strictly increasing, and exactly those rows |
| `Notation.IndexOf` | game.js:787 | `findIndex`: -1 iff the value is absent, else the first position holding it |
| `Notation.IndicesDistinct` | game.js:783-789 | two pieces on one file get different indices |
| `Notation.NotationDistinct` | game.js:740-794 | two different raw moves of one piece get different notation |
| `Notation.MoveNotation` | game.js:740-794 | no notation exactly when the move carries no piece and none is found at its origin; otherwise it describes the move's own piece when it carries one, else the piece found at the origin |
| `Notation.PrefixIndex` | game.js:783-789 | a lone piece on its file is named by its letter; with two or more identical pieces on the file, the index is 1 plus the number of them behind the mover (rows below it for Red, above it for Black), written before the letter for Red and after it for Black, and lies between 1 and the number of file-mates |
| `Notation.IndexCount` | game.js:786-787 | the position of a row in the mover's order of file-mates is the number of file-mates behind it |
| `Notation.DescribeReads` | game.js:760-777 | after the origin file, a Horse, Elephant or Advisor move gives `+` (towards the opponent) or `-` and the destination file; any other piece gives `=` and the destination file along its rank, or `+`/`-` and the number of ranks crossed |
| `Notation.PieceForNotation` | game.js:178-183 | the snapshot's piece when it has one at that square, else the live board's |
| `Notation.FreshSnapshotReads` | game.js:146-183 | with the snapshot exportFen has just taken, the lookup answers what getPiece answers |
| `Notation.SnapshotFindsMover` | game.js:178-183 | after a move made on the snapshot's board, the moved piece is still found at its origin, and the target gives the captured piece, or the mover when nothing was captured |
| `Notation.PositionNotationDistinct` | game.js:722-726 | different squares get different names |
| `Notation.StrideDetermined` | game.js:740-794 | for one piece, the direction sign and the number after it fix the target among its possible strides |
| `Notation.DescribeDistinct` | game.js:740-794 | two different targets within a piece's strides get different notation |
| `Notation.PositionNotationReads` | game.js:722-726 | a square name splits at its dot into the column and rank numbers |
| `Engine.XiangqiGame.GetPiecesInColumn` | game.js:729-738 | the loop returns `PiecesInColumn` |
| `Engine.XiangqiGame.GetPieceForNotation` | game.js:178-183 | returns `PieceForNotation`: the snapshot's piece if there is one, else the board's |
| `Engine.XiangqiGame.GetMoveNotation` | game.js:740-794 | returns `MoveNotation` of the board and the snapshot |
| `Engine.XiangqiGame.GetMoveHistory` | game.js:644-662 | one notation per record, in order |
| `History.MoveGuards` | game.js:218-242 | `move` succeeds iff the origin holds a piece of the side to move, the target is a legal move, and the target is not the opposing General; a refused move changes nothing |
| `History.MoveEffects` | game.js:243-276 | on success: the piece is relocated; the mover is not in check; the history is cut after the cursor and one record holding the captured square and the mover is appended; the cursor points at it; the turn passes; the counter rises iff Black moved |
| `History.MoveAccepted` | game.js:218-280 | an accepted move has both squares on the board and distinct, moves a piece of the side to move, leaves its General safe, and ends in `Moved` |
| `Engine.XiangqiGame.Cut` | game.js:244-245 | the history is cut to `Slice(history, cursor + 1)` (a negative end counting back from the end) and the board snapshot taken |
| `History.Slice` | game.js:244 | `slice(0, end)` keeps the first `end` records (all of them if there are fewer), or for a negative end all but the last `-end`; each kept record is unchanged |
| `History.MoveBelowCursor` | game.js:243-270 | from a cursor below -1, a successful move keeps the first (history length + cursor + 1) records, none if that is negative, appends its own record (mover, captured square) after them, and raises the cursor by one, which stays negative |
| `History.MoveCounts` | game.js:243-247 | a successful move keeps every piece on the board except the captured one: each piece's count drops by one if it stood on the target and is otherwise unchanged |
| `History.MoveKeepsGenerals` | game.js:218-247 | a successful move never changes the number of Generals of either colour |
| `Engine.XiangqiGame.ShiftChecked` | game.js:246-255 | the piece is relocated, and the post-move check cannot undo it |
| `Engine.XiangqiGame.Record` | game.js:258-276 | the record is appended with the exported position, the cursor advances, the turn passes, and the counter rises after Black's move |
| `Engine.XiangqiGame.Shift` | game.js:246-247 | the target gets the origin's piece and the origin is emptied |
| `Engine.XiangqiGame.Move` | game.js:218-280 | returns and ends in `MoveSpec` of the old state |
| `Engine.XiangqiGame.Commit` | game.js:243-276 | cut, export, move, re-check and record together produce `Moved` |
| `History.MoveKeepsInv` | game.js:243-270 | `move` keeps the cursor between -1 and the index of the last record, and every record on the board |
| `History.UndoRedoKeepInv` | game.js:583-621 | undo and redo keep the cursor in range |
| `History.ResetsKeepInv` | game.js:623-642 | the resets and the FEN import keep the cursor in range |
| `History.ImportGameInv` | game.js:672-698 | after `importGame` the cursor is in range iff the stored index, with 0 or a missing one read as -1, lies between -1 and the index of the last record |
| `Engine.XiangqiGame.Undo` | game.js:583-601 | false with no change when the cursor is negative or at or past the end of the history; otherwise the piece returns to its origin, the captured square is restored, the turn goes back to the record's mover, the counter drops iff Red was to move and the record's mover is Black, and the cursor moves back |
| `Engine.XiangqiGame.Redo` | game.js:603-621 | false with no change when the cursor is at or past the last record; false with the cursor advanced by one when it is below -1; otherwise the next record is re-applied, the cursor advances, the turn flips, and the counter rises iff the turn goes from Black to Red |
| `History.UndoAfterMove` | game.js:218-280 | undo right after a successful move restores the board, the turn and the counter |
| `History.UndoMoved` | game.js:583-601 | undo after the effect of a move restores board, turn, counter and cursor, keeping the longer history |
| `History.UndoRedone` | game.js:583-621 | when the next record fits the position, undo takes back redo |
| `History.MovedConsistent` | game.js:243-276 | the effect of a move keeps the board in step with the history replayed to the cursor |
| `History.UndoAfterRedo` | game.js:583-621 | on a state its history describes, undo takes back a redo |
| `History.RedoAfterUndo` | game.js:583-621 | on a state its history describes, redo takes back an undo |
| `History.UndoKeepsConsistent` | game.js:583-601 | undo keeps the board, turn and counter equal to the history replayed up to the cursor |
| `History.RedoKeepsConsistent` | game.js:603-621 | redo keeps that agreement |
| `History.MoveKeepsConsistent` | game.js:218-280 | move keeps that agreement |
| `History.UndoAsWrittenBreaksConsistency` | game.js:583-601 | undo as written, which throws at `previousTurn`, leaves a state that no longer agrees with its history |
| `History.ResetsStartConsistent` | game.js:623-642 | the resets and a successful FEN import start a fresh history from the new position |
| `Engine.XiangqiGame.ResetToInitial` | game.js:623-631 | false without a saved board; otherwise the saved board is copied back, Red moves, the history is cleared and the counter is 1 |
| `Engine.XiangqiGame.ResetGame` | game.js:633-642 | the opening position, Red to move, the history cleared, the counter 1, and the opening saved as the initial board |
| `Engine.XiangqiGame.ExportGame` | game.js:664-670 | the record holds the history, the cursor and the initial board |
| `Engine.XiangqiGame.ImportGame` | game.js:672-704 | the history and cursor (0 read as -1) are stored; the saved board, or the opening if there is none, is replayed up to the cursor, starting with Red; the counter is not touched |
| `Engine.XiangqiGame.RestoreStart` | game.js:679-686 | the board becomes a copy of the saved initial board, or the opening layout (then saved) when there is none |
| `Engine.XiangqiGame.ReplayRecord` | game.js:692-696 | one replay step moves the record's piece and passes the turn |
| `Engine.XiangqiGame.ReplayHistory` | game.js:690-698 | the loop replays the records up to the cursor, passing the turn each time, without checks |
| `History.ReplayIsPlay` | game.js:690-698 | the replay loop reaches the same board and turn as playing the records |
| `History.GameRoundTrip` | game.js:664-704 | exporting then importing a game whose history describes it gives the same state back when the cursor is not 0 |
| `History.GameRoundTripLosesFirstMove` | game.js:676 | with the cursor at 0, the import moves it to -1 and puts back the initial board, losing the first move |
| `Engine.XiangqiGame.Recheck` | game.js:250-255 | the post-move test of the mover's General always answers false, so the branch that puts the piece back is dead |

## Findings

| source | as written | input that shows it | evidently intended | confidence | as-written member | corrected member |
|---|---|---|---|---|---|---|
| game.js:595 | `undo` reads `previousTurn`, which it never declares. The ReferenceError comes after the board and the turn have been restored, so `undo` never returns true and the cursor never moves back | any `undo` with the cursor on a record, e.g. after `move(0,6,0,5)` from the opening | capture the turn before restoring it, as `redo` does at game.js:614; drop the counter when Red was to move and the record's mover is Black; move the cursor back | high (not executed) | `History.UndoAsWrittenBreaksConsistency` | `History.UndoAfterMove` |
| game.js:465 | `getSoldierMoves` filters its candidates only by `isValidPosition`, so a square held by a friendly piece stays among the Soldier's raw moves. Every other generator excludes such squares | a Red Soldier on (0,6) with a Red Cannon on (0,5): (0,5) is a raw move, and `move(0,6,0,5)` can capture the Cannon | exclude friendly-occupied targets, like the other generators | high (not executed) | `MoveLaws.SoldierAsWrittenTakesFriend` | `MoveLaws.SoldierMovesIff` |

The rest of the model uses the corrected behaviour. `Moves.SoldierMoves` keeps only on-board,
non-friendly squares. `History.UndoSpec` and `Engine.XiangqiGame.Undo` capture the turn before
restoring it, and move the cursor back. `History.UndoAsWritten` records the as-written undo.

## Left out

- ui.js, main.js and preload.js: rendering, DOM events, timers, Electron windows, engine
  processes and IPC. They only call the engine's public operations.
- The JSON framing of `exportGame`/`importGame` (game.js:664-677): the model works on the parsed
  record `History.GameData`. A string that does not parse is not modelled.
- Engine.XiangqiGame.ImportGame: its `requires` admits only histories whose records all name
  squares on the board, although the source accepts some others. The replay loop
  (game.js:690-698) visits only the records up to the cursor, so an off-board record after the
  cursor is stored and `importGame` returns true. Inside the loop, a `fromY` or `toY` off the
  board throws a TypeError, which `importGame` catches after part of the replay, returning
  false. A `fromX` or `toX` off the board does not throw: the read gives `undefined`, which
  empties the target square, and the write lands outside the nine columns of the rank array.
- Engine.XiangqiGame.ReadRank: the rank loop (game.js:79-80) indexes the string by UTF-16 code
  unit, while the model's strings are sequences of characters. A character outside the Basic
  Multilingual Plane is two unknown symbols to the source and advances the column twice: for the
  rank `\u{1F004}k7` the source puts the General on column 2, the model on column 1. The same
  holds for `Fen.ParseRank`.
- Engine.XiangqiGame.ImportFen: `parseInt` yields a double-precision number (game.js:52), while
  the model's counter is an exact integer. The source's counter loses precision above 2^53, and
  from 10^21 on `exportFen` prints it in exponent form (game.js:173), which `parseInt` reads
  back as its leading digit.
- Engine.XiangqiGame.Move: an origin row off the board makes the source throw a TypeError before
  any change. The model returns false instead, with no change.
- Unknown glyph names: `Kind` is closed, so `pieceToFen`'s null result, the `'?'` placeholder in
  `exportFen` and the "Invalid Piece" answer of `getMoveNotation` cannot arise. The "Invalid
  Move" answer for a move object with missing fields cannot arise either, because
  `Notation.NotationMove` always has all four coordinates. The "Unknown Move" answer is `None`.
- `console` logging, and the FEN string passed to `console.log` at the end of `move`.
- `setFlipped` (game.js:795-797), which only stores a display flag.
- The deep-copy and aliasing side of `fenBoardSnapshot` and `initialBoard`. Both are board
  values in the model, so they cannot alias the live array.
- Engine.XiangqiGame.GetMoveHistory: a stored record always carries its piece
  (`History.MoveRecord.piece` is a `Piece`), so the repair at game.js:650-653, which writes the
  piece found at the record's origin, or `null`, into a record saved without one, is not
  modelled; nor is the `"Error"` entry of the catch at game.js:656-659, nor the empty answer for a
  history that is not an array (game.js:645-648). A record without its piece can reach the
  source through `importGame`; the model's `importGame` takes records with pieces only.
- `importFen` on a value that is not a string (where `split` throws) is not modelled, since the
  parameter is typed as a string.
