/** The game state machine of XiangqiGame (game.js:218-280, 583-642, 672-704, 42-116): the
    position, the side to move, the move counter and the history of move records with its
    cursor, as values, together with one function per state-changing operation. */
module History {
  import opened Wrappers
  import opened Board
  import opened Moves
  import opened MoveLaws
  import opened Check
  import opened Fen

  /** A history entry as move() records it (game.js:258-267). */
  datatype MoveRecord = MoveRecord(
    fromX: int, fromY: int, toX: int, toY: int,
    captured: Square, mover: Color, piece: Piece, fen: string)

  function From(r: MoveRecord): Pos { Pos(r.fromX, r.fromY) }
  function To(r: MoveRecord): Pos { Pos(r.toX, r.toY) }

  /** Every record names two squares of the board. */
  predicate RecordsOnBoard(h: seq<MoveRecord>) {
    forall i :: 0 <= i < |h| ==> Valid(From(h[i])) && Valid(To(h[i]))
  }

  /** The fields of XiangqiGame that the rules read and write. `initialBoard` and
      `snapshot` (fenBoardSnapshot) are null until first set. */
  datatype GameState = GameState(
    grid: Grid, turn: Color, moveCount: int,
    history: seq<MoveRecord>, index: int,
    initialBoard: Option<Grid>, snapshot: Option<Grid>)

  /** The history cursor points at a record or just before the first one. */
  predicate IndexInRange(s: GameState) {
    -1 <= s.index <= |s.history| - 1
  }

  predicate Inv(s: GameState) {
    IndexInRange(s) && RecordsOnBoard(s.history)
  }

  /** The state right after construction (game.js:6-33): the opening position, Red to move. */
  function Initial(): (s: GameState)
    ensures Inv(s) && s.grid == InitialGrid() && s.turn == Red && s.history == []
  {
    GameState(InitialGrid(), Red, 1, [], -1, Some(InitialGrid()), None)
  }

  /** The first n records, none when n is negative: the records importGame's replay loop
      visits for a cursor of n - 1 (game.js:690). */
  function Take(h: seq<MoveRecord>, n: int): (r: seq<MoveRecord>)
    ensures |r| == if n < 0 then 0 else if n > |h| then |h| else n
    ensures forall i :: 0 <= i < |r| ==> r[i] == h[i]
  {
    if n <= 0 then [] else if n >= |h| then h else h[..n]
  }

  /** `moveHistory.slice(0, end)` with JavaScript's reading of a negative end, which counts
      back from the end of the list: `slice(0, -2)` drops the last two records (game.js:244). */
  function Slice(h: seq<MoveRecord>, end: int): (r: seq<MoveRecord>)
    ensures |r| == if end < 0 then (if |h| + end < 0 then 0 else |h| + end)
                   else if end > |h| then |h| else end
    ensures forall i :: 0 <= i < |r| ==> r[i] == h[i]
    ensures end >= 0 ==> r == Take(h, end)
  {
    if end < 0 then Take(h, |h| + end) else Take(h, end)
  }

  /** The counter rises when Black has just moved (game.js:272-276). */
  function Advance(turn: Color, moveCount: int): int {
    if turn == Black then moveCount + 1 else moveCount
  }

  /** Why move() refuses, or Accepted. */
  datatype MoveCheck = EmptySource | NotOnTurn | NotLegal | CapturesGeneral | Accepted

  /** The guards of move() in order (game.js:219-242). An origin off the board counts as
      empty. */
  ghost function Screen(s: GameState, fx: int, fy: int, tx: int, ty: int): MoveCheck {
    if !OnBoard(fx, fy) || s.grid[fy][fx].None? then EmptySource
    else if s.grid[fy][fx].value.color != s.turn then NotOnTurn
    else if Pos(tx, ty) !in LegalMoves(s.grid, fx, fy) then NotLegal
    else
      LegalMovesIff(s.grid, fx, fy, Pos(tx, ty));
      if At(s.grid, Pos(tx, ty)) == Some(Piece(General, Opponent(s.turn))) then CapturesGeneral
      else Accepted
  }

  /** The state after move() has passed its guards (game.js:243-276): history cut after the
      cursor, the piece relocated, a record appended holding the captured square, the mover
      and the position exported before the turn passes, the turn passed and the counter
      advanced. */
  function Moved(s: GameState, from: Pos, to: Pos): GameState
    requires Valid(from) && Valid(to) && At(s.grid, from).Some?
  {
    var g := Relocate(s.grid, from, to);
    var rec := MoveRecord(from.x, from.y, to.x, to.y, At(s.grid, to), s.turn, At(s.grid, from).value,
                          ExportFen(g, s.turn, s.moveCount));
    s.(grid := g, history := Slice(s.history, s.index + 1) + [rec], index := s.index + 1,
       turn := Opponent(s.turn), moveCount := Advance(s.turn, s.moveCount), snapshot := Some(g))
  }

  /** move(fromX, fromY, toX, toY) (game.js:218-280): the answer and the new state. */
  ghost function MoveSpec(s: GameState, fx: int, fy: int, tx: int, ty: int): (bool, GameState) {
    if Screen(s, fx, fy, tx, ty) != Accepted then (false, s)
    else
      LegalMovesIff(s.grid, fx, fy, Pos(tx, ty));
      (true, Moved(s, Pos(fx, fy), Pos(tx, ty)))
  }

  /** undo (game.js:583-601) with the counter rule the code evidently means, the turn being
      captured before it is restored as redo does: the counter drops when Red was to move and
      the record's mover is Black. A cursor outside the history gives false and no change. */
  function UndoSpec(s: GameState): (bool, GameState)
    requires RecordsOnBoard(s.history)
  {
    if s.index < 0 || s.index >= |s.history| then (false, s)
    else
      var rec := s.history[s.index];
      var g := Put(Put(s.grid, From(rec), At(s.grid, To(rec))), To(rec), rec.captured);
      (true, s.(grid := g, turn := rec.mover, index := s.index - 1,
                moveCount := if s.turn == Red && rec.mover == Black then s.moveCount - 1 else s.moveCount))
  }

  /** undo as written: past its guards it restores the two squares and the turn, then reads
      the undeclared `previousTurn` and throws a ReferenceError, so the counter and the cursor
      stay as they were. The result is the state the exception leaves behind. */
  function UndoAsWritten(s: GameState): (bool, GameState)
    requires RecordsOnBoard(s.history)
  {
    if s.index < 0 || s.index >= |s.history| then (false, s)
    else
      var rec := s.history[s.index];
      var g := Put(Put(s.grid, From(rec), At(s.grid, To(rec))), To(rec), rec.captured);
      (false, s.(grid := g, turn := rec.mover))
  }

  /** redo (game.js:603-621). The cursor is advanced before the record is looked up, so a
      cursor below -1 moves even though the answer is false. */
  function RedoSpec(s: GameState): (bool, GameState)
    requires RecordsOnBoard(s.history)
  {
    if s.index >= |s.history| - 1 then (false, s)
    else if s.index + 1 < 0 then (false, s.(index := s.index + 1))
    else
      var rec := s.history[s.index + 1];
      (true, s.(grid := Relocate(s.grid, From(rec), To(rec)), index := s.index + 1,
                turn := Opponent(s.turn), moveCount := Advance(s.turn, s.moveCount)))
  }

  /** resetToInitial (game.js:623-631). */
  function ResetToInitialSpec(s: GameState): (bool, GameState) {
    match s.initialBoard
    case None => (false, s)
    case Some(b) => (true, s.(grid := b, turn := Red, history := [], index := -1, moveCount := 1))
  }

  /** resetGame (game.js:633-642). */
  function ResetGameSpec(s: GameState): GameState {
    s.(grid := InitialGrid(), turn := Red, history := [], index := -1, moveCount := 1,
       initialBoard := Some(InitialGrid()))
  }

  /** The three fields exportGame writes and importGame reads (game.js:664-677); an absent
      field is None. */
  datatype GameData = GameData(moveHistory: seq<MoveRecord>, currentMoveIndex: Option<int>,
                               initialBoard: Option<Grid>)

  function ExportGameSpec(s: GameState): GameData {
    GameData(s.history, Some(s.index), s.initialBoard)
  }

  /** `data.currentMoveIndex || -1`: a missing index and an index of 0 both become -1. */
  function StoredIndex(i: Option<int>): (r: int)
    ensures r != 0
    ensures i.Some? && i.value != 0 ==> r == i.value
  {
    match i
    case None => -1
    case Some(n) => if n == 0 then -1 else n
  }

  /** The squares and the side to move after replaying `recs` from grid g with `turn` to move,
      the way importGame's loop does (game.js:690-698): no legality check, no counter. */
  function Replay(g: Grid, turn: Color, recs: seq<MoveRecord>): (Grid, Color)
    requires RecordsOnBoard(recs)
  {
    if recs == [] then (g, turn)
    else
      var r := recs[|recs| - 1];
      var (g', t') := Replay(g, turn, recs[..|recs| - 1]);
      (Relocate(g', From(r), To(r)), Opponent(t'))
  }

  /** importGame (game.js:672-704) on already-parsed data. */
  function ImportGameSpec(s: GameState, d: GameData): GameState
    requires RecordsOnBoard(d.moveHistory)
  {
    var start := if d.initialBoard.Some? then d.initialBoard.value else InitialGrid();
    var index := StoredIndex(d.currentMoveIndex);
    var (g, t) := Replay(start, Red, Take(d.moveHistory, index + 1));
    s.(history := d.moveHistory, index := index, initialBoard := Some(start), grid := g, turn := t)
  }

  /** importFen (game.js:42-116): the answer and the new state, including the board the
      failing paths leave behind. */
  function ImportFenSpec(s: GameState, fen: string): (bool, GameState) {
    match ParseFen(fen)
    case TooFewFields => (false, s)
    case WrongRankCount => (false, s.(grid := EmptyGrid()))
    case WrongKingCount(b) => (false, s.(grid := b))
    case Parsed(b, t, n) =>
      (true, s.(grid := b, turn := t, moveCount := n, history := [], index := -1, snapshot := None))
  }

  /** exportFen (game.js:144-175): the text and the state with the snapshot taken. */
  function ExportFenSpec(s: GameState): (string, GameState) {
    (ExportFen(s.grid, s.turn, s.moveCount), s.(snapshot := Some(s.grid)))
  }

  // ---------------------------------------------------------------------------------------
  // The position a history describes

  /** Squares, side to move and counter. */
  datatype Position = Position(grid: Grid, turn: Color, count: int)

  function Apply(p: Position, r: MoveRecord): Position
    requires Valid(From(r)) && Valid(To(r))
  {
    Position(Relocate(p.grid, From(r), To(r)), Opponent(p.turn), Advance(p.turn, p.count))
  }

  /** The position reached by playing `recs` from `base`. */
  function Play(base: Position, recs: seq<MoveRecord>): Position
    requires RecordsOnBoard(recs)
  {
    if recs == [] then base else Apply(Play(base, recs[..|recs| - 1]), recs[|recs| - 1])
  }

  /** Record r describes a move made from position p: the mover was on turn, the piece stood
      on the origin, the destination held the captured square, and the two squares differ. */
  predicate Describes(p: Position, r: MoveRecord)
    requires Valid(From(r)) && Valid(To(r))
  {
    From(r) != To(r) && r.mover == p.turn
    && At(p.grid, From(r)) == Some(r.piece) && At(p.grid, To(r)) == r.captured
  }

  /** Every record describes the move it made from the position before it. */
  predicate WellRecorded(base: Position, h: seq<MoveRecord>)
    requires RecordsOnBoard(h)
  {
    forall i :: 0 <= i < |h| ==> Describes(Play(base, h[..i]), h[i])
  }

  /** The state sits at the position its history reaches from `base` by the cursor, and
      undo/redo can walk the whole history. */
  predicate Consistent(s: GameState, base: Position) {
    Inv(s) && WellRecorded(base, s.history)
    && Play(base, s.history[..s.index + 1]) == Position(s.grid, s.turn, s.moveCount)
  }

  // ---------------------------------------------------------------------------------------
  // Lemmas

  lemma SameGrid(a: Grid, b: Grid)
    requires forall y, x :: 0 <= y < Rows && 0 <= x < Cols ==> a[y][x] == b[y][x]
    ensures a == b
  {
    forall y | 0 <= y < Rows ensures a[y] == b[y] {
      assert forall x :: 0 <= x < Cols ==> a[y][x] == b[y][x];
    }
  }

  /** Undoing a relocation square by square gives the board back. */
  lemma PutBack(g: Grid, from: Pos, to: Pos)
    requires Valid(from) && Valid(to) && from != to
    ensures var m := Relocate(g, from, to);
            Put(Put(m, from, At(m, to)), to, At(g, to)) == g
  {
    var m := Relocate(g, from, to);
    SameGrid(Put(Put(m, from, At(m, to)), to, At(g, to)), g);
  }

  /** move() succeeds exactly when all four guards pass; a refused move changes nothing. */
  lemma MoveGuards(s: GameState, fx: int, fy: int, tx: int, ty: int)
    ensures var (ok, s') := MoveSpec(s, fx, fy, tx, ty);
            (ok <==> OnBoard(fx, fy) && IsFriend(s.grid[fy][fx], s.turn)
                     && Pos(tx, ty) in LegalMoves(s.grid, fx, fy)
                     && GetPiece(s.grid, tx, ty) != Some(Piece(General, Opponent(s.turn))))
            && (!ok ==> s' == s)
  {
    if OnBoard(fx, fy) && s.grid[fy][fx].Some? {
      LegalMovesIff(s.grid, fx, fy, Pos(tx, ty));
    }
  }

  /** On success, move() is Moved, from a friendly piece to a different square, and its
      target leaves the mover's General out of check. */
  lemma MoveAccepted(s: GameState, fx: int, fy: int, tx: int, ty: int)
    requires MoveSpec(s, fx, fy, tx, ty).0
    ensures Valid(Pos(fx, fy)) && Valid(Pos(tx, ty)) && Pos(fx, fy) != Pos(tx, ty)
    ensures IsFriend(s.grid[fy][fx], s.turn)
    ensures MoveSpec(s, fx, fy, tx, ty).1 == Moved(s, Pos(fx, fy), Pos(tx, ty))
    ensures !InCheck(Relocate(s.grid, Pos(fx, fy), Pos(tx, ty)), s.turn)
  {
    LegalMovesIff(s.grid, fx, fy, Pos(tx, ty));
    RawMoveLeaves(s.grid, fx, fy, Pos(tx, ty));
  }

  /** A successful move keeps every piece on the board except the one it captures. */
  lemma MoveCounts(s: GameState, fx: int, fy: int, tx: int, ty: int, p: Piece)
    requires MoveSpec(s, fx, fy, tx, ty).0
    ensures Valid(Pos(tx, ty))
    ensures Count(MoveSpec(s, fx, fy, tx, ty).1.grid, p) + Hit(At(s.grid, Pos(tx, ty)), p) == Count(s.grid, p)
  {
    MoveAccepted(s, fx, fy, tx, ty);
    var from, to := Pos(fx, fy), Pos(tx, ty);
    var g1 := Put(s.grid, to, At(s.grid, from));
    CountAfterPut(s.grid, to, At(s.grid, from), p);
    CountAfterPut(g1, from, None, p);
    assert At(g1, from) == At(s.grid, from);
  }

  /** Neither General is ever captured: a successful move keeps both Generals' counts. */
  lemma MoveKeepsGenerals(s: GameState, fx: int, fy: int, tx: int, ty: int, c: Color)
    requires MoveSpec(s, fx, fy, tx, ty).0
    ensures Count(MoveSpec(s, fx, fy, tx, ty).1.grid, Piece(General, c)) == Count(s.grid, Piece(General, c))
  {
    MoveGuards(s, fx, fy, tx, ty);
    LegalMovesIff(s.grid, fx, fy, Pos(tx, ty));
    RawMoveGeometry(s.grid, fx, fy, Pos(tx, ty));
    MoveCounts(s, fx, fy, tx, ty, Piece(General, c));
  }

  /** A successful move relocates the piece, cuts the history after the cursor, appends a
      record of the captured square and the mover, points the cursor at it, passes the turn,
      counts a full move after Black's, and leaves the mover's General out of check. */
  lemma MoveEffects(s: GameState, fx: int, fy: int, tx: int, ty: int)
    requires Inv(s) && MoveSpec(s, fx, fy, tx, ty).0
    ensures var s' := MoveSpec(s, fx, fy, tx, ty).1;
            var from, to := Pos(fx, fy), Pos(tx, ty);
            Valid(from) && Valid(to) && from != to
            && s'.grid == Relocate(s.grid, from, to)
            && !InCheck(s'.grid, s.turn)
            && |s'.history| == s.index + 2 && s'.history[..s.index + 1] == s.history[..s.index + 1]
            && s'.history[s.index + 1].captured == At(s.grid, to)
            && s'.history[s.index + 1].mover == s.turn
            && s'.index == |s'.history| - 1
            && s'.turn == Opponent(s.turn)
            && s'.moveCount == (if s.turn == Black then s.moveCount + 1 else s.moveCount)
  {
    MoveAccepted(s, fx, fy, tx, ty);
    MovedHistory(s, Pos(fx, fy), Pos(tx, ty));
  }

  /** From a cursor below -1, which importGame can leave behind, a successful move keeps only
      the records before |history| + cursor + 1 (slice's negative end), appends its own record
      after them and raises the cursor by one, so the cursor no longer marks the last record. */
  lemma MoveBelowCursor(s: GameState, fx: int, fy: int, tx: int, ty: int)
    requires s.index < -1 && MoveSpec(s, fx, fy, tx, ty).0
    ensures var s' := MoveSpec(s, fx, fy, tx, ty).1;
            var kept := if |s.history| + s.index + 1 < 0 then 0 else |s.history| + s.index + 1;
            Valid(Pos(tx, ty)) && |s'.history| == kept + 1 && s'.history[..kept] == s.history[..kept]
            && s'.history[kept].mover == s.turn && s'.history[kept].captured == At(s.grid, Pos(tx, ty))
            && s'.index == s.index + 1 && s'.index < 0
  {
    MoveAccepted(s, fx, fy, tx, ty);
    MovedBelowCursor(s, Pos(fx, fy), Pos(tx, ty));
  }

  lemma MovedBelowCursor(s: GameState, from: Pos, to: Pos)
    requires s.index < -1 && Valid(from) && Valid(to) && At(s.grid, from).Some?
    ensures var h' := Moved(s, from, to).history;
            var kept := if |s.history| + s.index + 1 < 0 then 0 else |s.history| + s.index + 1;
            |h'| == kept + 1 && h'[..kept] == s.history[..kept]
            && h'[kept].mover == s.turn && h'[kept].captured == At(s.grid, to)
  {
    var kept := if |s.history| + s.index + 1 < 0 then 0 else |s.history| + s.index + 1;
    var h := Slice(s.history, s.index + 1);
    assert h == s.history[..kept];
  }

  /** Every operation keeps the cursor in range and the records on the board. */
  lemma MoveKeepsInv(s: GameState, fx: int, fy: int, tx: int, ty: int)
    requires Inv(s)
    ensures Inv(MoveSpec(s, fx, fy, tx, ty).1)
  {
    if MoveSpec(s, fx, fy, tx, ty).0 {
      MoveAccepted(s, fx, fy, tx, ty);
      MovedInv(s, Pos(fx, fy), Pos(tx, ty));
    }
  }

  lemma MovedInv(s: GameState, from: Pos, to: Pos)
    requires Inv(s) && Valid(from) && Valid(to) && At(s.grid, from).Some?
    ensures Inv(Moved(s, from, to))
  {
    var h := Slice(s.history, s.index + 1);
    assert RecordsOnBoard(h);
  }

  lemma UndoRedoKeepInv(s: GameState)
    requires Inv(s)
    ensures Inv(UndoSpec(s).1) && Inv(RedoSpec(s).1) && Inv(UndoAsWritten(s).1)
  {
  }

  lemma ResetsKeepInv(s: GameState, fen: string)
    requires Inv(s)
    ensures Inv(ResetToInitialSpec(s).1) && Inv(ResetGameSpec(s)) && Inv(ImportFenSpec(s, fen).1)
  {
  }

  /** importGame yields an in-range cursor exactly when the stored index does not pass the
      last record. */
  lemma ImportGameInv(s: GameState, d: GameData)
    requires RecordsOnBoard(d.moveHistory)
    ensures Inv(ImportGameSpec(s, d)) <==> -1 <= StoredIndex(d.currentMoveIndex) <= |d.moveHistory| - 1
  {
  }

  lemma UndoMoved(s: GameState, from: Pos, to: Pos)
    requires Inv(s) && Valid(from) && Valid(to) && from != to && IsFriend(At(s.grid, from), s.turn)
    ensures var s' := Moved(s, from, to);
            RecordsOnBoard(s'.history) && UndoSpec(s') == (true, s.(history := s'.history, snapshot := s'.snapshot))
  {
    PutBack(s.grid, from, to);
  }

  /** Undo after a successful move gives back the state before it, except that the history
      keeps the new record, the cursor sits before it, and the snapshot is the one the move
      took. */
  lemma UndoAfterMove(s: GameState, fx: int, fy: int, tx: int, ty: int)
    requires Inv(s) && MoveSpec(s, fx, fy, tx, ty).0
    ensures var s' := MoveSpec(s, fx, fy, tx, ty).1;
            RecordsOnBoard(s'.history) && UndoSpec(s') == (true, s.(history := s'.history, snapshot := s'.snapshot))
  {
    MoveAccepted(s, fx, fy, tx, ty);
    UndoMoved(s, Pos(fx, fy), Pos(tx, ty));
  }

  /** The history, replayed from a position, gives the position after each prefix. */
  lemma PlayPrefix(base: Position, h: seq<MoveRecord>, n: int)
    requires RecordsOnBoard(h) && 0 <= n < |h|
    ensures Play(base, h[..n + 1]) == Apply(Play(base, h[..n]), h[n])
  {
    assert h[..n + 1][..n] == h[..n];
  }

  /** Record i of a well-recorded history describes the move from the position before it. */
  lemma RecordAt(base: Position, h: seq<MoveRecord>, i: int)
    requires RecordsOnBoard(h) && WellRecorded(base, h) && 0 <= i < |h|
    ensures Describes(Play(base, h[..i]), h[i])
    ensures var p := Play(base, h[..i]);
            From(h[i]) != To(h[i]) && h[i].mover == p.turn
            && At(p.grid, From(h[i])) == Some(h[i].piece) && At(p.grid, To(h[i])) == h[i].captured
  {
  }

  /** A prefix of a well-recorded history is well recorded. */
  lemma WellRecordedPrefix(base: Position, h: seq<MoveRecord>, n: int)
    requires RecordsOnBoard(h) && WellRecorded(base, h) && 0 <= n <= |h|
    ensures RecordsOnBoard(h[..n]) && WellRecorded(base, h[..n])
  {
    forall i | 0 <= i < n ensures Describes(Play(base, h[..n][..i]), h[..n][i]) {
      assert h[..n][..i] == h[..i];
      RecordAt(base, h, i);
    }
  }

  /** Appending a record that describes its move keeps a history well recorded. */
  lemma WellRecordedAppend(base: Position, h: seq<MoveRecord>, r: MoveRecord)
    requires RecordsOnBoard(h) && WellRecorded(base, h) && Valid(From(r)) && Valid(To(r))
    requires Describes(Play(base, h), r)
    ensures RecordsOnBoard(h + [r]) && WellRecorded(base, h + [r])
  {
    var h' := h + [r];
    forall i | 0 <= i < |h'| ensures Describes(Play(base, h'[..i]), h'[i]) {
      if i < |h| {
        assert h'[..i] == h[..i];
        RecordAt(base, h, i);
      } else {
        assert h'[..i] == h;
      }
    }
  }

  /** The history Moved leaves: the records up to the cursor and the new one. */
  lemma MovedHistory(s: GameState, from: Pos, to: Pos)
    requires Inv(s) && Valid(from) && Valid(to) && At(s.grid, from).Some?
    ensures var h' := Moved(s, from, to).history;
            |h'| == s.index + 2 && h'[..s.index + 1] == s.history[..s.index + 1]
            && h'[s.index + 1] == MoveRecord(from.x, from.y, to.x, to.y, At(s.grid, to), s.turn,
                 At(s.grid, from).value, ExportFen(Relocate(s.grid, from, to), s.turn, s.moveCount))
  {
    var n := s.index + 1;
    assert Take(s.history, n) == s.history[..n];
  }

  lemma MovedWellRecorded(s: GameState, base: Position, from: Pos, to: Pos)
    requires Consistent(s, base) && Valid(from) && Valid(to) && from != to && At(s.grid, from).Some?
    ensures RecordsOnBoard(Moved(s, from, to).history) && WellRecorded(base, Moved(s, from, to).history)
  {
    var h', n := Moved(s, from, to).history, s.index + 1;
    MovedHistory(s, from, to);
    WellRecordedPrefix(base, s.history, n);
    WellRecordedAppend(base, s.history[..n], h'[n]);
    assert h' == s.history[..n] + [h'[n]];
  }

  lemma MovedPlay(s: GameState, base: Position, from: Pos, to: Pos)
    requires Inv(s) && Play(base, s.history[..s.index + 1]) == Position(s.grid, s.turn, s.moveCount)
    requires Valid(from) && Valid(to) && At(s.grid, from).Some?
    ensures var s' := Moved(s, from, to);
            RecordsOnBoard(s'.history[..s'.index + 1])
            && Play(base, s'.history[..s'.index + 1]) == Position(s'.grid, s'.turn, s'.moveCount)
  {
    var n := s.index + 1;
    var prefix := s.history[..n];
    var rec := MoveRecord(from.x, from.y, to.x, to.y, At(s.grid, to), s.turn, At(s.grid, from).value,
                          ExportFen(Relocate(s.grid, from, to), s.turn, s.moveCount));
    var s' := Moved(s, from, to);
    assert Take(s.history, n) == prefix;
    assert s'.history == prefix + [rec];
    assert s'.history[..s'.index + 1] == prefix + [rec];
    PlaySnoc(base, prefix, rec);
  }

  lemma PlaySnoc(base: Position, h: seq<MoveRecord>, r: MoveRecord)
    requires RecordsOnBoard(h) && Valid(From(r)) && Valid(To(r))
    ensures RecordsOnBoard(h + [r]) && Play(base, h + [r]) == Apply(Play(base, h), r)
  {
    assert (h + [r])[..|h|] == h;
  }

  lemma MovedConsistent(s: GameState, base: Position, from: Pos, to: Pos)
    requires Consistent(s, base) && Valid(from) && Valid(to) && from != to && At(s.grid, from).Some?
    ensures Consistent(Moved(s, from, to), base)
  {
    MovedHistory(s, from, to);
    MovedWellRecorded(s, base, from, to);
    MovedPlay(s, base, from, to);
  }

  lemma MoveKeepsConsistent(s: GameState, base: Position, fx: int, fy: int, tx: int, ty: int)
    requires Consistent(s, base)
    ensures Consistent(MoveSpec(s, fx, fy, tx, ty).1, base)
  {
    if MoveSpec(s, fx, fy, tx, ty).0 {
      MoveAccepted(s, fx, fy, tx, ty);
      MovedConsistent(s, base, Pos(fx, fy), Pos(tx, ty));
    }
  }

  lemma UndoKeepsConsistent(s: GameState, base: Position)
    requires Consistent(s, base)
    ensures Consistent(UndoSpec(s).1, base)
  {
    if UndoSpec(s).0 {
      var h, i := s.history, s.index;
      var r := h[i];
      PlayPrefix(base, h, i);
      RecordAt(base, h, i);
      var p := Play(base, h[..i]);
      PutBack(p.grid, From(r), To(r));
    }
  }

  lemma RedoKeepsConsistent(s: GameState, base: Position)
    requires Consistent(s, base)
    ensures Consistent(RedoSpec(s).1, base)
  {
    if RedoSpec(s).0 {
      PlayPrefix(base, s.history, s.index + 1);
    }
  }

  /** On a consistent state, redo takes back an undo ... */
  lemma RedoAfterUndo(s: GameState, base: Position)
    requires Consistent(s, base) && UndoSpec(s).0
    ensures RecordsOnBoard(UndoSpec(s).1.history) && RedoSpec(UndoSpec(s).1) == (true, s)
  {
    UndoKeepsConsistent(s, base);
    PlayPrefix(base, s.history, s.index);
  }

  /** ... and undo takes back a redo. */
  lemma UndoAfterRedo(s: GameState, base: Position)
    requires Consistent(s, base) && RedoSpec(s).0
    ensures RecordsOnBoard(RedoSpec(s).1.history) && UndoSpec(RedoSpec(s).1) == (true, s)
  {
    var h, i := s.history, s.index + 1;
    RecordAt(base, h, i);
    assert Play(base, h[..i]) == Position(s.grid, s.turn, s.moveCount);
    UndoRedone(s);
  }

  /** Undo takes back a redo of a record that describes the move from the current state. */
  lemma UndoRedone(s: GameState)
    requires RecordsOnBoard(s.history) && 0 <= s.index + 1 < |s.history|
    requires var r := s.history[s.index + 1];
             From(r) != To(r) && r.mover == s.turn && At(s.grid, To(r)) == r.captured
    ensures UndoSpec(RedoSpec(s).1) == (true, s)
  {
    var r := s.history[s.index + 1];
    PutBack(s.grid, From(r), To(r));
  }

  /** Resetting, and importing a FEN position, start a fresh history from the new position. */
  lemma ResetsStartConsistent(s: GameState, fen: string)
    ensures Consistent(ResetGameSpec(s), Position(InitialGrid(), Red, 1))
    ensures ResetToInitialSpec(s).0 ==>
              Consistent(ResetToInitialSpec(s).1, Position(s.initialBoard.value, Red, 1))
    ensures ImportFenSpec(s, fen).0 ==>
              var s' := ImportFenSpec(s, fen).1;
              Consistent(s', Position(s'.grid, s'.turn, s'.moveCount))
  {
  }

  /** Undo as written: from a consistent state with a record to undo, the state it leaves
      is no longer the one its history describes, because the cursor was not moved back. */
  lemma UndoAsWrittenBreaksConsistency(s: GameState, base: Position)
    requires Consistent(s, base) && 0 <= s.index
    ensures !Consistent(UndoAsWritten(s).1, base)
  {
    var h, i := s.history, s.index;
    var r := h[i];
    PlayPrefix(base, h, i);
    RecordAt(base, h, i);
    var u := UndoAsWritten(s).1;
    assert u.history == h && u.index == i;
    assert At(s.grid, From(r)) == None;
    assert At(u.grid, From(r)) == Some(r.piece);
    assert u.grid != s.grid;
  }

  /** The replay loop of importGame sees what Play sees. */
  lemma ReplayIsPlay(base: Position, recs: seq<MoveRecord>)
    requires RecordsOnBoard(recs)
    ensures Replay(base.grid, base.turn, recs) == (Play(base, recs).grid, Play(base, recs).turn)
  {
    if recs != [] {
      ReplayIsPlay(base, recs[..|recs| - 1]);
    }
  }

  /** exportGame then importGame gives the state back when it is consistent with a history
      starting from the saved initial board with Red to move and the cursor is not at 0. */
  lemma GameRoundTrip(s: GameState, count: int)
    requires s.initialBoard.Some? && Consistent(s, Position(s.initialBoard.value, Red, count))
    requires s.index != 0
    ensures ImportGameSpec(s, ExportGameSpec(s)) == s
  {
    var base := Position(s.initialBoard.value, Red, count);
    ReplayIsPlay(base, Take(s.history, s.index + 1));
    assert Take(s.history, s.index + 1) == s.history[..s.index + 1];
  }

  /** ... and with the cursor at 0, importGame puts the cursor at -1 and the board back
      to the initial one, losing the first move. */
  lemma GameRoundTripLosesFirstMove(s: GameState, count: int)
    requires s.initialBoard.Some? && Consistent(s, Position(s.initialBoard.value, Red, count))
    requires s.index == 0
    ensures var s' := ImportGameSpec(s, ExportGameSpec(s));
            s'.index == -1 && s'.grid == s.initialBoard.value && s'.grid != s.grid
  {
    var base := Position(s.initialBoard.value, Red, count);
    var r := s.history[0];
    PlayPrefix(base, s.history, 0);
    RecordAt(base, s.history, 0);
    assert s.history[..0] == [];
    assert At(s.grid, From(r)) == None;
  }
}
