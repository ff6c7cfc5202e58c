/** The XiangqiGame class of game.js as a Dafny class: the board is a 10x9 array indexed
    [y, x], the other fields are those the source updates in place. The ghost field `grid`
    mirrors the array as a board value, and every method is proved against the functions of
    modules Board, Moves, Check, Fen, Notation and History on that value. */
module Engine {
  import opened Wrappers
  import opened Board
  import opened Moves
  import opened MoveLaws
  import opened Check
  import opened Text
  import opened Fen
  import opened Notation
  import opened History

  /** One step of a Chariot ray: the scan from (x, y) looks at the next square and goes on
      from there. */
  lemma ChariotScanNext(g: Grid, x: int, y: int, d: (int, int), c: Color)
    requires IsUnit(d) && OnBoard(x, y) && OnBoard(x + d.0, y + d.1)
    ensures var n := Pos(x + d.0, y + d.1);
            ChariotScan(g, Ray(x, y, d), c)
              == if At(g, n).Some? then (if IsEnemy(At(g, n), c) then [n] else [])
                 else [n] + ChariotScan(g, Ray(n.x, n.y, d), c)
  {
    var r := Ray(x, y, d);
    assert r[1..] == Ray(x + d.0, y + d.1, d);
  }

  /** The same step inside getRookMoves's loop: `total` is the whole ray's result, `found`
      what was pushed before (x, y), and `sq` the next square. */
  lemma ChariotScanStep(g: Grid, x: int, y: int, nx: int, ny: int, d: (int, int), c: Color,
                        found: seq<Pos>, total: seq<Pos>, sq: Square)
    requires IsUnit(d) && OnBoard(x, y) && nx == x + d.0 && ny == y + d.1 && OnBoard(nx, ny)
    requires total == found + ChariotScan(g, Ray(x, y, d), c) && sq == At(g, Pos(nx, ny))
    ensures var n := Pos(nx, ny);
            (sq.Some? && sq.value.color != c ==> total == found + [n])
            && (sq.Some? && sq.value.color == c ==> total == found)
            && (sq.None? ==> total == (found + [n]) + ChariotScan(g, Ray(nx, ny, d), c))
  {
    var n := Pos(nx, ny);
    ChariotScanNext(g, x, y, d, c);
    if sq.None? {
      var rest := ChariotScan(g, Ray(nx, ny, d), c);
      assert total == found + ([n] + rest);
      assert found + ([n] + rest) == (found + [n]) + rest;
    } else if sq.value.color != c {
      assert IsEnemy(At(g, n), c);
    } else {
      assert !IsEnemy(At(g, n), c);
      assert found + [] == found;
    }
  }

  /** One step of a Cannon ray, before and after the screen. */
  lemma CannonScanNext(g: Grid, x: int, y: int, nx: int, ny: int, d: (int, int), c: Color, jumps: nat)
    requires IsUnit(d) && OnBoard(x, y) && nx == x + d.0 && ny == y + d.1 && OnBoard(nx, ny) && jumps <= 1
    ensures var n := Pos(nx, ny);
            CannonScan(g, Ray(x, y, d), c, jumps)
              == if jumps == 0 then
                   (if At(g, n).None? then [n] + CannonScan(g, Ray(nx, ny, d), c, 0)
                    else CannonScan(g, Ray(nx, ny, d), c, 1))
                 else if At(g, n).Some? then (if IsEnemy(At(g, n), c) then [n] else [])
                 else CannonScan(g, Ray(nx, ny, d), c, 1)
  {
    var r := Ray(x, y, d);
    assert r[1..] == Ray(x + d.0, y + d.1, d);
  }

  /** The same step inside getCannonMoves's loop, before the screen: `total` is the whole ray's
      result, `found` what was pushed before (x, y), and the next square n is empty, so it is
      pushed and the scan goes on from it. */
  lemma CannonEmptyStep(g: Grid, x: int, y: int, nx: int, ny: int, d: (int, int), c: Color,
                        found: seq<Pos>, total: seq<Pos>)
    requires IsUnit(d) && OnBoard(x, y) && nx == x + d.0 && ny == y + d.1 && OnBoard(nx, ny)
    requires total == found + CannonScan(g, Ray(x, y, d), c, 0) && At(g, Pos(nx, ny)).None?
    ensures var n := Pos(nx, ny);
            total == (found + [n]) + CannonScan(g, Ray(nx, ny, d), c, 0)
  {
    var n := Pos(nx, ny);
    CannonScanNext(g, x, y, nx, ny, d, c, 0);
    var rest := CannonScan(g, Ray(nx, ny, d), c, 0);
    assert found + ([n] + rest) == (found + [n]) + rest;
  }

  /** A step onto an occupied square before the screen: it becomes the screen. Past the
      screen, a step onto an empty square changes nothing. */
  lemma CannonSkipStep(g: Grid, x: int, y: int, nx: int, ny: int, d: (int, int), c: Color, jumps: nat,
                       found: seq<Pos>, total: seq<Pos>)
    requires IsUnit(d) && OnBoard(x, y) && nx == x + d.0 && ny == y + d.1 && OnBoard(nx, ny) && jumps <= 1
    requires total == found + CannonScan(g, Ray(x, y, d), c, jumps)
    requires (jumps == 0) == At(g, Pos(nx, ny)).Some?
    ensures total == found + CannonScan(g, Ray(nx, ny, d), c, 1)
  {
    CannonScanNext(g, x, y, nx, ny, d, c, jumps);
  }

  /** Past the screen, a step onto an occupied square ends the ray, pushing it if it holds
      an enemy. */
  lemma CannonTargetStep(g: Grid, x: int, y: int, nx: int, ny: int, d: (int, int), c: Color,
                         found: seq<Pos>, total: seq<Pos>, sq: Square)
    requires IsUnit(d) && OnBoard(x, y) && nx == x + d.0 && ny == y + d.1 && OnBoard(nx, ny)
    requires total == found + CannonScan(g, Ray(x, y, d), c, 1)
    requires sq == At(g, Pos(nx, ny)) && sq.Some?
    ensures total == found + (if sq.value.color != c then [Pos(nx, ny)] else [])
  {
    CannonScanNext(g, x, y, nx, ny, d, c, 1);
  }

  /** One pass of getCannonMoves's loop onto the square (nx, ny) holding `sq`, in the three
      cases the loop tells apart. */
  lemma CannonLoopStep(g: Grid, x: int, y: int, nx: int, ny: int, d: (int, int), c: Color, jumps: nat,
                       found: seq<Pos>, total: seq<Pos>, sq: Square)
    requires IsUnit(d) && OnBoard(x, y) && nx == x + d.0 && ny == y + d.1 && OnBoard(nx, ny) && jumps <= 1
    requires total == found + CannonScan(g, Ray(x, y, d), c, jumps) && sq == At(g, Pos(nx, ny))
    ensures jumps == 0 && sq.None? ==> total == (found + [Pos(nx, ny)]) + CannonScan(g, Ray(nx, ny, d), c, 0)
    ensures (jumps == 0) == sq.Some? ==> total == found + CannonScan(g, Ray(nx, ny, d), c, 1)
    ensures jumps == 1 && sq.Some? ==>
              total == found + (if sq.value.color != c then [Pos(nx, ny)] else [])
  {
    if jumps == 0 && sq.None? {
      CannonEmptyStep(g, x, y, nx, ny, d, c, found, total);
    } else if (jumps == 0) == sq.Some? {
      CannonSkipStep(g, x, y, nx, ny, d, c, jumps, found, total);
    } else {
      CannonTargetStep(g, x, y, nx, ny, d, c, found, total, sq);
    }
  }

  /** The last step of a ray: nothing lies beyond the edge. */
  lemma ScanAtEdge(g: Grid, x: int, y: int, d: (int, int), c: Color, jumps: nat)
    requires IsUnit(d) && OnBoard(x, y) && !OnBoard(x + d.0, y + d.1) && jumps <= 1
    ensures ChariotScan(g, Ray(x, y, d), c) == [] && CannonScan(g, Ray(x, y, d), c, jumps) == []
  {
  }

  lemma KeepTargetsSnoc(g: Grid, c: Color, s: seq<Pos>, i: int)
    requires 0 <= i < |s|
    ensures KeepTargets(g, c, s[..i + 1])
            == KeepTargets(g, c, s[..i]) + (if Valid(s[i]) && !IsFriend(At(g, s[i]), c) then [s[i]] else [])
  {
    assert s[..i + 1][..i] == s[..i];
  }

  lemma PlaceAllSnoc(g: Grid, t: seq<Placement>, i: int)
    requires TableOnBoard(t) && 0 <= i < |t|
    ensures TableOnBoard(t[..i]) && TableOnBoard(t[..i + 1])
    ensures PlaceAll(g, t[..i + 1]) == Put(PlaceAll(g, t[..i]), Pos(t[i].x, t[i].y), Some(t[i].piece))
  {
    assert t[..i + 1][..i] == t[..i];
  }

  lemma ColumnRowsNext(g: Grid, p: Piece, col: int, y: int)
    requires 0 <= y < Rows
    ensures ColumnRows(g, p, col, y + 1)
            == ColumnRows(g, p, col, y) + (if 0 <= col < Cols && g[y][col] == Some(p) then [y] else [])
  {
  }

  lemma RaysSnoc(g: Grid, x: int, y: int, c: Color, ds: seq<(int, int)>, k: int)
    requires OnBoard(x, y) && AllUnit(ds) && 0 <= k < |ds|
    ensures AllUnit(ds[..k]) && AllUnit(ds[..k + 1]) && IsUnit(ds[k])
    ensures ChariotRays(g, x, y, c, ds[..k + 1]) == ChariotRays(g, x, y, c, ds[..k]) + ChariotScan(g, Ray(x, y, ds[k]), c)
    ensures CannonRays(g, x, y, c, ds[..k + 1]) == CannonRays(g, x, y, c, ds[..k]) + CannonScan(g, Ray(x, y, ds[k]), c, 0)
  {
    assert ds[..k + 1][..k] == ds[..k];
  }

  lemma HopsSnoc(g: Grid, x: int, y: int, p: Piece, offs: seq<(int, int)>, i: int)
    requires 0 <= i < |offs|
    ensures Hops(g, x, y, p, offs[..i + 1])
            == Hops(g, x, y, p, offs[..i]) + (if HopAllowed(g, x, y, p, offs[i]) then [Pos(x + offs[i].0, y + offs[i].1)] else [])
  {
    assert offs[..i + 1][..i] == offs[..i];
  }

  lemma ClearBetweenNext(g: Grid, x: int, lo: int, y: int)
    requires 0 <= x < Cols && 0 <= y < Rows && ClearBetween(g, x, lo, y) && g[y][x].None?
    ensures ClearBetween(g, x, lo, y + 1)
  {
  }

  lemma ClearBetweenBlocked(g: Grid, x: int, lo: int, y: int, hi: int)
    requires 0 <= x < Cols && 0 <= y < Rows && lo < y < hi && g[y][x].Some?
    ensures !ClearBetween(g, x, lo, hi)
  {
  }

  /** No piece of colour e before square (x, y) in row-major order attacks k. */
  ghost predicate NoAttackBefore(g: Grid, k: Pos, e: Color, y: int, x: int) {
    forall yy, xx ::
      (0 <= yy < Rows && 0 <= xx < Cols && (yy < y || (yy == y && xx < x)) && IsFriend(g[yy][xx], e))
      ==> k !in RawMoves(g, xx, yy)
  }

  lemma NoAttackNext(g: Grid, k: Pos, e: Color, y: int, x: int)
    requires 0 <= y < Rows && 0 <= x < Cols && NoAttackBefore(g, k, e, y, x)
    requires !(IsFriend(g[y][x], e) && k in RawMoves(g, x, y))
    ensures NoAttackBefore(g, k, e, y, x + 1)
  {
  }

  lemma NoAttackRow(g: Grid, k: Pos, e: Color, y: int)
    requires NoAttackBefore(g, k, e, y, Cols)
    ensures NoAttackBefore(g, k, e, y + 1, 0)
  {
  }

  lemma NoAttackEnd(g: Grid, k: Pos, e: Color)
    requires NoAttackBefore(g, k, e, Rows, 0)
    ensures !Attacked(g, k, e)
  {
  }

  lemma AttackFound(g: Grid, k: Pos, e: Color, y: int, x: int)
    requires 0 <= y < Rows && 0 <= x < Cols && IsFriend(g[y][x], e) && k in RawMoves(g, x, y)
    ensures Attacked(g, k, e)
  {
  }

  /** No piece of colour c before square (x, y) in row-major order has a legal move. */
  ghost predicate StuckBefore(g: Grid, c: Color, y: int, x: int) {
    forall yy, xx ::
      (0 <= yy < Rows && 0 <= xx < Cols && (yy < y || (yy == y && xx < x)) && IsFriend(g[yy][xx], c))
      ==> LegalMoves(g, xx, yy) == []
  }

  lemma StuckNext(g: Grid, c: Color, y: int, x: int)
    requires 0 <= y < Rows && 0 <= x < Cols && StuckBefore(g, c, y, x)
    requires IsFriend(g[y][x], c) ==> LegalMoves(g, x, y) == []
    ensures StuckBefore(g, c, y, x + 1)
  {
  }

  lemma StuckRow(g: Grid, c: Color, y: int)
    requires StuckBefore(g, c, y, Cols)
    ensures StuckBefore(g, c, y + 1, 0)
  {
  }

  lemma StuckEnd(g: Grid, c: Color)
    requires InCheck(g, c) && StuckBefore(g, c, Rows, 0)
    ensures Checkmate(g, c)
  {
  }

  lemma EscapeFound(g: Grid, c: Color, y: int, x: int)
    requires 0 <= y < Rows && 0 <= x < Cols && IsFriend(g[y][x], c) && LegalMoves(g, x, y) != []
    ensures !Checkmate(g, c)
  {
  }

  lemma LegalFilterSnoc(g: Grid, x: int, y: int, s: seq<Pos>, i: int)
    requires OnBoard(x, y) && g[y][x].Some? && AllValid(s) && 0 <= i < |s|
    ensures AllValid(s[..i]) && AllValid(s[..i + 1])
    ensures LegalFilter(g, x, y, s[..i + 1])
            == LegalFilter(g, x, y, s[..i])
               + (if !InCheck(Relocate(g, Pos(x, y), s[i]), g[y][x].value.color) then [s[i]] else [])
  {
    assert s[..i + 1][..i] == s[..i];
  }

  // ---------------------------------------------------------------------------------------
  // The text exportFen builds

  /** The first y ranks as exportFen's outer loop has written them, each followed by `/`
      except the last rank of the board. */
  function RanksText(g: Grid, y: int): string
    requires 0 <= y <= Rows
  {
    if y == 0 then "" else RanksText(g, y - 1) + EncodeRank(g[y - 1]) + (if y - 1 < Rows - 1 then "/" else "")
  }

  lemma {:induction false} JoinSnoc(p: seq<string>, q: string, sep: char)
    requires |p| >= 1
    ensures Join(p + [q], sep) == Join(p, sep) + [sep] + q
  {
    if |p| == 1 {
      assert (p + [q])[1..] == [q];
    } else {
      assert (p + [q])[1..] == p[1..] + [q];
      JoinSnoc(p[1..], q, sep);
    }
  }

  lemma {:induction false} RanksTextJoin(g: Grid, y: int)
    requires 1 <= y <= Rows
    ensures RanksText(g, y) == Join(EncodedRanks(g)[..y], '/') + (if y < Rows then "/" else "")
  {
    var rs := EncodedRanks(g);
    if y == 1 {
      assert RanksText(g, 0) == "";
    } else {
      RanksTextJoin(g, y - 1);
      assert rs[..y] == rs[..y - 1] + [rs[y - 1]];
      JoinSnoc(rs[..y - 1], rs[y - 1], '/');
    }
  }

  /** All ten ranks make the board field. */
  lemma RanksTextBoard(g: Grid)
    ensures RanksText(g, Rows) == BoardField(g)
  {
    RanksTextJoin(g, Rows);
    assert EncodedRanks(g)[..Rows] == EncodedRanks(g);
  }

  lemma FenTail(b: string, t: string, c: string)
    ensures b + (" " + t + " - - 0 " + c) == b + " " + t + " - - 0 " + c
  {
  }

  /** One square of exportFen's inner loop, with `fen` already written. */
  lemma EncodeRunStep(fen: string, r: seq<Square>, x: int, n: nat)
    requires 0 <= x < |r|
    ensures r[x].None? ==> fen + EncodeRun(r[x..], n) == fen + EncodeRun(r[x + 1..], n + 1)
    ensures r[x].Some? ==> fen + EncodeRun(r[x..], n)
                           == (fen + Pending(n) + [FenChar(r[x].value)]) + EncodeRun(r[x + 1..], 0)
  {
    assert r[x..][1..] == r[x + 1..];
  }

  // ---------------------------------------------------------------------------------------
  // The board importFen builds

  /** The first y ranks read from `rows`, the others still empty. */
  ghost predicate FilledTo(g: Grid, rows: seq<string>, y: int)
    requires |rows| == Rows
  {
    forall yy :: 0 <= yy < Rows ==> g[yy] == (if yy < y then ParseRank(rows[yy]).rank else EmptyRank)
  }

  lemma FilledStart(rows: seq<string>)
    requires |rows| == Rows
    ensures FilledTo(EmptyGrid(), rows, 0)
  {
  }

  lemma FilledNext(g: Grid, rows: seq<string>, y: int)
    requires |rows| == Rows && 0 <= y < Rows && FilledTo(g, rows, y)
    ensures g[y] == EmptyRank
    ensures FilledTo(g[y := ParseRank(rows[y]).rank], rows, y + 1)
  {
  }

  lemma FilledAll(g: Grid, rows: seq<string>)
    requires |rows| == Rows && FilledTo(g, rows, Rows)
    ensures g == ParsedGrid(rows)
  {
  }

  /** The General counters after one more rank. */
  lemma KingsNext(rows: seq<string>, y: int)
    requires 0 <= y < |rows|
    ensures RedKings(rows[..y + 1]) == RedKings(rows[..y]) + ParseRank(rows[y]).red
    ensures BlackKings(rows[..y + 1]) == BlackKings(rows[..y]) + ParseRank(rows[y]).black
  {
    assert rows[..y + 1][..y] == rows[..y];
  }

  lemma ParseFromNext(s: RankState, row: string, i: int)
    requires |s.rank| == Cols && 0 <= i < |row|
    ensures ParseFrom(s, row[i..]) == ParseFrom(Step(s, row[i]), row[i + 1..])
  {
    assert row[i..][1..] == row[i + 1..];
  }

  // ---------------------------------------------------------------------------------------
  // move() in two halves

  /** The state once move() has cut the history, taken the snapshot and moved the piece. */
  function Shifted(s: GameState, from: Pos, to: Pos): GameState
    requires Valid(from) && Valid(to)
  {
    s.(history := Slice(s.history, s.index + 1), grid := Relocate(s.grid, from, to), snapshot := Some(s.grid))
  }

  /** The state once move() has appended the record of a move that captured `captured` with
      `piece`, passed the turn and advanced the counter. */
  function Recorded(s: GameState, from: Pos, to: Pos, captured: Square, piece: Piece): GameState {
    s.(history := s.history + [MoveRecord(from.x, from.y, to.x, to.y, captured, s.turn, piece,
                                          ExportFen(s.grid, s.turn, s.moveCount))],
       index := s.index + 1, turn := Opponent(s.turn), moveCount := Advance(s.turn, s.moveCount),
       snapshot := Some(s.grid))
  }

  lemma MovedHalves(s: GameState, from: Pos, to: Pos)
    requires Valid(from) && Valid(to) && At(s.grid, from).Some?
    ensures Moved(s, from, to) == Recorded(Shifted(s, from, to), from, to, At(s.grid, to), At(s.grid, from).value)
  {
  }

  // ---------------------------------------------------------------------------------------
  // importGame's replay and getMoveHistory's records

  lemma ReplayNext(g: Grid, h: seq<MoveRecord>, i: int)
    requires RecordsOnBoard(h) && 0 <= i
    ensures RecordsOnBoard(Take(h, i)) && RecordsOnBoard(Take(h, i + 1))
    ensures i < |h| ==> Take(h, i + 1) == Take(h, i) + [h[i]]
                        && Replay(g, Red, Take(h, i + 1))
                           == (Relocate(Replay(g, Red, Take(h, i)).0, From(h[i]), To(h[i])),
                               Opponent(Replay(g, Red, Take(h, i)).1))
    ensures i >= |h| ==> Take(h, i + 1) == Take(h, i)
  {
    if i < |h| {
      var t := Take(h, i + 1);
      assert t[..|t| - 1] == Take(h, i);
    }
  }

  /** The move object getMoveHistory passes to getMoveNotation for a record. */
  function RecordMove(r: MoveRecord): NotationMove {
    NotationMove(r.fromX, r.fromY, r.toX, r.toY, Some(r.piece))
  }

  /** `notes` holds the notation of each record of h, in order. */
  predicate Notated(g: Grid, snapshot: Option<Grid>, h: seq<MoveRecord>, notes: seq<string>) {
    |notes| == |h| && forall k :: 0 <= k < |h| ==> MoveNotation(g, snapshot, RecordMove(h[k])) == Some(notes[k])
  }

  lemma NotatedNext(g: Grid, snapshot: Option<Grid>, h: seq<MoveRecord>, i: int, notes: seq<string>, n: string)
    requires 0 <= i < |h| && Notated(g, snapshot, h[..i], notes)
    requires MoveNotation(g, snapshot, RecordMove(h[i])) == Some(n)
    ensures Notated(g, snapshot, h[..i + 1], notes + [n])
  {
    forall k | 0 <= k < i + 1
      ensures MoveNotation(g, snapshot, RecordMove(h[..i + 1][k])) == Some((notes + [n])[k])
    {
      if k < i {
        assert h[..i + 1][k] == h[..i][k];
      }
    }
  }

  class XiangqiGame {
    var board: array2<Square>
    ghost var grid: Grid
    var currentTurn: Color
    var moveHistory: seq<MoveRecord>
    var currentMoveIndex: int
    var moveCount: int
    var initialBoard: Option<Grid>
    var fenBoardSnapshot: Option<Grid>

    /** The array is 10x9 and agrees with `grid`; every record names squares of the board. */
    ghost predicate Valid()
      reads this, board
    {
      board.Length0 == Rows && board.Length1 == Cols
      && (forall y, x :: 0 <= y < Rows && 0 <= x < Cols ==> board[y, x] == grid[y][x])
      && RecordsOnBoard(moveHistory)
    }

    ghost function State(): GameState
      reads this
    {
      GameState(grid, currentTurn, moveCount, moveHistory, currentMoveIndex, initialBoard, fenBoardSnapshot)
    }

    /** The constructor (game.js:6-33): an empty board filled with the opening position,
        which is also saved as the initial board; Red to move at move 1. */
    constructor()
      ensures Valid() && State() == Initial()
    {
      var empty := XiangqiGame.NewBoard(EmptyGrid());
      currentTurn := Red;
      moveHistory := [];
      currentMoveIndex := -1;
      initialBoard := None;
      board := empty;
      grid := EmptyGrid();
      moveCount := 1;
      fenBoardSnapshot := None;
      new;
      SetupInitialPosition();
      SaveInitialBoard();
      fenBoardSnapshot := None;
    }

    /** setupInitialPosition (game.js:118-142): the 32 entries written over the board in
        order; squares the table does not name keep what they had. */
    method SetupInitialPosition()
      requires Valid()
      modifies this, board
      ensures Valid() && board == old(board)
      ensures State() == old(State()).(grid := PlaceAll(old(grid), SetupTable))
    {
      assert TableOnBoard(SetupTable);
      for i := 0 to |SetupTable|
        invariant Valid() && board == old(board)
        invariant State() == old(State()).(grid := PlaceAll(old(grid), SetupTable[..i]))
      {
        PlaceAllSnoc(old(grid), SetupTable, i);
        Place(SetupTable[i]);
      }
      assert SetupTable[..|SetupTable|] == SetupTable;
    }

    /** One entry of setupInitialPosition's table written to the board (game.js:141). */
    method Place(e: Placement)
      requires Valid() && OnBoard(e.x, e.y)
      modifies this, board
      ensures Valid() && board == old(board)
      ensures State() == old(State()).(grid := Put(old(grid), Pos(e.x, e.y), Some(e.piece)))
    {
      board[e.y, e.x] := Some(e.piece);
      grid := Put(grid, Pos(e.x, e.y), Some(e.piece));
    }

    /** saveInitialBoard (game.js:185-187). */
    method SaveInitialBoard()
      requires Valid()
      modifies this
      ensures Valid() && board == old(board) && State() == old(State()).(initialBoard := Some(grid))
    {
      var copy := CopyBoard();
      initialBoard := Some(copy);
    }

    // -------------------------------------------------------------------------------------
    // Board access

    /** getPiece (game.js:207-213). */
    method GetPiece(x: int, y: int) returns (r: Square)
      requires Valid()
      ensures r == Board.GetPiece(grid, x, y)
    {
      if !OnBoard(x, y) {
        return None;
      }
      r := board[y, x];
    }

    /** A fresh 10x9 array holding the board value g. */
    static method NewBoard(g: Grid) returns (a: array2<Square>)
      ensures fresh(a) && a.Length0 == Rows && a.Length1 == Cols
      ensures forall y, x :: 0 <= y < Rows && 0 <= x < Cols ==> a[y, x] == g[y][x]
    {
      a := new Square[Rows, Cols]((y, x) requires 0 <= y < Rows && 0 <= x < Cols => g[y][x]);
    }

    /** `this.board.map(row => row.map(cell => ...))`: the board copied into a value. */
    method CopyBoard() returns (g: Grid)
      requires Valid()
      ensures g == grid
    {
      var rows: seq<seq<Square>> := [];
      for y := 0 to Rows
        invariant |rows| == y && forall yy :: 0 <= yy < y ==> rows[yy] == grid[yy]
      {
        var row: seq<Square> := [];
        for x := 0 to Cols
          invariant row == grid[y][..x]
        {
          row := row + [board[y, x]];
        }
        assert row == grid[y];
        rows := rows + [row];
      }
      assert rows == grid;
      g := rows;
    }

    // -------------------------------------------------------------------------------------
    // Raw move generators (game.js:304-320, 450-581)

    /** The squares getSoldierMoves pushes (game.js:452-463): one step forward unless on the
        far edge, and the two sideways steps not off the side once across the river. */
    static method SoldierSteps(x: int, y: int, color: Color) returns (cand: seq<Pos>)
      ensures cand == SoldierCandidates(x, y, color)
    {
      var sideways: seq<Pos> := [];
      if x > 0 { sideways := sideways + [Pos(x - 1, y)]; }
      if x < 8 { sideways := sideways + [Pos(x + 1, y)]; }
      cand := [];
      if color == Red {
        if y > 0 { cand := cand + [Pos(x, y - 1)]; }
        if y <= 4 { cand := cand + sideways; }
      } else {
        if y < 9 { cand := cand + [Pos(x, y + 1)]; }
        if y >= 5 { cand := cand + sideways; }
      }
    }

    /** The filter getSoldierMoves ends with (game.js:465), keeping the squares on the board
        and, as in the other generators, not held by a piece of the mover's colour. */
    method KeepTargetSquares(cand: seq<Pos>, color: Color) returns (moves: seq<Pos>)
      requires Valid()
      ensures moves == KeepTargets(grid, color, cand)
    {
      moves := [];
      for i := 0 to |cand|
        invariant moves == KeepTargets(grid, color, cand[..i])
      {
        var t := cand[i];
        KeepTargetsSnoc(grid, color, cand, i);
        if OnBoard(t.x, t.y) && !IsFriend(board[t.y, t.x], color) {
          moves := moves + [t];
        }
      }
      assert cand[..|cand|] == cand;
    }

    /** getSoldierMoves (game.js:450-466), with the friendly-square exclusion the other
        generators apply. */
    method GetSoldierMoves(x: int, y: int, color: Color) returns (moves: seq<Pos>)
      requires Valid()
      ensures moves == SoldierMoves(grid, x, y, color)
    {
      var cand := SoldierSteps(x, y, color);
      moves := KeepTargetSquares(cand, color);
    }

    /** The body of getCannonMoves's forEach for direction d (game.js:471-501): the squares
        it pushes. */
    method CannonRay(x: int, y: int, d: (int, int), color: Color) returns (found: seq<Pos>)
      requires Valid() && OnBoard(x, y) && IsUnit(d)
      ensures found == CannonScan(grid, Ray(x, y, d), color, 0)
    {
      found := [];
      ghost var total := CannonScan(grid, Ray(x, y, d), color, 0);
      var nx, ny := x, y;
      var jumpCount := 0;
      while OnBoard(nx + d.0, ny + d.1)
        invariant OnBoard(nx, ny) && jumpCount <= 1
        invariant total == found + CannonScan(grid, Ray(nx, ny, d), color, jumpCount)
        decreases StepsToEdge(nx, ny, d)
      {
        ghost var px, py := nx, ny;
        nx, ny := nx + d.0, ny + d.1;
        var pieceAt := board[ny, nx];
        assert pieceAt == At(grid, Pos(nx, ny));
        CannonLoopStep(grid, px, py, nx, ny, d, color, jumpCount, found, total, pieceAt);
        if jumpCount == 0 {
          if pieceAt.None? {
            found := found + [Pos(nx, ny)];
          } else {
            jumpCount := jumpCount + 1;
          }
        } else {
          // jumpCount is 1 here: a screen has been passed
          if pieceAt.Some? {
            if pieceAt.value.color != color {
              found := found + [Pos(nx, ny)];
            } else {
              assert found + [] == found;
            }
            assert found == total;
            return;
          }
        }
      }
      ScanAtEdge(grid, nx, ny, d, color, jumpCount);
    }

    /** getCannonMoves (game.js:468-504). */
    method GetCannonMoves(x: int, y: int, color: Color) returns (moves: seq<Pos>)
      requires Valid() && OnBoard(x, y)
      ensures moves == CannonMoves(grid, x, y, color)
    {
      moves := [];
      for k := 0 to 4
        invariant moves == CannonRays(grid, x, y, color, Directions[..k])
      {
        RaysSnoc(grid, x, y, color, Directions, k);
        var found := CannonRay(x, y, Directions[k], color);
        moves := moves + found;
      }
      assert Directions[..4] == Directions;
    }

    /** The body of getRookMoves's forEach for direction d (game.js:510-521). */
    method RookRay(x: int, y: int, d: (int, int), color: Color) returns (found: seq<Pos>)
      requires Valid() && OnBoard(x, y) && IsUnit(d)
      ensures found == ChariotScan(grid, Ray(x, y, d), color)
    {
      found := [];
      ghost var total := ChariotScan(grid, Ray(x, y, d), color);
      var nx, ny := x, y;
      while OnBoard(nx + d.0, ny + d.1)
        invariant OnBoard(nx, ny)
        invariant total == found + ChariotScan(grid, Ray(nx, ny, d), color)
        decreases StepsToEdge(nx, ny, d)
      {
        ghost var px, py := nx, ny;
        nx, ny := nx + d.0, ny + d.1;
        var pieceAt := board[ny, nx];
        assert pieceAt == At(grid, Pos(nx, ny));
        ChariotScanStep(grid, px, py, nx, ny, d, color, found, total, pieceAt);
        if pieceAt.Some? {
          if pieceAt.value.color != color {
            found := found + [Pos(nx, ny)];
          }
          assert found == total;
          return;
        }
        found := found + [Pos(nx, ny)];
      }
      ScanAtEdge(grid, nx, ny, d, color, 0);
    }

    /** getRookMoves (game.js:506-523). */
    method GetRookMoves(x: int, y: int, color: Color) returns (moves: seq<Pos>)
      requires Valid() && OnBoard(x, y)
      ensures moves == ChariotMoves(grid, x, y, color)
    {
      moves := [];
      for k := 0 to 4
        invariant moves == ChariotRays(grid, x, y, color, Directions[..k])
      {
        RaysSnoc(grid, x, y, color, Directions, k);
        var found := RookRay(x, y, Directions[k], color);
        moves := moves + found;
      }
      assert Directions[..4] == Directions;
    }

    /** One hop of the forEach loop of getKnightMoves (game.js:529-535). */
    method HorseStep(x: int, y: int, d: (int, int), color: Color) returns (step: seq<Pos>)
      requires Valid() && OnBoard(x, y) && d in HorseOffsets
      ensures step == (if HopAllowed(grid, x, y, Piece(Horse, color), d) then [Pos(x + d.0, y + d.1)] else [])
    {
      step := [];
      var nx, ny := x + d.0, y + d.1;
      var blockX := if d.0 == 2 then x + 1 else if d.0 == -2 then x - 1 else x;
      var blockY := if d.1 == 2 then y + 1 else if d.1 == -2 then y - 1 else y;
      if OnBoard(nx, ny) && board[blockY, blockX].None? {
        var pieceAt := board[ny, nx];
        if pieceAt.None? || pieceAt.value.color != color {
          step := [Pos(nx, ny)];
        }
      }
    }

    /** getKnightMoves (game.js:525-538). */
    method GetKnightMoves(x: int, y: int, color: Color) returns (moves: seq<Pos>)
      requires Valid() && OnBoard(x, y)
      ensures moves == Hops(grid, x, y, Piece(Horse, color), HorseOffsets)
    {
      moves := [];
      for i := 0 to |HorseOffsets|
        invariant moves == Hops(grid, x, y, Piece(Horse, color), HorseOffsets[..i])
      {
        HopsSnoc(grid, x, y, Piece(Horse, color), HorseOffsets, i);
        var step := HorseStep(x, y, HorseOffsets[i], color);
        moves := moves + step;
      }
      assert HorseOffsets[..|HorseOffsets|] == HorseOffsets;
    }

    /** One leap of the forEach loop of getElephantMoves (game.js:545-550). */
    method ElephantStep(x: int, y: int, d: (int, int), color: Color) returns (step: seq<Pos>)
      requires Valid() && OnBoard(x, y) && d in ElephantOffsets
      ensures step == (if HopAllowed(grid, x, y, Piece(Elephant, color), d) then [Pos(x + d.0, y + d.1)] else [])
    {
      step := [];
      var riverBoundary := if color == Red then 4 else 5;
      var nx, ny := x + d.0, y + d.1;
      var blockX, blockY := x + d.0 / 2, y + d.1 / 2;
      if OnBoard(nx, ny) && (if color == Red then ny > riverBoundary else ny < riverBoundary)
         && board[blockY, blockX].None? {
        var pieceAt := board[ny, nx];
        if pieceAt.None? || pieceAt.value.color != color {
          step := [Pos(nx, ny)];
        }
      }
    }

    /** getElephantMoves (game.js:540-553). */
    method GetElephantMoves(x: int, y: int, color: Color) returns (moves: seq<Pos>)
      requires Valid() && OnBoard(x, y)
      ensures moves == Hops(grid, x, y, Piece(Elephant, color), ElephantOffsets)
    {
      moves := [];
      for i := 0 to |ElephantOffsets|
        invariant moves == Hops(grid, x, y, Piece(Elephant, color), ElephantOffsets[..i])
      {
        HopsSnoc(grid, x, y, Piece(Elephant, color), ElephantOffsets, i);
        var step := ElephantStep(x, y, ElephantOffsets[i], color);
        moves := moves + step;
      }
      assert ElephantOffsets[..|ElephantOffsets|] == ElephantOffsets;
    }

    /** One step of the forEach loop of getGuardMoves (game.js:560-564) or getKingMoves
        (574-578), which differ only in their offsets. */
    method PalaceStep(x: int, y: int, d: (int, int), p: Piece) returns (step: seq<Pos>)
      requires Valid() && (p.kind == Advisor || p.kind == General)
      ensures step == (if HopAllowed(grid, x, y, p, d) then [Pos(x + d.0, y + d.1)] else [])
    {
      step := [];
      var minY, maxY := if p.color == Red then 7 else 0, if p.color == Red then 9 else 2;
      var nx, ny := x + d.0, y + d.1;
      if 3 <= nx <= 5 && minY <= ny <= maxY {
        var pieceAt := board[ny, nx];
        if pieceAt.None? || pieceAt.value.color != p.color {
          step := [Pos(nx, ny)];
        }
      }
    }

    /** getGuardMoves (game.js:555-567). */
    method GetGuardMoves(x: int, y: int, color: Color) returns (moves: seq<Pos>)
      requires Valid()
      ensures moves == Hops(grid, x, y, Piece(Advisor, color), AdvisorOffsets)
    {
      moves := [];
      for i := 0 to |AdvisorOffsets|
        invariant moves == Hops(grid, x, y, Piece(Advisor, color), AdvisorOffsets[..i])
      {
        HopsSnoc(grid, x, y, Piece(Advisor, color), AdvisorOffsets, i);
        var step := PalaceStep(x, y, AdvisorOffsets[i], Piece(Advisor, color));
        moves := moves + step;
      }
      assert AdvisorOffsets[..|AdvisorOffsets|] == AdvisorOffsets;
    }

    /** getKingMoves (game.js:569-581). */
    method GetKingMoves(x: int, y: int, color: Color) returns (moves: seq<Pos>)
      requires Valid()
      ensures moves == Hops(grid, x, y, Piece(General, color), GeneralOffsets)
    {
      moves := [];
      for i := 0 to |GeneralOffsets|
        invariant moves == Hops(grid, x, y, Piece(General, color), GeneralOffsets[..i])
      {
        HopsSnoc(grid, x, y, Piece(General, color), GeneralOffsets, i);
        var step := PalaceStep(x, y, GeneralOffsets[i], Piece(General, color));
        moves := moves + step;
      }
      assert GeneralOffsets[..|GeneralOffsets|] == GeneralOffsets;
    }

    /** getRawMoves (game.js:304-320). */
    method GetRawMoves(x: int, y: int) returns (moves: seq<Pos>)
      requires Valid()
      ensures moves == RawMoves(grid, x, y)
    {
      var piece := GetPiece(x, y);
      if piece.None? {
        return [];
      }
      var c := piece.value.color;
      match piece.value.kind
      case Soldier => moves := GetSoldierMoves(x, y, c);
      case Cannon => moves := GetCannonMoves(x, y, c);
      case Chariot => moves := GetRookMoves(x, y, c);
      case Horse => moves := GetKnightMoves(x, y, c);
      case Elephant => moves := GetElephantMoves(x, y, c);
      case Advisor => moves := GetGuardMoves(x, y, c);
      case General => moves := GetKingMoves(x, y, c);
    }

    // -------------------------------------------------------------------------------------
    // King safety (game.js:340-448)

    /** `moves.some(([mx, my]) => mx === t.x && my === t.y)`. */
    static method Includes(moves: seq<Pos>, t: Pos) returns (found: bool)
      ensures found <==> t in moves
    {
      for i := 0 to |moves|
        invariant t !in moves[..i]
      {
        if moves[i] == t {
          return true;
        }
        assert moves[..i + 1] == moves[..i] + [moves[i]];
      }
      assert moves[..|moves|] == moves;
      return false;
    }

    /** findKing (game.js:425-435). */
    method FindKing(color: Color) returns (r: Option<Pos>)
      requires Valid()
      ensures r == KingPos(grid, color)
    {
      for y := 0 to Rows
        invariant KingPos(grid, color) == KingFrom(grid, color, y, 0)
      {
        for x := 0 to Cols
          invariant KingPos(grid, color) == KingFrom(grid, color, y, x)
        {
          var piece := board[y, x];
          if piece.Some? && piece.value.kind == General && piece.value.color == color {
            return Some(Pos(x, y));
          }
        }
      }
      return None;
    }

    /** willKingsFaceEachOther (game.js:437-448). */
    method WillKingsFaceEachOther() returns (b: bool)
      requires Valid()
      ensures b == KingsFace(grid)
    {
      var redKing := FindKing(Red);
      var blackKing := FindKing(Black);
      if redKing.None? || blackKing.None? || redKing.value.x != blackKing.value.x {
        return false;
      }
      var col := redKing.value.x;
      var minY := if redKing.value.y < blackKing.value.y then redKing.value.y else blackKing.value.y;
      var maxY := if redKing.value.y < blackKing.value.y then blackKing.value.y else redKing.value.y;
      assert 0 <= col < Cols && 0 <= minY <= maxY < Rows;
      var y := minY + 1;
      while y < maxY
        invariant minY < y <= Rows
        invariant ClearBetween(grid, col, minY, y)
        decreases maxY - y
      {
        if board[y, col].Some? {
          ClearBetweenBlocked(grid, col, minY, y, maxY);
          return false;
        }
        ClearBetweenNext(grid, col, minY, y);
        y := y + 1;
      }
      return true;
    }

    /** isKingInCheck (game.js:367-386). */
    method IsKingInCheck(color: Color) returns (b: bool)
      requires Valid()
      ensures b == InCheck(grid, color)
    {
      var kingPos := FindKing(color);
      if kingPos.None? {
        return false;
      }
      var k := kingPos.value;
      var enemyColor := Opponent(color);
      for y := 0 to Rows
        invariant NoAttackBefore(grid, k, enemyColor, y, 0)
      {
        for x := 0 to Cols
          invariant NoAttackBefore(grid, k, enemyColor, y, x)
        {
          var piece := board[y, x];
          if piece.Some? && piece.value.color == enemyColor {
            var moves := GetRawMoves(x, y);
            var hit := Includes(moves, k);
            if hit {
              AttackFound(grid, k, enemyColor, y, x);
              return true;
            }
          }
          NoAttackNext(grid, k, enemyColor, y, x);
        }
        NoAttackRow(grid, k, enemyColor, y);
      }
      NoAttackEnd(grid, k, enemyColor);
      b := WillKingsFaceEachOther();
    }

    /** The simulation step getLegalMoves and isCheckmate both perform (game.js:349-359,
        403-416): the piece on (x, y) is put on t, the square it leaves is emptied, the General
        of colour c is tested, and both squares get their pieces back. */
    method TryMove(x: int, y: int, t: Pos, c: Color) returns (inCheck: bool)
      requires Valid() && OnBoard(x, y) && Board.Valid(t) && t != Pos(x, y)
      modifies this, board
      ensures Valid() && board == old(board) && State() == old(State())
      ensures inCheck == InCheck(Relocate(grid, Pos(x, y), t), c)
    {
      ghost var g0 := grid;
      var targetPiece := board[t.y, t.x];
      Shift(Pos(x, y), t);
      inCheck := IsKingInCheck(c);
      Unshift(Pos(x, y), t, targetPiece);
      PutBack(g0, Pos(x, y), t);
    }

    /** getLegalMoves (game.js:340-365): each raw move is tried on the board, the mover's
        General is tested, and the two squares are written back. */
    method GetLegalMoves(x: int, y: int) returns (legal: seq<Pos>)
      requires Valid()
      modifies this, board
      ensures Valid() && board == old(board) && State() == old(State())
      ensures legal == LegalMoves(grid, x, y)
    {
      var piece := GetPiece(x, y);
      if piece.None? {
        return [];
      }
      var raw := GetRawMoves(x, y);
      RawMovesValid(grid, x, y);
      legal := [];
      for i := 0 to |raw|
        invariant Valid() && board == old(board) && State() == old(State())
        invariant legal == LegalFilter(grid, x, y, raw[..i])
      {
        var t := raw[i];
        RawMoveLeaves(grid, x, y, t);
        LegalFilterSnoc(grid, x, y, raw, i);
        var inCheck := TryMove(x, y, t, piece.value.color);
        if !inCheck {
          legal := legal + [t];
        }
      }
      assert raw[..|raw|] == raw;
    }

    /** The body of isCheckmate's per-piece loop (game.js:398-419): the legal moves of the
        piece on (x, y) are tried in turn until one leaves the General of colour c out of
        check, which the first one does. */
    method CanEscape(x: int, y: int, c: Color) returns (escaped: bool)
      requires Valid() && OnBoard(x, y) && IsFriend(grid[y][x], c)
      modifies this, board
      ensures Valid() && board == old(board) && State() == old(State())
      ensures escaped <==> LegalMoves(grid, x, y) != []
    {
      var moves := GetLegalMoves(x, y);
      escaped := false;
      var i := 0;
      while i < |moves| && !escaped
        invariant 0 <= i <= |moves|
        invariant Valid() && board == old(board) && State() == old(State())
        invariant i > 0 <==> escaped
        invariant moves == LegalMoves(grid, x, y)
      {
        var t := moves[i];
        LegalMovesIff(grid, x, y, t);
        RawMoveLeaves(grid, x, y, t);
        var stillInCheck := TryMove(x, y, t, c);
        escaped := !stillInCheck;
        i := i + 1;
      }
    }

    /** isCheckmate (game.js:388-423). A legal move never leaves the mover in check, so the
        first legal move of any piece answers false; the `escaped` flag ends the inner loop
        there, as the source's early return does. */
    method IsCheckmate(color: Color) returns (b: bool)
      requires Valid()
      modifies this, board
      ensures Valid() && board == old(board) && State() == old(State())
      ensures b == Checkmate(grid, color)
    {
      var inCheck := IsKingInCheck(color);
      if !inCheck {
        return false;
      }
      for y := 0 to Rows
        invariant Valid() && board == old(board) && State() == old(State())
        invariant StuckBefore(grid, color, y, 0)
      {
        for x := 0 to Cols
          invariant Valid() && board == old(board) && State() == old(State())
          invariant StuckBefore(grid, color, y, x)
        {
          var piece := GetPiece(x, y);
          if piece.Some? && piece.value.color == color {
            var escaped := CanEscape(x, y, color);
            if escaped {
              EscapeFound(grid, color, y, x);
              return false;
            }
          }
          StuckNext(grid, color, y, x);
        }
        StuckRow(grid, color, y);
      }
      StuckEnd(grid, color);
      return true;
    }

    // -------------------------------------------------------------------------------------
    // FEN (game.js:42-175)

    /** The board field exportFen writes (game.js:148-171): each rank with its runs of empty
        squares as digits, and `/` after every rank but the last. */
    method BoardText() returns (fen: string)
      requires Valid()
      ensures fen == BoardField(grid)
    {
      fen := "";
      for y := 0 to Rows
        invariant fen == RanksText(grid, y)
      {
        var emptyCount: nat := 0;
        ghost var r := grid[y];
        for x := 0 to Cols
          invariant fen + EncodeRun(r[x..], emptyCount) == RanksText(grid, y) + EncodeRank(r)
        {
          EncodeRunStep(fen, r, x, emptyCount);
          var piece := board[y, x];
          if piece.None? {
            emptyCount := emptyCount + 1;
          } else {
            if emptyCount > 0 {
              fen := fen + NatStr(emptyCount);
              emptyCount := 0;
            }
            fen := fen + [FenChar(piece.value)];
          }
        }
        if emptyCount > 0 {
          fen := fen + NatStr(emptyCount);
        }
        if y < 9 {
          fen := fen + "/";
        }
      }
      RanksTextBoard(grid);
    }

    /** exportFen (game.js:144-175): the snapshot is taken, then the board field and the fixed
        trailing fields are written. */
    method ExportFen() returns (fen: string)
      requires Valid()
      modifies this
      ensures Valid() && board == old(board) && (fen, State()) == ExportFenSpec(old(State()))
    {
      var snapshot := CopyBoard();
      fenBoardSnapshot := Some(snapshot);
      fen := BoardText();
      var tail := " " + TurnField(currentTurn) + " - - 0 " + IntStr(if moveCount == 0 then 1 else moveCount);
      FenTail(fen, TurnField(currentTurn), CounterField(moveCount));
      fen := fen + tail;
    }

    /** A fresh, empty 10x9 board (game.js:54). */
    method ClearBoard()
      requires Valid()
      modifies this
      ensures Valid() && fresh(board) && State() == old(State()).(grid := EmptyGrid())
    {
      board := NewBoard(EmptyGrid());
      grid := EmptyGrid();
    }

    /** One rank of importFen's loop (game.js:75-97), read into row y of the board. The
        counters returned are the Generals of each colour the rank placed. */
    method ReadRank(y: int, row: string) returns (red: nat, black: nat)
      requires Valid() && 0 <= y < Rows && grid[y] == EmptyRank
      modifies this, board
      ensures Valid() && board == old(board)
      ensures State() == old(State()).(grid := old(grid)[y := ParseRank(row).rank])
      ensures red == ParseRank(row).red && black == ParseRank(row).black
    {
      var x: nat := 0;
      red, black := 0, 0;
      ghost var st := RankStart;
      for i := 0 to |row|
        invariant Valid() && board == old(board)
        invariant |st.rank| == Cols && ParseFrom(st, row[i..]) == ParseRank(row)
        invariant st.x == x && st.red == red && st.black == black
        invariant State() == old(State()).(grid := old(grid)[y := st.rank])
      {
        ParseFromNext(st, row, i);
        var ch := row[i];
        if IsDigit(ch) {
          x := x + DigitValue(ch);
        } else if x < Cols {
          var piece := FenPiece(ch);
          if piece.Some? {
            board[y, x] := piece;
            grid := Put(grid, Pos(x, y), piece);
            if piece.value == Piece(General, Red) {
              red := red + 1;
            }
            if piece.value == Piece(General, Black) {
              black := black + 1;
            }
            x := x + 1;
          } else {
            x := x + 1;
          }
        }
        st := Step(st, ch);
      }
    }

    /** importFen's loop over the ten ranks (game.js:74-97), on a board that starts empty. */
    method ReadRanks(rows: seq<string>) returns (kingRedCount: nat, kingBlackCount: nat)
      requires Valid() && |rows| == Rows && grid == EmptyGrid()
      modifies this, board
      ensures Valid() && board == old(board) && State() == old(State()).(grid := ParsedGrid(rows))
      ensures kingRedCount == RedKings(rows) && kingBlackCount == BlackKings(rows)
    {
      kingRedCount, kingBlackCount := 0, 0;
      FilledStart(rows);
      for y := 0 to Rows
        invariant Valid() && board == old(board)
        invariant State() == old(State()).(grid := grid) && FilledTo(grid, rows, y)
        invariant kingRedCount == RedKings(rows[..y]) && kingBlackCount == BlackKings(rows[..y])
      {
        FilledNext(grid, rows, y);
        KingsNext(rows, y);
        var red, black := ReadRank(y, rows[y]);
        kingRedCount := kingRedCount + red;
        kingBlackCount := kingBlackCount + black;
      }
      FilledAll(grid, rows);
      assert rows[..Rows] == rows;
    }

    /** importFen (game.js:42-116). The board is replaced by an empty one before the ranks
        are counted, so a failure after that point leaves the board emptied or partly read. */
    method ImportFen(fen: string) returns (ok: bool)
      requires Valid()
      modifies this
      ensures Valid() && (ok, State()) == ImportFenSpec(old(State()), fen)
    {
      var parts := Split(fen, ' ');
      if |parts| < 6 {
        assert ParseFen(fen) == TooFewFields;
        return false;
      }
      var boardFen := parts[0];
      var turn := parts[1];
      var moveNumber := ParseIntOr1(parts[4]);
      ClearBoard();
      var rows := Split(boardFen, '/');
      if |rows| != Rows {
        assert ParseFen(fen) == WrongRankCount;
        return false;
      }
      var kingRedCount, kingBlackCount := ReadRanks(rows);
      if kingRedCount != 1 || kingBlackCount != 1 {
        assert ParseFen(fen) == WrongKingCount(grid);
        return false;
      }
      assert ParseFen(fen) == Parsed(grid, if turn == "w" then Red else Black, moveNumber);
      StartFrom(if turn == "w" then Red else Black, moveNumber);
      return true;
    }

    /** The end of a successful importFen (game.js:104-108): the side to move and the counter
        set, the history cleared and the snapshot dropped. */
    method StartFrom(turn: Color, moveNumber: int)
      requires Valid()
      modifies this
      ensures Valid() && board == old(board)
      ensures State() == old(State()).(turn := turn, moveCount := moveNumber, history := [], index := -1,
                                       snapshot := None)
    {
      currentTurn := turn;
      moveCount := moveNumber;
      moveHistory := [];
      currentMoveIndex := -1;
      fenBoardSnapshot := None;
    }

    // -------------------------------------------------------------------------------------
    // Moves and the history (game.js:218-280, 583-642)

    /** The piece on `from` written to `to`, and `from` emptied (game.js:246-247). */
    method Shift(from: Pos, to: Pos)
      requires Valid() && Board.Valid(from) && Board.Valid(to)
      modifies this, board
      ensures Valid() && board == old(board)
      ensures State() == old(State()).(grid := Relocate(old(grid), from, to))
    {
      var piece := board[from.y, from.x];
      board[to.y, to.x] := piece;
      grid := Put(grid, to, piece);
      board[from.y, from.x] := None;
      grid := Put(grid, from, None);
    }

    /** undo's two writes (game.js:589-590): the piece on `to` goes back to `from`, and `to`
        gets the captured square back. */
    method Unshift(from: Pos, to: Pos, captured: Square)
      requires Valid() && Board.Valid(from) && Board.Valid(to)
      modifies this, board
      ensures Valid() && board == old(board)
      ensures State() == old(State()).(grid := Put(Put(old(grid), from, At(old(grid), to)), to, captured))
    {
      var piece := board[to.y, to.x];
      board[from.y, from.x] := piece;
      grid := Put(grid, from, piece);
      board[to.y, to.x] := captured;
      grid := Put(grid, to, captured);
    }

    /** move()'s test of the mover's General once the piece has moved (game.js:250-255). The
        move was legal, so the General is safe and the source's branch that puts the piece
        back is never taken. */
    method Recheck(c: Color) returns (inCheck: bool)
      requires Valid() && !InCheck(grid, c)
      ensures !inCheck
    {
      inCheck := IsKingInCheck(c);
    }

    /** The piece moved and the mover's General tested (game.js:246-255). */
    method ShiftChecked(from: Pos, to: Pos, ghost g0: Grid, ghost c: Color)
      requires Valid() && Board.Valid(from) && Board.Valid(to) && grid == g0
      requires IsFriend(At(grid, from), c)
      requires !InCheck(Relocate(g0, from, to), c)
      modifies this, board
      ensures Valid() && board == old(board)
      ensures State() == old(State()).(grid := Relocate(old(grid), from, to))
    {
      var piece := board[from.y, from.x];
      Shift(from, to);
      var inCheck := Recheck(piece.value.color);
    }

    /** The end of move() (game.js:258-276): the record, holding the position exported after
        the move, is appended before the turn passes and the counter advances. */
    method Record(from: Pos, to: Pos, capturedPiece: Square, piece: Piece)
      requires Valid() && Board.Valid(from) && Board.Valid(to)
      modifies this
      ensures Valid() && board == old(board)
      ensures State() == Recorded(old(State()), from, to, capturedPiece, piece)
    {
      var fenAfter := ExportFen();
      var moveEntry := MoveRecord(from.x, from.y, to.x, to.y, capturedPiece, currentTurn, piece, fenAfter);
      moveHistory := moveHistory + [moveEntry];
      currentMoveIndex := currentMoveIndex + 1;
      var previousTurn := currentTurn;
      currentTurn := Opponent(currentTurn);
      if previousTurn == Black && currentTurn == Red {
        moveCount := moveCount + 1;
      }
    }

    /** The start of move()'s commit (game.js:243-245): the redo branch is cut off and the
        position before the move exported, which sets the snapshot. */
    method Cut()
      requires Valid()
      modifies this
      ensures Valid() && board == old(board)
      ensures State() == old(State()).(history := Slice(old(moveHistory), old(currentMoveIndex) + 1),
                                       snapshot := Some(old(grid)))
    {
      moveHistory := Slice(moveHistory, currentMoveIndex + 1);
      var fenBefore := ExportFen();
    }

    /** The part of move() after its guards (game.js:243-276): the history is cut after the
        cursor, the position exported, the piece moved and its General tested, and the
        record appended. */
    method Commit(from: Pos, to: Pos)
      requires Valid() && Board.Valid(from) && Board.Valid(to) && from != to
      requires IsFriend(At(grid, from), currentTurn)
      requires !InCheck(Relocate(grid, from, to), currentTurn)
      modifies this, board
      ensures Valid() && board == old(board) && State() == Moved(old(State()), from, to)
    {
      ghost var s0 := State();
      MovedHalves(s0, from, to);
      var piece := board[from.y, from.x];
      var capturedPiece := board[to.y, to.x];
      Cut();
      ShiftChecked(from, to, s0.grid, s0.turn);
      assert State() == Shifted(s0, from, to);
      Record(from, to, capturedPiece, piece.value);
    }

    /** move (game.js:218-280). */
    method Move(fromX: int, fromY: int, toX: int, toY: int) returns (ok: bool)
      requires Valid()
      modifies this, board
      ensures Valid() && board == old(board)
      ensures (ok, State()) == MoveSpec(old(State()), fromX, fromY, toX, toY)
    {
      var piece := GetPiece(fromX, fromY);
      if piece.None? {
        return false;
      }
      if piece.value.color != currentTurn {
        return false;
      }
      var legalMoves := GetLegalMoves(fromX, fromY);
      var isLegal := Includes(legalMoves, Pos(toX, toY));
      if !isLegal {
        return false;
      }
      LegalMovesIff(grid, fromX, fromY, Pos(toX, toY));
      RawMoveLeaves(grid, fromX, fromY, Pos(toX, toY));
      var capturedPiece := board[toY, toX];
      if capturedPiece == Some(Piece(General, Opponent(piece.value.color))) {
        return false;
      }
      Commit(Pos(fromX, fromY), Pos(toX, toY));
      return true;
    }

    /** undo (game.js:583-601), with the counter tested against the side to move before the
        turn is restored (see UndoSpec). */
    method Undo() returns (ok: bool)
      requires Valid()
      modifies this, board
      ensures Valid() && board == old(board) && (ok, State()) == UndoSpec(old(State()))
    {
      if currentMoveIndex < 0 {
        return false;
      }
      if currentMoveIndex >= |moveHistory| {
        return false;
      }
      var move := moveHistory[currentMoveIndex];
      var previousTurn := currentTurn;
      Unshift(From(move), To(move), move.captured);
      currentTurn := move.mover;
      if previousTurn == Red && currentTurn == Black {
        moveCount := moveCount - 1;
      }
      currentMoveIndex := currentMoveIndex - 1;
      return true;
    }

    /** redo (game.js:603-621). */
    method Redo() returns (ok: bool)
      requires Valid()
      modifies this, board
      ensures Valid() && board == old(board) && (ok, State()) == RedoSpec(old(State()))
    {
      if currentMoveIndex >= |moveHistory| - 1 {
        return false;
      }
      currentMoveIndex := currentMoveIndex + 1;
      if currentMoveIndex < 0 {
        return false;
      }
      var move := moveHistory[currentMoveIndex];
      Shift(From(move), To(move));
      var previousTurn := currentTurn;
      currentTurn := Opponent(currentTurn);
      if previousTurn == Black && currentTurn == Red {
        moveCount := moveCount + 1;
      }
      return true;
    }

    /** resetToInitial (game.js:623-631): a fresh copy of the saved board. */
    method ResetToInitial() returns (ok: bool)
      requires Valid()
      modifies this
      ensures Valid() && (ok, State()) == ResetToInitialSpec(old(State()))
    {
      if initialBoard.None? {
        return false;
      }
      board := NewBoard(initialBoard.value);
      grid := initialBoard.value;
      currentTurn := Red;
      moveHistory := [];
      currentMoveIndex := -1;
      moveCount := 1;
      return true;
    }

    /** resetGame (game.js:633-642). */
    method ResetGame() returns (ok: bool)
      requires Valid()
      modifies this
      ensures Valid() && ok && State() == ResetGameSpec(old(State()))
    {
      board := NewBoard(EmptyGrid());
      grid := EmptyGrid();
      currentTurn := Red;
      moveHistory := [];
      currentMoveIndex := -1;
      moveCount := 1;
      SetupInitialPosition();
      SaveInitialBoard();
      return true;
    }

    /** exportGame (game.js:664-670) before the JSON encoding. */
    method ExportGame() returns (data: GameData)
      requires Valid()
      ensures data == ExportGameSpec(State())
    {
      data := GameData(moveHistory, Some(currentMoveIndex), initialBoard);
    }

    /** importGame (game.js:672-704) on parsed data: the saved board, or else the opening
        position, which is then also saved; Red to move; the records up to the stored cursor
        replayed without any check. */
    method ImportGame(data: GameData) returns (ok: bool)
      requires Valid() && RecordsOnBoard(data.moveHistory)
      modifies this
      ensures Valid() && ok && State() == ImportGameSpec(old(State()), data)
    {
      ghost var start: Grid := if data.initialBoard.Some? then data.initialBoard.value else InitialGrid();
      moveHistory := data.moveHistory;
      currentMoveIndex := StoredIndex(data.currentMoveIndex);
      initialBoard := data.initialBoard;
      RestoreStart();
      currentTurn := Red;
      ghost var s1 := State();
      assert s1 == old(State()).(history := data.moveHistory, index := currentMoveIndex,
                                 initialBoard := Some(start), grid := start, turn := Red);
      ReplayHistory();
      return true;
    }

    /** importGame's fresh board (game.js:680-686): a copy of the saved initial board, or
        else the standard setup, which is then saved as the initial board. */
    method RestoreStart()
      requires Valid()
      modifies this
      ensures Valid() && fresh(board)
      ensures var start := if old(initialBoard).Some? then old(initialBoard).value else InitialGrid();
              State() == old(State()).(grid := start, initialBoard := Some(start))
    {
      if initialBoard.Some? {
        board := NewBoard(initialBoard.value);
        grid := initialBoard.value;
      } else {
        board := NewBoard(EmptyGrid());
        grid := EmptyGrid();
        SetupInitialPosition();
        SaveInitialBoard();
      }
    }

    /** importGame's loop (game.js:690-698): the records up to the cursor replayed from the
        board, Red to move; an index past the last record replays them all. */
    method ReplayHistory()
      requires Valid() && currentTurn == Red
      modifies this, board
      ensures Valid() && board == old(board)
      ensures State() == old(State()).(grid := Replay(old(grid), Red, Take(moveHistory, currentMoveIndex + 1)).0,
                                       turn := Replay(old(grid), Red, Take(moveHistory, currentMoveIndex + 1)).1)
    {
      ghost var start := grid;
      ghost var s0 := State();
      var i := 0;
      while i <= currentMoveIndex
        invariant 0 <= i && (i <= currentMoveIndex + 1 || i == 0) && Valid() && board == old(board)
        invariant State() == s0.(grid := grid, turn := currentTurn)
        invariant (grid, currentTurn) == Replay(start, Red, Take(moveHistory, i))
        decreases currentMoveIndex + 1 - i
      {
        ReplayNext(start, moveHistory, i);
        if i < |moveHistory| {
          ReplayRecord(moveHistory[i]);
        }
        i := i + 1;
      }
      assert Take(moveHistory, currentMoveIndex + 1) == Take(moveHistory, i);
    }

    /** One pass of importGame's loop (game.js:692-697): the recorded piece relocated and the
        turn passed. */
    method ReplayRecord(move: MoveRecord)
      requires Valid() && Board.Valid(From(move)) && Board.Valid(To(move))
      modifies this, board
      ensures Valid() && board == old(board)
      ensures State() == old(State()).(grid := Relocate(old(grid), From(move), To(move)),
                                       turn := Opponent(old(currentTurn)))
    {
      Shift(From(move), To(move));
      currentTurn := Opponent(currentTurn);
    }

    // -------------------------------------------------------------------------------------
    // Notation (game.js:178-183, 722-794, 644-662)

    /** getPieceForNotation (game.js:178-183). */
    method GetPieceForNotation(x: int, y: int) returns (r: Square)
      requires Valid()
      ensures r == PieceForNotation(grid, fenBoardSnapshot, x, y)
    {
      if fenBoardSnapshot.Some? && OnBoard(x, y) && fenBoardSnapshot.value[y][x].Some? {
        return fenBoardSnapshot.value[y][x];
      }
      r := GetPiece(x, y);
    }

    /** getPiecesInColumn (game.js:728-737): the rows, top to bottom, holding piece p in
        column col. */
    method GetPiecesInColumn(p: Piece, col: int) returns (ys: seq<int>)
      requires Valid()
      ensures ys == PiecesInColumn(grid, p, col)
    {
      ys := [];
      for y := 0 to 10
        invariant ys == ColumnRows(grid, p, col, y)
      {
        ColumnRowsNext(grid, p, col, y);
        var piece := if 0 <= col < Cols then board[y, col] else None;
        if piece == Some(p) {
          ys := ys + [y];
        }
      }
    }

    /** getMoveNotation (game.js:739-794). None is the "Unknown Move" answer. */
    method GetMoveNotation(move: NotationMove) returns (r: Option<string>)
      requires Valid()
      ensures r == MoveNotation(grid, fenBoardSnapshot, move)
    {
      var piece := move.piece;
      if piece.None? {
        piece := GetPieceForNotation(move.fromX, move.fromY);
        if piece.None? {
          return None;
        }
      }
      var p := piece.value;
      var pieceNotation := PieceLetter(p.kind);
      var fromCol := File(p.color, move.fromX);
      var deltaY := move.toY - move.fromY;
      var moveSymbol := Symbol(p.kind, p.color, deltaY);
      var moveDistance := Distance(p.kind, p.color, move.toX, deltaY);
      var samePieces := GetPiecesInColumn(p, move.fromX);
      var prefix := [pieceNotation];
      if |samePieces| > 1 {
        var sorted := Ordered(p.color, samePieces);
        var index := IndexOf(sorted, move.fromY);
        prefix := if p.color == Red then IntStr(index + 1) + [pieceNotation] else [pieceNotation] + IntStr(index + 1);
      }
      r := Some(prefix + IntStr(fromCol) + [moveSymbol] + IntStr(moveDistance));
    }

    /** getMoveHistory (game.js:644-662): the notation of every record, in order, each
        computed against the current board. */
    method GetMoveHistory() returns (notes: seq<string>)
      requires Valid()
      ensures Notated(grid, fenBoardSnapshot, moveHistory, notes)
    {
      notes := [];
      for i := 0 to |moveHistory|
        invariant Notated(grid, fenBoardSnapshot, moveHistory[..i], notes)
      {
        var notation := GetMoveNotation(RecordMove(moveHistory[i]));
        NotatedNext(grid, fenBoardSnapshot, moveHistory, i, notes, notation.value);
        notes := notes + [notation.value];
      }
      assert moveHistory[..|moveHistory|] == moveHistory;
    }
  }
}
