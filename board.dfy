/** The 10x9 Xiangqi board as a value: pieces, squares, coordinates and the opening layout.
    Row 0 is Black's back rank and row 9 is Red's; column x runs 0..8, row y runs 0..9. */
module Board {
  import opened Wrappers

  const Rows: int := 10
  const Cols: int := 9

  datatype Color = Red | Black

  function Opponent(c: Color): (r: Color)
    ensures r != c
  {
    if c == Red then Black else Red
  }

  /** One kind per piece family; the source tells them apart by glyph (兵/卒, 炮/砲, 車, 馬/马,
      象/相, 仕/士, 帅/将), using one glyph per kind and colour. */
  datatype Kind = Soldier | Cannon | Chariot | Horse | Elephant | Advisor | General

  datatype Piece = Piece(kind: Kind, color: Color)

  type Square = Option<Piece>

  datatype Pos = Pos(x: int, y: int)

  ghost predicate IsGrid(g: seq<seq<Square>>) {
    |g| == Rows && forall y :: 0 <= y < |g| ==> |g[y]| == Cols
  }

  const EmptyRank: seq<Square> := [None, None, None, None, None, None, None, None, None]

  /** A board: exactly 10 ranks of exactly 9 squares. */
  type Grid = g: seq<seq<Square>> | IsGrid(g)
    witness [EmptyRank, EmptyRank, EmptyRank, EmptyRank, EmptyRank,
             EmptyRank, EmptyRank, EmptyRank, EmptyRank, EmptyRank]

  /** game.js:215-217 */
  predicate OnBoard(x: int, y: int) {
    0 <= x < Cols && 0 <= y < Rows
  }

  predicate Valid(p: Pos) {
    OnBoard(p.x, p.y)
  }

  function EmptyGrid(): (g: Grid)
    ensures forall y, x :: 0 <= y < Rows && 0 <= x < Cols ==> g[y][x] == None
  {
    [EmptyRank, EmptyRank, EmptyRank, EmptyRank, EmptyRank,
     EmptyRank, EmptyRank, EmptyRank, EmptyRank, EmptyRank]
  }

  function At(g: Grid, p: Pos): Square
    requires Valid(p)
  {
    g[p.y][p.x]
  }

  /** getPiece (game.js:207-213): the occupant, or nothing for an off-board position. */
  function GetPiece(g: Grid, x: int, y: int): (r: Square)
    ensures !OnBoard(x, y) ==> r == None
    ensures OnBoard(x, y) ==> r == g[y][x]
  {
    if OnBoard(x, y) then g[y][x] else None
  }

  /** The board with one square replaced. */
  function Put(g: Grid, p: Pos, v: Square): (r: Grid)
    requires Valid(p)
    ensures forall y, x :: 0 <= y < Rows && 0 <= x < Cols ==>
              r[y][x] == if x == p.x && y == p.y then v else g[y][x]
  {
    g[p.y := g[p.y][p.x := v]]
  }

  /** The piece on `from` relocated to `to`, in the order the source writes the two squares:
      first `to` receives the piece, then `from` is emptied (game.js:246-247, 352-353). */
  function Relocate(g: Grid, from: Pos, to: Pos): (r: Grid)
    requires Valid(from) && Valid(to)
  {
    Put(Put(g, to, At(g, from)), from, None)
  }

  predicate IsFriend(s: Square, c: Color) {
    s.Some? && s.value.color == c
  }

  predicate IsEnemy(s: Square, c: Color) {
    s.Some? && s.value.color != c
  }

  // ---------------------------------------------------------------------------------------
  // The opening layout (setupInitialPosition, game.js:118-143)

  datatype Placement = Placement(piece: Piece, x: int, y: int)

  /** The 32 entries of game.js:120-137, in the source's order. */
  const SetupTable: seq<Placement> := [
    Placement(Piece(Chariot, Red), 0, 9), Placement(Piece(Chariot, Red), 8, 9),
    Placement(Piece(Horse, Red), 1, 9), Placement(Piece(Horse, Red), 7, 9),
    Placement(Piece(Elephant, Red), 2, 9), Placement(Piece(Elephant, Red), 6, 9),
    Placement(Piece(Advisor, Red), 3, 9), Placement(Piece(Advisor, Red), 5, 9),
    Placement(Piece(General, Red), 4, 9),
    Placement(Piece(Cannon, Red), 1, 7), Placement(Piece(Cannon, Red), 7, 7),
    Placement(Piece(Soldier, Red), 0, 6), Placement(Piece(Soldier, Red), 2, 6),
    Placement(Piece(Soldier, Red), 4, 6), Placement(Piece(Soldier, Red), 6, 6),
    Placement(Piece(Soldier, Red), 8, 6),
    Placement(Piece(Chariot, Black), 0, 0), Placement(Piece(Chariot, Black), 8, 0),
    Placement(Piece(Horse, Black), 1, 0), Placement(Piece(Horse, Black), 7, 0),
    Placement(Piece(Elephant, Black), 2, 0), Placement(Piece(Elephant, Black), 6, 0),
    Placement(Piece(Advisor, Black), 3, 0), Placement(Piece(Advisor, Black), 5, 0),
    Placement(Piece(General, Black), 4, 0),
    Placement(Piece(Cannon, Black), 1, 2), Placement(Piece(Cannon, Black), 7, 2),
    Placement(Piece(Soldier, Black), 0, 3), Placement(Piece(Soldier, Black), 2, 3),
    Placement(Piece(Soldier, Black), 4, 3), Placement(Piece(Soldier, Black), 6, 3),
    Placement(Piece(Soldier, Black), 8, 3)
  ]

  predicate TableOnBoard(t: seq<Placement>) {
    forall i :: 0 <= i < |t| ==> OnBoard(t[i].x, t[i].y)
  }

  /** The board after writing the entries of `t` one after another. */
  function PlaceAll(g: Grid, t: seq<Placement>): Grid
    requires TableOnBoard(t)
    decreases |t|
  {
    if t == [] then g
    else
      var e := t[|t| - 1];
      Put(PlaceAll(g, t[..|t| - 1]), Pos(e.x, e.y), Some(e.piece))
  }

  function InitialGrid(): Grid {
    PlaceAll(EmptyGrid(), SetupTable)
  }

  // ---------------------------------------------------------------------------------------
  // What the opening layout holds

  /** A back rank: Chariot, Horse, Elephant, Advisor, General, Advisor, Elephant, Horse, Chariot. */
  function BackRank(c: Color): seq<Square> {
    [Some(Piece(Chariot, c)), Some(Piece(Horse, c)), Some(Piece(Elephant, c)), Some(Piece(Advisor, c)),
     Some(Piece(General, c)), Some(Piece(Advisor, c)), Some(Piece(Elephant, c)), Some(Piece(Horse, c)),
     Some(Piece(Chariot, c))]
  }

  /** The Cannons' rank: Cannons on columns 1 and 7. */
  function CannonRank(c: Color): seq<Square> {
    [None, Some(Piece(Cannon, c)), None, None, None, None, None, Some(Piece(Cannon, c)), None]
  }

  /** The Soldiers' rank: Soldiers on the even columns. */
  function SoldierRank(c: Color): seq<Square> {
    [Some(Piece(Soldier, c)), None, Some(Piece(Soldier, c)), None, Some(Piece(Soldier, c)), None,
     Some(Piece(Soldier, c)), None, Some(Piece(Soldier, c))]
  }

  /** The opening position drawn rank by rank, Black's back rank first. */
  function OpeningGrid(): Grid {
    [BackRank(Black), EmptyRank, CannonRank(Black), SoldierRank(Black), EmptyRank,
     EmptyRank, SoldierRank(Red), CannonRank(Red), EmptyRank, BackRank(Red)]
  }

  /** How many pieces of one kind each side starts with. */
  function StartingCount(k: Kind): nat {
    match k
    case Soldier => 5
    case General => 1
    case _ => 2
  }

  /** One table entry written into a board of any shape (the same update as `Put`). */
  function WriteEntry(g: seq<seq<Square>>, e: Placement): seq<seq<Square>> {
    if 0 <= e.y < |g| && 0 <= e.x < |g[e.y]| then g[e.y := g[e.y][e.x := Some(e.piece)]] else g
  }

  /** The first k entries of t written in order, counted by index rather than by slicing. */
  function PlaceFirst(g: seq<seq<Square>>, t: seq<Placement>, k: nat): seq<seq<Square>>
    requires k <= |t|
  {
    if k == 0 then g else WriteEntry(PlaceFirst(g, t, k - 1), t[k - 1])
  }

  lemma {:induction false} PlaceAllFirst(g: Grid, t: seq<Placement>, k: nat)
    requires TableOnBoard(t) && k <= |t|
    ensures PlaceAll(g, t[..k]) == PlaceFirst(g, t, k)
  {
    if k > 0 {
      assert t[..k][..k - 1] == t[..k - 1];
      PlaceAllFirst(g, t, k - 1);
    }
  }

  lemma SetupStep(t: seq<Placement>, k: nat, g: seq<seq<Square>>, row: seq<Square>, p: Piece, x: int, y: int)
    requires k < |t| && t[k] == Placement(p, x, y) && 0 <= y < |g| && 0 <= x < |row|
    requires PlaceFirst(EmptyGrid(), t, k) == g[y := row]
    ensures PlaceFirst(EmptyGrid(), t, k + 1) == g[y := row[x := Some(p)]]
  {
  }

  lemma SetupRedBack(t: seq<Placement>)
    requires |t| == 32
    requires t[0] == Placement(Piece(Chariot, Red), 0, 9) && t[1] == Placement(Piece(Chariot, Red), 8, 9) && t[2] == Placement(Piece(Horse, Red), 1, 9) && t[3] == Placement(Piece(Horse, Red), 7, 9) && t[4] == Placement(Piece(Elephant, Red), 2, 9) && t[5] == Placement(Piece(Elephant, Red), 6, 9) && t[6] == Placement(Piece(Advisor, Red), 3, 9) && t[7] == Placement(Piece(Advisor, Red), 5, 9) && t[8] == Placement(Piece(General, Red), 4, 9)
    requires PlaceFirst(EmptyGrid(), t, 0) == EmptyGrid()
    ensures PlaceFirst(EmptyGrid(), t, 9) == EmptyGrid()[9 := BackRank(Red)]
  {
    var g := EmptyGrid();
    assert g == g[9 := EmptyRank];
    SetupStep(t, 0, g, EmptyRank, Piece(Chariot, Red), 0, 9);
    SetupStep(t, 1, g, EmptyRank[0 := Some(Piece(Chariot, Red))], Piece(Chariot, Red), 8, 9);
    SetupStep(t, 2, g, EmptyRank[0 := Some(Piece(Chariot, Red))][8 := Some(Piece(Chariot, Red))], Piece(Horse, Red), 1, 9);
    SetupStep(t, 3, g, EmptyRank[0 := Some(Piece(Chariot, Red))][8 := Some(Piece(Chariot, Red))][1 := Some(Piece(Horse, Red))], Piece(Horse, Red), 7, 9);
    SetupStep(t, 4, g, EmptyRank[0 := Some(Piece(Chariot, Red))][8 := Some(Piece(Chariot, Red))][1 := Some(Piece(Horse, Red))][7 := Some(Piece(Horse, Red))], Piece(Elephant, Red), 2, 9);
    SetupStep(t, 5, g, EmptyRank[0 := Some(Piece(Chariot, Red))][8 := Some(Piece(Chariot, Red))][1 := Some(Piece(Horse, Red))][7 := Some(Piece(Horse, Red))][2 := Some(Piece(Elephant, Red))], Piece(Elephant, Red), 6, 9);
    SetupStep(t, 6, g, EmptyRank[0 := Some(Piece(Chariot, Red))][8 := Some(Piece(Chariot, Red))][1 := Some(Piece(Horse, Red))][7 := Some(Piece(Horse, Red))][2 := Some(Piece(Elephant, Red))][6 := Some(Piece(Elephant, Red))], Piece(Advisor, Red), 3, 9);
    SetupStep(t, 7, g, EmptyRank[0 := Some(Piece(Chariot, Red))][8 := Some(Piece(Chariot, Red))][1 := Some(Piece(Horse, Red))][7 := Some(Piece(Horse, Red))][2 := Some(Piece(Elephant, Red))][6 := Some(Piece(Elephant, Red))][3 := Some(Piece(Advisor, Red))], Piece(Advisor, Red), 5, 9);
    SetupStep(t, 8, g, EmptyRank[0 := Some(Piece(Chariot, Red))][8 := Some(Piece(Chariot, Red))][1 := Some(Piece(Horse, Red))][7 := Some(Piece(Horse, Red))][2 := Some(Piece(Elephant, Red))][6 := Some(Piece(Elephant, Red))][3 := Some(Piece(Advisor, Red))][5 := Some(Piece(Advisor, Red))], Piece(General, Red), 4, 9);
    assert EmptyRank[0 := Some(Piece(Chariot, Red))][8 := Some(Piece(Chariot, Red))][1 := Some(Piece(Horse, Red))][7 := Some(Piece(Horse, Red))][2 := Some(Piece(Elephant, Red))][6 := Some(Piece(Elephant, Red))][3 := Some(Piece(Advisor, Red))][5 := Some(Piece(Advisor, Red))][4 := Some(Piece(General, Red))] == BackRank(Red);
  }

  lemma SetupRedCannons(t: seq<Placement>)
    requires |t| == 32
    requires t[9] == Placement(Piece(Cannon, Red), 1, 7) && t[10] == Placement(Piece(Cannon, Red), 7, 7)
    requires PlaceFirst(EmptyGrid(), t, 9) == EmptyGrid()[9 := BackRank(Red)]
    ensures PlaceFirst(EmptyGrid(), t, 11) == EmptyGrid()[9 := BackRank(Red)][7 := CannonRank(Red)]
  {
    var g := EmptyGrid()[9 := BackRank(Red)];
    assert g == g[7 := EmptyRank];
    SetupStep(t, 9, g, EmptyRank, Piece(Cannon, Red), 1, 7);
    SetupStep(t, 10, g, EmptyRank[1 := Some(Piece(Cannon, Red))], Piece(Cannon, Red), 7, 7);
    assert EmptyRank[1 := Some(Piece(Cannon, Red))][7 := Some(Piece(Cannon, Red))] == CannonRank(Red);
  }

  lemma SetupRedSoldiers(t: seq<Placement>)
    requires |t| == 32
    requires t[11] == Placement(Piece(Soldier, Red), 0, 6) && t[12] == Placement(Piece(Soldier, Red), 2, 6) && t[13] == Placement(Piece(Soldier, Red), 4, 6) && t[14] == Placement(Piece(Soldier, Red), 6, 6) && t[15] == Placement(Piece(Soldier, Red), 8, 6)
    requires PlaceFirst(EmptyGrid(), t, 11) == EmptyGrid()[9 := BackRank(Red)][7 := CannonRank(Red)]
    ensures PlaceFirst(EmptyGrid(), t, 16) == EmptyGrid()[9 := BackRank(Red)][7 := CannonRank(Red)][6 := SoldierRank(Red)]
  {
    var g := EmptyGrid()[9 := BackRank(Red)][7 := CannonRank(Red)];
    assert g == g[6 := EmptyRank];
    SetupStep(t, 11, g, EmptyRank, Piece(Soldier, Red), 0, 6);
    SetupStep(t, 12, g, EmptyRank[0 := Some(Piece(Soldier, Red))], Piece(Soldier, Red), 2, 6);
    SetupStep(t, 13, g, EmptyRank[0 := Some(Piece(Soldier, Red))][2 := Some(Piece(Soldier, Red))], Piece(Soldier, Red), 4, 6);
    SetupStep(t, 14, g, EmptyRank[0 := Some(Piece(Soldier, Red))][2 := Some(Piece(Soldier, Red))][4 := Some(Piece(Soldier, Red))], Piece(Soldier, Red), 6, 6);
    SetupStep(t, 15, g, EmptyRank[0 := Some(Piece(Soldier, Red))][2 := Some(Piece(Soldier, Red))][4 := Some(Piece(Soldier, Red))][6 := Some(Piece(Soldier, Red))], Piece(Soldier, Red), 8, 6);
    assert EmptyRank[0 := Some(Piece(Soldier, Red))][2 := Some(Piece(Soldier, Red))][4 := Some(Piece(Soldier, Red))][6 := Some(Piece(Soldier, Red))][8 := Some(Piece(Soldier, Red))] == SoldierRank(Red);
  }

  lemma SetupBlackBack(t: seq<Placement>)
    requires |t| == 32
    requires t[16] == Placement(Piece(Chariot, Black), 0, 0) && t[17] == Placement(Piece(Chariot, Black), 8, 0) && t[18] == Placement(Piece(Horse, Black), 1, 0) && t[19] == Placement(Piece(Horse, Black), 7, 0) && t[20] == Placement(Piece(Elephant, Black), 2, 0) && t[21] == Placement(Piece(Elephant, Black), 6, 0) && t[22] == Placement(Piece(Advisor, Black), 3, 0) && t[23] == Placement(Piece(Advisor, Black), 5, 0) && t[24] == Placement(Piece(General, Black), 4, 0)
    requires PlaceFirst(EmptyGrid(), t, 16) == EmptyGrid()[9 := BackRank(Red)][7 := CannonRank(Red)][6 := SoldierRank(Red)]
    ensures PlaceFirst(EmptyGrid(), t, 25) == EmptyGrid()[9 := BackRank(Red)][7 := CannonRank(Red)][6 := SoldierRank(Red)][0 := BackRank(Black)]
  {
    var g := EmptyGrid()[9 := BackRank(Red)][7 := CannonRank(Red)][6 := SoldierRank(Red)];
    assert g == g[0 := EmptyRank];
    SetupStep(t, 16, g, EmptyRank, Piece(Chariot, Black), 0, 0);
    SetupStep(t, 17, g, EmptyRank[0 := Some(Piece(Chariot, Black))], Piece(Chariot, Black), 8, 0);
    SetupStep(t, 18, g, EmptyRank[0 := Some(Piece(Chariot, Black))][8 := Some(Piece(Chariot, Black))], Piece(Horse, Black), 1, 0);
    SetupStep(t, 19, g, EmptyRank[0 := Some(Piece(Chariot, Black))][8 := Some(Piece(Chariot, Black))][1 := Some(Piece(Horse, Black))], Piece(Horse, Black), 7, 0);
    SetupStep(t, 20, g, EmptyRank[0 := Some(Piece(Chariot, Black))][8 := Some(Piece(Chariot, Black))][1 := Some(Piece(Horse, Black))][7 := Some(Piece(Horse, Black))], Piece(Elephant, Black), 2, 0);
    SetupStep(t, 21, g, EmptyRank[0 := Some(Piece(Chariot, Black))][8 := Some(Piece(Chariot, Black))][1 := Some(Piece(Horse, Black))][7 := Some(Piece(Horse, Black))][2 := Some(Piece(Elephant, Black))], Piece(Elephant, Black), 6, 0);
    SetupStep(t, 22, g, EmptyRank[0 := Some(Piece(Chariot, Black))][8 := Some(Piece(Chariot, Black))][1 := Some(Piece(Horse, Black))][7 := Some(Piece(Horse, Black))][2 := Some(Piece(Elephant, Black))][6 := Some(Piece(Elephant, Black))], Piece(Advisor, Black), 3, 0);
    SetupStep(t, 23, g, EmptyRank[0 := Some(Piece(Chariot, Black))][8 := Some(Piece(Chariot, Black))][1 := Some(Piece(Horse, Black))][7 := Some(Piece(Horse, Black))][2 := Some(Piece(Elephant, Black))][6 := Some(Piece(Elephant, Black))][3 := Some(Piece(Advisor, Black))], Piece(Advisor, Black), 5, 0);
    SetupStep(t, 24, g, EmptyRank[0 := Some(Piece(Chariot, Black))][8 := Some(Piece(Chariot, Black))][1 := Some(Piece(Horse, Black))][7 := Some(Piece(Horse, Black))][2 := Some(Piece(Elephant, Black))][6 := Some(Piece(Elephant, Black))][3 := Some(Piece(Advisor, Black))][5 := Some(Piece(Advisor, Black))], Piece(General, Black), 4, 0);
    assert EmptyRank[0 := Some(Piece(Chariot, Black))][8 := Some(Piece(Chariot, Black))][1 := Some(Piece(Horse, Black))][7 := Some(Piece(Horse, Black))][2 := Some(Piece(Elephant, Black))][6 := Some(Piece(Elephant, Black))][3 := Some(Piece(Advisor, Black))][5 := Some(Piece(Advisor, Black))][4 := Some(Piece(General, Black))] == BackRank(Black);
  }

  lemma SetupBlackCannons(t: seq<Placement>)
    requires |t| == 32
    requires t[25] == Placement(Piece(Cannon, Black), 1, 2) && t[26] == Placement(Piece(Cannon, Black), 7, 2)
    requires PlaceFirst(EmptyGrid(), t, 25) == EmptyGrid()[9 := BackRank(Red)][7 := CannonRank(Red)][6 := SoldierRank(Red)][0 := BackRank(Black)]
    ensures PlaceFirst(EmptyGrid(), t, 27) == EmptyGrid()[9 := BackRank(Red)][7 := CannonRank(Red)][6 := SoldierRank(Red)][0 := BackRank(Black)][2 := CannonRank(Black)]
  {
    var g := EmptyGrid()[9 := BackRank(Red)][7 := CannonRank(Red)][6 := SoldierRank(Red)][0 := BackRank(Black)];
    assert g == g[2 := EmptyRank];
    SetupStep(t, 25, g, EmptyRank, Piece(Cannon, Black), 1, 2);
    SetupStep(t, 26, g, EmptyRank[1 := Some(Piece(Cannon, Black))], Piece(Cannon, Black), 7, 2);
    assert EmptyRank[1 := Some(Piece(Cannon, Black))][7 := Some(Piece(Cannon, Black))] == CannonRank(Black);
  }

  lemma SetupBlackSoldiers(t: seq<Placement>)
    requires |t| == 32
    requires t[27] == Placement(Piece(Soldier, Black), 0, 3) && t[28] == Placement(Piece(Soldier, Black), 2, 3) && t[29] == Placement(Piece(Soldier, Black), 4, 3) && t[30] == Placement(Piece(Soldier, Black), 6, 3) && t[31] == Placement(Piece(Soldier, Black), 8, 3)
    requires PlaceFirst(EmptyGrid(), t, 27) == EmptyGrid()[9 := BackRank(Red)][7 := CannonRank(Red)][6 := SoldierRank(Red)][0 := BackRank(Black)][2 := CannonRank(Black)]
    ensures PlaceFirst(EmptyGrid(), t, 32) == EmptyGrid()[9 := BackRank(Red)][7 := CannonRank(Red)][6 := SoldierRank(Red)][0 := BackRank(Black)][2 := CannonRank(Black)][3 := SoldierRank(Black)]
  {
    var g := EmptyGrid()[9 := BackRank(Red)][7 := CannonRank(Red)][6 := SoldierRank(Red)][0 := BackRank(Black)][2 := CannonRank(Black)];
    assert g == g[3 := EmptyRank];
    SetupStep(t, 27, g, EmptyRank, Piece(Soldier, Black), 0, 3);
    SetupStep(t, 28, g, EmptyRank[0 := Some(Piece(Soldier, Black))], Piece(Soldier, Black), 2, 3);
    SetupStep(t, 29, g, EmptyRank[0 := Some(Piece(Soldier, Black))][2 := Some(Piece(Soldier, Black))], Piece(Soldier, Black), 4, 3);
    SetupStep(t, 30, g, EmptyRank[0 := Some(Piece(Soldier, Black))][2 := Some(Piece(Soldier, Black))][4 := Some(Piece(Soldier, Black))], Piece(Soldier, Black), 6, 3);
    SetupStep(t, 31, g, EmptyRank[0 := Some(Piece(Soldier, Black))][2 := Some(Piece(Soldier, Black))][4 := Some(Piece(Soldier, Black))][6 := Some(Piece(Soldier, Black))], Piece(Soldier, Black), 8, 3);
    assert EmptyRank[0 := Some(Piece(Soldier, Black))][2 := Some(Piece(Soldier, Black))][4 := Some(Piece(Soldier, Black))][6 := Some(Piece(Soldier, Black))][8 := Some(Piece(Soldier, Black))] == SoldierRank(Black);
  }

  lemma SetupEntries0To4()
    ensures SetupTable[0] == Placement(Piece(Chariot, Red), 0, 9) && SetupTable[1] == Placement(Piece(Chariot, Red), 8, 9) && SetupTable[2] == Placement(Piece(Horse, Red), 1, 9) && SetupTable[3] == Placement(Piece(Horse, Red), 7, 9) && SetupTable[4] == Placement(Piece(Elephant, Red), 2, 9)
  {
  }

  lemma SetupEntries5To8()
    ensures SetupTable[5] == Placement(Piece(Elephant, Red), 6, 9) && SetupTable[6] == Placement(Piece(Advisor, Red), 3, 9) && SetupTable[7] == Placement(Piece(Advisor, Red), 5, 9) && SetupTable[8] == Placement(Piece(General, Red), 4, 9)
  {
  }

  lemma SetupEntries9To15()
    ensures SetupTable[9] == Placement(Piece(Cannon, Red), 1, 7) && SetupTable[10] == Placement(Piece(Cannon, Red), 7, 7) && SetupTable[11] == Placement(Piece(Soldier, Red), 0, 6) && SetupTable[12] == Placement(Piece(Soldier, Red), 2, 6) && SetupTable[13] == Placement(Piece(Soldier, Red), 4, 6) && SetupTable[14] == Placement(Piece(Soldier, Red), 6, 6) && SetupTable[15] == Placement(Piece(Soldier, Red), 8, 6)
  {
  }

  lemma SetupEntries16To20()
    ensures SetupTable[16] == Placement(Piece(Chariot, Black), 0, 0) && SetupTable[17] == Placement(Piece(Chariot, Black), 8, 0) && SetupTable[18] == Placement(Piece(Horse, Black), 1, 0) && SetupTable[19] == Placement(Piece(Horse, Black), 7, 0) && SetupTable[20] == Placement(Piece(Elephant, Black), 2, 0)
  {
  }

  lemma SetupEntries21To24()
    ensures SetupTable[21] == Placement(Piece(Elephant, Black), 6, 0) && SetupTable[22] == Placement(Piece(Advisor, Black), 3, 0) && SetupTable[23] == Placement(Piece(Advisor, Black), 5, 0) && SetupTable[24] == Placement(Piece(General, Black), 4, 0)
  {
  }

  lemma SetupEntries25To31()
    ensures SetupTable[25] == Placement(Piece(Cannon, Black), 1, 2) && SetupTable[26] == Placement(Piece(Cannon, Black), 7, 2) && SetupTable[27] == Placement(Piece(Soldier, Black), 0, 3) && SetupTable[28] == Placement(Piece(Soldier, Black), 2, 3) && SetupTable[29] == Placement(Piece(Soldier, Black), 4, 3) && SetupTable[30] == Placement(Piece(Soldier, Black), 6, 3) && SetupTable[31] == Placement(Piece(Soldier, Black), 8, 3)
  {
  }

  lemma SetupOnBoard()
    ensures |SetupTable| == 32 && TableOnBoard(SetupTable)
  {
  }

  lemma SetupByIndex()
    ensures PlaceFirst(EmptyGrid(), SetupTable, 32) == OpeningGrid()
  {
    var t := SetupTable;
    SetupEntries0To4(); SetupEntries5To8(); SetupEntries9To15();
    SetupEntries16To20(); SetupEntries21To24(); SetupEntries25To31();
    SetupRedBack(t); SetupRedCannons(t); SetupRedSoldiers(t);
    SetupBlackBack(t); SetupBlackCannons(t); SetupBlackSoldiers(t);
  }

  /** setupInitialPosition on an empty board yields exactly the opening position. */
  lemma InitialGridIsOpening()
    ensures InitialGrid() == OpeningGrid()
  {
    SetupOnBoard();
    PlaceAllFirst(EmptyGrid(), SetupTable, 32);
    SetupByIndex();
    assert SetupTable[..32] == SetupTable;
  }

  // ---------------------------------------------------------------------------------------
  // Counting pieces

  function CountInRank(r: seq<Square>, p: Piece): (n: nat)
    ensures n <= |r|
  {
    if r == [] then 0 else (if r[0] == Some(p) then 1 else 0) + CountInRank(r[1..], p)
  }

  function CountInRanks(g: seq<seq<Square>>, p: Piece): nat {
    if g == [] then 0 else CountInRanks(g[..|g| - 1], p) + CountInRank(g[|g| - 1], p)
  }

  /** How many copies of piece `p` stand on the board. */
  function Count(g: Grid, p: Piece): nat {
    CountInRanks(g, p)
  }

  lemma CountInRanksStep(g: seq<seq<Square>>, k: nat, p: Piece)
    requires 1 <= k <= |g|
    ensures CountInRanks(g[..k], p) == CountInRanks(g[..k - 1], p) + CountInRank(g[k - 1], p)
  {
    assert g[..k][..k - 1] == g[..k - 1];
  }

  /** The count of a board as the sum of its ten ranks. */
  lemma CountByRanks(g: Grid, p: Piece)
    ensures Count(g, p) == CountInRank(g[0], p) + CountInRank(g[1], p) + CountInRank(g[2], p)
              + CountInRank(g[3], p) + CountInRank(g[4], p) + CountInRank(g[5], p) + CountInRank(g[6], p)
              + CountInRank(g[7], p) + CountInRank(g[8], p) + CountInRank(g[9], p)
  {
    assert g[..10] == g && g[..0] == [];
    CountInRanksStep(g, 10, p); CountInRanksStep(g, 9, p); CountInRanksStep(g, 8, p);
    CountInRanksStep(g, 7, p); CountInRanksStep(g, 6, p); CountInRanksStep(g, 5, p);
    CountInRanksStep(g, 4, p); CountInRanksStep(g, 3, p); CountInRanksStep(g, 2, p);
    CountInRanksStep(g, 1, p);
  }

  /** One square's share of a count. */
  function Hit(s: Square, p: Piece): nat {
    if s == Some(p) then 1 else 0
  }

  /** Overwriting one square of a rank trades that square's share of the count for the new one's. */
  lemma {:induction false} CountInRankUpdate(r: seq<Square>, i: int, v: Square, p: Piece)
    requires 0 <= i < |r|
    ensures CountInRank(r[i := v], p) + Hit(r[i], p) == CountInRank(r, p) + Hit(v, p)
  {
    if i == 0 {
      assert r[i := v][1..] == r[1..];
    } else {
      assert r[i := v][1..] == r[1..][i - 1 := v];
      CountInRankUpdate(r[1..], i - 1, v, p);
    }
  }

  /** Replacing one rank of a board trades that rank's count for the new one's. */
  lemma {:induction false} CountInRanksUpdate(g: seq<seq<Square>>, y: int, row: seq<Square>, p: Piece)
    requires 0 <= y < |g|
    ensures CountInRanks(g[y := row], p) + CountInRank(g[y], p) == CountInRanks(g, p) + CountInRank(row, p)
  {
    var n := |g| - 1;
    if y == n {
      assert g[y := row][..n] == g[..n];
    } else {
      assert g[y := row][..n] == g[..n][y := row];
      CountInRanksUpdate(g[..n], y, row, p);
    }
  }

  /** Writing `v` on square `q` removes what stood there from the count and adds `v`. */
  lemma CountAfterPut(g: Grid, q: Pos, v: Square, p: Piece)
    requires Valid(q)
    ensures Count(Put(g, q, v), p) + Hit(At(g, q), p) == Count(g, p) + Hit(v, p)
  {
    CountInRankUpdate(g[q.y], q.x, v, p);
    CountInRanksUpdate(g, q.y, g[q.y][q.x := v], p);
  }

  lemma CountInRankStep(r: seq<Square>, k: nat, p: Piece)
    requires k < |r|
    ensures CountInRank(r[k..], p) == Hit(r[k], p) + CountInRank(r[k + 1..], p)
  {
    assert r[k..][1..] == r[k + 1..];
  }

  /** A rank's count as the sum over its nine squares. */
  lemma CountNine(r: seq<Square>, p: Piece)
    requires |r| == Cols
    ensures CountInRank(r, p) == Hit(r[0], p) + Hit(r[1], p) + Hit(r[2], p) + Hit(r[3], p) + Hit(r[4], p)
                                 + Hit(r[5], p) + Hit(r[6], p) + Hit(r[7], p) + Hit(r[8], p)
  {
    assert r[0..] == r && r[9..] == [];
    CountInRankStep(r, 0, p); CountInRankStep(r, 1, p); CountInRankStep(r, 2, p);
    CountInRankStep(r, 3, p); CountInRankStep(r, 4, p); CountInRankStep(r, 5, p);
    CountInRankStep(r, 6, p); CountInRankStep(r, 7, p); CountInRankStep(r, 8, p);
  }

  /** How many pieces of one kind a side's back rank holds. */
  function BackShare(k: Kind): nat {
    match k
    case Soldier => 0
    case Cannon => 0
    case General => 1
    case _ => 2
  }

  /** One square's share of a count when the square and the piece have the same colour. */
  function KindHit(a: Kind, k: Kind): nat {
    if a == k then 1 else 0
  }

  lemma HitOwn(a: Kind, k: Kind, c: Color)
    ensures Hit(Some(Piece(a, c)), Piece(k, c)) == KindHit(a, k)
  {}

  lemma BackShareByKind(k: Kind)
    ensures BackShare(k) == 2 * KindHit(Chariot, k) + 2 * KindHit(Horse, k) + 2 * KindHit(Elephant, k)
                            + 2 * KindHit(Advisor, k) + KindHit(General, k)
  {}

  /** A back rank holds BackShare of each kind of its own colour ... */
  lemma BackRankOwn(c: Color, k: Kind)
    ensures CountInRank(BackRank(c), Piece(k, c)) == BackShare(k)
  {
    var p := Piece(k, c);
    CountNine(BackRank(c), p);
    HitOwn(Chariot, k, c); HitOwn(Horse, k, c); HitOwn(Elephant, k, c); HitOwn(Advisor, k, c); HitOwn(General, k, c);
    BackShareByKind(k);
  }

  /** ... and nothing of the other colour. */
  lemma BackRankOther(c: Color, p: Piece)
    requires p.color != c
    ensures CountInRank(BackRank(c), p) == 0
  {
    CountNine(BackRank(c), p);
  }

  lemma CannonRankCount(c: Color, p: Piece)
    ensures CountInRank(CannonRank(c), p) == if p == Piece(Cannon, c) then 2 else 0
  {
    CountNine(CannonRank(c), p);
  }

  lemma SoldierRankCount(c: Color, p: Piece)
    ensures CountInRank(SoldierRank(c), p) == if p == Piece(Soldier, c) then 5 else 0
  {
    CountNine(SoldierRank(c), p);
  }

  lemma StartingByShares(k: Kind)
    ensures StartingCount(k) == BackShare(k) + 2 * KindHit(Cannon, k) + 5 * KindHit(Soldier, k)
  {}

  /** The three ranks one side starts on hold StartingCount of each of its own kinds ... */
  lemma SideOwn(c: Color, k: Kind)
    ensures CountInRank(BackRank(c), Piece(k, c)) + CountInRank(CannonRank(c), Piece(k, c))
            + CountInRank(SoldierRank(c), Piece(k, c)) == StartingCount(k)
  {
    BackRankOwn(c, k);
    CannonRankCount(c, Piece(k, c));
    SoldierRankCount(c, Piece(k, c));
    StartingByShares(k);
  }

  /** ... and nothing of the other side. */
  lemma SideOther(c: Color, p: Piece)
    requires p.color != c
    ensures CountInRank(BackRank(c), p) + CountInRank(CannonRank(c), p) + CountInRank(SoldierRank(c), p) == 0
  {
    BackRankOther(c, p);
    CannonRankCount(c, p);
    SoldierRankCount(c, p);
  }

  /** The opening count as the sum over its ranks. */
  lemma OpeningByRanks(p: Piece)
    ensures Count(OpeningGrid(), p) ==
              CountInRank(BackRank(Black), p) + CountInRank(CannonRank(Black), p) + CountInRank(SoldierRank(Black), p)
              + CountInRank(SoldierRank(Red), p) + CountInRank(CannonRank(Red), p) + CountInRank(BackRank(Red), p)
  {
    var g := OpeningGrid();
    CountByRanks(g, p);
    CountNine(EmptyRank, p);
    assert g[0] == BackRank(Black) && g[2] == CannonRank(Black) && g[3] == SoldierRank(Black);
    assert g[6] == SoldierRank(Red) && g[7] == CannonRank(Red) && g[9] == BackRank(Red);
    assert g[1] == EmptyRank && g[4] == EmptyRank && g[5] == EmptyRank && g[8] == EmptyRank;
  }

  /** The opening position holds StartingCount pieces of each kind and colour. */
  lemma OpeningContents(p: Piece)
    ensures Count(OpeningGrid(), p) == StartingCount(p.kind)
  {
    OpeningByRanks(p);
    if p.color == Red { SideOwn(Red, p.kind); SideOther(Black, p); }
    else { SideOwn(Black, p.kind); SideOther(Red, p); }
  }

  /** Each side starts with five Soldiers, one General and two of every other kind. */
  lemma InitialGridContents(p: Piece)
    ensures Count(InitialGrid(), p) == StartingCount(p.kind)
  {
    InitialGridIsOpening();
    OpeningContents(p);
  }
}
