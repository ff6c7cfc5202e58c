/** Raw move generation (game.js:304-320, 450-581): for each piece kind the destination squares
    its geometry allows, ignoring whether the mover's own General is left exposed. Each list is
    in the order the source pushes it. */
module Moves {
  import opened Wrappers
  import opened Board

  // ---------------------------------------------------------------------------------------
  // Rays for the sliding pieces (Chariot, Cannon)

  /** The four directions of game.js:470 and game.js:508, in that order. */
  const Directions: seq<(int, int)> := [(0, 1), (0, -1), (1, 0), (-1, 0)]

  predicate IsUnit(d: (int, int)) {
    (d.0 == 0 && (d.1 == 1 || d.1 == -1)) || (d.1 == 0 && (d.0 == 1 || d.0 == -1))
  }

  /** `k` steps along a unit component `d`. */
  function Scale(k: int, d: int): int {
    if d == 1 then k else if d == -1 then -k else 0
  }

  function StepsToEdge(x: int, y: int, d: (int, int)): int {
    (if d.0 == 1 then Cols - 1 - x else if d.0 == -1 then x else 0) +
    (if d.1 == 1 then Rows - 1 - y else if d.1 == -1 then y else 0)
  }

  /** The squares strictly after (x, y) along `d`, nearest first, up to the edge of the board:
      the squares the `while (isValidPosition(nx + dx, ny + dy))` loops visit. */
  function Ray(x: int, y: int, d: (int, int)): (r: seq<Pos>)
    requires IsUnit(d) && OnBoard(x, y)
    ensures AllValid(r)
    decreases StepsToEdge(x, y, d)
  {
    if OnBoard(x + d.0, y + d.1) then [Pos(x + d.0, y + d.1)] + Ray(x + d.0, y + d.1, d) else []
  }

  /** The `i`-th square of a ray is `i + 1` steps from its start. */
  lemma {:induction false} RayAt(x: int, y: int, d: (int, int), i: int)
    requires IsUnit(d) && OnBoard(x, y) && 0 <= i < |Ray(x, y, d)|
    ensures Ray(x, y, d)[i] == Pos(x + Scale(i + 1, d.0), y + Scale(i + 1, d.1))
    decreases StepsToEdge(x, y, d)
  {
    if i > 0 {
      RayAt(x + d.0, y + d.1, d, i - 1);
    }
  }

  predicate AllValid(s: seq<Pos>) {
    forall i :: 0 <= i < |s| ==> Valid(s[i])
  }

  /** Number of occupied squares in `s`. */
  function Occupied(g: Grid, s: seq<Pos>): (n: nat)
    requires AllValid(s)
    ensures n <= |s|
  {
    if s == [] then 0 else (if At(g, s[0]).Some? then 1 else 0) + Occupied(g, s[1..])
  }

  /** getRookMoves along one ray (game.js:511-520): every empty square, then the first
      occupied square if it holds an enemy, then stop. */
  function ChariotScan(g: Grid, r: seq<Pos>, c: Color): seq<Pos>
    requires AllValid(r)
  {
    if r == [] then []
    else if At(g, r[0]).Some? then (if IsEnemy(At(g, r[0]), c) then [r[0]] else [])
    else [r[0]] + ChariotScan(g, r[1..], c)
  }

  /** getCannonMoves along one ray (game.js:476-500); `jumps` is the source's jumpCount. */
  function CannonScan(g: Grid, r: seq<Pos>, c: Color, jumps: nat): seq<Pos>
    requires AllValid(r) && jumps <= 1
  {
    if r == [] then []
    else if jumps == 0 then
      if At(g, r[0]).None? then [r[0]] + CannonScan(g, r[1..], c, 0)
      else CannonScan(g, r[1..], c, 1)
    else if At(g, r[0]).Some? then (if IsEnemy(At(g, r[0]), c) then [r[0]] else [])
    else CannonScan(g, r[1..], c, 1)
  }

  predicate AllUnit(ds: seq<(int, int)>) {
    forall i :: 0 <= i < |ds| ==> IsUnit(ds[i])
  }

  function ChariotRays(g: Grid, x: int, y: int, c: Color, ds: seq<(int, int)>): seq<Pos>
    requires OnBoard(x, y) && AllUnit(ds)
  {
    if ds == [] then []
    else ChariotRays(g, x, y, c, ds[..|ds| - 1]) + ChariotScan(g, Ray(x, y, ds[|ds| - 1]), c)
  }

  function CannonRays(g: Grid, x: int, y: int, c: Color, ds: seq<(int, int)>): seq<Pos>
    requires OnBoard(x, y) && AllUnit(ds)
  {
    if ds == [] then []
    else CannonRays(g, x, y, c, ds[..|ds| - 1]) + CannonScan(g, Ray(x, y, ds[|ds| - 1]), c, 0)
  }

  function ChariotMoves(g: Grid, x: int, y: int, c: Color): seq<Pos>
    requires OnBoard(x, y)
  {
    ChariotRays(g, x, y, c, Directions)
  }

  function CannonMoves(g: Grid, x: int, y: int, c: Color): seq<Pos>
    requires OnBoard(x, y)
  {
    CannonRays(g, x, y, c, Directions)
  }

  // ---------------------------------------------------------------------------------------
  // Fixed hops (Horse, Elephant, Advisor, General)

  const HorseOffsets: seq<(int, int)> :=
    [(2, 1), (2, -1), (-2, 1), (-2, -1), (1, 2), (1, -2), (-1, 2), (-1, -2)]
  const ElephantOffsets: seq<(int, int)> := [(2, 2), (2, -2), (-2, 2), (-2, -2)]
  const AdvisorOffsets: seq<(int, int)> := [(1, 1), (1, -1), (-1, 1), (-1, -1)]
  const GeneralOffsets: seq<(int, int)> := [(1, 0), (-1, 0), (0, 1), (0, -1)]

  /** The 3x3 palace of colour `c` (game.js:557, 571). */
  predicate InPalace(c: Color, x: int, y: int) {
    3 <= x <= 5 && (if c == Red then 7 <= y <= 9 else 0 <= y <= 2)
  }

  /** Elephants stay on their own side of the river (game.js:543, 547). */
  predicate OwnSide(c: Color, y: int) {
    if c == Red then y > 4 else y < 5
  }

  /** The square that blocks a Horse jump: one step along the long leg (game.js:530-531). */
  function HorseLeg(x: int, y: int, d: (int, int)): Pos {
    Pos(if d.0 == 2 then x + 1 else if d.0 == -2 then x - 1 else x,
        if d.1 == 2 then y + 1 else if d.1 == -2 then y - 1 else y)
  }

  /** The midpoint that blocks an Elephant leap (game.js:546). */
  function ElephantEye(x: int, y: int, d: (int, int)): Pos {
    Pos(x + d.0 / 2, y + d.1 / 2)
  }

  function Offsets(k: Kind): seq<(int, int)> {
    match k
    case Horse => HorseOffsets
    case Elephant => ElephantOffsets
    case Advisor => AdvisorOffsets
    case General => GeneralOffsets
    case _ => []
  }

  /** Whether the piece `p` standing on (x, y) may hop by `d`: the body of the forEach loop of
      getKnightMoves (game.js:529-535), getElephantMoves (545-550), getGuardMoves (560-564)
      or getKingMoves (574-578). */
  predicate HopAllowed(g: Grid, x: int, y: int, p: Piece, d: (int, int)) {
    var nx, ny := x + d.0, y + d.1;
    match p.kind
    case Horse =>
      OnBoard(nx, ny) && Valid(HorseLeg(x, y, d)) && At(g, HorseLeg(x, y, d)).None?
      && !IsFriend(g[ny][nx], p.color)
    case Elephant =>
      OnBoard(nx, ny) && OwnSide(p.color, ny) && Valid(ElephantEye(x, y, d))
      && At(g, ElephantEye(x, y, d)).None? && !IsFriend(g[ny][nx], p.color)
    case Advisor => InPalace(p.color, nx, ny) && !IsFriend(g[ny][nx], p.color)
    case General => InPalace(p.color, nx, ny) && !IsFriend(g[ny][nx], p.color)
    case _ => false
  }

  /** The destinations of the hops in `offs` that are allowed, in table order. */
  function Hops(g: Grid, x: int, y: int, p: Piece, offs: seq<(int, int)>): seq<Pos> {
    if offs == [] then []
    else
      var d := offs[|offs| - 1];
      Hops(g, x, y, p, offs[..|offs| - 1])
        + (if HopAllowed(g, x, y, p, d) then [Pos(x + d.0, y + d.1)] else [])
  }

  // ---------------------------------------------------------------------------------------
  // Soldier (game.js:450-466)

  /** The squares getSoldierMoves pushes, before its final filter: forward one rank, and
      sideways once the river is crossed (rank 4 or above for Red, 5 or below for Black). */
  function SoldierCandidates(x: int, y: int, c: Color): seq<Pos> {
    var sideways := (if x > 0 then [Pos(x - 1, y)] else []) + (if x < 8 then [Pos(x + 1, y)] else []);
    if c == Red then
      (if y > 0 then [Pos(x, y - 1)] else []) + (if y <= 4 then sideways else [])
    else
      (if y < 9 then [Pos(x, y + 1)] else []) + (if y >= 5 then sideways else [])
  }

  /** The filter of game.js:465 as written: it keeps every on-board square, including one
      held by a friendly piece. */
  function KeepOnBoard(s: seq<Pos>): seq<Pos> {
    if s == [] then []
    else KeepOnBoard(s[..|s| - 1]) + (if Valid(s[|s| - 1]) then [s[|s| - 1]] else [])
  }

  /** The filter every other generator applies: on the board and not held by a friend. */
  function KeepTargets(g: Grid, c: Color, s: seq<Pos>): seq<Pos> {
    if s == [] then []
    else
      var t := s[|s| - 1];
      KeepTargets(g, c, s[..|s| - 1]) + (if Valid(t) && !IsFriend(At(g, t), c) then [t] else [])
  }

  /** getSoldierMoves exactly as written. */
  function SoldierMovesAsWritten(x: int, y: int, c: Color): seq<Pos> {
    KeepOnBoard(SoldierCandidates(x, y, c))
  }

  /** getSoldierMoves with the friendly-square exclusion of the other generators. */
  function SoldierMoves(g: Grid, x: int, y: int, c: Color): seq<Pos> {
    KeepTargets(g, c, SoldierCandidates(x, y, c))
  }

  // ---------------------------------------------------------------------------------------
  // Dispatch (getRawMoves, game.js:304-320)

  function PieceMoves(g: Grid, x: int, y: int, p: Piece): seq<Pos>
    requires OnBoard(x, y)
  {
    match p.kind
    case Soldier => SoldierMoves(g, x, y, p.color)
    case Cannon => CannonMoves(g, x, y, p.color)
    case Chariot => ChariotMoves(g, x, y, p.color)
    case _ => Hops(g, x, y, p, Offsets(p.kind))
  }

  /** The raw moves of whatever stands on (x, y); none for an empty or off-board square. */
  function RawMoves(g: Grid, x: int, y: int): seq<Pos> {
    if !OnBoard(x, y) then []
    else match g[y][x]
      case None => []
      case Some(p) => PieceMoves(g, x, y, p)
  }
}
