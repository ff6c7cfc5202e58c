/** What the raw move generators promise: every destination is on the board and free of
    friendly pieces, and each piece kind reaches exactly the squares its rule allows. */
module MoveLaws {
  import opened Wrappers
  import opened Board
  import opened Moves

  // ---------------------------------------------------------------------------------------
  // Sliding pieces

  /** A Chariot lands on the ray square r[i] iff nothing stands before it and it is not a friend. */
  predicate ChariotLands(g: Grid, r: seq<Pos>, c: Color, i: int)
    requires AllValid(r) && 0 <= i < |r|
  {
    Occupied(g, r[..i]) == 0 && !IsFriend(At(g, r[i]), c)
  }

  /** A Cannon that has already jumped `jumps` pieces lands on r[i] iff r[i] is empty and no
      piece has been passed, or r[i] holds an enemy and exactly one piece has been passed. */
  predicate CannonLands(g: Grid, r: seq<Pos>, c: Color, jumps: nat, i: int)
    requires AllValid(r) && 0 <= i < |r|
  {
    (At(g, r[i]).None? && jumps + Occupied(g, r[..i]) == 0)
    || (IsEnemy(At(g, r[i]), c) && jumps + Occupied(g, r[..i]) == 1)
  }

  lemma OccupiedPrefix(g: Grid, r: seq<Pos>, i: int)
    requires AllValid(r) && 1 <= i <= |r|
    ensures Occupied(g, r[..i]) == (if At(g, r[0]).Some? then 1 else 0) + Occupied(g, r[1..][..i - 1])
  {
    assert r[..i][1..] == r[1..][..i - 1];
  }

  lemma {:induction false} ChariotScanIff(g: Grid, r: seq<Pos>, c: Color, t: Pos)
    requires AllValid(r)
    ensures t in ChariotScan(g, r, c) <==>
              exists i :: 0 <= i < |r| && r[i] == t && ChariotLands(g, r, c, i)
  {
    if r != [] {
      assert r[..0] == [];
      forall i | 1 <= i < |r| ensures ChariotLands(g, r, c, i) <==>
          At(g, r[0]).None? && ChariotLands(g, r[1..], c, i - 1) {
        OccupiedPrefix(g, r, i);
      }
      if At(g, r[0]).None? {
        ChariotScanIff(g, r[1..], c, t);
        if t in ChariotScan(g, r[1..], c) {
          var j :| 0 <= j < |r[1..]| && r[1..][j] == t && ChariotLands(g, r[1..], c, j);
          assert r[j + 1] == t && ChariotLands(g, r, c, j + 1);
        }
        if exists i :: 0 <= i < |r| && r[i] == t && ChariotLands(g, r, c, i) {
          var i :| 0 <= i < |r| && r[i] == t && ChariotLands(g, r, c, i);
          if i > 0 {
            assert r[1..][i - 1] == t && ChariotLands(g, r[1..], c, i - 1);
          }
        }
      }
    }
  }

  lemma {:induction false} CannonScanIff(g: Grid, r: seq<Pos>, c: Color, jumps: nat, t: Pos)
    requires AllValid(r) && jumps <= 1
    ensures t in CannonScan(g, r, c, jumps) <==>
              exists i :: 0 <= i < |r| && r[i] == t && CannonLands(g, r, c, jumps, i)
  {
    if r != [] {
      assert r[..0] == [];
      var j' := if jumps == 0 && At(g, r[0]).Some? then 1 else jumps;
      forall i | 1 <= i < |r| ensures CannonLands(g, r, c, jumps, i) <==>
          (if jumps == 1 then At(g, r[0]).None? else true) && CannonLands(g, r[1..], c, j', i - 1) {
        OccupiedPrefix(g, r, i);
      }
      if jumps == 1 && At(g, r[0]).Some? {
      } else {
        CannonScanIff(g, r[1..], c, j', t);
        if t in CannonScan(g, r[1..], c, j') {
          var j :| 0 <= j < |r[1..]| && r[1..][j] == t && CannonLands(g, r[1..], c, j', j);
          assert r[j + 1] == t && CannonLands(g, r, c, jumps, j + 1);
        }
        if exists i :: 0 <= i < |r| && r[i] == t && CannonLands(g, r, c, jumps, i) {
          var i :| 0 <= i < |r| && r[i] == t && CannonLands(g, r, c, jumps, i);
          if i > 0 {
            assert r[1..][i - 1] == t && CannonLands(g, r[1..], c, j', i - 1);
          }
        }
      }
    }
  }

  /** The Cannon on (x, y) lands on t somewhere along direction d. */
  predicate CannonHits(g: Grid, x: int, y: int, c: Color, d: (int, int), t: Pos)
    requires OnBoard(x, y) && IsUnit(d)
  {
    exists i :: 0 <= i < |Ray(x, y, d)| && Ray(x, y, d)[i] == t && CannonLands(g, Ray(x, y, d), c, 0, i)
  }

  /** The Chariot on (x, y) lands on t somewhere along direction d. */
  predicate ChariotHits(g: Grid, x: int, y: int, c: Color, d: (int, int), t: Pos)
    requires OnBoard(x, y) && IsUnit(d)
  {
    exists i :: 0 <= i < |Ray(x, y, d)| && Ray(x, y, d)[i] == t && ChariotLands(g, Ray(x, y, d), c, i)
  }

  lemma {:induction false} CannonRaysIff(g: Grid, x: int, y: int, c: Color, ds: seq<(int, int)>, t: Pos)
    requires OnBoard(x, y) && AllUnit(ds)
    ensures t in CannonRays(g, x, y, c, ds) <==> exists k :: 0 <= k < |ds| && CannonHits(g, x, y, c, ds[k], t)
  {
    if ds != [] {
      var n := |ds| - 1;
      CannonRaysIff(g, x, y, c, ds[..n], t);
      CannonScanIff(g, Ray(x, y, ds[n]), c, 0, t);
      assert forall k :: 0 <= k < n ==> ds[..n][k] == ds[k];
    }
  }

  lemma {:induction false} ChariotRaysIff(g: Grid, x: int, y: int, c: Color, ds: seq<(int, int)>, t: Pos)
    requires OnBoard(x, y) && AllUnit(ds)
    ensures t in ChariotRays(g, x, y, c, ds) <==> exists k :: 0 <= k < |ds| && ChariotHits(g, x, y, c, ds[k], t)
  {
    if ds != [] {
      var n := |ds| - 1;
      ChariotRaysIff(g, x, y, c, ds[..n], t);
      ChariotScanIff(g, Ray(x, y, ds[n]), c, t);
      assert forall k :: 0 <= k < n ==> ds[..n][k] == ds[k];
    }
  }

  /** The Cannon rule of game.js:468-504 stated outright: a Cannon on (x, y) reaches t iff t lies
      on one of the four rays, and either t and every square before it are empty, or t holds an
      enemy and exactly one piece (the screen) stands between. */
  lemma CannonMovesIff(g: Grid, x: int, y: int, c: Color, t: Pos)
    requires OnBoard(x, y)
    ensures t in CannonMoves(g, x, y, c) <==> exists k :: 0 <= k < 4 && CannonHits(g, x, y, c, Directions[k], t)
  {
    CannonRaysIff(g, x, y, c, Directions, t);
  }

  /** The Chariot rule of game.js:506-523: it reaches t iff t lies on one of the four rays with
      nothing before it, and t is empty or holds an enemy. */
  lemma ChariotMovesIff(g: Grid, x: int, y: int, c: Color, t: Pos)
    requires OnBoard(x, y)
    ensures t in ChariotMoves(g, x, y, c) <==> exists k :: 0 <= k < 4 && ChariotHits(g, x, y, c, Directions[k], t)
  {
    ChariotRaysIff(g, x, y, c, Directions, t);
  }

  // ---------------------------------------------------------------------------------------
  // Hops

  /** The piece p on (x, y) lands on t by the hop d. */
  predicate HopHits(g: Grid, x: int, y: int, p: Piece, d: (int, int), t: Pos) {
    t == Pos(x + d.0, y + d.1) && HopAllowed(g, x, y, p, d)
  }

  lemma {:induction false} HopsIff(g: Grid, x: int, y: int, p: Piece, offs: seq<(int, int)>, t: Pos)
    ensures t in Hops(g, x, y, p, offs) <==> exists k :: 0 <= k < |offs| && HopHits(g, x, y, p, offs[k], t)
  {
    if offs != [] {
      var n := |offs| - 1;
      HopsIff(g, x, y, p, offs[..n], t);
      assert forall k :: 0 <= k < n ==> offs[..n][k] == offs[k];
    }
  }

  // ---------------------------------------------------------------------------------------
  // Soldier

  lemma {:induction false} KeepTargetsIff(g: Grid, c: Color, s: seq<Pos>, t: Pos)
    ensures t in KeepTargets(g, c, s) <==> t in s && Valid(t) && !IsFriend(At(g, t), c)
  {
    if s != [] {
      KeepTargetsIff(g, c, s[..|s| - 1], t);
      assert s == s[..|s| - 1] + [s[|s| - 1]];
    }
  }

  lemma {:induction false} KeepOnBoardIff(s: seq<Pos>, t: Pos)
    ensures t in KeepOnBoard(s) <==> t in s && Valid(t)
  {
    if s != [] {
      KeepOnBoardIff(s[..|s| - 1], t);
      assert s == s[..|s| - 1] + [s[|s| - 1]];
    }
  }

  /** The rank a soldier of colour `c` advances by: towards the opponent's back rank. */
  function Forward(c: Color): int {
    if c == Red then -1 else 1
  }

  /** Whether a soldier of colour `c` on rank y has crossed the river. */
  predicate Crossed(c: Color, y: int) {
    if c == Red then y <= 4 else y >= 5
  }

  /** The soldier rule: one step forward, or one step sideways once across the river, onto a
      square not held by a friend; never backwards. */
  lemma SoldierMovesIff(g: Grid, x: int, y: int, c: Color, t: Pos)
    requires OnBoard(x, y)
    ensures t in SoldierMoves(g, x, y, c) <==>
              Valid(t) && !IsFriend(At(g, t), c)
              && (t == Pos(x, y + Forward(c))
                  || (Crossed(c, y) && (t == Pos(x - 1, y) || t == Pos(x + 1, y))))
  {
    KeepTargetsIff(g, c, SoldierCandidates(x, y, c), t);
  }

  /** As written, the soldier filter keeps a square held by a friendly piece: a Red soldier on
      (0, 6) with a Red Cannon on (0, 5) may "move" onto its own Cannon. */
  lemma SoldierAsWrittenTakesFriend()
    ensures var g := Put(Put(EmptyGrid(), Pos(0, 6), Some(Piece(Soldier, Red))),
                         Pos(0, 5), Some(Piece(Cannon, Red)));
            Pos(0, 5) in SoldierMovesAsWritten(0, 6, Red)
            && IsFriend(At(g, Pos(0, 5)), Red)
            && Pos(0, 5) !in SoldierMoves(g, 0, 6, Red)
  {
    var g := Put(Put(EmptyGrid(), Pos(0, 6), Some(Piece(Soldier, Red))),
                 Pos(0, 5), Some(Piece(Cannon, Red)));
    KeepOnBoardIff(SoldierCandidates(0, 6, Red), Pos(0, 5));
    SoldierMovesIff(g, 0, 6, Red, Pos(0, 5));
  }

  // ---------------------------------------------------------------------------------------
  // All kinds together

  /** The shape of a raw move (dx, dy) = (t.x - x, t.y - y) of a piece p, with the palace,
      river, leg and eye conditions of game.js:450-581. */
  ghost predicate Shape(g: Grid, x: int, y: int, p: Piece, t: Pos) {
    var dx, dy := t.x - x, t.y - y;
    match p.kind
    case Soldier =>
      (dx == 0 && dy == Forward(p.color)) || ((dx == 1 || dx == -1) && dy == 0 && Crossed(p.color, y))
    case Chariot => (dx == 0) != (dy == 0)
    case Cannon => (dx == 0) != (dy == 0)
    case Horse =>
      (((dx == 1 || dx == -1) && (dy == 2 || dy == -2)) || ((dx == 2 || dx == -2) && (dy == 1 || dy == -1)))
      && Valid(HorseLeg(x, y, (dx, dy))) && At(g, HorseLeg(x, y, (dx, dy))).None?
    case Elephant =>
      (dx == 2 || dx == -2) && (dy == 2 || dy == -2) && OwnSide(p.color, t.y)
      && Valid(ElephantEye(x, y, (dx, dy))) && At(g, ElephantEye(x, y, (dx, dy))).None?
    case Advisor => (dx == 1 || dx == -1) && (dy == 1 || dy == -1) && InPalace(p.color, t.x, t.y)
    case General =>
      ((dx == 0) != (dy == 0)) && -1 <= dx <= 1 && -1 <= dy <= 1 && InPalace(p.color, t.x, t.y)
  }

  lemma RayStepShape(x: int, y: int, d: (int, int), i: int)
    requires IsUnit(d) && OnBoard(x, y) && 0 <= i < |Ray(x, y, d)|
    ensures var t := Ray(x, y, d)[i]; (t.x - x == 0) != (t.y - y == 0)
  {
    RayAt(x, y, d, i);
  }

  lemma ChariotMoveShape(g: Grid, x: int, y: int, c: Color, t: Pos)
    requires OnBoard(x, y) && t in ChariotMoves(g, x, y, c)
    ensures Valid(t) && !IsFriend(At(g, t), c) && (t.x - x == 0) != (t.y - y == 0)
  {
    ChariotMovesIff(g, x, y, c, t);
    var k :| 0 <= k < 4 && ChariotHits(g, x, y, c, Directions[k], t);
    var i :| 0 <= i < |Ray(x, y, Directions[k])| && Ray(x, y, Directions[k])[i] == t
      && ChariotLands(g, Ray(x, y, Directions[k]), c, i);
    RayStepShape(x, y, Directions[k], i);
  }

  lemma CannonMoveShape(g: Grid, x: int, y: int, c: Color, t: Pos)
    requires OnBoard(x, y) && t in CannonMoves(g, x, y, c)
    ensures Valid(t) && !IsFriend(At(g, t), c) && (t.x - x == 0) != (t.y - y == 0)
  {
    CannonMovesIff(g, x, y, c, t);
    var k :| 0 <= k < 4 && CannonHits(g, x, y, c, Directions[k], t);
    var i :| 0 <= i < |Ray(x, y, Directions[k])| && Ray(x, y, Directions[k])[i] == t
      && CannonLands(g, Ray(x, y, Directions[k]), c, 0, i);
    RayStepShape(x, y, Directions[k], i);
  }

  lemma HopMoveShape(g: Grid, x: int, y: int, p: Piece, t: Pos)
    requires p.kind in {Horse, Elephant, Advisor, General}
    requires OnBoard(x, y) && t in Hops(g, x, y, p, Offsets(p.kind))
    ensures Valid(t) && !IsFriend(At(g, t), p.color) && Shape(g, x, y, p, t)
  {
    var offs := Offsets(p.kind);
    var k := HopWitness(g, x, y, p, offs, t);
    HopShape(g, x, y, p, offs[k]);
  }

  /** The table entry a hop destination comes from. */
  lemma HopWitness(g: Grid, x: int, y: int, p: Piece, offs: seq<(int, int)>, t: Pos) returns (k: int)
    requires t in Hops(g, x, y, p, offs)
    ensures 0 <= k < |offs| && HopHits(g, x, y, p, offs[k], t)
  {
    HopsIff(g, x, y, p, offs, t);
    k :| 0 <= k < |offs| && HopHits(g, x, y, p, offs[k], t);
  }

  /** One allowed hop by an offset from the piece's own table has the piece's shape. */
  lemma HopShape(g: Grid, x: int, y: int, p: Piece, d: (int, int))
    requires p.kind in {Horse, Elephant, Advisor, General}
    requires OnBoard(x, y) && d in Offsets(p.kind) && HopAllowed(g, x, y, p, d)
    ensures var t := Pos(x + d.0, y + d.1);
            Valid(t) && !IsFriend(At(g, t), p.color) && Shape(g, x, y, p, t)
  {
    var t := Pos(x + d.0, y + d.1);
    assert (t.x - x, t.y - y) == d;
  }

  lemma {:induction false} SoldierMoveShape(g: Grid, x: int, y: int, c: Color, t: Pos)
    requires OnBoard(x, y) && t in SoldierMoves(g, x, y, c)
    ensures Valid(t) && !IsFriend(At(g, t), c) && Shape(g, x, y, Piece(Soldier, c), t)
  {
    SoldierMovesIff(g, x, y, c, t);
  }

  /** Every raw move of the piece on (x, y) lands on the board, on a square that does not hold
      a piece of the mover's colour, and has the shape its kind's rule prescribes. */
  lemma RawMoveGeometry(g: Grid, x: int, y: int, t: Pos)
    requires t in RawMoves(g, x, y)
    ensures OnBoard(x, y) && g[y][x].Some?
    ensures Valid(t) && !IsFriend(At(g, t), g[y][x].value.color)
    ensures Shape(g, x, y, g[y][x].value, t)
  {
    var p := g[y][x].value;
    match p.kind
    case Soldier => SoldierMoveShape(g, x, y, p.color, t);
    case Chariot => ChariotMoveShape(g, x, y, p.color, t);
    case Cannon => CannonMoveShape(g, x, y, p.color, t);
    case _ => HopMoveShape(g, x, y, p, t);
  }

  /** A raw move never stays on its own square. */
  lemma RawMoveLeaves(g: Grid, x: int, y: int, t: Pos)
    requires t in RawMoves(g, x, y)
    ensures t != Pos(x, y)
  {
    RawMoveGeometry(g, x, y, t);
  }
}
