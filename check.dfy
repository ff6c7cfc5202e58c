/** King safety (game.js:340-448): finding a General, the flying-general rule, check,
    the legal-move filter and checkmate, all as functions of a board value. */
module Check {
  import opened Wrappers
  import opened Board
  import opened Moves
  import opened MoveLaws

  predicate IsGeneral(s: Square, c: Color) {
    s == Some(Piece(General, c))
  }

  /** (y', x') is (y, x) or comes after it in the row-major order findKing scans. */
  predicate AtOrAfter(y': int, x': int, y: int, x: int) {
    y' > y || (y' == y && x' >= x)
  }

  /** No General of colour c from square (x, y) up to, not including, square (ex, ey), in the
      row-major order findKing scans. */
  predicate NoGeneralIn(g: Grid, c: Color, y: int, x: int, ey: int, ex: int) {
    forall yy, xx :: (0 <= yy < Rows && 0 <= xx < Cols && AtOrAfter(yy, xx, y, x)
                      && !AtOrAfter(yy, xx, ey, ex)) ==> !IsGeneral(g[yy][xx], c)
  }

  /** findKing (game.js:425-435), resumed at square (x, y): the first General of colour c at or
      after (x, y) in row-major order. */
  function KingFrom(g: Grid, c: Color, y: int, x: int): (r: Option<Pos>)
    requires 0 <= y <= Rows && 0 <= x <= Cols
    ensures r.Some? ==> Valid(r.value) && IsGeneral(At(g, r.value), c)
                        && AtOrAfter(r.value.y, r.value.x, y, x)
    ensures r.Some? ==> NoGeneralIn(g, c, y, x, r.value.y, r.value.x)
    ensures r.None? ==> NoGeneralIn(g, c, y, x, Rows, 0)
    decreases Rows - y, Cols - x
  {
    if y == Rows then None
    else if x == Cols then KingFrom(g, c, y + 1, 0)
    else if IsGeneral(g[y][x], c) then Some(Pos(x, y))
    else KingFrom(g, c, y, x + 1)
  }

  /** The square of the first General of colour c in row-major order, if there is one. */
  function KingPos(g: Grid, c: Color): (r: Option<Pos>)
    ensures r.Some? ==> Valid(r.value) && IsGeneral(At(g, r.value), c)
    ensures r.None? <==> forall yy, xx :: 0 <= yy < Rows && 0 <= xx < Cols ==> !IsGeneral(g[yy][xx], c)
  {
    KingFrom(g, c, 0, 0)
  }

  /** No piece on column x strictly between rows lo and hi. */
  predicate ClearBetween(g: Grid, x: int, lo: int, hi: int)
    requires 0 <= x < Cols
  {
    forall y :: lo < y < hi && 0 <= y < Rows ==> g[y][x].None?
  }

  /** willKingsFaceEachOther (game.js:437-448): both Generals found, on one column, with nothing
      between them. */
  predicate KingsFace(g: Grid) {
    var r, b := KingPos(g, Red), KingPos(g, Black);
    r.Some? && b.Some? && r.value.x == b.value.x
    && ClearBetween(g, r.value.x, if r.value.y < b.value.y then r.value.y else b.value.y,
                    if r.value.y < b.value.y then b.value.y else r.value.y)
  }

  /** Some piece of colour e has a raw move onto t. */
  ghost predicate Attacked(g: Grid, t: Pos, e: Color) {
    exists y, x :: 0 <= y < Rows && 0 <= x < Cols && IsFriend(g[y][x], e) && t in RawMoves(g, x, y)
  }

  /** isKingInCheck (game.js:367-386): c has a General, and it is the target of an enemy raw
      move or the two Generals face each other. */
  ghost predicate InCheck(g: Grid, c: Color) {
    var k := KingPos(g, c);
    k.Some? && (Attacked(g, k.value, Opponent(c)) || KingsFace(g))
  }

  lemma RawMovesValid(g: Grid, x: int, y: int)
    ensures AllValid(RawMoves(g, x, y))
  {
    forall i | 0 <= i < |RawMoves(g, x, y)| ensures Valid(RawMoves(g, x, y)[i]) {
      RawMoveGeometry(g, x, y, RawMoves(g, x, y)[i]);
    }
  }

  /** The squares of s that satisfy keep, in order. */
  ghost function Keep(s: seq<Pos>, keep: Pos -> bool): seq<Pos> {
    if s == [] then [] else Keep(s[..|s| - 1], keep) + (if keep(s[|s| - 1]) then [s[|s| - 1]] else [])
  }

  lemma {:induction false} KeepIff(s: seq<Pos>, keep: Pos -> bool, t: Pos)
    ensures t in Keep(s, keep) <==> t in s && keep(t)
  {
    if s != [] {
      var n := |s| - 1;
      KeepIff(s[..n], keep, t);
      assert s == s[..n] + [s[n]];
    }
  }

  /** Whether moving the piece on (x, y) to t leaves its own General out of check. */
  ghost predicate Safe(g: Grid, x: int, y: int, t: Pos) {
    OnBoard(x, y) && g[y][x].Some? && Valid(t) && !InCheck(Relocate(g, Pos(x, y), t), g[y][x].value.color)
  }

  /** The filter of getLegalMoves (game.js:348-363) applied to the candidate list s: keep the
      squares where the moved piece does not leave its own General in check. */
  ghost function LegalFilter(g: Grid, x: int, y: int, s: seq<Pos>): seq<Pos>
    requires OnBoard(x, y) && g[y][x].Some? && AllValid(s)
  {
    Keep(s, t => Safe(g, x, y, t))
  }

  /** getLegalMoves (game.js:340-365). */
  ghost function LegalMoves(g: Grid, x: int, y: int): seq<Pos> {
    if !OnBoard(x, y) || g[y][x].None? then []
    else
      RawMovesValid(g, x, y);
      LegalFilter(g, x, y, RawMoves(g, x, y))
  }

  /** isCheckmate (game.js:388-423): in check, and no piece of colour c has a legal move. */
  ghost predicate Checkmate(g: Grid, c: Color) {
    InCheck(g, c)
    && forall y, x :: 0 <= y < Rows && 0 <= x < Cols && IsFriend(g[y][x], c) ==> LegalMoves(g, x, y) == []
  }

  // ---------------------------------------------------------------------------------------

  lemma LegalFilterIff(g: Grid, x: int, y: int, s: seq<Pos>, t: Pos)
    requires OnBoard(x, y) && g[y][x].Some? && AllValid(s)
    ensures t in LegalFilter(g, x, y, s) <==>
              t in s && Valid(t) && !InCheck(Relocate(g, Pos(x, y), t), g[y][x].value.color)
  {
    KeepIff(s, t => Safe(g, x, y, t), t);
  }

  /** A legal move is a raw move after which the mover's own General is not in check, and
      every such raw move is legal. */
  lemma LegalMovesIff(g: Grid, x: int, y: int, t: Pos)
    ensures t in LegalMoves(g, x, y) <==>
              OnBoard(x, y) && g[y][x].Some? && t in RawMoves(g, x, y) && Valid(t)
              && !InCheck(Relocate(g, Pos(x, y), t), g[y][x].value.color)
  {
    if OnBoard(x, y) && g[y][x].Some? {
      RawMovesValid(g, x, y);
      LegalFilterIff(g, x, y, RawMoves(g, x, y), t);
    }
  }

  /** Every raw move of the piece on (x, y) leaves colour c in check. */
  ghost predicate NoEscape(g: Grid, x: int, y: int, c: Color)
    requires OnBoard(x, y)
  {
    forall t :: t in RawMoves(g, x, y) && Valid(t) ==> InCheck(Relocate(g, Pos(x, y), t), c)
  }

  lemma NoLegalMovesIff(g: Grid, x: int, y: int, c: Color)
    requires OnBoard(x, y) && IsFriend(g[y][x], c)
    ensures LegalMoves(g, x, y) == [] <==> NoEscape(g, x, y, c)
  {
    if LegalMoves(g, x, y) != [] {
      var t := LegalMoves(g, x, y)[0];
      LegalMovesIff(g, x, y, t);
    } else {
      forall t | t in RawMoves(g, x, y) && Valid(t) ensures InCheck(Relocate(g, Pos(x, y), t), c) {
        LegalMovesIff(g, x, y, t);
      }
    }
  }

  /** Checkmate means: in check, and every raw move of every piece of colour c still leaves
      c's General in check. */
  lemma CheckmateIff(g: Grid, c: Color)
    ensures Checkmate(g, c) <==>
              InCheck(g, c)
              && forall y, x :: 0 <= y < Rows && 0 <= x < Cols && IsFriend(g[y][x], c)
                   ==> NoEscape(g, x, y, c)
  {
    forall y, x | 0 <= y < Rows && 0 <= x < Cols && IsFriend(g[y][x], c)
      ensures LegalMoves(g, x, y) == [] <==> NoEscape(g, x, y, c)
    {
      NoLegalMovesIff(g, x, y, c);
    }
  }

  /** The flying-general rule: Generals facing each other on an open column put both sides in
      check, whatever the other pieces attack. */
  lemma FacingGeneralsCheckBoth(g: Grid)
    requires KingsFace(g)
    ensures InCheck(g, Red) && InCheck(g, Black)
  {
  }

  /** In the opening position Red's General stands on (4, 9) and Black's on (4, 0). */
  lemma OpeningGenerals()
    ensures KingPos(InitialGrid(), Red) == Some(Pos(4, 9))
    ensures KingPos(InitialGrid(), Black) == Some(Pos(4, 0))
  {
    InitialGridIsOpening();
    var g := InitialGrid();
    assert IsGeneral(g[9][4], Red) && IsGeneral(g[0][4], Black);
  }

  /** A piece's move shapes reach at most two ranks away, except along a line for the
      Chariot and the Cannon. */
  lemma ShapeReach(g: Grid, x: int, y: int, p: Piece, t: Pos)
    requires Shape(g, x, y, p, t)
    ensures -2 <= t.y - y <= 2 || ((p.kind == Chariot || p.kind == Cannon) && (t.x == x || t.y == y))
  {
  }

  /** The enemy pieces of the opening stand on the four ranks farthest from the General. */
  lemma OpeningEnemyRanks(c: Color, x: int, y: int)
    requires 0 <= y < Rows && 0 <= x < Cols && IsFriend(OpeningGrid()[y][x], Opponent(c))
    ensures if c == Red then y <= 3 else y >= 6
    ensures x == 4 ==> OpeningGrid()[y][x].value.kind in {General, Soldier}
  {
  }

  /** No enemy piece of the opening has a move shape onto the General's square. */
  lemma OpeningNoShape(c: Color, x: int, y: int)
    requires 0 <= y < Rows && 0 <= x < Cols && IsFriend(OpeningGrid()[y][x], Opponent(c))
    ensures !Shape(OpeningGrid(), x, y, OpeningGrid()[y][x].value, if c == Red then Pos(4, 9) else Pos(4, 0))
  {
    var g := OpeningGrid();
    var k := if c == Red then Pos(4, 9) else Pos(4, 0);
    if Shape(g, x, y, g[y][x].value, k) {
      ShapeReach(g, x, y, g[y][x].value, k);
      OpeningEnemyRanks(c, x, y);
      assert false;
    }
  }

  /** Neither side starts in check, so neither starts checkmated: every enemy piece is at least
      six ranks from the General, which none of their move shapes covers, and the Soldiers on
      column 4 stand between the two Generals. */
  lemma OpeningNotCheckmate(c: Color)
    ensures !InCheck(InitialGrid(), c)
    ensures !Checkmate(InitialGrid(), c)
  {
    InitialGridIsOpening();
    OpeningGenerals();
    var g := InitialGrid();
    assert !KingsFace(g) by {
      assert g[3][4].Some?;
    }
    var k := KingPos(g, c).value;
    if Attacked(g, k, Opponent(c)) {
      var y, x :| 0 <= y < Rows && 0 <= x < Cols && IsFriend(g[y][x], Opponent(c)) && k in RawMoves(g, x, y);
      RawMoveGeometry(g, x, y, k);
      OpeningNoShape(c, x, y);
      assert false;
    }
  }
}
