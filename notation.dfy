/** Move notation (game.js:707-794): a piece letter, the origin file, a direction symbol and a
    distance or destination file, with an index when several identical pieces share the file. */
module Notation {
  import opened Wrappers
  import opened Board
  import opened Moves
  import opened MoveLaws
  import opened Text

  /** getPieceNotation (game.js:707-719). */
  function PieceLetter(k: Kind): char {
    match k
    case Soldier => 'P'
    case Cannon => 'C'
    case Horse => 'N'
    case Elephant => 'B'
    case Chariot => 'R'
    case Advisor => 'A'
    case General => 'K'
  }

  /** The kinds whose notation ends in the destination file (game.js:765). */
  predicate Diagonal(k: Kind) {
    k == Horse || k == Elephant || k == Advisor
  }

  /** The file number of column x from the mover's side: Red counts 9..1 from the left,
      Black 1..9 (game.js:760-761). */
  function File(c: Color, x: int): (f: int)
    ensures 0 <= x < Cols ==> 1 <= f <= 9
  {
    if c == Red then 9 - x else x + 1
  }

  /** A move of dy ranks takes a piece of colour c towards the opponent. */
  predicate Advances(c: Color, dy: int) {
    if c == Red then dy < 0 else dy > 0
  }

  /** The direction symbol of game.js:765-777. */
  function Symbol(k: Kind, c: Color, dy: int): char {
    if Diagonal(k) then
      (if dy > 0 then (if c == Red then '-' else '+') else (if c == Red then '+' else '-'))
    else if dy == 0 then '='
    else if dy < 0 then (if c == Red then '+' else '-')
    else (if c == Red then '-' else '+')
  }

  function Abs(n: int): int {
    if n < 0 then -n else n
  }

  /** The number after the symbol (game.js:765-777). */
  function Distance(k: Kind, c: Color, tx: int, dy: int): int {
    if Diagonal(k) || dy == 0 then File(c, tx) else Abs(dy)
  }

  /** The rows, top to bottom, at which piece p stands in column col: getPiecesInColumn
      (game.js:729-738) after its first k rows. */
  function ColumnRows(g: Grid, p: Piece, col: int, k: int): (ys: seq<int>)
    requires 0 <= k <= Rows
    ensures forall i, j :: 0 <= i < j < |ys| ==> ys[i] < ys[j]
    ensures forall y :: y in ys <==> 0 <= y < k && 0 <= col < Cols && g[y][col] == Some(p)
  {
    if k == 0 then []
    else
      var ys := ColumnRows(g, p, col, k - 1);
      assert forall i :: 0 <= i < |ys| ==> ys[i] in ys;
      ys + (if 0 <= col < Cols && g[k - 1][col] == Some(p) then [k - 1] else [])
  }

  function PiecesInColumn(g: Grid, p: Piece, col: int): seq<int> {
    ColumnRows(g, p, col, Rows)
  }

  function Reverse(s: seq<int>): (r: seq<int>)
    ensures |r| == |s| && forall i :: 0 <= i < |s| ==> r[i] == s[|s| - 1 - i]
  {
    if s == [] then [] else Reverse(s[1..]) + [s[0]]
  }

  /** `findIndex`: the first position holding v, or -1. */
  function IndexOf(s: seq<int>, v: int): (i: int)
    ensures -1 <= i < |s|
    ensures i == -1 <==> v !in s
    ensures 0 <= i ==> s[i] == v && v !in s[..i]
  {
    if s == [] then -1
    else if s[0] == v then 0
    else
      var j := IndexOf(s[1..], v);
      if j == -1 then -1
      else
        assert s[..j + 1] == [s[0]] + s[1..][..j];
        j + 1
  }

  /** The file-mates of the mover in the order game.js:786 sorts them: Red from the bottom up,
      Black from the top down. */
  function Ordered(c: Color, ys: seq<int>): seq<int> {
    if c == Red then Reverse(ys) else ys
  }

  /** The piece letter, with the 1-based rank among its file-mates in front for Red or behind
      for Black when more than one is on the file (game.js:783-789). */
  function Prefix(g: Grid, p: Piece, fx: int, fy: int): string {
    var same := PiecesInColumn(g, p, fx);
    if |same| > 1 then
      var n := IndexOf(Ordered(p.color, same), fy) + 1;
      if p.color == Red then IntStr(n) + [PieceLetter(p.kind)] else [PieceLetter(p.kind)] + IntStr(n)
    else [PieceLetter(p.kind)]
  }

  /** The core of getMoveNotation (game.js:760-792) for piece p moving from (fx, fy) to (tx, ty). */
  function Describe(g: Grid, p: Piece, fx: int, fy: int, tx: int, ty: int): string {
    Prefix(g, p, fx, fy) + IntStr(File(p.color, fx)) + [Symbol(p.kind, p.color, ty - fy)]
      + IntStr(Distance(p.kind, p.color, tx, ty - fy))
  }

  /** getPieceForNotation (game.js:178-183): the snapshot's piece if it has one there, else
      the board's. */
  function PieceForNotation(g: Grid, snapshot: Option<Grid>, x: int, y: int): (r: Square)
    ensures snapshot.Some? && OnBoard(x, y) && snapshot.value[y][x].Some? ==> r == snapshot.value[y][x]
    ensures !(snapshot.Some? && OnBoard(x, y) && snapshot.value[y][x].Some?) ==> r == GetPiece(g, x, y)
  {
    if snapshot.Some? && OnBoard(x, y) && snapshot.value[y][x].Some? then snapshot.value[y][x]
    else GetPiece(g, x, y)
  }

  /** Right after exportFen the snapshot is the board itself, so the lookup is getPiece's. */
  lemma FreshSnapshotReads(g: Grid, x: int, y: int)
    ensures PieceForNotation(g, Some(g), x, y) == GetPiece(g, x, y)
  {
  }

  /** Why the snapshot exists: after a move from `from` to `to` on the board the snapshot was
      taken from, the moved piece is still found at its origin; at the target the captured
      piece is found if there was one, otherwise the mover on the live board. */
  lemma SnapshotFindsMover(g: Grid, from: Pos, to: Pos)
    requires Valid(from) && Valid(to) && from != to && At(g, from).Some?
    ensures PieceForNotation(Relocate(g, from, to), Some(g), from.x, from.y) == At(g, from)
    ensures PieceForNotation(Relocate(g, from, to), Some(g), to.x, to.y) ==
              if At(g, to).Some? then At(g, to) else At(g, from)
  {
  }

  /** The move object getMoveNotation reads; `piece` is absent when the caller leaves it out. */
  datatype NotationMove = NotationMove(fromX: int, fromY: int, toX: int, toY: int, piece: Square)

  /** getMoveNotation (game.js:740-794); None is its "Unknown Move" answer, given when the move
      carries no piece and none is found at its origin. */
  function MoveNotation(g: Grid, snapshot: Option<Grid>, m: NotationMove): (r: Option<string>)
    ensures r.None? <==> m.piece.None? && PieceForNotation(g, snapshot, m.fromX, m.fromY).None?
    ensures m.piece.Some? ==> r == Some(Describe(g, m.piece.value, m.fromX, m.fromY, m.toX, m.toY))
    ensures m.piece.None? && PieceForNotation(g, snapshot, m.fromX, m.fromY).Some? ==>
              r == Some(Describe(g, PieceForNotation(g, snapshot, m.fromX, m.fromY).value,
                                 m.fromX, m.fromY, m.toX, m.toY))
  {
    var piece := if m.piece.Some? then m.piece else PieceForNotation(g, snapshot, m.fromX, m.fromY);
    match piece
    case None => None
    case Some(p) => Some(Describe(g, p, m.fromX, m.fromY, m.toX, m.toY))
  }

  // ---------------------------------------------------------------------------------------

  /** Red's and Black's file numbers of one column are mirror images, and each numbering
      tells columns apart. */
  lemma FileMirror(x: int, x': int)
    ensures File(Red, x) + File(Black, x) == 10
    ensures (File(Red, x) == File(Red, x')) <==> x == x'
    ensures (File(Black, x) == File(Black, x')) <==> x == x'
  {
  }

  /** `+` always means a move towards the opponent and `-` a move back. */
  lemma SymbolAdvances(k: Kind, c: Color, dy: int)
    requires dy != 0
    ensures Symbol(k, c, dy) == '+' <==> Advances(c, dy)
    ensures Symbol(k, c, dy) == '-' <==> !Advances(c, dy)
  {
  }

  /** Two different pieces on one file get different indices, each between 1 and the number
      of file-mates. */
  lemma IndicesDistinct(g: Grid, p: Piece, col: int, y1: int, y2: int)
    requires y1 in PiecesInColumn(g, p, col) && y2 in PiecesInColumn(g, p, col) && y1 != y2
    ensures var o := Ordered(p.color, PiecesInColumn(g, p, col));
            0 <= IndexOf(o, y1) < |o| && 0 <= IndexOf(o, y2) < |o| && IndexOf(o, y1) != IndexOf(o, y2)
  {
    var s := PiecesInColumn(g, p, col);
    var o := Ordered(p.color, s);
    if p.color == Red {
      var i1 :| 0 <= i1 < |s| && s[i1] == y1;
      var i2 :| 0 <= i2 < |s| && s[i2] == y2;
      assert o[|s| - 1 - i1] == y1;
      assert o[|s| - 1 - i2] == y2;
    }
  }

  lemma IntStrInjective(a: int, b: int)
    requires IntStr(a) == IntStr(b)
    ensures a == b
  {
    ParseIntStr(a);
    ParseIntStr(b);
  }

  lemma TailsEqual(a: string, s1: char, d1: string, s2: char, d2: string)
    requires a + [s1] + d1 == a + [s2] + d2
    ensures s1 == s2 && d1 == d2
  {
    var l := a + [s1] + d1;
    var r := a + [s2] + d2;
    assert l[|a|] == s1 && r[|a|] == s2;
    assert l[|a| + 1..] == d1 && r[|a| + 1..] == d2;
  }

  /** The rank change a diagonal mover makes for a file change of |dx|. */
  function Rise(k: Kind, adx: int): int {
    if k == Horse then 3 - adx else adx
  }

  /** What the notation relies on about each kind's moves: a diagonal mover changes both file
      and rank, by amounts tied together by Rise; every other piece changes exactly one. */
  predicate Stride(k: Kind, dx: int, dy: int) {
    if Diagonal(k) then dx != 0 && dy != 0 && Abs(dy) == Rise(k, Abs(dx))
    else (dx == 0) != (dy == 0)
  }

  lemma ShapeStride(g: Grid, x: int, y: int, p: Piece, t: Pos)
    requires Shape(g, x, y, p, t)
    ensures Stride(p.kind, t.x - x, t.y - y)
  {
  }

  /** The symbol and the distance fix the destination of a move of a given stride. */
  lemma StrideDetermined(k: Kind, c: Color, x: int, y: int, t1: Pos, t2: Pos)
    requires Stride(k, t1.x - x, t1.y - y) && Stride(k, t2.x - x, t2.y - y)
    requires Symbol(k, c, t1.y - y) == Symbol(k, c, t2.y - y)
    requires Distance(k, c, t1.x, t1.y - y) == Distance(k, c, t2.x, t2.y - y)
    ensures t1 == t2
  {
    FileMirror(t1.x, t2.x);
  }

  /** Two moves of one piece with different destinations and valid strides are described
      differently. */
  lemma DescribeDistinct(g: Grid, p: Piece, x: int, y: int, t1: Pos, t2: Pos)
    requires Stride(p.kind, t1.x - x, t1.y - y) && Stride(p.kind, t2.x - x, t2.y - y) && t1 != t2
    ensures Describe(g, p, x, y, t1.x, t1.y) != Describe(g, p, x, y, t2.x, t2.y)
  {
    var a := Prefix(g, p, x, y) + IntStr(File(p.color, x));
    var s1, s2 := Symbol(p.kind, p.color, t1.y - y), Symbol(p.kind, p.color, t2.y - y);
    var n1, n2 := Distance(p.kind, p.color, t1.x, t1.y - y), Distance(p.kind, p.color, t2.x, t2.y - y);
    assert Describe(g, p, x, y, t1.x, t1.y) == a + [s1] + IntStr(n1);
    assert Describe(g, p, x, y, t2.x, t2.y) == a + [s2] + IntStr(n2);
    if a + [s1] + IntStr(n1) == a + [s2] + IntStr(n2) {
      TailsEqual(a, s1, IntStr(n1), s2, IntStr(n2));
      IntStrInjective(n1, n2);
      StrideDetermined(p.kind, p.color, x, y, t1, t2);
    }
  }

  /** The notation tells apart every two raw moves of one piece. */
  lemma NotationDistinct(g: Grid, x: int, y: int, t1: Pos, t2: Pos)
    requires t1 in RawMoves(g, x, y) && t2 in RawMoves(g, x, y) && t1 != t2
    ensures Describe(g, g[y][x].value, x, y, t1.x, t1.y) != Describe(g, g[y][x].value, x, y, t2.x, t2.y)
  {
    RawMoveGeometry(g, x, y, t1);
    RawMoveGeometry(g, x, y, t2);
    ShapeStride(g, x, y, g[y][x].value, t1);
    ShapeStride(g, x, y, g[y][x].value, t2);
    DescribeDistinct(g, g[y][x].value, x, y, t1, t2);
  }

  // ---------------------------------------------------------------------------------------
  // What the index and the tail of a description say

  /** Row e stands behind row v as side c sees the board: nearer c's own back rank. */
  predicate Behind(c: Color, e: int, v: int) {
    if c == Red then e > v else e < v
  }

  /** How many of the rows ys stand behind row v for side c. */
  function CountBehind(c: Color, ys: seq<int>, v: int): (n: nat)
    ensures n <= |ys|
  {
    if ys == [] then 0 else (if Behind(c, ys[0], v) then 1 else 0) + CountBehind(c, ys[1..], v)
  }

  lemma {:induction false} CountBehindAppend(c: Color, a: seq<int>, b: seq<int>, v: int)
    ensures CountBehind(c, a + b, v) == CountBehind(c, a, v) + CountBehind(c, b, v)
  {
    if a == [] {
      assert a + b == b;
    } else {
      assert (a + b)[1..] == a[1..] + b;
      CountBehindAppend(c, a[1..], b, v);
    }
  }

  lemma {:induction false} CountBehindNone(c: Color, ys: seq<int>, v: int)
    requires forall i :: 0 <= i < |ys| ==> !Behind(c, ys[i], v)
    ensures CountBehind(c, ys, v) == 0
  {
    if ys != [] {
      CountBehindNone(c, ys[1..], v);
    }
  }

  predicate Increasing(ys: seq<int>) {
    forall i, j :: 0 <= i < j < |ys| ==> ys[i] < ys[j]
  }

  /** In rows listed top to bottom, Black's file-mate at v comes after those above it. */
  lemma {:induction false} IndexBlack(ys: seq<int>, v: int)
    requires Increasing(ys) && v in ys
    ensures IndexOf(ys, v) == CountBehind(Black, ys, v)
  {
    if ys[0] == v {
      CountBehindNone(Black, ys[1..], v);
    } else {
      var j :| 0 <= j < |ys| && ys[j] == v;
      assert ys[1..][j - 1] == v;
      IndexBlack(ys[1..], v);
    }
  }

  /** Read bottom to top, Red's file-mate at v comes after those below it. */
  lemma {:induction false} IndexRed(ys: seq<int>, v: int)
    requires Increasing(ys) && v in ys
    ensures IndexOf(Reverse(ys), v) == CountBehind(Red, ys, v)
  {
    var n := |ys| - 1;
    var m, rest, r := ys[n], ys[..n], Reverse(ys);
    assert ys == rest + [m];
    assert r[1..] == Reverse(rest);
    CountBehindAppend(Red, rest, [m], v);
    if m == v {
      CountBehindNone(Red, rest, v);
    } else {
      var j :| 0 <= j < |ys| && ys[j] == v;
      assert rest[j] == v;
      IndexRed(rest, v);
    }
  }

  /** With more than one identical piece on its file, the mover's index is 1 plus the number
      of its file-mates behind it; it stands before the letter for Red and after it for
      Black. A lone piece is named by its letter alone. */
  lemma PrefixIndex(g: Grid, p: Piece, fx: int, fy: int)
    requires 0 <= fy < Rows && 0 <= fx < Cols && g[fy][fx] == Some(p)
    ensures var same := PiecesInColumn(g, p, fx);
            var n := 1 + CountBehind(p.color, same, fy);
            var letter := [PieceLetter(p.kind)];
            1 <= n <= |same|
            && Prefix(g, p, fx, fy) == if |same| <= 1 then letter
                                       else if p.color == Red then IntStr(n) + letter
                                       else letter + IntStr(n)
  {
    var same := PiecesInColumn(g, p, fx);
    IndexCount(p.color, same, fy);
  }

  /** The position of row v in the mover's order is the number of rows behind it. */
  lemma IndexCount(c: Color, ys: seq<int>, v: int)
    requires Increasing(ys) && v in ys
    ensures IndexOf(Ordered(c, ys), v) == CountBehind(c, ys, v) < |ys|
  {
    if c == Red {
      IndexRed(ys, v);
    } else {
      IndexBlack(ys, v);
    }
    CountBehindBelow(c, ys, v);
  }

  /** A row is not behind itself, so fewer than all rows stand behind one of them. */
  lemma {:induction false} CountBehindBelow(c: Color, ys: seq<int>, v: int)
    requires v in ys
    ensures CountBehind(c, ys, v) < |ys|
  {
    if ys[0] != v {
      var j :| 0 <= j < |ys| && ys[j] == v;
      assert ys[1..][j - 1] == v;
      CountBehindBelow(c, ys[1..], v);
    }
  }

  /** After the origin file, a Horse, Elephant or Advisor move gives the direction and the
      destination file; any other piece gives `=` and the destination file for a move along
      its rank, or the direction and the number of ranks crossed. `+` is a move towards the
      opponent. */
  lemma DescribeReads(g: Grid, p: Piece, fx: int, fy: int, tx: int, ty: int)
    ensures var dy, head := ty - fy, Prefix(g, p, fx, fy) + IntStr(File(p.color, fx));
            var dir := if Advances(p.color, dy) then '+' else '-';
            (Diagonal(p.kind) && dy != 0 ==> Describe(g, p, fx, fy, tx, ty) == head + [dir] + IntStr(File(p.color, tx)))
            && (!Diagonal(p.kind) && dy == 0 ==> Describe(g, p, fx, fy, tx, ty) == head + "=" + IntStr(File(p.color, tx)))
            && (!Diagonal(p.kind) && dy != 0 ==> Describe(g, p, fx, fy, tx, ty) == head + [dir] + IntStr(Abs(dy)))
  {
    if ty - fy != 0 {
      SymbolAdvances(p.kind, p.color, ty - fy);
    }
  }

  // ---------------------------------------------------------------------------------------
  // Square names

  /** getPositionNotation (game.js:721-725): the column from 1 on the left and the rank from
      1 at the bottom, joined by a dot. */
  function PositionNotation(x: int, y: int): string {
    IntStr(x + 1) + "." + IntStr(10 - y)
  }

  lemma NoDot(n: int)
    ensures '.' !in IntStr(n)
  {
    var d := NatStr(if n < 0 then -n else n);
    assert forall i :: 0 <= i < |d| ==> IsDigit(d[i]);
  }

  /** A square name splits at its dot into two numbers that read back as the square's column
      and rank. */
  lemma PositionNotationReads(x: int, y: int)
    ensures var parts := Split(PositionNotation(x, y), '.');
            |parts| == 2 && ParseIntJs(parts[0]) == Some(x + 1) && ParseIntJs(parts[1]) == Some(10 - y)
  {
    NoDot(x + 1);
    NoDot(10 - y);
    SplitCons(IntStr(x + 1), IntStr(10 - y), '.');
    SplitFree(IntStr(10 - y), '.');
    ParseIntStr(x + 1);
    ParseIntStr(10 - y);
  }

  /** Different squares have different names. */
  lemma PositionNotationDistinct(x1: int, y1: int, x2: int, y2: int)
    requires PositionNotation(x1, y1) == PositionNotation(x2, y2)
    ensures x1 == x2 && y1 == y2
  {
    PositionNotationReads(x1, y1);
    PositionNotationReads(x2, y2);
  }
}
