/** The FEN codec of exportFen (game.js:144-175) and importFen (game.js:42-116), as functions on
    board values. A FEN string is six space-separated fields; the first lists the ten ranks from
    row 0 to row 9 separated by `/`, each rank written left to right with a letter per piece
    and a digit per run of empty squares. */
module Fen {
  import opened Wrappers
  import opened Board
  import opened Text

  /** The lower-case letter fenMap gives each kind (game.js:16-30). */
  function Letter(k: Kind): char {
    match k
    case Chariot => 'r'
    case Horse => 'n'
    case Elephant => 'b'
    case Advisor => 'a'
    case General => 'k'
    case Cannon => 'c'
    case Soldier => 'p'
  }

  /** reverseFenMap (game.js:62-70) with the colour rule of game.js:83: upper case is Red. */
  function FenPiece(ch: char): Option<Piece> {
    match ch
    case 'r' => Some(Piece(Chariot, Black))   case 'R' => Some(Piece(Chariot, Red))
    case 'n' => Some(Piece(Horse, Black))     case 'N' => Some(Piece(Horse, Red))
    case 'b' => Some(Piece(Elephant, Black))  case 'B' => Some(Piece(Elephant, Red))
    case 'a' => Some(Piece(Advisor, Black))   case 'A' => Some(Piece(Advisor, Red))
    case 'k' => Some(Piece(General, Black))   case 'K' => Some(Piece(General, Red))
    case 'c' => Some(Piece(Cannon, Black))    case 'C' => Some(Piece(Cannon, Red))
    case 'p' => Some(Piece(Soldier, Black))   case 'P' => Some(Piece(Soldier, Red))
    case _ => None
  }

  /** pieceToFen (game.js:35-41): the kind's letter, upper case for Red. */
  function FenChar(p: Piece): char {
    var l := Letter(p.kind);
    if p.color == Red then (l as int - 'a' as int + 'A' as int) as char else l
  }

  /** importFen reads every letter exportFen writes back as the same piece, and no such letter
      is a digit. */
  lemma FenCharRead(p: Piece)
    ensures FenPiece(FenChar(p)) == Some(p)
    ensures !IsDigit(FenChar(p))
  {
    match p.kind
    case Soldier =>
    case Cannon =>
    case Chariot =>
    case Horse =>
    case Elephant =>
    case Advisor =>
    case General =>
  }

  // ---------------------------------------------------------------------------------------
  // Export

  /** The digits written for `n` pending empty squares (game.js:159-161, 169). */
  function Pending(n: nat): string {
    if n > 0 then NatStr(n) else ""
  }

  /** The inner loop of exportFen over the squares `r`, with `n` empty squares already counted
      and not yet written. */
  function EncodeRun(r: seq<Square>, n: nat): string
    decreases |r|
  {
    if r == [] then Pending(n)
    else if r[0].None? then EncodeRun(r[1..], n + 1)
    else Pending(n) + [FenChar(r[0].value)] + EncodeRun(r[1..], 0)
  }

  function EncodeRank(r: seq<Square>): string {
    EncodeRun(r, 0)
  }

  function EncodedRanks(g: Grid): (rs: seq<string>)
    ensures |rs| == Rows && forall y :: 0 <= y < Rows ==> rs[y] == EncodeRank(g[y])
  {
    seq(Rows, y requires 0 <= y < Rows => EncodeRank(g[y]))
  }

  /** The first FEN field: the encoded ranks joined by `/` (game.js:170). */
  function BoardField(g: Grid): string {
    Join(EncodedRanks(g), '/')
  }

  function TurnField(c: Color): string {
    if c == Red then "w" else "b"
  }

  /** The counter printed by game.js:173: `moveCount || 1`. */
  function CounterField(moveCount: int): string {
    IntStr(if moveCount == 0 then 1 else moveCount)
  }

  /** exportFen's string (game.js:148-174). */
  function ExportFen(g: Grid, turn: Color, moveCount: int): string {
    BoardField(g) + " " + TurnField(turn) + " - - 0 " + CounterField(moveCount)
  }

  // ---------------------------------------------------------------------------------------
  // Import

  /** The variables of importFen's inner loop (game.js:77-96) for one rank: the rank being
      filled, the column `x`, and the two General counters. */
  datatype RankState = RankState(rank: seq<Square>, x: nat, red: nat, black: nat)

  const RankStart: RankState := RankState(EmptyRank, 0, 0, 0)

  /** One character of a rank (game.js:79-95): a digit skips that many columns; while x is on
      the board a piece letter is placed and any other character skips one column; past the
      last column everything but a digit is ignored. */
  function Step(s: RankState, ch: char): (r: RankState)
    requires |s.rank| == Cols
    ensures |r.rank| == Cols
  {
    if IsDigit(ch) then s.(x := s.x + DigitValue(ch))
    else if s.x < Cols then
      match FenPiece(ch)
      case Some(p) =>
        s.(rank := s.rank[s.x := Some(p)], x := s.x + 1,
           red := s.red + (if p == Piece(General, Red) then 1 else 0),
           black := s.black + (if p == Piece(General, Black) then 1 else 0))
      case None => s.(x := s.x + 1)
    else s
  }

  function ParseFrom(s: RankState, row: string): (r: RankState)
    requires |s.rank| == Cols
    ensures |r.rank| == Cols
    decreases |row|
  {
    if row == [] then s else ParseFrom(Step(s, row[0]), row[1..])
  }

  /** One rank string read into a fresh, empty rank. */
  function ParseRank(row: string): (r: RankState)
    ensures |r.rank| == Cols
  {
    ParseFrom(RankStart, row)
  }

  /** The board importFen has built once every rank is read. */
  function ParsedGrid(rows: seq<string>): (g: Grid)
    requires |rows| == Rows
    ensures forall y :: 0 <= y < Rows ==> g[y] == ParseRank(rows[y]).rank
  {
    seq(Rows, y requires 0 <= y < Rows => ParseRank(rows[y]).rank)
  }

  /** kingRedCount after the ranks `rows`. */
  function RedKings(rows: seq<string>): nat {
    if rows == [] then 0 else RedKings(rows[..|rows| - 1]) + ParseRank(rows[|rows| - 1]).red
  }

  /** kingBlackCount after the ranks `rows`. */
  function BlackKings(rows: seq<string>): nat {
    if rows == [] then 0 else BlackKings(rows[..|rows| - 1]) + ParseRank(rows[|rows| - 1]).black
  }

  /** How importFen ends. Each failure keeps what the board had become by then: untouched when
      there are too few fields (game.js:45-48), empty when the rank count is wrong (game.js:54-59),
      fully read when the General count is wrong (game.js:99-102). */
  datatype FenParse =
    | TooFewFields
    | WrongRankCount
    | WrongKingCount(board: Grid)
    | Parsed(board: Grid, turn: Color, moveNumber: int)

  /** importFen's outcome for the string `fen` (game.js:42-116). The move number is read from
      the fifth field, and the side to move is Red exactly when the second field is `w`. */
  function ParseFen(fen: string): FenParse {
    var parts := Split(fen, ' ');
    if |parts| < 6 then TooFewFields
    else
      var rows := Split(parts[0], '/');
      if |rows| != Rows then WrongRankCount
      else if RedKings(rows) != 1 || BlackKings(rows) != 1 then WrongKingCount(ParsedGrid(rows))
      else Parsed(ParsedGrid(rows), if parts[1] == "w" then Red else Black, ParseIntOr1(parts[4]))
  }

  // ---------------------------------------------------------------------------------------
  // Reading a rank counts exactly the Generals it places

  /** The rank-reading invariant: every square from column x on is still empty, and the
      counters match the Generals on the rank. */
  predicate Tidy(s: RankState) {
    |s.rank| == Cols
    && (forall j :: s.x <= j < Cols ==> s.rank[j] == None)
    && s.red == CountInRank(s.rank, Piece(General, Red))
    && s.black == CountInRank(s.rank, Piece(General, Black))
  }

  lemma StepTidy(s: RankState, ch: char)
    requires Tidy(s)
    ensures Tidy(Step(s, ch))
  {
    if !IsDigit(ch) && s.x < Cols && FenPiece(ch).Some? {
      var p := FenPiece(ch).value;
      CountInRankUpdate(s.rank, s.x, Some(p), Piece(General, Red));
      CountInRankUpdate(s.rank, s.x, Some(p), Piece(General, Black));
    }
  }

  lemma {:induction false} ParseFromTidy(s: RankState, row: string)
    requires Tidy(s)
    ensures Tidy(ParseFrom(s, row))
    decreases |row|
  {
    if row != [] {
      StepTidy(s, row[0]);
      ParseFromTidy(Step(s, row[0]), row[1..]);
    }
  }

  lemma ParseRankCounts(row: string)
    ensures ParseRank(row).red == CountInRank(ParseRank(row).rank, Piece(General, Red))
    ensures ParseRank(row).black == CountInRank(ParseRank(row).rank, Piece(General, Black))
  {
    assert CountInRank(EmptyRank, Piece(General, Red)) == 0;
    assert CountInRank(EmptyRank, Piece(General, Black)) == 0;
    ParseFromTidy(RankStart, row);
  }

  lemma {:induction false} KingSums(rows: seq<string>, k: nat)
    requires |rows| == Rows && k <= Rows
    ensures RedKings(rows[..k]) == CountInRanks(ParsedGrid(rows)[..k], Piece(General, Red))
    ensures BlackKings(rows[..k]) == CountInRanks(ParsedGrid(rows)[..k], Piece(General, Black))
  {
    if k > 0 {
      KingSums(rows, k - 1);
      assert rows[..k][..k - 1] == rows[..k - 1];
      assert ParsedGrid(rows)[..k][..k - 1] == ParsedGrid(rows)[..k - 1];
      ParseRankCounts(rows[k - 1]);
    }
  }

  /** The counters importFen checks are the numbers of Generals on the board it built. */
  lemma KingCountsMatchBoard(rows: seq<string>)
    requires |rows| == Rows
    ensures RedKings(rows) == Count(ParsedGrid(rows), Piece(General, Red))
    ensures BlackKings(rows) == Count(ParsedGrid(rows), Piece(General, Black))
  {
    KingSums(rows, Rows);
    assert rows[..Rows] == rows;
    assert ParsedGrid(rows)[..Rows] == ParsedGrid(rows);
  }

  /** A FEN string importFen accepts yields a board with exactly one General per side; one it
      rejects for its Generals yields a board without. */
  lemma ParseFenKings(fen: string)
    ensures ParseFen(fen).Parsed? ==>
              Count(ParseFen(fen).board, Piece(General, Red)) == 1
              && Count(ParseFen(fen).board, Piece(General, Black)) == 1
    ensures ParseFen(fen).WrongKingCount? ==>
              Count(ParseFen(fen).board, Piece(General, Red)) != 1
              || Count(ParseFen(fen).board, Piece(General, Black)) != 1
  {
    var parts := Split(fen, ' ');
    if |parts| >= 6 {
      var rows := Split(parts[0], '/');
      if |rows| == Rows {
        KingCountsMatchBoard(rows);
      }
    }
  }

  // ---------------------------------------------------------------------------------------
  // Round trip

  lemma ParseFromCons(s: RankState, c: char, rest: string)
    requires |s.rank| == Cols
    ensures ParseFrom(s, [c] + rest) == ParseFrom(Step(s, c), rest)
  {
    assert ([c] + rest)[1..] == rest;
  }

  /** For n <= 9 the pending count is a single digit, which moves the column on by n. */
  lemma PendingThen(s: RankState, n: nat, rest: string)
    requires |s.rank| == Cols && n <= 9
    ensures ParseFrom(s, Pending(n) + rest) == ParseFrom(s.(x := s.x + n), rest)
  {
    if n == 0 {
      assert Pending(n) + rest == rest;
    } else {
      var d := DigitChar(n);
      assert Pending(n) == [d];
      assert IsDigit(d) && DigitValue(d) == n;
      assert Step(s, d) == s.(x := s.x + n);
      ParseFromCons(s, d, rest);
    }
  }

  /** Reading back what the export loop writes for the last |r| squares of a rank, starting
      with n empty squares already counted, fills in exactly those squares and counts their
      Generals. */
  predicate ReadsBack(s: RankState, r: seq<Square>, n: nat)
    requires |s.rank| == Cols && s.x + n + |r| == Cols
  {
    var t := ParseFrom(s, EncodeRun(r, n));
    t.rank == s.rank[..s.x + n] + r
    && t.red == s.red + CountInRank(r, Piece(General, Red))
    && t.black == s.black + CountInRank(r, Piece(General, Black))
  }

  lemma {:induction false} EncodeRunRead(s: RankState, r: seq<Square>, n: nat)
    requires |s.rank| == Cols && s.x + n + |r| == Cols
    requires forall j :: s.x <= j < Cols ==> s.rank[j] == None
    ensures ReadsBack(s, r, n)
    decreases |r|
  {
    if r == [] {
      ReadsBackEnd(s, n);
    } else if r[0].None? {
      EncodeRunRead(s, r[1..], n + 1);
      ReadsBackEmpty(s, r, n);
    } else {
      var t := Placed(s.(x := s.x + n), r[0].value);
      EncodeRunRead(t, r[1..], 0);
      ReadsBackPiece(s, r, n);
    }
  }

  lemma ReadsBackEnd(s: RankState, n: nat)
    requires |s.rank| == Cols && s.x + n == Cols
    ensures ReadsBack(s, [], n)
  {
    PendingThen(s, n, "");
    assert Pending(n) + "" == Pending(n);
    assert s.rank[..s.x + n] + [] == s.rank;
  }

  lemma ReadsBackEmpty(s: RankState, r: seq<Square>, n: nat)
    requires |s.rank| == Cols && s.x + n + |r| == Cols && r != [] && r[0] == None
    requires s.rank[s.x + n] == None
    requires ReadsBack(s, r[1..], n + 1)
    ensures ReadsBack(s, r, n)
  {
    assert EncodeRun(r, n) == EncodeRun(r[1..], n + 1);
    assert CountInRank(r, Piece(General, Red)) == CountInRank(r[1..], Piece(General, Red));
    assert CountInRank(r, Piece(General, Black)) == CountInRank(r[1..], Piece(General, Black));
    PrefixThen(s.rank, s.x + n, r);
  }

  /** Extending a prefix by the square that starts r. */
  lemma PrefixThen(a: seq<Square>, k: nat, r: seq<Square>)
    requires r != [] && k < |a| && a[k] == r[0]
    ensures a[..k + 1] + r[1..] == a[..k] + r
  {
    assert a[..k + 1] == a[..k] + [r[0]];
  }

  lemma ReadsBackPiece(s: RankState, r: seq<Square>, n: nat)
    requires |s.rank| == Cols && s.x + n + |r| == Cols && r != [] && r[0].Some?
    requires ReadsBack(Placed(s.(x := s.x + n), r[0].value), r[1..], 0)
    ensures ReadsBack(s, r, n)
  {
    var t := Placed(s.(x := s.x + n), r[0].value);
    PieceThen(s, n, r[0].value, EncodeRun(r[1..], 0));
    assert t.rank[..t.x] == s.rank[..s.x + n] + [r[0]];
    assert s.rank[..s.x + n] + [r[0]] + r[1..] == s.rank[..s.x + n] + r;
  }

  /** The state after importFen places piece p at column x. */
  function Placed(s: RankState, p: Piece): (r: RankState)
    requires |s.rank| == Cols && s.x < Cols
    ensures |r.rank| == Cols
  {
    RankState(s.rank[s.x := Some(p)], s.x + 1,
              s.red + (if p == Piece(General, Red) then 1 else 0),
              s.black + (if p == Piece(General, Black) then 1 else 0))
  }

  lemma PieceThen(s: RankState, n: nat, p: Piece, rest: string)
    requires |s.rank| == Cols && n <= 9 && s.x + n < Cols
    ensures ParseFrom(s, Pending(n) + [FenChar(p)] + rest) == ParseFrom(Placed(s.(x := s.x + n), p), rest)
  {
    var ch := FenChar(p);
    var s1 := s.(x := s.x + n);
    FenCharRead(p);
    assert Step(s1, ch) == Placed(s1, p);
    assert Pending(n) + [ch] + rest == Pending(n) + ([ch] + rest);
    PendingThen(s, n, [ch] + rest);
    ParseFromCons(s1, ch, rest);
  }

  lemma EncodeRankRead(r: seq<Square>)
    requires |r| == Cols
    ensures ParseRank(EncodeRank(r)).rank == r
  {
    EncodeRunRead(RankStart, r, 0);
    assert RankStart.rank[..0] + r == r;
  }

  /** What the export writes uses only digits, piece letters and nothing else. */
  predicate Plain(s: string) {
    forall i :: 0 <= i < |s| ==> IsDigit(s[i]) || FenPiece(s[i]).Some?
  }

  lemma {:induction false} EncodeRunPlain(r: seq<Square>, n: nat)
    ensures Plain(EncodeRun(r, n))
    decreases |r|
  {
    if r != [] {
      if r[0].None? {
        EncodeRunPlain(r[1..], n + 1);
      } else {
        EncodeRunPlain(r[1..], 0);
        FenCharRead(r[0].value);
        var a := Pending(n) + [FenChar(r[0].value)];
        assert Plain(a);
      }
    }
  }

  lemma PlainFree(s: string, c: char)
    requires Plain(s) && (c == '/' || c == ' ')
    ensures c !in s
  {
  }

  lemma {:induction false} JoinPlainNoSpace(parts: seq<string>)
    requires |parts| >= 1 && forall i :: 0 <= i < |parts| ==> Plain(parts[i])
    ensures ' ' !in Join(parts, '/')
  {
    PlainFree(parts[0], ' ');
    if |parts| > 1 {
      JoinPlainNoSpace(parts[1..]);
    }
  }

  lemma BoardFieldSplits(g: Grid)
    ensures Split(BoardField(g), '/') == EncodedRanks(g)
    ensures ' ' !in BoardField(g)
  {
    var rs := EncodedRanks(g);
    forall i | 0 <= i < |rs| ensures Plain(rs[i]) && '/' !in rs[i] {
      EncodeRunPlain(g[i], 0);
      PlainFree(rs[i], '/');
    }
    SplitJoin(rs, '/');
    JoinPlainNoSpace(rs);
  }

  lemma ParseIntZero()
    ensures ParseIntOr1("0") == 1
  {
    assert TrimStart("0") == "0";
    assert DigitRun("0", 10) == 1;
    assert "0"[..1] == "0";
  }

  lemma ExportFields(g: Grid, turn: Color, moveCount: int)
    ensures var parts := Split(ExportFen(g, turn, moveCount), ' ');
            |parts| == 6 && parts[0] == BoardField(g) && parts[1] == TurnField(turn) && parts[4] == "0"
  {
    BoardFieldSplits(g);
    var c := CounterField(moveCount);
    assert ' ' !in c by {
      var m := if moveCount == 0 then 1 else moveCount;
      if m < 0 { assert c == "-" + NatStr(-m); } else { assert c == NatStr(m); }
    }
    SixFields(BoardField(g), TurnField(turn), c);
  }

  /** importFen(exportFen()) restores the board and the side to move, and resets the counter to
      1 because exportFen writes 0 in the field importFen reads; a board without exactly one
      General per side is rejected, with that same board left in place. */
  lemma ExportImport(g: Grid, turn: Color, moveCount: int)
    ensures ParseFen(ExportFen(g, turn, moveCount)) ==
              if Count(g, Piece(General, Red)) == 1 && Count(g, Piece(General, Black)) == 1
              then Parsed(g, turn, 1)
              else WrongKingCount(g)
  {
    ExportFields(g, turn, moveCount);
    BoardFieldSplits(g);
    var rows := EncodedRanks(g);
    forall y | 0 <= y < Rows ensures ParseRank(rows[y]).rank == g[y] {
      EncodeRankRead(g[y]);
    }
    assert ParsedGrid(rows) == g;
    KingCountsMatchBoard(rows);
    ParseIntZero();
  }
}
