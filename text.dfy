/** The few JavaScript string operations the engine relies on: `String.prototype.split` with a
    one-character separator, decimal printing of numbers in template literals, and the global
    `parseInt` with no radix argument. */
module Text {
  import opened Wrappers

  // ---------------------------------------------------------------------------------------
  // split / join

  /** `s.split(sep)`: the maximal pieces between occurrences of `sep`, empty pieces included;
      never an empty list. */
  function Split(s: string, sep: char): (r: seq<string>)
    ensures |r| >= 1
  {
    if s == [] then [""]
    else
      var rest := Split(s[1..], sep);
      if s[0] == sep then [""] + rest else [[s[0]] + rest[0]] + rest[1..]
  }

  /** `parts.join(sep)`. */
  function Join(parts: seq<string>, sep: char): string
    requires |parts| >= 1
  {
    if |parts| == 1 then parts[0] else parts[0] + [sep] + Join(parts[1..], sep)
  }

  predicate NoneContains(parts: seq<string>, c: char) {
    forall i :: 0 <= i < |parts| ==> c !in parts[i]
  }

  lemma {:induction false} SplitPartsFree(s: string, sep: char)
    ensures NoneContains(Split(s, sep), sep)
  {
    if s != [] {
      SplitPartsFree(s[1..], sep);
      var rest := Split(s[1..], sep);
      if s[0] != sep {
        assert sep !in [s[0]] + rest[0];
      }
    }
  }

  lemma {:induction false} JoinSplit(s: string, sep: char)
    ensures Join(Split(s, sep), sep) == s
  {
    if s != [] {
      JoinSplit(s[1..], sep);
      var rest := Split(s[1..], sep);
      if s[0] != sep {
        JoinHead(s[0], rest, sep);
        assert s == [s[0]] + s[1..];
      } else {
        assert ([""] + rest)[1..] == rest;
        assert s == [s[0]] + s[1..];
      }
    }
  }

  lemma JoinHead(x: char, r: seq<string>, sep: char)
    requires |r| >= 1
    ensures Join([[x] + r[0]] + r[1..], sep) == [x] + Join(r, sep)
  {
    var q := [[x] + r[0]] + r[1..];
    assert q[1..] == r[1..];
  }

  /** A string without the separator splits into itself alone. */
  lemma {:induction false} SplitFree(s: string, sep: char)
    requires sep !in s
    ensures Split(s, sep) == [s]
  {
    if s != [] {
      SplitFree(s[1..], sep);
      assert s == [s[0]] + s[1..];
    }
  }

  /** Splitting stops at the first separator. */
  lemma {:induction false} SplitCons(a: string, rest: string, sep: char)
    requires sep !in a
    ensures Split(a + [sep] + rest, sep) == [a] + Split(rest, sep)
  {
    var s := a + [sep] + rest;
    if a == [] {
      assert s[1..] == rest;
    } else {
      assert s[1..] == a[1..] + [sep] + rest;
      SplitCons(a[1..], rest, sep);
      assert [s[0]] + a[1..] == a;
    }
  }

  lemma JoinCons(a: string, rest: seq<string>, sep: char)
    requires |rest| >= 1
    ensures Join([a] + rest, sep) == a + [sep] + Join(rest, sep)
  {
    assert ([a] + rest)[1..] == rest;
  }

  /** Splitting a join of separator-free pieces gives the pieces back. */
  lemma {:induction false} SplitJoin(parts: seq<string>, sep: char)
    requires |parts| >= 1 && NoneContains(parts, sep)
    ensures Split(Join(parts, sep), sep) == parts
  {
    if |parts| == 1 {
      SplitFree(parts[0], sep);
    } else {
      SplitCons(parts[0], Join(parts[1..], sep), sep);
      SplitJoin(parts[1..], sep);
    }
  }

  /** A separator-free word followed by a space and more text: the word is the first piece. */
  lemma SplitWord(w: string, rest: string)
    requires ' ' !in w
    ensures Split(w + " " + rest, ' ') == [w] + Split(rest, ' ')
  {
    assert w + " " + rest == w + [' '] + rest;
    SplitCons(w, rest, ' ');
  }

  lemma CounterFields(c: string)
    requires ' ' !in c
    ensures Split("0 " + c, ' ') == ["0", c]
  {
    SplitFree(c, ' ');
    SplitWord("0", c);
  }

  lemma CastlingFields(c: string)
    requires ' ' !in c
    ensures Split("- 0 " + c, ' ') == ["-", "0", c]
  {
    CounterFields(c);
    assert "- 0 " + c == "-" + " " + ("0 " + c);
    SplitWord("-", "0 " + c);
  }

  /** The last four fields of an exported FEN string: "-", "-", "0" and the counter. */
  lemma TailFields(c: string)
    requires ' ' !in c
    ensures Split("- - 0 " + c, ' ') == ["-", "-", "0", c]
  {
    CastlingFields(c);
    assert "- - 0 " + c == "-" + " " + ("- 0 " + c);
    SplitWord("-", "- 0 " + c);
  }

  lemma TurnFields(t: string, c: string)
    requires ' ' !in t && ' ' !in c
    ensures Split(t + " - - 0 " + c, ' ') == [t, "-", "-", "0", c]
  {
    TailFields(c);
    assert t + " - - 0 " + c == t + " " + ("- - 0 " + c);
    SplitWord(t, "- - 0 " + c);
  }

  /** The six fields of a FEN string of this shape, as `split(' ')` sees them. */
  lemma SixFields(b: string, t: string, c: string)
    requires ' ' !in b && ' ' !in t && ' ' !in c
    ensures Split(b + " " + t + " - - 0 " + c, ' ') == [b, t, "-", "-", "0", c]
  {
    TurnFields(t, c);
    assert b + " " + t + " - - 0 " + c == b + " " + (t + " - - 0 " + c);
    SplitWord(b, t + " - - 0 " + c);
  }

  // ---------------------------------------------------------------------------------------
  // Printing numbers

  function DigitChar(d: int): char
    requires 0 <= d < 10
  {
    ('0' as int + d) as char
  }

  predicate IsDigit(c: char) {
    '0' <= c <= '9'
  }

  function DigitValue(c: char): int
    requires IsDigit(c)
  {
    c as int - '0' as int
  }

  /** Decimal notation of a natural number, as a template literal prints it. */
  function NatStr(n: nat): (s: string)
    ensures |s| >= 1 && forall i :: 0 <= i < |s| ==> IsDigit(s[i])
  {
    if n < 10 then [DigitChar(n)] else NatStr(n / 10) + [DigitChar(n % 10)]
  }

  /** Decimal notation of an integer, with a leading `-` when negative. */
  function IntStr(n: int): string {
    if n < 0 then "-" + NatStr(-n) else NatStr(n)
  }

  // ---------------------------------------------------------------------------------------
  // parseInt

  /** The characters ECMAScript's StrWhiteSpaceChar accepts: tab, vertical tab, form feed,
      space, no-break space, byte-order mark, the other space separators, and the four line
      terminators. */
  predicate IsJsSpace(c: char) {
    var n := c as int;
    n == 0x09 || n == 0x0B || n == 0x0C || n == 0x20 || n == 0xA0 || n == 0xFEFF
    || n == 0x1680 || (0x2000 <= n <= 0x200A) || n == 0x202F || n == 0x205F || n == 0x3000
    || n == 0x0A || n == 0x0D || n == 0x2028 || n == 0x2029
  }

  function TrimStart(s: string): (r: string)
    ensures |r| <= |s| && (r == [] || !IsJsSpace(r[0]))
  {
    if s != [] && IsJsSpace(s[0]) then TrimStart(s[1..]) else s
  }

  /** The value of `c` as a digit of radix `radix` (10 or 16), if it is one. */
  function RadixDigit(c: char, radix: int): Option<int> {
    if IsDigit(c) then Some(DigitValue(c))
    else if radix == 16 && 'a' <= c <= 'f' then Some(c as int - 'a' as int + 10)
    else if radix == 16 && 'A' <= c <= 'F' then Some(c as int - 'A' as int + 10)
    else None
  }

  /** Length of the longest prefix of `s` made of radix digits. */
  function DigitRun(s: string, radix: int): (k: nat)
    ensures k <= |s|
    ensures forall i :: 0 <= i < k ==> RadixDigit(s[i], radix).Some?
    ensures k < |s| ==> RadixDigit(s[k], radix).None?
  {
    if s != [] && RadixDigit(s[0], radix).Some? then DigitRun(s[1..], radix) + 1 else 0
  }

  /** The value of a string of radix digits, most significant first. */
  function RunValue(s: string, radix: int): int
    requires forall i :: 0 <= i < |s| ==> RadixDigit(s[i], radix).Some?
  {
    if s == [] then 0 else RunValue(s[..|s| - 1], radix) * radix + RadixDigit(s[|s| - 1], radix).value
  }

  /** `parseInt(s)` with no radix: leading white space, an optional sign, then a `0x`/`0X`
      prefix selecting radix 16 or else radix 10, then the longest run of digits. `None` stands
      for NaN, the result when there is no digit. */
  function ParseIntJs(s: string): Option<int> {
    var t := TrimStart(s);
    var negative := t != [] && t[0] == '-';
    var u := if t != [] && (t[0] == '-' || t[0] == '+') then t[1..] else t;
    var hex := |u| >= 2 && u[0] == '0' && (u[1] == 'x' || u[1] == 'X');
    var radix := if hex then 16 else 10;
    var body := if hex then u[2..] else u;
    var k := DigitRun(body, radix);
    if k == 0 then None
    else
      var v := RunValue(body[..k], radix);
      Some(if negative then -v else v)
  }

  /** `parseInt(s) || 1`: NaN and zero (also minus zero) become 1. */
  function ParseIntOr1(s: string): (n: int)
    ensures n != 0
    ensures ParseIntJs(s).Some? && ParseIntJs(s).value != 0 ==> n == ParseIntJs(s).value
  {
    match ParseIntJs(s)
    case None => 1
    case Some(v) => if v == 0 then 1 else v
  }

  lemma {:induction false} RunValueNatStr(n: nat)
    ensures DigitRun(NatStr(n), 10) == |NatStr(n)|
    ensures RunValue(NatStr(n), 10) == n
  {
    var s := NatStr(n);
    assert forall i :: 0 <= i < |s| ==> RadixDigit(s[i], 10).Some?;
    DigitRunAll(s, 10);
    if n >= 10 {
      RunValueNatStr(n / 10);
      assert s[..|s| - 1] == NatStr(n / 10);
    }
  }

  lemma {:induction false} DigitRunAll(s: string, radix: int)
    requires forall i :: 0 <= i < |s| ==> RadixDigit(s[i], radix).Some?
    ensures DigitRun(s, radix) == |s|
  {
    if s != [] {
      DigitRunAll(s[1..], radix);
    }
  }

  /** `parseInt` reads back every integer printed in decimal. */
  lemma ParseIntStr(n: int)
    ensures ParseIntJs(IntStr(n)) == Some(n)
  {
    var s := IntStr(n);
    var m: nat := if n < 0 then -n else n;
    RunValueNatStr(m);
    var d := NatStr(m);
    assert !IsJsSpace(s[0]);
    assert TrimStart(s) == s;
    var u := if n < 0 then s[1..] else s;
    assert u == d;
    if m >= 10 {
      LeadingDigitNonZero(m);
    }
    assert d[..|d|] == d;
  }

  lemma {:induction false} LeadingDigitNonZero(n: nat)
    requires n >= 10
    ensures NatStr(n)[0] != '0'
  {
    if n / 10 >= 10 {
      LeadingDigitNonZero(n / 10);
    }
  }
}
