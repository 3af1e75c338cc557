/**
 The JSON parser and printer (src/core/util/json/cJSON.c).

 A text is the sequence of its bytes up to the terminating NUL, written as characters with
 codes below 256. The functions say what the parser and the printer compute; the methods
 compute it as the code does, with loops over the text and buffers of the sizes it
 allocates.
 */
module Json {
  import opened Common

  const TWO_63 := 0x8000_0000_0000_0000
  const TWO_64 := 0x1_0000_0000_0000_0000
  const TWO_32 := 0x1_0000_0000

  type U64 = x: int | 0 <= x < TWO_64

  /** A node; children are linked lists. An integer is printed as signed if `sign` is -1. A
      number with a fraction or an exponent is kept as its text. */
  datatype Value =
    | Null | False | True
    | Int(value: U64, sign: int)
    | Double(text: string)
    | Str(s: string)
    | Arr(items: Items)
    | Obj(members: Members)
  datatype Items = NoItems | Item(head: Value, next: Items)
  datatype Members = NoMembers | Member(name: string, value: Value, next: Members)

  // --------------------------------------------------------------- printing

  /** The number an integer node stands for. */
  function Denotes(value: U64, sign: int): (n: int) {
    if sign == -1 && TWO_63 <= value then value - TWO_64 else value
  }

  function PrintInt(value: U64, sign: int): (s: string) {
    var n := Denotes(value, sign);
    if n < 0 then "-" + Decimal(-n) else Decimal(n)
  }

  function HexDigit(d: nat): (c: char)
    requires d < 16
  {
    if d < 10 then Digit(d) else ('a' as int + d - 10) as char
  }

  /** The letter of a two-character escape, if the character has one. */
  function Letter(c: char): (r: Option<char>) {
    if c == '\\' then Some('\\')
    else if c == '\"' then Some('\"')
    else if c == 8 as char then Some('b')
    else if c == 12 as char then Some('f')
    else if c == '\n' then Some('n')
    else if c == '\r' then Some('r')
    else if c == '\t' then Some('t')
    else None
  }

  function Escape(c: char): (s: string)
    ensures 0 < |s| <= 6
  {
    if c >= ' ' && c != '\"' && c != '\\' then [c]
    else if Letter(c).Some? then ['\\', Letter(c).value]
    else ['\\', 'u', '0', '0', HexDigit(c as int / 16), HexDigit(c as int % 16)]
  }

  function EscapeAll(s: string): (t: string) {
    if s == [] then [] else Escape(s[0]) + EscapeAll(s[1..])
  }

  function PrintString(s: string): (t: string) {
    "\"" + EscapeAll(s) + "\""
  }

  function Tabs(n: nat): (s: string)
    ensures |s| == n
  {
    seq(n, _ => '\t')
  }

  function Print(v: Value, depth: nat, fmt: bool): (t: string)
    decreases v
  {
    match v
    case Null => "null"
    case False => "false"
    case True => "true"
    case Int(value, sign) => PrintInt(value, sign)
    case Double(text) => text
    case Str(s) => PrintString(s)
    case Arr(items) => "[" + PrintItems(items, depth + 1, fmt) + "]"
    case Obj(members) =>
      "{" + (if fmt then "\n" else "") + PrintMembers(members, depth + 1, fmt)
      + (if fmt then Tabs(depth) else "") + "}"
  }

  function PrintItems(items: Items, depth: nat, fmt: bool): (t: string)
    decreases items
  {
    if items.NoItems? then ""
    else if items.next.NoItems? then Print(items.head, depth, fmt)
    else Print(items.head, depth, fmt) + (if fmt then ", " else ",") + PrintItems(items.next, depth, fmt)
  }

  function PrintMember(name: string, value: string, depth: nat, fmt: bool, last: bool): (t: string) {
    (if fmt then Tabs(depth) else "") + PrintString(name) + (if fmt then ":\t" else ":") + value
    + (if last then "" else ",") + (if fmt then "\n" else "")
  }

  function PrintMembers(members: Members, depth: nat, fmt: bool): (t: string)
    decreases members
  {
    if members.NoMembers? then ""
    else
      PrintMember(members.name, Print(members.value, depth, fmt), depth, fmt, members.next.NoMembers?)
      + PrintMembers(members.next, depth, fmt)
  }

  // ---------------------------------------------------------------- parsing

  /** What a parsing function comes to: a value and the text behind it, a reported failure, or
      behaviour that the language does not define, because memory outside the text or outside
      the output is touched, or a variable is used that was never set. */
  datatype Outcome<T, R> = Parsed(value: T, rest: R) | Failed | Undefined

  /** The rest of a text after blanks and control characters. */
  function Skip(t: string): (r: string)
    ensures |r| <= |t| && (r != [] ==> r[0] > ' ')
  {
    if t != [] && t[0] <= ' ' then Skip(t[1..]) else t
  }

  /** The leading digits of a text. */
  function DigitsOf(t: string): (s: string)
    ensures |s| <= |t| && (forall k :: 0 <= k < |s| ==> IsDigit(s[k]))
    ensures IsDigit(At(t, 0)) ==> s != []
  {
    if t == [] || !IsDigit(t[0]) then [] else [t[0]] + DigitsOf(t[1..])
  }

  function At(t: string, k: nat): (c: char) {
    if k < |t| then t[k] else 0 as char
  }

  /** The digits before the point: one zero is passed over, and the rest must not start with
      another. */
  function ScanDigits(t: string): (r: (string, string))
    ensures |r.1| <= |t| && (forall k :: 0 <= k < |r.0| ==> IsDigit(r.0[k]))
    ensures IsDigit(At(t, 0)) ==> |r.1| < |t|
  {
    var u := if At(t, 0) == '0' then t[1..] else t;
    var digits := if '1' <= At(u, 0) <= '9' then DigitsOf(u) else [];
    (digits, u[|digits|..])
  }

  function ScanFraction(t: string): (r: (string, string))
    ensures |r.1| <= |t|
  {
    var digits := if At(t, 0) == '.' && IsDigit(At(t, 1)) then DigitsOf(t[1..]) else [];
    (digits, if digits == [] then t else t[1 + |digits|..])
  }

  function ScanExponent(t: string): (r: (string, string))
    ensures |r.1| <= |t| && (forall k :: 0 <= k < |r.0| ==> IsDigit(r.0[k]))
  {
    if At(t, 0) != 'e' && At(t, 0) != 'E' then ([], t)
    else
      var u := if At(t, 1) == '+' || At(t, 1) == '-' then t[2..] else t[1..];
      (DigitsOf(u), u[|DigitsOf(u)|..])
  }

  /** A signed product, taken as a 64-bit number. */
  function Integer(negative: bool, n: nat): (v: Value) {
    if negative then Int((TWO_64 - n % TWO_64) % TWO_64, -1) else Int(n % TWO_64, 1)
  }

  /** The exponent is an `int`, and an exponent that wraps to zero leaves an integer. */
  function ParseUnsigned(t: string, negative: bool): (r: (Value, string))
    ensures |r.1| <= |t|
    ensures IsDigit(At(t, 0)) ==> |r.1| < |t|
  {
    var d := ScanDigits(t);
    var f := ScanFraction(d.1);
    var e := ScanExponent(f.1);
    var v := if f.0 == [] && ValueOf(e.0) % TWO_32 == 0 then Integer(negative, ValueOf(d.0))
             else Double((if negative then "-" else "") + t[..|t| - |e.1|]);
    (v, e.1)
  }

  function ParseNumber(t: string): (r: (Value, string))
    ensures |r.1| <= |t|
    ensures At(t, 0) == '-' || IsDigit(At(t, 0)) ==> |r.1| < |t|
  {
    if At(t, 0) == '-' then ParseUnsigned(t[1..], true) else ParseUnsigned(t, false)
  }

  function HexValue(c: char): (r: Option<nat>)
    ensures r.Some? ==> r.value < 16
  {
    if IsDigit(c) then Some(c as int - '0' as int)
    else if 'a' <= c <= 'f' then Some(c as int - 'a' as int + 10)
    else if 'A' <= c <= 'F' then Some(c as int - 'A' as int + 10)
    else None
  }

  /** Four hexadecimal digits. */
  function Hex4(t: string): (r: Option<nat>)
    ensures r.Some? ==> 4 <= |t| && r.value < 0x10000
  {
    if |t| < 4 then None
    else
      var a, b, c, d := HexValue(t[0]), HexValue(t[1]), HexValue(t[2]), HexValue(t[3]);
      if a.Some? && b.Some? && c.Some? && d.Some?
      then Some(((a.value * 16 + b.value) * 16 + c.value) * 16 + d.value) else None
  }

  predicate IsSpace(c: char) {
    c == ' ' || 9 as char <= c <= 13 as char
  }

  function AfterSpace(t: string): (u: string) {
    if t != [] && IsSpace(t[0]) then AfterSpace(t[1..]) else t
  }

  /** The number that the leading hexadecimal digits of `t` continue. */
  function HexRun(t: string, n: nat): (m: nat) {
    if t == [] || HexValue(t[0]).None? then n else HexRun(t[1..], n * 16 + HexValue(t[0]).value)
  }

  lemma {:induction false} HexRunBound(t: string, n: nat, limit: nat)
    requires n < limit
    ensures HexRun(t, n) < limit * Power16(|t|)
  {
    if t == [] || HexValue(t[0]).None? {
      assert limit <= limit * Power16(|t|);
    } else {
      HexRunBound(t[1..], n * 16 + HexValue(t[0]).value, limit * 16);
      assert limit * 16 * Power16(|t| - 1) == limit * (16 * Power16(|t| - 1));
    }
  }

  function Power16(n: nat): (p: nat)
    ensures p > 0
  {
    if n == 0 then 1 else 16 * Power16(n - 1)
  }

  /** `sscanf` with `%4x`: blanks, and then at most four characters with a sign, a prefix and
      digits. Nothing is stored if there is no digit. */
  function Scan4(t: string): (r: Option<nat>)
    ensures r.Some? ==> r.value < TWO_32
    ensures t == [] || t[0] == '\\' ==> r.None?
  {
    var u := AfterSpace(t);
    ScanField(u[..Min(4, |u|)])
  }

  function ScanField(f: string): (r: Option<nat>)
    requires |f| <= 4
    ensures r.Some? ==> f != [] && f[0] != '\\' && r.value < TWO_32
  {
    var d := if At(f, 0) == '+' || At(f, 0) == '-' then f[1..] else f;
    if HexValue(At(d, 0)).None? then None
    else
      var n := ScanNumber(d);
      Some(if f[0] == '-' && n > 0 then TWO_32 - n else n)
  }

  function ScanNumber(d: string): (n: nat)
    requires |d| <= 4
    ensures n < 0x10000
  {
    var h := if At(d, 0) == '0' && (At(d, 1) == 'x' || At(d, 1) == 'X') then d[2..] else d;
    HexRunBound(h, 0, 1);
    PowersOf16();
    HexRun(h, 0)
  }

  lemma PowersOf16()
    ensures Power16(0) == 1 && Power16(1) == 16 && Power16(2) == 256 && Power16(3) == 4096 && Power16(4) == 65536
  {
    assert Power16(3) == 16 * Power16(2);
  }

  /** The UTF-8 bytes that are written for a code. */
  function Utf8(uc: nat): (s: string)
    requires uc < TWO_32
    ensures 0 < |s| <= 4 && (uc < 0x10000 ==> |s| <= 3)
  {
    if uc < 0x80 then [uc as char]
    else if uc < 0x800 then [(0xC0 + uc / 64) as char, (0x80 + uc % 64) as char]
    else if uc < 0x10000 then
      [(0xE0 + uc / 4096) as char, (0x80 + uc / 64 % 64) as char, (0x80 + uc % 64) as char]
    else
      [(0xF0 + uc / 0x40000 % 16) as char, (0x80 + uc / 4096 % 64) as char, (0x80 + uc / 64 % 64) as char,
       (0x80 + uc % 64) as char]
  }

  /** The code that UTF-8 bytes stand for (section 3 of RFC 3629): the leading byte tells how many
      follow, and each of these holds six bits. */
  function Utf8Code(s: string): (r: Option<nat>) {
    if |s| == 1 && Bits(s[0], 0, 0x80).Some? then Bits(s[0], 0, 0x80)
    else if |s| == 2 then More(Bits(s[0], 0xC0, 0x20), s[1..])
    else if |s| == 3 then More(Bits(s[0], 0xE0, 0x10), s[1..])
    else if |s| == 4 then More(Bits(s[0], 0xF0, 0x08), s[1..])
    else None
  }

  /** The bits of a byte behind its mark. */
  function Bits(b: char, mark: nat, size: nat): (r: Option<nat>) {
    if mark <= b as nat < mark + size then Some(b as nat - mark) else None
  }

  function More(n: Option<nat>, s: string): (r: Option<nat>)
    decreases |s|
  {
    if n.None? || s == [] then n
    else
      var low := Bits(s[0], 0x80, 0x40);
      More(if low.None? then None else Some(n.value * 64 + low.value), s[1..])
  }

  lemma Sixes(uc: nat)
    ensures uc / 64 * 64 + uc % 64 == uc
    ensures uc / 4096 == uc / 64 / 64 && uc / 0x40000 == uc / 4096 / 64
    ensures uc / 4096 * 64 + uc / 64 % 64 == uc / 64 && uc / 0x40000 * 64 + uc / 4096 % 64 == uc / 4096
  {
  }

  /** The bytes that are written for a code decode to it, if it is a code at all. */
  lemma Utf8Decodes(uc: nat)
    requires uc < 0x110000
    ensures Utf8Code(Utf8(uc)) == Some(uc)
  {
    var s := Utf8(uc);
    Sixes(uc);
    if 0x80 <= uc < 0x800 {
      MoreOne(uc / 64, s[1]);
      assert s[1..] == [s[1]];
    } else if 0x800 <= uc < 0x10000 {
      MoreTwo(uc / 4096, s[1], s[2]);
      assert s[1..] == [s[1], s[2]];
    } else if 0x10000 <= uc {
      Utf8DecodesLong(uc);
    }
  }

  lemma Utf8DecodesLong(uc: nat)
    requires 0x10000 <= uc < 0x110000
    ensures Utf8Code(Utf8(uc)) == Some(uc)
  {
    var s, n := Utf8(uc), uc / 0x40000;
    Sixes(uc);
    assert n < 8 && Bits(s[0], 0xF0, 0x08) == Some(n);
    MoreThree(n, s[1], s[2], s[3]);
    assert s[1..] == [s[1], s[2], s[3]];
  }

  lemma MoreOne(n: nat, a: char)
    requires 0x80 <= a as nat < 0xC0
    ensures More(Some(n), [a]) == Some(n * 64 + a as nat - 0x80)
  {
    assert [a][1..] == [];
  }

  lemma MoreTwo(n: nat, a: char, b: char)
    requires 0x80 <= a as nat < 0xC0 && 0x80 <= b as nat < 0xC0
    ensures More(Some(n), [a, b]) == Some((n * 64 + a as nat - 0x80) * 64 + b as nat - 0x80)
  {
    assert [a, b][1..] == [b];
    MoreOne(n * 64 + (a as nat - 0x80), b);
  }

  lemma MoreThree(n: nat, a: char, b: char, d: char)
    requires 0x80 <= a as nat < 0xC0 && 0x80 <= b as nat < 0xC0 && 0x80 <= d as nat < 0xC0
    ensures More(Some(n), [a, b, d])
         == Some(((n * 64 + a as nat - 0x80) * 64 + b as nat - 0x80) * 64 + d as nat - 0x80)
  {
    assert [a, b, d][1..] == [b, d];
    MoreTwo(n * 64 + (a as nat - 0x80), b, d);
  }

  /** What the shifts leave of a code once its bytes are written. */
  function Shifted(uc: nat): (r: nat)
    requires uc < TWO_32
    ensures r < 0x10000
  {
    if uc < 0x80 then uc else if uc < 0x800 then uc / 64 else if uc < 0x10000 then uc / 4096 else uc / 0x40000
  }

  /** The variables `uc` and `uc2` of `parse_string`, which are not set at first and keep their
      values when `sscanf` stores nothing. */
  datatype Codes = Codes(uc: Option<nat>, uc2: Option<nat>)

  const Unset := Codes(None, None)

  predicate CodesOk(c: Codes) {
    && (c.uc.Some? ==> c.uc.value < 0x10000)
    && (c.uc2.Some? ==> c.uc2.value < TWO_32)
  }

  /** One character or escape of a string body: what is written for it, and its length. */
  datatype Unit = Unit(s: string, used: nat, codes: Codes)

  /** A pair of surrogates; the code has `|` where UTF-16 adds. */
  function Pair(uc: nat, uc2: nat): (r: nat)
    ensures 0x10000 <= r < TWO_32
  {
    var x := uc % 0x400 * 0x400 + uc2 % 0x400;
    if x / 0x10000 % 2 == 1 then x else x + 0x10000
  }

  /** Is there a second escape right behind the first? */
  predicate EscapeFollows(t: string) {
    At(t, 6) == '\\' && At(t, 7) == 'u'
  }

  /** The four positions behind `\u` are passed over whatever they hold. */
  function UnescapeUnicode(t: string, c: Codes): (r: Option<Unit>)
    requires 2 <= |t| && CodesOk(c)
    ensures r.Some? ==> (r.value.used == 6 || (r.value.used == 12 && EscapeFollows(t))) && r.value.used <= |t|
    ensures r.Some? ==> CodesOk(r.value.codes) && |r.value.s| <= 4
    ensures r.Some? && r.value.used == 6 && Scan4(t[2..]).None? ==> |r.value.s| <= 3
    ensures r.Some? && r.value.used == 6 && Scan4(t[2..]).Some? && Scan4(t[2..]).value < 0x10000 ==> |r.value.s| <= 3
  {
    var scanned := if Scan4(t[2..]).Some? then Scan4(t[2..]) else c.uc;
    if |t| < 6 || scanned.None? then None
    else
      var uc := scanned.value;
      if uc == 0 || 0xDC00 <= uc <= 0xDFFF then Some(Unit([], 6, c.(uc := Some(uc))))
      else if 0xD800 <= uc <= 0xDBFF then
        if EscapeFollows(t) then UnescapePair(t, uc, c) else Some(Unit([], 6, c.(uc := Some(uc))))
      else Some(Unit(Utf8(uc), 6, c.(uc := Some(Shifted(uc)))))
  }

  function UnescapePair(t: string, uc: nat, c: Codes): (r: Option<Unit>)
    requires EscapeFollows(t) && CodesOk(c) && uc < 0x10000
    ensures r.Some? ==> r.value.used == 12 <= |t| && CodesOk(r.value.codes) && |r.value.s| <= 4
  {
    var second := if Scan4(t[8..]).Some? then Scan4(t[8..]) else c.uc2;
    if |t| < 12 || second.None? then None
    else if !(0xDC00 <= second.value <= 0xDFFF) then Some(Unit([], 12, Codes(Some(uc), second)))
    else
      var whole := Pair(uc, second.value);
      Some(Unit(Utf8(whole), 12, Codes(Some(Shifted(whole)), second)))
  }

  /** What one character or escape of a string body stands for; none if the code leaves the
      text or uses a code that is not set. */
  function Unescape(t: string, c: Codes): (r: Option<Unit>)
    requires t != [] && t[0] != '\"' && CodesOk(c)
    ensures r.Some? ==> 0 < r.value.used <= |t| && |r.value.s| <= 4 && CodesOk(r.value.codes)
  {
    if t[0] != '\\' then Some(Unit([t[0]], 1, c))
    else if |t| == 1 then None
    else if t[1] == 'u' then UnescapeUnicode(t, c)
    else Some(Unit([Unquote(t[1])], 2, c))
  }

  /** The character that a letter behind a backslash stands for. */
  function Unquote(letter: char): (c: char) {
    match letter
    case 'b' => 8 as char
    case 'f' => 12 as char
    case 'n' => '\n'
    case 'r' => '\r'
    case 't' => '\t'
    case x => x
  }

  /** The copying pass over the body of a string, up to a quote or to the end of the text. */
  function ParseBody(t: string, c: Codes): (r: Outcome<string, string>)
    requires CodesOk(c)
    ensures r.Parsed? ==> |r.rest| <= |t|
    ensures !r.Failed?
    decreases |t|
  {
    if t == [] then Parsed([], [])
    else if t[0] == '\"' then Parsed([], t[1..])
    else
      match Unescape(t, c)
      case None => Undefined
      case Some(u) => Prefixed(u.s, ParseBody(t[u.used..], u.codes))
  }

  function Prefixed(s: string, r: Outcome<string, string>): (q: Outcome<string, string>) {
    if r.Parsed? then Parsed(s + r.value, r.rest) else r
  }

  /** The counting pass: the characters counted; an escape counts as one and the character
      behind it is passed over. */
  function Count(t: string): (n: nat) {
    if t == [] || t[0] == '\"' then 0
    else if t[0] == '\\' then 1 + if |t| < 2 then 0 else Count(t[2..])
    else 1 + Count(t[1..])
  }

  /** Where the counting pass stops, if it stays inside the text. */
  function CountStop(t: string): (r: Option<string>)
    ensures r.Some? ==> |r.value| <= |t|
  {
    if t == [] || t[0] == '\"' then Some(t)
    else if t[0] == '\\' then if |t| < 2 then None else CountStop(t[2..])
    else CountStop(t[1..])
  }

  /** `parse_string`: the output has room for what was counted. */
  function ParseString(t: string): (r: Outcome<string, string>)
    ensures r.Parsed? ==> |r.rest| < |t|
  {
    if At(t, 0) != '\"' then Failed
    else
      var r := ParseBody(t[1..], Unset);
      if CountStop(t[1..]).Some? && r.Parsed? && |r.value| <= Count(t[1..]) then r else Undefined
  }

  function ParseValue(t: string): (r: Outcome<Value, string>)
    ensures r.Parsed? ==> |r.rest| < |t|
    decreases |t|, 0
  {
    if "null" <= t then Parsed(Null, t[4..])
    else if "false" <= t then Parsed(False, t[5..])
    else if "true" <= t then Parsed(True, t[4..])
    else if At(t, 0) == '\"' then
      match ParseString(t)
      case Failed => Failed
      case Undefined => Undefined
      case Parsed(s, rest) => Parsed(Str(s), rest)
    else if At(t, 0) == '-' || IsDigit(At(t, 0)) then
      var n := ParseNumber(t);
      Parsed(n.0, n.1)
    else if At(t, 0) == '[' then
      var u := Skip(t[1..]);
      if At(u, 0) == ']' then Parsed(Arr(NoItems), u[1..])
      else
        match ParseItems(u)
        case Failed => Failed
        case Undefined => Undefined
        case Parsed(items, rest) => Parsed(Arr(items), rest)
    else if At(t, 0) == '{' then
      var u := Skip(t[1..]);
      if At(u, 0) == '}' then Parsed(Obj(NoMembers), u[1..])
      else
        match ParseMembers(u)
        case Failed => Failed
        case Undefined => Undefined
        case Parsed(members, rest) => Parsed(Obj(members), rest)
    else Failed
  }

  /** What follows an element: the end of the list, a comma, or something else. */
  datatype Mark = Close(rest: string) | Comma(rest: string) | Wrong

  function Separator(t: string, close: char): (m: Mark)
    ensures !m.Wrong? ==> |m.rest| < |t|
  {
    var u := Skip(t);
    if u == [] then Wrong
    else if u[0] == close then Close(u[1..])
    else if u[0] == ',' then Comma(u[1..])
    else Wrong
  }

  /** The elements of an array, from the first one to the closing bracket. */
  function ParseItems(t: string): (r: Outcome<Items, string>)
    ensures r.Parsed? ==> |r.rest| < |t| && r.value.Item?
    decreases |t|, 1
  {
    match ParseValue(Skip(t))
    case Failed => Failed
    case Undefined => Undefined
    case Parsed(v, more) =>
      match Separator(more, ']')
      case Wrong => Failed
      case Close(rest) => Parsed(Item(v, NoItems), rest)
      case Comma(next) =>
        match ParseItems(next)
        case Failed => Failed
        case Undefined => Undefined
        case Parsed(items, rest) => Parsed(Item(v, items), rest)
  }

  /** The name of a member and its colon. */
  function ParseName(t: string): (r: Outcome<string, string>)
    ensures r.Parsed? ==> |r.rest| < |t|
  {
    match ParseString(Skip(t))
    case Failed => Failed
    case Undefined => Undefined
    case Parsed(name, more) =>
      var u := Skip(more);
      if u == [] || u[0] != ':' then Failed else Parsed(name, u[1..])
  }

  /** One name and value of an object. */
  function ParseMember(t: string): (r: Outcome<(string, Value), string>)
    ensures r.Parsed? ==> |r.rest| < |t|
    decreases |t|, 1
  {
    match ParseName(t)
    case Failed => Failed
    case Undefined => Undefined
    case Parsed(name, more) =>
      match ParseValue(Skip(more))
      case Failed => Failed
      case Undefined => Undefined
      case Parsed(v, rest) => Parsed((name, v), rest)
  }

  function ParseMembers(t: string): (r: Outcome<Members, string>)
    ensures r.Parsed? ==> |r.rest| < |t| && r.value.Member?
    decreases |t|, 2
  {
    match ParseMember(t)
    case Failed => Failed
    case Undefined => Undefined
    case Parsed((name, v), more) =>
      match Separator(more, '}')
      case Wrong => Failed
      case Close(rest) => Parsed(Member(name, v, NoMembers), rest)
      case Comma(next) =>
        match ParseMembers(next)
        case Failed => Failed
        case Undefined => Undefined
        case Parsed(members, rest) => Parsed(Member(name, v, members), rest)
  }

  // ---------------------------------------------------------------- numbers

  /** A number as it is written (section 6 of RFC 8259). */
  datatype Numeral = Numeral(negative: bool, whole: string, fraction: string, exponent: Exponent)
  datatype Exponent = NoExponent | Exponent(mark: char, sign: string, digits: string)

  predicate AllDigits(s: string) {
    forall k :: 0 <= k < |s| ==> IsDigit(s[k])
  }

  /** No leading zeros; a point or an exponent mark needs digits. */
  predicate IsNumeral(n: Numeral) {
    && n.whole != [] && AllDigits(n.whole) && (n.whole[0] == '0' ==> |n.whole| == 1)
    && AllDigits(n.fraction)
    && (n.exponent.Exponent? ==>
          && n.exponent.mark in "eE" && n.exponent.sign in ["", "+", "-"]
          && n.exponent.digits != [] && AllDigits(n.exponent.digits))
  }

  function FractionText(n: Numeral): (s: string) {
    if n.fraction == [] then "" else "." + n.fraction
  }

  function ExponentText(e: Exponent): (s: string) {
    if e.NoExponent? then "" else [e.mark] + e.sign + e.digits
  }

  function UnsignedText(n: Numeral): (s: string) {
    n.whole + (FractionText(n) + ExponentText(n.exponent))
  }

  function NumeralText(n: Numeral): (s: string) {
    (if n.negative then "-" else "") + UnsignedText(n)
  }

  lemma FractionScanned(digits: string, rest: string)
    requires AllDigits(digits) && !IsDigit(At(rest, 0)) && At(rest, 0) != '.'
    ensures ScanFraction((if digits == [] then "" else "." + digits) + rest) == (digits, rest)
  {
    if digits == [] {
      assert "" + rest == rest;
    } else {
      var t := "." + digits + rest;
      assert t[1..] == digits + rest && t[1] == digits[0];
      DigitsOfPrefix(digits, rest);
      assert t[1 + |digits|..] == rest;
    }
  }

  lemma ExponentScanned(e: Exponent, rest: string)
    requires e.Exponent? ==> e.mark in "eE" && e.sign in ["", "+", "-"] && e.digits != [] && AllDigits(e.digits)
    requires Delimited(rest)
    ensures ScanExponent(ExponentText(e) + rest) == (if e.NoExponent? then "" else e.digits, rest)
  {
    var t := ExponentText(e) + rest;
    if e.NoExponent? {
      assert t == rest;
    } else {
      var u := e.digits + rest;
      DigitsOfPrefix(e.digits, rest);
      assert u[|e.digits|..] == rest && IsDigit(e.digits[0]);
      assert t == [e.mark] + e.sign + u;
      if e.sign == "" {
        assert t[1..] == u && t[1] == e.digits[0];
      } else {
        assert t[2..] == u && t[1] == e.sign[0];
      }
    }
  }

  /** The digits before the point; a lone zero is passed over. */
  lemma WholeScanned(whole: string, rest: string)
    requires whole != [] && AllDigits(whole) && (whole[0] == '0' ==> |whole| == 1) && !IsDigit(At(rest, 0))
    ensures ScanDigits(whole + rest) == (if whole == "0" then "" else whole, rest)
  {
    var t := whole + rest;
    assert IsDigit(whole[0]) && t[0] == whole[0];
    if whole[0] == '0' {
      assert whole == "0" && t[1..] == rest && rest[0..] == rest;
    } else {
      DigitsOfPrefix(whole, rest);
      assert t[|whole|..] == rest;
    }
  }

  /** What a number is parsed as: an integer if it has no fraction and its exponent, as an `int`, is
      zero, and its own text otherwise. */
  function NumeralValue(n: Numeral): (v: Value)
    requires IsNumeral(n)
  {
    var e := if n.exponent.NoExponent? then "" else n.exponent.digits;
    if n.fraction == [] && ValueOf(e) % TWO_32 == 0 then Integer(n.negative, ValueOf(n.whole))
    else Double(NumeralText(n))
  }

  lemma NumeralTail(n: Numeral, rest: string)
    requires IsNumeral(n) && Delimited(rest)
    ensures var t := FractionText(n) + ExponentText(n.exponent) + rest;
            !IsDigit(At(t, 0)) && ScanFraction(t) == (n.fraction, ExponentText(n.exponent) + rest)
  {
    var more := ExponentText(n.exponent) + rest;
    assert FractionText(n) + ExponentText(n.exponent) + rest == FractionText(n) + more;
    assert n.exponent.Exponent? ==> more[0] == n.exponent.mark;
    assert n.exponent.NoExponent? ==> more == rest;
    FractionScanned(n.fraction, more);
    if n.fraction == [] {
      assert FractionText(n) + more == more;
    }
  }

  lemma ValueOfZero()
    ensures ValueOf("") == ValueOf("0") == 0
  {
  }

  lemma UnsignedIs(t: string, negative: bool, whole: string, a: string, fraction: string, b: string, exponent: string,
                   rest: string)
    requires ScanDigits(t) == (whole, a) && ScanFraction(a) == (fraction, b) && ScanExponent(b) == (exponent, rest)
    ensures ParseUnsigned(t, negative)
         == (if fraction == [] && ValueOf(exponent) % TWO_32 == 0 then Integer(negative, ValueOf(whole))
             else Double((if negative then "-" else "") + t[..|t| - |rest|]), rest)
  {
  }

  lemma UnsignedParses(n: Numeral, rest: string)
    requires IsNumeral(n) && Delimited(rest)
    ensures ParseUnsigned(UnsignedText(n) + rest, n.negative) == (NumeralValue(n), rest)
  {
    var u := UnsignedText(n) + rest;
    var tail := FractionText(n) + ExponentText(n.exponent) + rest;
    assert u == n.whole + tail;
    NumeralTail(n, rest);
    WholeScanned(n.whole, tail);
    ExponentScanned(n.exponent, rest);
    ValueOfZero();
    assert u[..|u| - |rest|] == UnsignedText(n);
    UnsignedIs(u, n.negative, if n.whole == "0" then "" else n.whole, tail, n.fraction,
               ExponentText(n.exponent) + rest, if n.exponent.NoExponent? then "" else n.exponent.digits, rest);
  }

  /** Every number is read whole, as what it says. */
  lemma NumeralParses(n: Numeral, rest: string)
    requires IsNumeral(n) && Delimited(rest)
    ensures ParseNumber(NumeralText(n) + rest) == (NumeralValue(n), rest)
  {
    var u := UnsignedText(n) + rest;
    UnsignedParses(n, rest);
    if n.negative {
      AfterFirst('-', u);
      Assoc("-", UnsignedText(n), rest);
    } else {
      assert "" + UnsignedText(n) == UnsignedText(n);
      assert u[0] == n.whole[0] && IsDigit(n.whole[0]);
    }
  }

  /** An exponent that is a multiple of 2^32 counts as none: with it, every integer reads as itself. */
  lemma WrappedExponent(n: nat, k: nat)
    requires k % TWO_32 == 0
    ensures var t := Numeral(false, Decimal(n), "", Exponent('e', "", Decimal(k)));
            IsNumeral(t) && NumeralValue(t) == Integer(false, n)
  {
    ValueOfDecimal(n);
    ValueOfDecimal(k);
  }

  // ---------------------------------------------------------------- escapes

  lemma HexValueIs(c: char, d: nat)
    ensures HexValue(c) == Some(d) <==> d < 16 && (c == "0123456789abcdef"[d] || c == "0123456789ABCDEF"[d])
  {
  }

  predicate IsHigh(uc: nat) {
    0xD800 <= uc <= 0xDBFF
  }

  predicate IsLow(uc: nat) {
    0xDC00 <= uc <= 0xDFFF
  }

  /** The code of a pair of surrogates (section 2.1 of RFC 2781). */
  function Utf16(high: nat, low: nat): (uc: nat)
    requires IsHigh(high) && IsLow(low)
    ensures 0x10000 <= uc < 0x110000
  {
    (high - 0xD800) * 0x400 + (low - 0xDC00) + 0x10000
  }

  /** The code takes a pair for what it is if and only if the seventh bit of its first half is not
      set; otherwise the result is too small by 0x10000. */
  lemma PairIsUtf16(high: nat, low: nat)
    requires IsHigh(high) && IsLow(low)
    ensures Pair(high, low) == Utf16(high, low) <==> high / 0x40 % 2 == 0
    ensures high / 0x40 % 2 == 1 ==> Pair(high, low) == Utf16(high, low) - 0x10000
  {
    var a, b := high - 0xD800, low - 0xDC00;
    HalvesOf(a, b);
    assert high % 0x400 == a && low % 0x400 == b;
    assert high / 0x40 % 2 == a / 0x40 % 2;
  }

  lemma HalvesOf(a: nat, b: nat)
    requires a < 0x400 && b < 0x400
    ensures (0xD800 + a) % 0x400 == a && (0xDC00 + b) % 0x400 == b
    ensures (0xD800 + a) / 0x40 == 0x360 + a / 0x40
    ensures (a * 0x400 + b) / 0x10000 == a / 0x40
  {
    assert a == a / 0x40 * 0x40 + a % 0x40;
  }

  /** What a complete escape stands for: the UTF-8 bytes of its code, or nothing if that is zero or
      half of a pair. */
  lemma EscapeIsCode(t: string, c: Codes)
    requires 6 <= |t| && t[0] == '\\' && t[1] == 'u' && Hex4(t[2..]).Some? && CodesOk(c)
    requires !(IsHigh(Hex4(t[2..]).value) && EscapeFollows(t))
    ensures var uc, u := Hex4(t[2..]).value, Unescape(t, c);
            && u.Some? && u.value.used == 6
            && if uc == 0 || IsHigh(uc) || IsLow(uc) then u.value.s == [] else Utf8Code(u.value.s) == Some(uc)
  {
    var uc := Hex4(t[2..]).value;
    ScanHex(t[2..]);
    Utf8Decodes(uc);
  }

  /** What a complete pair stands for: the code of the pair, if the first half is as above, and the
      two are dropped if the second is not one. */
  lemma EscapesArePair(t: string, c: Codes)
    requires 12 <= |t| && t[0] == '\\' && t[1] == 'u' && EscapeFollows(t) && CodesOk(c)
    requires Hex4(t[2..]).Some? && IsHigh(Hex4(t[2..]).value) && Hex4(t[8..]).Some?
    ensures var high, low, u := Hex4(t[2..]).value, Hex4(t[8..]).value, Unescape(t, c);
            && u.Some? && u.value.used == 12
            && if !IsLow(low) then u.value.s == []
               else Utf8Code(u.value.s) == Some(Utf16(high, low)) <==> high / 0x40 % 2 == 0
  {
    var high, low := Hex4(t[2..]).value, Hex4(t[8..]).value;
    ScanHex(t[2..]);
    ScanHex(t[8..]);
    if IsLow(low) {
      PairIsUtf16(high, low);
      Utf8Decodes(Pair(high, low));
    }
  }

  /** The first code beyond 0x1FFFF, whose pair is read as the code 0x10000. */
  lemma PairExample()
    ensures Utf16(0xD840, 0xDC00) == 0x20000 && Pair(0xD840, 0xDC00) == 0x10000
  {
  }

  // ------------------------------------------------------------- round trip

  /** A tree that the round trip is about: no fractions, and strings without NUL. */
  predicate Plain(v: Value) {
    match v
    case Double(_) => false
    case Str(s) => 0 as char !in s
    case Arr(items) => PlainItems(items)
    case Obj(members) => PlainMembers(members)
    case _ => true
  }

  predicate PlainItems(items: Items) {
    items.Item? ==> Plain(items.head) && PlainItems(items.next)
  }

  predicate PlainMembers(members: Members) {
    members.Member? ==> 0 as char !in members.name && Plain(members.value) && PlainMembers(members.next)
  }

  /** The same tree with every integer marked as signed exactly if it is negative. */
  function Normal(v: Value): (r: Value) {
    match v
    case Int(value, sign) => Int(value, if Denotes(value, sign) < 0 then -1 else 1)
    case Arr(items) => Arr(NormalItems(items))
    case Obj(members) => Obj(NormalMembers(members))
    case _ => v
  }

  function NormalItems(items: Items): (r: Items)
    ensures r.Item? == items.Item?
  {
    if items.NoItems? then NoItems else Item(Normal(items.head), NormalItems(items.next))
  }

  function NormalMembers(members: Members): (r: Members)
    ensures r.Member? == members.Member?
  {
    if members.NoMembers? then NoMembers
    else Member(members.name, Normal(members.value), NormalMembers(members.next))
  }

  /** The rest of a text that does not continue a number. */
  predicate Delimited(rest: string) {
    var c := At(rest, 0);
    !IsDigit(c) && c != '.' && c != 'e' && c != 'E'
  }

  lemma Assoc(a: string, b: string, c: string)
    ensures a + b + c == a + (b + c)
  {
    assert a + b + c == a + (b + c);
  }

  lemma AfterFirst(c: char, t: string)
    ensures ([c] + t)[0] == c && ([c] + t)[1..] == t
  {
  }

  lemma {:induction false} DigitsOfPrefix(s: string, rest: string)
    requires (forall k :: 0 <= k < |s| ==> IsDigit(s[k])) && !IsDigit(At(rest, 0))
    ensures DigitsOf(s + rest) == s
  {
    if s == [] {
      assert s + rest == rest;
    } else {
      assert (s + rest)[1..] == s[1..] + rest && IsDigit(s[0]);
      DigitsOfPrefix(s[1..], rest);
    }
  }

  /** The digits of a printed number that ends there. */
  lemma ScanDecimal(n: nat, rest: string)
    requires Delimited(rest)
    ensures ScanDigits(Decimal(n) + rest) == (if n == 0 then [] else Decimal(n), rest)
  {
    var s := Decimal(n);
    var t := s + rest;
    ValueOfDecimal(n);
    assert IsDigit(s[0]);
    if s[0] == '0' {
      assert n == ValueOf("0") == 0;
      assert t[1..] == rest && rest[0..] == rest;
    } else {
      DigitsOfPrefix(s, rest);
      assert t[|s|..] == rest;
    }
  }

  lemma ParseDecimal(n: nat, negative: bool, rest: string)
    requires Delimited(rest)
    ensures ParseUnsigned(Decimal(n) + rest, negative) == (Integer(negative, n), rest)
  {
    ScanDecimal(n, rest);
    ValueOfDecimal(n);
    assert ScanFraction(rest) == ([], rest) && ScanExponent(rest) == ([], rest);
  }

  lemma IntegerExact(value: U64, sign: int)
    ensures var n := Denotes(value, sign);
            Integer(n < 0, if n < 0 then -n else n) == Normal(Int(value, sign))
  {
    var n := Denotes(value, sign);
    if n < 0 {
      assert (-n) % TWO_64 == -n && (TWO_64 + n) % TWO_64 == TWO_64 + n;
    }
  }

  lemma ParseSigned(s: string, n: nat, negative: bool, rest: string)
    requires Delimited(rest) && s == Decimal(n)
    ensures ParseNumber((if negative then "-" + s else s) + rest) == (Integer(negative, n), rest)
  {
    ParseDecimal(n, negative, rest);
    assert IsDigit(s[0]);
    if negative {
      Assoc("-", s, rest);
      AfterFirst('-', s + rest);
    }
  }

  lemma IntRoundTrip(value: U64, sign: int, rest: string)
    requires Delimited(rest)
    ensures ParseNumber(PrintInt(value, sign) + rest) == (Normal(Int(value, sign)), rest)
  {
    var n := Denotes(value, sign);
    var m := if n < 0 then -n else n;
    IntegerExact(value, sign);
    ParseSigned(Decimal(m), m, n < 0, rest);
  }

  lemma HexRoundTrip(d: nat)
    requires d < 16
    ensures HexValue(HexDigit(d)) == Some(d)
  {
  }

  /** Four hexadecimal digits are read as their number. */
  lemma ScanHex(u: string)
    requires Hex4(u).Some?
    ensures Scan4(u) == Hex4(u)
  {
    var f := u[..4];
    assert AfterSpace(u) == u && f[0] == u[0] && f[1] == u[1] && f[2] == u[2] && f[3] == u[3];
    var a, b, c, d := HexValue(u[0]).value, HexValue(u[1]).value, HexValue(u[2]).value, HexValue(u[3]).value;
    var f1, f2, f3 := f[1..], f[2..], f[3..];
    assert f1[1..] == f2 && f2[1..] == f3 && f3[1..] == [] && f1[0] == u[1] && f2[0] == u[2] && f3[0] == u[3];
    calc {
      HexRun(f, 0);
      HexRun(f1, a);
      HexRun(f2, a * 16 + b);
      HexRun(f3, (a * 16 + b) * 16 + c);
      HexRun([], ((a * 16 + b) * 16 + c) * 16 + d);
      ((a * 16 + b) * 16 + c) * 16 + d;
    }
  }

  /** Every escape is undone, whatever precedes and follows it. */
  lemma UnescapeEscape(c: char, rest: string, codes: Codes)
    requires c != 0 as char && CodesOk(codes)
    ensures Escape(c)[0] != '\"'
    ensures var u := Unescape(Escape(c) + rest, codes);
            u.Some? && u.value.s == [c] && u.value.used == |Escape(c)|
  {
    var t := Escape(c) + rest;
    if !(c >= ' ' && c != '\"' && c != '\\') && Letter(c).None? {
      HexRoundTrip(c as int / 16);
      HexRoundTrip(c as int % 16);
      HexRoundTrip(0);
      var u := t[2..];
      assert u[0] == '0' && u[1] == '0' && u[2] == HexDigit(c as int / 16) && u[3] == HexDigit(c as int % 16);
      assert Hex4(u) == Some(c as int);
      ScanHex(u);
    }
  }

  /** An escape counts for at least one character, and the count goes on behind it. */
  lemma CountEscape(c: char, rest: string)
    ensures Count(Escape(c) + rest) >= 1 + Count(rest) && CountStop(Escape(c) + rest) == CountStop(rest)
  {
    var t := Escape(c) + rest;
    if |Escape(c)| == 1 {
      assert t[1..] == rest;
    } else if |Escape(c)| == 2 {
      assert t[2..] == rest;
    } else {
      var t2, t3, t4, t5 := t[2..], t[3..], t[4..], t[5..];
      assert t2[1..] == t3 && t3[1..] == t4 && t4[1..] == t5 && t5[1..] == rest;
      assert t2[0] == t3[0] == '0' && t4[0] == HexDigit(c as int / 16) && t5[0] == HexDigit(c as int % 16);
      assert Count(t4) == 1 + Count(t5) == 2 + Count(rest) && CountStop(t4) == CountStop(t5) == CountStop(rest);
      assert Count(t2) == 1 + Count(t3) == 2 + Count(t4) && CountStop(t2) == CountStop(t3) == CountStop(t4);
    }
  }

  lemma {:induction false} CountRoundTrip(s: string, rest: string)
    ensures var t := EscapeAll(s) + "\"" + rest;
            |s| <= Count(t) && CountStop(t).Some?
  {
    if s == [] {
      assert EscapeAll(s) + "\"" + rest == "\"" + rest;
    } else {
      var more := EscapeAll(s[1..]) + "\"" + rest;
      assert EscapeAll(s) + "\"" + rest == Escape(s[0]) + more;
      CountEscape(s[0], more);
      CountRoundTrip(s[1..], rest);
    }
  }

  /** One printed character is read back, and the rest is read with some codes. */
  lemma BodyStep(c: char, more: string, codes: Codes) returns (next: Codes)
    requires c != 0 as char && CodesOk(codes)
    ensures CodesOk(next) && ParseBody(Escape(c) + more, codes) == Prefixed([c], ParseBody(more, next))
  {
    var t := Escape(c) + more;
    UnescapeEscape(c, more, codes);
    assert t[|Escape(c)|..] == more;
    next := Unescape(t, codes).value.codes;
  }

  lemma {:induction false} BodyRoundTrip(s: string, rest: string, codes: Codes)
    requires 0 as char !in s && CodesOk(codes)
    ensures ParseBody(EscapeAll(s) + "\"" + rest, codes) == Parsed(s, rest)
  {
    if s == [] {
      assert EscapeAll(s) + "\"" + rest == "\"" + rest;
    } else {
      var more := EscapeAll(s[1..]) + "\"" + rest;
      assert EscapeAll(s) + "\"" + rest == Escape(s[0]) + more;
      var next := BodyStep(s[0], more, codes);
      BodyRoundTrip(s[1..], rest, next);
      assert [s[0]] + s[1..] == s;
    }
  }

  lemma StringRoundTrip(s: string, rest: string)
    requires 0 as char !in s
    ensures ParseString(PrintString(s) + rest) == Parsed(s, rest)
  {
    var t := PrintString(s) + rest;
    assert t[1..] == EscapeAll(s) + "\"" + rest;
    BodyRoundTrip(s, rest, Unset);
    CountRoundTrip(s, rest);
  }

  /** The first character of a printed value tells the kinds apart. */
  lemma PrintHead(v: Value, depth: nat, fmt: bool)
    requires Plain(v)
    ensures var t := Print(v, depth, fmt);
            && t != [] && t[0] > ' ' && t[0] !in ",]}"
            && (t[0] == 'n' <==> v.Null?) && (t[0] == 'f' <==> v.False?) && (t[0] == 't' <==> v.True?)
            && (t[0] == '\"' <==> v.Str?) && (t[0] == '-' || IsDigit(t[0]) <==> v.Int?)
            && (t[0] == '[' <==> v.Arr?) && (t[0] == '{' <==> v.Obj?)
  {
    if v.Int? {
      var s := Decimal(if Denotes(v.value, v.sign) < 0 then -Denotes(v.value, v.sign) else Denotes(v.value, v.sign));
      assert IsDigit(s[0]);
    }
  }

  predicate Blank(s: string) {
    forall k :: 0 <= k < |s| ==> s[k] <= ' '
  }

  lemma {:induction false} SkipBlank(s: string, t: string)
    requires Blank(s)
    ensures Skip(s + t) == Skip(t)
  {
    if s == [] {
      assert s + t == t;
    } else {
      assert (s + t)[1..] == s[1..] + t && s[0] <= ' ';
      SkipBlank(s[1..], t);
    }
  }

  lemma SkipTwice(t: string)
    ensures Skip(Skip(t)) == Skip(t)
  {
  }

  /** Blanks in front of a list of elements, or of members, do not matter. */
  lemma ItemsSkip(t: string, u: string)
    requires Skip(t) == Skip(u)
    ensures ParseItems(t) == ParseItems(u)
  {
  }

  lemma MembersSkip(t: string, u: string)
    requires Skip(t) == Skip(u)
    ensures ParseMembers(t) == ParseMembers(u)
  {
    assert ParseMember(t) == ParseMember(u);
  }

  lemma ItemsEnd(t: string, v: Value, rest: string)
    requires ParseValue(Skip(t)) == Parsed(v, "]" + rest)
    ensures ParseItems(t) == Parsed(Item(v, NoItems), rest)
  {
    assert Skip("]" + rest) == "]" + rest && ("]" + rest)[1..] == rest;
  }

  /** A comma and blanks before the rest of a list. */
  lemma SkipSeparator(separator: string, more: string)
    requires separator != [] && separator[0] > ' ' && Blank(separator[1..])
    ensures var u := separator + more;
            Skip(u) == u && u != [] && u[0] == separator[0] && Skip(u[1..]) == Skip(more)
  {
    var u := separator + more;
    assert u[1..] == separator[1..] + more;
    SkipBlank(separator[1..], more);
  }

  lemma ItemsMore(t: string, v: Value, u: string, more: string, items: Items, rest: string)
    requires ParseValue(Skip(t)) == Parsed(v, u) && Skip(u) == u && u != [] && u[0] == ',' && Skip(u[1..]) == Skip(more)
    requires ParseItems(more) == Parsed(items, rest)
    ensures ParseItems(t) == Parsed(Item(v, items), rest)
  {
    ItemsSkip(u[1..], more);
  }

  lemma ArrayStep(t: string, items: Items, rest: string)
    requires ParseItems(t) == Parsed(items, rest)
    ensures ParseValue("[" + t) == Parsed(Arr(items), rest)
  {
    AfterFirst('[', t);
    SkipTwice(t);
    ItemsSkip(Skip(t), t);
  }

  lemma MemberStep(t: string, name: string, u: string, text: string, v: Value, tail: string)
    requires ParseString(Skip(t)) == Parsed(name, u) && Skip(u) == u && u != [] && u[0] == ':'
    requires Skip(u[1..]) == Skip(text) == text && ParseValue(text) == Parsed(v, tail)
    ensures ParseMember(t) == Parsed((name, v), tail)
  {
  }

  lemma MembersEnd(t: string, name: string, v: Value, tail: string, rest: string)
    requires ParseMember(t) == Parsed((name, v), tail) && Skip(tail) == "}" + rest
    ensures ParseMembers(t) == Parsed(Member(name, v, NoMembers), rest)
  {
    assert ("}" + rest)[1..] == rest;
  }

  lemma MembersMore(t: string, name: string, v: Value, u: string, more: string, members: Members, rest: string)
    requires ParseMember(t) == Parsed((name, v), u) && Skip(u) == u && u != [] && u[0] == ','
    requires Skip(u[1..]) == Skip(more)
    requires ParseMembers(more) == Parsed(members, rest)
    ensures ParseMembers(t) == Parsed(Member(name, v, members), rest)
  {
    MembersSkip(u[1..], more);
  }

  lemma ObjectStep(t: string, members: Members, rest: string)
    requires ParseMembers(t) == Parsed(members, rest)
    ensures ParseValue("{" + t) == Parsed(Obj(members), rest)
  {
    AfterFirst('{', t);
    SkipTwice(t);
    MembersSkip(Skip(t), t);
  }

  lemma Regroup(a: string, b: string, c: string, d: string, e: string)
    ensures a + b + c + d + e == a + (b + (c + d + e))
  {
    Assoc(a + b, c, d);
    Assoc(a + b, c + d, e);
    Assoc(a, b, c + d + e);
  }

  lemma RegroupRest(a: string, b: string, c: string, d: string, e: string)
    ensures a + b + c + d + e == a + (b + c + d + e)
  {
    assert a + b + c + d + e == a + (b + c + d + e);
  }

  lemma RegroupObject(a: string, b: string, c: string, d: string, e: string, f: string)
    ensures a + b + c + d + e + f == a + (b + (c + d + e + f))
  {
    Assoc(a + b, c, d);
    Assoc(a + b, c + d, e);
    Assoc(a + b, c + d + e, f);
    Assoc(a, b, c + d + e + f);
  }

  lemma RegroupMember(a: string, b: string, c: string, d: string, e: string, f: string, g: string)
    ensures (a + b + c + d + e + f) + g == a + (b + (c + (d + (e + f + g))))
  {
    var rest := e + f + g;
    Assoc(a + b + c + d, e, f);
    Assoc(a + b + c + d, e + f, g);
    Assoc(a + b + c, d, rest);
    Assoc(a + b, c, d + rest);
    Assoc(a, b, c + (d + rest));
  }

  /** Parsing what was printed, formatted or not and at any depth, gives back the tree and the
      rest of the text. */
  lemma {:induction false} RoundTrip(v: Value, depth: nat, fmt: bool, rest: string)
    requires Plain(v) && (v.Int? ==> Delimited(rest))
    ensures ParseValue(Print(v, depth, fmt) + rest) == Parsed(Normal(v), rest)
    decreases v, 0
  {
    var p := Print(v, depth, fmt);
    var t := p + rest;
    PrintHead(v, depth, fmt);
    assert t[0] == p[0];
    match v
    case Null => assert t[4..] == rest;
    case False => assert t[5..] == rest;
    case True => assert t[4..] == rest;
    case Int(value, sign) => IntRoundTrip(value, sign, rest);
    case Str(s) => StringRoundTrip(s, rest);
    case Arr(items) => ArrayRoundTrip(items, depth + 1, fmt, rest);
    case Obj(members) => ObjectRoundTrip(members, depth + 1, fmt, rest);
  }

  lemma {:induction false} ArrayRoundTrip(items: Items, depth: nat, fmt: bool, rest: string)
    requires PlainItems(items)
    ensures ParseValue("[" + PrintItems(items, depth, fmt) + "]" + rest) == Parsed(Arr(NormalItems(items)), rest)
    decreases items, 3
  {
    var p := PrintItems(items, depth, fmt);
    assert "[" + p + "]" + rest == "[" + (p + "]" + rest);
    if items.NoItems? {
      assert p + "]" + rest == "]" + rest;
      EmptyArray("]" + rest, rest);
    } else {
      ItemsRoundTrip(items, depth, fmt, rest);
      ArrayStep(p + "]" + rest, NormalItems(items), rest);
    }
  }

  lemma {:induction false} ItemsRoundTrip(items: Items, depth: nat, fmt: bool, rest: string)
    requires PlainItems(items) && items.Item?
    ensures ParseItems(PrintItems(items, depth, fmt) + "]" + rest) == Parsed(NormalItems(items), rest)
    decreases items, 2
  {
    var p := Print(items.head, depth, fmt);
    var t := PrintItems(items, depth, fmt) + "]" + rest;
    PrintHead(items.head, depth, fmt);
    if items.next.NoItems? {
      assert t == p + ("]" + rest) && Skip(t) == t;
      RoundTrip(items.head, depth, fmt, "]" + rest);
      ItemsEnd(t, Normal(items.head), rest);
    } else {
      var separator, q := if fmt then ", " else ",", PrintItems(items.next, depth, fmt);
      var more := q + "]" + rest;
      Regroup(p, separator, q, "]", rest);
      assert t == p + (separator + more) && Skip(t) == t;
      RoundTrip(items.head, depth, fmt, separator + more);
      ItemsRoundTrip(items.next, depth, fmt, rest);
      SkipSeparator(separator, more);
      ItemsMore(t, Normal(items.head), separator + more, more, NormalItems(items.next), rest);
    }
  }

  function Indent(depth: nat, fmt: bool): (s: string)
    ensures Blank(s)
  {
    if fmt then Tabs(depth) else ""
  }

  function Break(fmt: bool): (s: string)
    ensures Blank(s)
  {
    if fmt then "\n" else ""
  }

  lemma {:induction false} MemberRoundTrip(name: string, v: Value, depth: nat, fmt: bool, last: bool, tail: string)
    requires 0 as char !in name && Plain(v)
    requires last ==> Delimited(Break(fmt) + tail)
    ensures ParseMember(PrintMember(name, Print(v, depth, fmt), depth, fmt, last) + tail)
         == Parsed((name, Normal(v)), (if last then "" else ",") + Break(fmt) + tail)
    decreases v, 1
  {
    var text, quoted, colon := Print(v, depth, fmt), PrintString(name), if fmt then ":\t" else ":";
    var comma := if last then "" else ",";
    var rest := comma + Break(fmt) + tail;
    assert last ==> rest == Break(fmt) + tail;
    RegroupMember(Indent(depth, fmt), quoted, colon, text, comma, Break(fmt), tail);
    PrintHead(v, depth, fmt);
    RoundTrip(v, depth, fmt, rest);
    StringRoundTrip(name, colon + (text + rest));
    SkipBlank(Indent(depth, fmt), quoted + (colon + (text + rest)));
    SkipSeparator(colon, text + rest);
    var t := PrintMember(name, text, depth, fmt, last) + tail;
    MemberStep(t, name, colon + (text + rest), text + rest, Normal(v), rest);
  }

  lemma {:induction false} MembersRoundTrip(members: Members, depth: nat, fmt: bool, pad: string, rest: string)
    requires PlainMembers(members) && members.Member? && Blank(pad)
    ensures ParseMembers(PrintMembers(members, depth, fmt) + pad + "}" + rest) == Parsed(NormalMembers(members), rest)
    decreases members, 2
  {
    var last := members.next.NoMembers?;
    var own := PrintMember(members.name, Print(members.value, depth, fmt), depth, fmt, last);
    var t := PrintMembers(members, depth, fmt) + pad + "}" + rest;
    var more := PrintMembers(members.next, depth, fmt) + pad + "}" + rest;
    RegroupRest(own, PrintMembers(members.next, depth, fmt), pad, "}", rest);
    if last {
      assert more == pad + ("}" + rest);
      SkipBlank(pad, "}" + rest);
      SkipBlank(Break(fmt), more);
      MemberRoundTrip(members.name, members.value, depth, fmt, true, more);
      assert "" + Break(fmt) + more == Break(fmt) + more;
      MembersEnd(t, members.name, Normal(members.value), Break(fmt) + more, rest);
    } else {
      MemberRoundTrip(members.name, members.value, depth, fmt, false, more);
      MembersRoundTrip(members.next, depth, fmt, pad, rest);
      SkipSeparator("," + Break(fmt), more);
      var v, u := Normal(members.value), "," + Break(fmt) + more;
      MembersMore(t, members.name, v, u, more, NormalMembers(members.next), rest);
    }
  }

  lemma {:induction false} ObjectRoundTrip(members: Members, depth: nat, fmt: bool, rest: string)
    requires PlainMembers(members) && 0 < depth
    ensures ParseValue("{" + (if fmt then "\n" else "") + PrintMembers(members, depth, fmt)
                       + (if fmt then Tabs(depth - 1) else "") + "}" + rest)
         == Parsed(Obj(NormalMembers(members)), rest)
    decreases members, 3
  {
    var pad, p := Indent(depth - 1, fmt), PrintMembers(members, depth, fmt);
    var more := p + pad + "}" + rest;
    RegroupObject("{", Break(fmt), p, pad, "}", rest);
    SkipBlank(Break(fmt), more);
    if members.NoMembers? {
      assert more == pad + ("}" + rest);
      SkipBlank(pad, "}" + rest);
      EmptyObject(Break(fmt) + more, rest);
    } else {
      MembersRoundTrip(members, depth, fmt, pad, rest);
      MembersSkip(Break(fmt) + more, more);
      ObjectStep(Break(fmt) + more, NormalMembers(members), rest);
    }
  }

  lemma EmptyArray(t: string, rest: string)
    requires Skip(t) == "]" + rest
    ensures ParseValue("[" + t) == Parsed(Arr(NoItems), rest)
  {
    AfterFirst('[', t);
    AfterFirst(']', rest);
  }

  lemma EmptyObject(t: string, rest: string)
    requires Skip(t) == "}" + rest
    ensures ParseValue("{" + t) == Parsed(Obj(NoMembers), rest)
  {
    AfterFirst('{', t);
    AfterFirst('}', rest);
  }

  lemma {:induction false} NormalPrints(v: Value, depth: nat, fmt: bool)
    ensures Print(Normal(v), depth, fmt) == Print(v, depth, fmt)
    decreases v
  {
    match v
    case Arr(items) => NormalPrintsItems(items, depth + 1, fmt);
    case Obj(members) => NormalPrintsMembers(members, depth + 1, fmt);
    case _ =>
  }

  lemma {:induction false} NormalPrintsItems(items: Items, depth: nat, fmt: bool)
    ensures PrintItems(NormalItems(items), depth, fmt) == PrintItems(items, depth, fmt)
    decreases items
  {
    if items.Item? {
      NormalPrints(items.head, depth, fmt);
      NormalPrintsItems(items.next, depth, fmt);
    }
  }

  lemma {:induction false} NormalPrintsMembers(members: Members, depth: nat, fmt: bool)
    ensures PrintMembers(NormalMembers(members), depth, fmt) == PrintMembers(members, depth, fmt)
    decreases members
  {
    if members.Member? {
      NormalPrints(members.value, depth, fmt);
      NormalPrintsMembers(members.next, depth, fmt);
    }
  }

  /** `cJSON_Parse`. */
  function Parse(text: string): (r: Outcome<Value, string>) {
    ParseValue(Skip(text))
  }

  /** Copying a document by printing and parsing it keeps it: the tree, up to the marking of
      integers, the numbers they stand for, and every printed form. */
  lemma CopyIsFaithful(v: Value, fmt: bool)
    requires Plain(v)
    ensures var w := Parse(Print(v, 0, fmt));
            w == Parsed(Normal(v), []) && forall f: bool, d: nat :: Print(w.value, d, f) == Print(v, d, f)
  {
    var t := Print(v, 0, fmt);
    RoundTrip(v, 0, fmt, []);
    PrintHead(v, 0, fmt);
    assert t + [] == t && Skip(t) == t;
    forall f: bool, d: nat ensures Print(Normal(v), d, f) == Print(v, d, f) {
      NormalPrints(v, d, f);
    }
  }
}
