/**
 The loops of the JSON parser and printer (src/core/util/json/cJSON.c), each proved to
 compute the function of module Json. Output goes into buffers allocated with the sizes the
 code computes beforehand. For the printer every index check below is also the proof that the
 output fits. The parser stops where the code would leave the text or its output, and module
 JsonBounds says when that is.
 */
module JsonCode {
  import opened Common
  import opened Json

  const NUL := 0 as char

  /** Copies `t` into the buffer from position `p`. */
  method Put(out: array<char>, p: nat, t: string) returns (q: nat)
    requires p + |t| <= out.Length
    modifies out
    ensures q == p + |t| && out[..q] == old(out[..p]) + t
  {
    forall k | 0 <= k < |t| {
      out[p + k] := t[k];
    }
    q := p + |t|;
    assert out[..q] == out[..p] + out[p..q] && out[p..q] == t;
    assert out[..p] == old(out[..p]);
  }

  // --------------------------------------------------------------- printing

  lemma {:induction false} EscapeAllAppend(s: string, c: char)
    ensures EscapeAll(s + [c]) == EscapeAll(s) + Escape(c)
  {
    if s == [] {
      assert s + [c] == [c] && [c][1..] == [];
    } else {
      assert (s + [c])[1..] == s[1..] + [c];
      EscapeAllAppend(s[1..], c);
    }
  }

  /** The first pass of `print_string_ptr`: the length of the escaped string. */
  method EscapedLength(s: string) returns (len: nat)
    ensures len == |EscapeAll(s)|
  {
    var i := 0;
    len := 0;
    while i < |s|
      invariant 0 <= i <= |s| && len == |EscapeAll(s[..i])|
    {
      assert s[..i + 1] == s[..i] + [s[i]];
      EscapeAllAppend(s[..i], s[i]);
      len := len + 1;
      if Letter(s[i]).Some? {
        len := len + 1;
      } else if s[i] < ' ' {
        len := len + 5;
      }
      i := i + 1;
    }
    assert s[..i] == s;
  }

  lemma {:induction false} EscapeAllSplit(s: string, i: nat)
    requires i < |s|
    ensures EscapeAll(s[..i + 1]) == EscapeAll(s[..i]) + Escape(s[i])
    ensures |EscapeAll(s[..i + 1])| <= |EscapeAll(s)|
    decreases |s| - i
  {
    assert s[..i + 1] == s[..i] + [s[i]];
    EscapeAllAppend(s[..i], s[i]);
    if i + 1 < |s| {
      EscapeAllSplit(s, i + 1);
    } else {
      assert s[..i + 1] == s;
    }
  }

  /** `print_string_ptr`. */
  method PrintStringPtr(s: string) returns (t: string)
    ensures t == PrintString(s)
  {
    var len := EscapedLength(s);
    var out := new char[len + 3](_ => NUL);
    var p := Put(out, 0, "\"");
    var i := 0;
    while i < |s|
      invariant 0 <= i <= |s| && 1 <= p <= out.Length && out[..p] == "\"" + EscapeAll(s[..i])
    {
      EscapeAllSplit(s, i);
      Assoc("\"", EscapeAll(s[..i]), Escape(s[i]));
      p := Put(out, p, Escape(s[i]));
      i := i + 1;
    }
    assert s[..i] == s;
    p := Put(out, p, "\"");
    out[p] := NUL;
    t := out[..p];
  }

  function Join(texts: seq<string>, fmt: bool): (t: string) {
    if texts == [] then ""
    else if |texts| == 1 then texts[0]
    else texts[0] + (if fmt then ", " else ",") + Join(texts[1..], fmt)
  }

  function Texts(items: Items, depth: nat, fmt: bool): (r: seq<string>) {
    if items.NoItems? then [] else [Print(items.head, depth, fmt)] + Texts(items.next, depth, fmt)
  }

  lemma {:induction false} JoinTexts(items: Items, depth: nat, fmt: bool)
    ensures Join(Texts(items, depth, fmt), fmt) == PrintItems(items, depth, fmt)
  {
    if items.Item? {
      JoinTexts(items.next, depth, fmt);
      assert Texts(items, depth, fmt)[1..] == Texts(items.next, depth, fmt);
    }
  }

  function Sum(texts: seq<string>, extra: nat): (n: nat) {
    if texts == [] then 0 else |texts[0]| + extra + Sum(texts[1..], extra)
  }

  lemma {:induction false} SumAppend(texts: seq<string>, t: string, extra: nat)
    ensures Sum(texts + [t], extra) == Sum(texts, extra) + |t| + extra
  {
    if texts == [] {
      assert texts + [t] == [t] && [t][1..] == [];
    } else {
      assert (texts + [t])[1..] == texts[1..] + [t];
      SumAppend(texts[1..], t, extra);
    }
  }

  /** What is printed up to the k-th entry, with the separator behind it unless it is the last. */
  function JoinTo(texts: seq<string>, k: nat, fmt: bool): (t: string)
    requires k <= |texts|
  {
    if k == 0 then ""
    else
      JoinTo(texts, k - 1, fmt) + texts[k - 1] + (if k == |texts| then "" else if fmt then ", " else ",")
  }

  lemma {:induction false} JoinToBound(texts: seq<string>, k: nat, fmt: bool)
    requires k <= |texts|
    ensures |JoinTo(texts, k, fmt)| <= Sum(texts[..k], if fmt then 3 else 2)
  {
    if k > 0 {
      JoinToBound(texts, k - 1, fmt);
      assert texts[..k] == texts[..k - 1] + [texts[k - 1]];
      SumAppend(texts[..k - 1], texts[k - 1], if fmt then 3 else 2);
    }
  }

  lemma {:induction false} SumMonotone(texts: seq<string>, k: nat, extra: nat)
    requires k <= |texts|
    ensures Sum(texts[..k], extra) <= Sum(texts, extra)
    decreases |texts| - k
  {
    if k < |texts| {
      assert texts[..k + 1] == texts[..k] + [texts[k]];
      SumAppend(texts[..k], texts[k], extra);
      SumMonotone(texts, k + 1, extra);
    } else {
      assert texts[..k] == texts;
    }
  }

  lemma {:induction false} JoinToShift(texts: seq<string>, k: nat, fmt: bool)
    requires 0 < k <= |texts| && 1 < |texts|
    ensures JoinTo(texts, k, fmt) == texts[0] + (if fmt then ", " else ",") + JoinTo(texts[1..], k - 1, fmt)
  {
    var sep := if fmt then ", " else ",";
    if k == 1 {
      assert JoinTo(texts, 1, fmt) == "" + texts[0] + sep;
      assert "" + texts[0] + sep == texts[0] + sep + "";
    } else {
      JoinToShift(texts, k - 1, fmt);
      var end := if k == |texts| then "" else sep;
      var before := JoinTo(texts[1..], k - 2, fmt);
      assert texts[1..][k - 2] == texts[k - 1];
      Assoc(texts[0] + sep, before, texts[k - 1]);
      Assoc(texts[0] + sep, before + texts[k - 1], end);
    }
  }

  lemma {:induction false} JoinIsJoinTo(texts: seq<string>, fmt: bool)
    ensures JoinTo(texts, |texts|, fmt) == Join(texts, fmt)
  {
    if |texts| == 1 {
      assert JoinTo(texts, 1, fmt) == "" + texts[0] + "" == texts[0];
    } else if |texts| > 1 {
      JoinToShift(texts, |texts|, fmt);
      JoinIsJoinTo(texts[1..], fmt);
    }
  }

  /** The room that `print_array` sets aside. */
  method ArrayRoom(entries: seq<string>, fmt: bool) returns (len: nat)
    ensures len == 5 + Sum(entries, if fmt then 3 else 2)
  {
    var i := 0;
    len := 5;
    while i < |entries|
      invariant 0 <= i <= |entries| && len == 5 + Sum(entries[..i], if fmt then 3 else 2)
    {
      assert entries[..i + 1] == entries[..i] + [entries[i]];
      SumAppend(entries[..i], entries[i], if fmt then 3 else 2);
      len := len + |entries[i]| + 2 + if fmt then 1 else 0;
      i := i + 1;
    }
    assert entries[..i] == entries;
  }

  lemma JoinToFits(entries: seq<string>, k: nat, fmt: bool)
    requires k <= |entries|
    ensures |JoinTo(entries, k, fmt)| <= Sum(entries, if fmt then 3 else 2)
  {
    JoinToBound(entries, k, fmt);
    SumMonotone(entries, k, if fmt then 3 else 2);
  }

  /** Writes one entry and its separator. */
  method PutEntry(out: array<char>, p: nat, entries: seq<string>, i: nat, fmt: bool) returns (q: nat)
    requires i < |entries| && p <= out.Length && out[..p] == "[" + JoinTo(entries, i, fmt)
    requires 5 + Sum(entries, if fmt then 3 else 2) == out.Length
    modifies out
    ensures q <= out.Length && out[..q] == "[" + JoinTo(entries, i + 1, fmt)
  {
    var end := if i == |entries| - 1 then "" else if fmt then ", " else ",";
    JoinToFits(entries, i + 1, fmt);
    Assoc("[", JoinTo(entries, i, fmt), entries[i]);
    Assoc("[", JoinTo(entries, i, fmt) + entries[i], end);
    q := Put(out, p, entries[i]);
    q := Put(out, q, end);
  }

  /** `print_array`, from the printed entries. */
  method PrintArray(entries: seq<string>, fmt: bool) returns (t: string)
    ensures t == "[" + Join(entries, fmt) + "]"
  {
    var len := ArrayRoom(entries, fmt);
    var out := new char[len](_ => NUL);
    var p: nat := Put(out, 0, "[");
    var i := 0;
    while i < |entries|
      invariant 0 <= i <= |entries| && p <= out.Length && out[..p] == "[" + JoinTo(entries, i, fmt)
    {
      p := PutEntry(out, p, entries, i, fmt);
      i := i + 1;
    }
    JoinToFits(entries, i, fmt);
    JoinIsJoinTo(entries, fmt);
    p := Put(out, p, "]");
    out[p] := NUL;
    t := out[..p];
  }

  // ---- objects

  /** A member's printed name and value. */
  datatype Pair = Pair(name: string, text: string)

  function Pairs(members: Members, depth: nat, fmt: bool): (r: seq<Pair>) {
    if members.NoMembers? then []
    else [Pair(members.name, Print(members.value, depth, fmt))] + Pairs(members.next, depth, fmt)
  }

  /** The lines of an object. */
  function Lines(members: Members, depth: nat, fmt: bool): (ts: seq<string>)
    ensures |ts| == |Pairs(members, depth, fmt)|
  {
    if members.NoMembers? then []
    else [PrintMember(members.name, Print(members.value, depth, fmt), depth, fmt, members.next.NoMembers?)]
         + Lines(members.next, depth, fmt)
  }

  /** The k-th line is that of the k-th member. */
  predicate IsLine(ts: seq<string>, pairs: seq<Pair>, k: nat, depth: nat, fmt: bool)
    requires k < |ts| == |pairs|
  {
    ts[k] == PrintMember(pairs[k].name, pairs[k].text, depth, fmt, k + 1 == |pairs|)
  }

  lemma {:induction false} LinesAt(members: Members, k: nat, depth: nat, fmt: bool)
    requires k < |Lines(members, depth, fmt)|
    ensures IsLine(Lines(members, depth, fmt), Pairs(members, depth, fmt), k, depth, fmt)
  {
    var pairs := Pairs(members, depth, fmt);
    if k > 0 {
      LinesAt(members.next, k - 1, depth, fmt);
      assert pairs[k] == Pairs(members.next, depth, fmt)[k - 1];
    } else {
      assert members.next.NoMembers? <==> |pairs| == 1;
    }
  }

  function Cat(ts: seq<string>, k: nat): (t: string)
    requires k <= |ts|
  {
    if k == 0 then "" else Cat(ts, k - 1) + ts[k - 1]
  }

  lemma {:induction false} CatShift(t: string, ts: seq<string>, k: nat)
    requires k <= |ts|
    ensures Cat([t] + ts, k + 1) == t + Cat(ts, k)
  {
    if k == 0 {
      assert Cat([t] + ts, 0) == "" && "" + t == t + "";
    } else {
      CatShift(t, ts, k - 1);
      assert ([t] + ts)[k] == ts[k - 1];
      Assoc(t, Cat(ts, k - 1), ts[k - 1]);
    }
  }

  lemma {:induction false} LinesArePrinted(members: Members, depth: nat, fmt: bool)
    ensures var ts := Lines(members, depth, fmt);
            Cat(ts, |ts|) == PrintMembers(members, depth, fmt)
  {
    if members.Member? {
      var ts := Lines(members, depth, fmt);
      LinesArePrinted(members.next, depth, fmt);
      CatShift(ts[0], Lines(members.next, depth, fmt), |ts| - 1);
    }
  }

  /** The room set aside for one member, and for the first k. */
  function Room(p: Pair, depth: nat, fmt: bool): (n: nat) {
    |p.text| + |PrintString(p.name)| + 2 + if fmt then 2 + depth else 0
  }

  function MemberRoom(pairs: seq<Pair>, k: nat, depth: nat, fmt: bool): (n: nat)
    requires k <= |pairs|
  {
    if k == 0 then 0 else MemberRoom(pairs, k - 1, depth, fmt) + Room(pairs[k - 1], depth, fmt)
  }

  lemma LineFitsRoom(p: Pair, depth: nat, fmt: bool, last: bool)
    ensures |PrintMember(p.name, p.text, depth, fmt, last)| <= Room(p, depth, fmt)
  {
  }

  lemma {:induction false} LinesFit(ts: seq<string>, pairs: seq<Pair>, k: nat, depth: nat, fmt: bool)
    requires k <= |ts| == |pairs| && forall j: nat :: j < k ==> |ts[j]| <= Room(pairs[j], depth, fmt)
    ensures |Cat(ts, k)| <= MemberRoom(pairs, k, depth, fmt)
  {
    if k > 0 {
      LinesFit(ts, pairs, k - 1, depth, fmt);
    }
  }

  lemma {:induction false} RoomMonotone(pairs: seq<Pair>, k: nat, depth: nat, fmt: bool)
    requires k <= |pairs|
    ensures MemberRoom(pairs, k, depth, fmt) <= MemberRoom(pairs, |pairs|, depth, fmt)
    decreases |pairs| - k
  {
    if k < |pairs| {
      RoomMonotone(pairs, k + 1, depth, fmt);
    }
  }

  method ObjectRoom(pairs: seq<Pair>, names: seq<string>, depth: nat, fmt: bool) returns (len: nat)
    requires |names| == |pairs| && forall k :: 0 <= k < |pairs| ==> names[k] == PrintString(pairs[k].name)
    ensures len == 7 + (if fmt then depth else 0) + MemberRoom(pairs, |pairs|, depth, fmt)
  {
    len := 7;
    if fmt {
      len := len + depth;
    }
    var i := 0;
    while i < |pairs|
      invariant 0 <= i <= |pairs| && len == 7 + (if fmt then depth else 0) + MemberRoom(pairs, i, depth, fmt)
    {
      len := len + |pairs[i].text| + |names[i]| + 2 + if fmt then 2 + depth else 0;
      i := i + 1;
    }
  }

  /** The tabs in front of a line. */
  method PutTabs(out: array<char>, p: nat, depth: nat, fmt: bool) returns (q: nat)
    requires p + (if fmt then depth else 0) <= out.Length
    modifies out
    ensures q == p + (if fmt then depth else 0) && out[..q] == old(out[..p]) + if fmt then Tabs(depth) else ""
  {
    ghost var was := out[..p];
    q := p;
    var j := 0;
    while fmt && j < depth
      invariant 0 <= j <= depth && q == p + (if fmt then j else 0) && q <= out.Length
      invariant out[..q] == was + if fmt then Tabs(j) else ""
    {
      q := Put(out, q, "\t");
      assert Tabs(j) + "\t" == Tabs(j + 1);
      Assoc(was, Tabs(j), "\t");
      j := j + 1;
    }
  }

  /** Writes one line of an object piece by piece. */
  method PutMember(out: array<char>, p: nat, name: string, text: string, depth: nat, fmt: bool, last: bool,
                   ghost raw: string) returns (q: nat)
    requires name == PrintString(raw) && p + |PrintMember(raw, text, depth, fmt, last)| <= out.Length
    modifies out
    ensures q <= out.Length && out[..q] == old(out[..p]) + PrintMember(raw, text, depth, fmt, last)
  {
    ghost var was := out[..p];
    q := PutTabs(out, p, depth, fmt);
    ghost var indent := if fmt then Tabs(depth) else "";
    var colon, comma, line := if fmt then ":\t" else ":", if last then "" else ",", if fmt then "\n" else "";
    q := Put(out, q, name);
    q := Put(out, q, colon);
    q := Put(out, q, text);
    q := Put(out, q, comma);
    q := Put(out, q, line);
    RegroupLine(was, indent, name, colon, text, comma, line);
  }

  lemma RegroupLine(a: string, b: string, c: string, d: string, e: string, f: string, g: string)
    ensures a + b + c + d + e + f + g == a + (b + c + d + e + f + g)
  {
    Assoc(a, b, c);
    Assoc(a, b + c, d);
    Assoc(a, b + c + d, e);
    Assoc(a, b + c + d + e, f);
    Assoc(a, b + c + d + e + f, g);
  }

  /** `print_object`, from the members' printed values. */
  method PrintObject(pairs: seq<Pair>, depth: nat, fmt: bool, ghost ts: seq<string>) returns (t: string)
    requires 0 < depth && |ts| == |pairs| && forall k: nat :: k < |ts| ==> IsLine(ts, pairs, k, depth, fmt)
    ensures t == "{" + (if fmt then "\n" else "") + Cat(ts, |ts|) + (if fmt then Tabs(depth - 1) else "") + "}"
  {
    var names := [];
    while |names| < |pairs|
      invariant |names| <= |pairs| && forall k :: 0 <= k < |names| ==> names[k] == PrintString(pairs[k].name)
    {
      var name := PrintStringPtr(pairs[|names|].name);
      names := names + [name];
    }
    var len := ObjectRoom(pairs, names, depth, fmt);
    var out := new char[len](_ => NUL);
    var line, pad := if fmt then "\n" else "", if fmt then Tabs(depth - 1) else "";
    var p: nat := Put(out, 0, "{");
    p := Put(out, p, line);
    AllFit(ts, pairs, depth, fmt);
    p := PutMembers(out, p, pairs, names, depth, fmt, "{" + line, ts);
    LinesFit(ts, pairs, |pairs|, depth, fmt);
    p := Put(out, p, pad);
    p := Put(out, p, "}");
    out[p] := NUL;
    t := out[..p];
  }

  lemma AllFit(ts: seq<string>, pairs: seq<Pair>, depth: nat, fmt: bool)
    requires |ts| == |pairs| && forall k: nat :: k < |ts| ==> IsLine(ts, pairs, k, depth, fmt)
    ensures forall k: nat :: k < |ts| ==> |ts[k]| <= Room(pairs[k], depth, fmt)
  {
    forall k: nat | k < |ts| ensures |ts[k]| <= Room(pairs[k], depth, fmt) {
      assert IsLine(ts, pairs, k, depth, fmt);
      LineFitsRoom(pairs[k], depth, fmt, k + 1 == |pairs|);
    }
  }

  method PutMembers(out: array<char>, p: nat, pairs: seq<Pair>, names: seq<string>, depth: nat, fmt: bool,
                    ghost open: string, ghost ts: seq<string>) returns (q: nat)
    requires |names| == |pairs| && forall k :: 0 <= k < |pairs| ==> names[k] == PrintString(pairs[k].name)
    requires |ts| == |pairs| && forall k: nat :: k < |ts| ==> IsLine(ts, pairs, k, depth, fmt)
    requires forall k: nat :: k < |ts| ==> |ts[k]| <= Room(pairs[k], depth, fmt)
    requires p <= out.Length && out[..p] == open && |open| + MemberRoom(pairs, |pairs|, depth, fmt) <= out.Length
    modifies out
    ensures q <= out.Length && out[..q] == open + Cat(ts, |ts|)
  {
    q := p;
    var i := 0;
    assert open + "" == open;
    while i < |pairs|
      invariant 0 <= i <= |pairs| && q <= out.Length && out[..q] == open + Cat(ts, i)
    {
      LineFits(ts, pairs, i, depth, fmt, open, out.Length);
      assert IsLine(ts, pairs, i, depth, fmt);
      q := PutMember(out, q, names[i], pairs[i].text, depth, fmt, i + 1 == |pairs|, pairs[i].name);
      i := i + 1;
    }
  }

  lemma LineFits(ts: seq<string>, pairs: seq<Pair>, i: nat, depth: nat, fmt: bool, open: string, room: nat)
    requires i < |pairs| == |ts| && |open| + MemberRoom(pairs, |pairs|, depth, fmt) <= room
    requires forall k: nat :: k < |ts| ==> |ts[k]| <= Room(pairs[k], depth, fmt)
    ensures |open + Cat(ts, i)| + |ts[i]| <= room && open + Cat(ts, i) + ts[i] == open + Cat(ts, i + 1)
  {
    LinesFit(ts, pairs, i + 1, depth, fmt);
    RoomMonotone(pairs, i + 1, depth, fmt);
    Assoc(open, Cat(ts, i), ts[i]);
  }

  /** `print_int`; 22 characters are always enough. */
  method PrintInteger(value: U64, sign: int) returns (t: string)
    ensures t == PrintInt(value, sign)
  {
    var out := new char[22](_ => NUL);
    // The digits are `sprintf`'s, of the value as signed or as unsigned.
    var text;
    if sign == -1 && TWO_63 <= value {
      DecimalLength(TWO_64 - value);
      text := "-" + Decimal(TWO_64 - value);
    } else {
      DecimalLength(value);
      text := Decimal(value);
    }
    var p := Put(out, 0, text);
    out[p] := NUL;
    t := out[..p];
  }

  lemma DecimalLength(n: nat)
    requires n < TWO_64
    ensures |Decimal(n)| <= 20 && (n <= TWO_63 ==> |Decimal(n)| <= 19)
  {
    assert Pow10(4) == 10000;
    assert Pow10(8) == 10000 * Pow10(4);
    assert Pow10(12) == 10000 * Pow10(8);
    assert Pow10(16) == 10000 * Pow10(12);
    assert Pow10(20) == 10000 * Pow10(16);
    DecimalShort(n, 20);
    if n <= TWO_63 {
      assert Pow10(19) == 1000 * Pow10(16);
      DecimalShort(n, 19);
    }
  }

  /** `print_value`. */
  method PrintValue(v: Value, depth: nat, fmt: bool) returns (t: string)
    ensures t == Print(v, depth, fmt)
    decreases v, 1
  {
    match v {
      case Null => t := "null";
      case False => t := "false";
      case True => t := "true";
      case Int(value, sign) => t := PrintInteger(value, sign);
      case Double(text) => t := text;
      case Str(s) => t := PrintStringPtr(s);
      case Arr(items) =>
        var entries := PrintEntries(items, depth + 1, fmt);
        JoinTexts(items, depth + 1, fmt);
        t := PrintArray(entries, fmt);
      case Obj(members) =>
        var inner := depth + 1;
        var pairs := PrintPairs(members, inner, fmt);
        ghost var ts := Lines(members, inner, fmt);
        forall k: nat | k < |ts| ensures IsLine(ts, pairs, k, inner, fmt) {
          LinesAt(members, k, inner, fmt);
        }
        LinesArePrinted(members, inner, fmt);
        t := PrintObject(pairs, inner, fmt, ts);
    }
  }

  /** Prints the children of an array one after the other. */
  method PrintEntries(items: Items, depth: nat, fmt: bool) returns (entries: seq<string>)
    ensures entries == Texts(items, depth, fmt)
    decreases items, 0
  {
    var child := items;
    entries := [];
    while child.Item?
      invariant entries + Texts(child, depth, fmt) == Texts(items, depth, fmt)
      invariant child == items || child < items
      decreases child
    {
      var text := PrintValue(child.head, depth, fmt);
      ghost var rest := Texts(child.next, depth, fmt);
      assert entries + ([text] + rest) == entries + [text] + rest;
      entries := entries + [text];
      child := child.next;
    }
    assert entries + [] == entries;
  }

  method PrintPairs(members: Members, depth: nat, fmt: bool) returns (pairs: seq<Pair>)
    ensures pairs == Pairs(members, depth, fmt)
    decreases members, 0
  {
    var child := members;
    pairs := [];
    while child.Member?
      invariant pairs + Pairs(child, depth, fmt) == Pairs(members, depth, fmt)
      invariant child == members || child < members
      decreases child
    {
      var text := PrintValue(child.value, depth, fmt);
      ghost var rest := Pairs(child.next, depth, fmt);
      assert pairs + ([Pair(child.name, text)] + rest) == pairs + [Pair(child.name, text)] + rest;
      pairs := pairs + [Pair(child.name, text)];
      child := child.next;
    }
    assert pairs + [] == pairs;
  }

  // ---------------------------------------------------------------- parsing

  /** `skip`. */
  method SkipFrom(text: string, i: nat) returns (j: nat)
    requires i <= |text|
    ensures i <= j <= |text| && text[j..] == Skip(text[i..])
  {
    j := i;
    while j < |text| && text[j] <= ' '
      invariant i <= j <= |text| && Skip(text[j..]) == Skip(text[i..])
    {
      assert text[j..][1..] == text[j + 1..];
      j := j + 1;
    }
  }

  lemma {:induction false} ValueOfAppend(s: string, c: char)
    requires IsDigit(c) && forall k :: 0 <= k < |s| ==> IsDigit(s[k])
    ensures ValueOf(s + [c]) == 10 * ValueOf(s) + (c as int - '0' as int)
  {
    assert DropLast(s + [c]) == s && Last(s + [c]) == c;
  }

  lemma Drop(text: string, i: nat, k: nat)
    requires i + k <= |text|
    ensures text[i..][k..] == text[i + k..]
  {
  }

  lemma Split(text: string, i: nat, j: nat)
    requires i <= j <= |text|
    ensures text[i..j] + text[j..] == text[i..]
  {
  }

  /** A run of digits and the number it writes. */
  method DigitRun(text: string, i: nat) returns (j: nat, n: nat)
    requires i <= |text|
    ensures i <= j <= |text| && |DigitsOf(text[i..])| == j - i && n == ValueOf(DigitsOf(text[i..]))
  {
    j, n := i, 0;
    while j < |text| && IsDigit(text[j])
      invariant i <= j <= |text| && (forall k :: i <= k < j ==> IsDigit(text[k]))
      invariant n == ValueOf(text[i..j])
    {
      assert text[i..j + 1] == text[i..j] + [text[j]];
      ValueOfAppend(text[i..j], text[j]);
      n := 10 * n + (text[j] as int - '0' as int);
      j := j + 1;
    }
    Split(text, i, j);
    DigitsOfPrefix(text[i..j], text[j..]);
  }

  /** The digits of `parse_number` before the point. */
  method WholePart(text: string, i: nat) returns (j: nat, n: nat)
    requires i <= |text|
    ensures i <= j <= |text| && ScanDigits(text[i..]).1 == text[j..] && n == ValueOf(ScanDigits(text[i..]).0)
  {
    j := if At(text, i) == '0' then i + 1 else i;
    Drop(text, i, j - i);
    ghost var u, ds := text[j..], "";
    n := 0;
    if '1' <= At(text, j) <= '9' {
      ghost var from := j;
      j, n := DigitRun(text, j);
      ds := DigitsOf(u);
      Drop(text, from, j - from);
    }
    assert u[0..] == u;
    DigitsAre(text[i..], u, ds);
  }

  lemma DigitsAre(t: string, u: string, ds: string)
    requires u == (if At(t, 0) == '0' then t[1..] else t) && |ds| <= |u|
    requires ds == if '1' <= At(u, 0) <= '9' then DigitsOf(u) else ""
    ensures ScanDigits(t) == (ds, u[|ds|..])
  {
  }

  /** The fraction, whose value the model does not use. */
  method Fraction(text: string, i: nat) returns (j: nat, found: bool)
    requires i <= |text|
    ensures var f := ScanFraction(text[i..]);
            i <= j <= |text| && text[j..] == f.1 && (found <==> f.0 != [])
  {
    j, found := i, At(text, i) == '.' && IsDigit(At(text, i + 1));
    if found {
      var n;
      Drop(text, i, 1);
      j, n := DigitRun(text, i + 1);
      Drop(text, i, j - i);
      FractionIs(text[i..], text[i + 1..], text[j..]);
    }
  }

  lemma FractionIs(t: string, u: string, rest: string)
    requires At(t, 0) == '.' && IsDigit(At(t, 1)) && u == t[1..]
    requires |DigitsOf(u)| < |t| && rest == t[1 + |DigitsOf(u)|..]
    ensures ScanFraction(t) == (DigitsOf(u), rest) && DigitsOf(u) != []
  {
  }

  lemma {:induction false} WholeTurns(x: nat, k: nat)
    ensures (x + k * TWO_32) % TWO_32 == x % TWO_32
  {
    if k > 0 {
      WholeTurns(x, k - 1);
    }
  }

  lemma WrapsAgree(n: nat, d: nat)
    ensures (10 * (n % TWO_32) + d) % TWO_32 == (10 * n + d) % TWO_32
  {
    WholeTurns(10 * (n % TWO_32) + d, 10 * (n / TWO_32));
  }

  /** A run of digits whose number is kept in the 32 bits of an `int`. */
  method WrappedRun(text: string, i: nat) returns (j: nat, n: nat)
    requires i <= |text|
    ensures i <= j <= |text| && |DigitsOf(text[i..])| == j - i && n == ValueOf(DigitsOf(text[i..])) % TWO_32
  {
    j, n := i, 0;
    while j < |text| && IsDigit(text[j])
      invariant i <= j <= |text| && (forall k :: i <= k < j ==> IsDigit(text[k]))
      invariant n == ValueOf(text[i..j]) % TWO_32
    {
      var d := text[j] as int - '0' as int;
      assert text[i..j + 1] == text[i..j] + [text[j]];
      ValueOfAppend(text[i..j], text[j]);
      WrapsAgree(ValueOf(text[i..j]), d);
      n := (10 * n + d) % TWO_32;
      j := j + 1;
    }
    Split(text, i, j);
    DigitsOfPrefix(text[i..j], text[j..]);
  }

  method Exponent(text: string, i: nat) returns (j: nat, n: nat)
    requires i <= |text|
    ensures var e := ScanExponent(text[i..]);
            i <= j <= |text| && text[j..] == e.1 && n == ValueOf(e.0) % TWO_32
  {
    j, n := i, 0;
    if At(text, i) == 'e' || At(text, i) == 'E' {
      var from := if At(text, i + 1) == '+' || At(text, i + 1) == '-' then i + 2 else i + 1;
      Drop(text, i, from - i);
      j, n := WrappedRun(text, from);
      Drop(text, from, j - from);
      ExponentIs(text[i..], text[from..], text[j..]);
    }
  }

  lemma ExponentIs(t: string, u: string, rest: string)
    requires At(t, 0) == 'e' || At(t, 0) == 'E'
    requires u == if At(t, 1) == '+' || At(t, 1) == '-' then t[2..] else t[1..]
    requires rest == u[|DigitsOf(u)|..]
    ensures ScanExponent(t) == (DigitsOf(u), rest)
  {
  }

  function NumberOf(negative: bool, n: nat, scaled: bool, power: nat, text: string): (v: Value) {
    if !scaled && power == 0 then Integer(negative, n) else Double((if negative then "-" else "") + text)
  }

  /** What the three parts of a number come to. */
  ghost predicate Parts(t: string, n: nat, scaled: bool, power: nat, rest: string) {
    var d := ScanDigits(t);
    var f := ScanFraction(d.1);
    var e := ScanExponent(f.1);
    n == ValueOf(d.0) && (scaled <==> f.0 != []) && power == ValueOf(e.0) % TWO_32 && rest == e.1
  }

  lemma UnsignedIs(t: string, negative: bool, n: nat, scaled: bool, power: nat, used: string, rest: string)
    requires Parts(t, n, scaled, power, rest) && |rest| <= |t| && used == t[..|t| - |rest|]
    ensures ParseUnsigned(t, negative) == (NumberOf(negative, n, scaled, power, used), rest)
  {
  }

  method NumberParts(text: string, i: nat) returns (j: nat, n: nat, scaled: bool, power: nat)
    requires i <= |text|
    ensures i <= j <= |text| && Parts(text[i..], n, scaled, power, text[j..])
  {
    j, n := WholePart(text, i);
    j, scaled := Fraction(text, j);
    j, power := Exponent(text, j);
  }

  method UnsignedAt(text: string, i: nat, negative: bool) returns (v: Value, j: nat)
    requires i <= |text|
    ensures i <= j <= |text| && ParseUnsigned(text[i..], negative) == (v, text[j..])
  {
    var n, scaled, power;
    j, n, scaled, power := NumberParts(text, i);
    v := NumberOf(negative, n, scaled, power, text[i..j]);
    Taken(text, i, j);
    UnsignedIs(text[i..], negative, n, scaled, power, text[i..j], text[j..]);
  }

  lemma Taken(text: string, i: nat, j: nat)
    requires i <= j <= |text|
    ensures |text[i..]| - |text[j..]| == j - i && text[i..][..j - i] == text[i..j]
  {
  }

  /** `parse_number`. */
  method ParseNumberAt(text: string, i: nat) returns (v: Value, j: nat)
    requires i <= |text|
    ensures i <= j <= |text| && ParseNumber(text[i..]) == (v, text[j..])
  {
    if At(text, i) == '-' {
      Drop(text, i, 1);
      v, j := UnsignedAt(text, i + 1, true);
    } else {
      v, j := UnsignedAt(text, i, false);
    }
  }

  // ---- strings

  /** The first pass over a string: how many characters to set aside, unless it leaves the
      text. */
  method CountFrom(text: string, i: nat) returns (len: nat, inside: bool)
    requires i <= |text|
    ensures len == Count(text[i..]) && inside == CountStop(text[i..]).Some?
  {
    var j := i;
    len, inside := 0, true;
    while j < |text| && text[j] != '\"'
      invariant i <= j <= |text| && len + Count(text[j..]) == Count(text[i..])
      invariant CountStop(text[j..]) == CountStop(text[i..])
      decreases |text| - j
    {
      len := len + 1;
      if text[j] == '\\' {
        if j + 1 == |text| {
          return len, false;
        }
        Drop(text, j, 2);
        j := j + 2;
      } else {
        Drop(text, j, 1);
        j := j + 1;
      }
    }
  }

  /** The copying pass stands at `j` with `written` behind it. */
  ghost predicate Copied(text: string, j: nat, written: string, codes: Codes, goal: Outcome<string, string>)
  {
    j <= |text| && CodesOk(codes) && goal == Prefixed(written, ParseBody(text[j..], codes))
  }

  lemma BodyUnit(t: string, c: Codes)
    requires CodesOk(c) && t != [] && t[0] != '\"'
    ensures var u := Unescape(t, c);
            ParseBody(t, c) == if u.None? then Undefined
                               else Prefixed(u.value.s, ParseBody(t[u.value.used..], u.value.codes))
  {
  }

  lemma CopiedUnit(text: string, j: nat, written: string, codes: Codes, goal: Outcome<string, string>, u: Unit)
    requires Copied(text, j, written, codes, goal) && j + u.used <= |text| && CodesOk(u.codes)
    requires ParseBody(text[j..], codes) == Prefixed(u.s, ParseBody(text[j..][u.used..], u.codes))
    ensures Copied(text, j + u.used, written + u.s, u.codes, goal)
  {
    Drop(text, j, u.used);
    PrefixedTwice(written, u.s, ParseBody(text[j + u.used..], u.codes));
  }

  /** The bytes of a code, last one first, and what the shifts leave of it. */
  method EncodeUtf8(code: nat) returns (bytes: string, uc: nat)
    requires code < TWO_32
    ensures bytes == Utf8(code) && uc == Shifted(code)
  {
    uc, bytes := code, [];
    var len := if uc < 0x80 then 1 else if uc < 0x800 then 2 else if uc < 0x10000 then 3 else 4;
    if len == 4 {
      bytes, uc := [(0x80 + uc % 64) as char] + bytes, uc / 64;
    }
    if len >= 3 {
      bytes, uc := [(0x80 + uc % 64) as char] + bytes, uc / 64;
    }
    if len >= 2 {
      bytes, uc := [(0x80 + uc % 64) as char] + bytes, uc / 64;
    }
    Shifts(code);
    var mark := if len == 1 then uc else if len == 2 then 0xC0 + uc else if len == 3 then 0xE0 + uc else 0xF0 + uc % 16;
    bytes := [mark as char] + bytes;
  }

  lemma Shifts(x: nat)
    ensures x / 64 / 64 == x / 4096 && x / 64 / 64 / 64 == x / 0x40000
  {
  }

  /** The escape `\u` at `j`: `sscanf`, the step over four positions, and the tests for
      surrogates. */
  method UnicodeAt(text: string, j: nat, codes: Codes) returns (u: Option<Unit>)
    requires j + 2 <= |text| && CodesOk(codes)
    ensures u == UnescapeUnicode(text[j..], codes)
  {
    var k := j + 6;
    Drop(text, j, 2);
    var scanned := Scan4(text[j + 2..]);
    var uc := if scanned.Some? then scanned else codes.uc;
    if |text| < k || uc.None? {
      return None;
    }
    var kept := codes.(uc := uc);
    if uc.value == 0 || 0xDC00 <= uc.value <= 0xDFFF {
      return Some(Unit([], 6, kept));
    }
    if 0xD800 <= uc.value <= 0xDBFF {
      if At(text, k) != '\\' || At(text, k + 1) != 'u' {
        return Some(Unit([], 6, kept));
      }
      u := PairAt(text, j, uc.value, codes);
      return;
    }
    var bytes, left := EncodeUtf8(uc.value);
    u := Some(Unit(bytes, 6, codes.(uc := Some(left))));
  }

  /** The second half of a pair of surrogates. */
  method PairAt(text: string, j: nat, uc: nat, codes: Codes) returns (u: Option<Unit>)
    requires j + 8 <= |text| && CodesOk(codes) && uc < 0x10000 && EscapeFollows(text[j..])
    ensures u == UnescapePair(text[j..], uc, codes)
  {
    Drop(text, j, 8);
    var scanned := Scan4(text[j + 8..]);
    var uc2 := if scanned.Some? then scanned else codes.uc2;
    if |text| < j + 12 || uc2.None? {
      return None;
    }
    if uc2.value < 0xDC00 || uc2.value > 0xDFFF {
      return Some(Unit([], 12, Codes(Some(uc), uc2)));
    }
    var bytes, left := EncodeUtf8(Json.Pair(uc, uc2.value));
    u := Some(Unit(bytes, 12, Codes(Some(left), uc2)));
  }

  /** One round of the copying loop. */
  method UnitAt(text: string, j: nat, codes: Codes) returns (u: Option<Unit>)
    requires j < |text| && text[j] != '\"' && CodesOk(codes)
    ensures u == Unescape(text[j..], codes)
  {
    if text[j] != '\\' {
      return Some(Unit([text[j]], 1, codes));
    }
    if j + 1 == |text| {
      return None;
    }
    var c := text[j + 1];
    if c == 'u' {
      u := UnicodeAt(text, j, codes);
      return;
    }
    match c {
      case 'b' => c := 8 as char;
      case 'f' => c := 12 as char;
      case 'n' => c := '\n';
      case 'r' => c := '\r';
      case 't' => c := '\t';
      case _ =>
    }
    u := Some(Unit([c], 2, codes));
  }

  /** The next unit of the copying pass. */
  method NextUnit(text: string, j: nat, codes: Codes, ghost written: string, ghost goal: Outcome<string, string>)
    returns (u: Option<Unit>)
    requires Copied(text, j, written, codes, goal) && j < |text| && text[j] != '\"'
    ensures u.None? ==> goal.Undefined?
    ensures u.Some? ==> 0 < u.value.used && Copied(text, j + u.value.used, written + u.value.s, u.value.codes, goal)
  {
    u := UnitAt(text, j, codes);
    BodyUnit(text[j..], codes);
    if u.Some? {
      CopiedUnit(text, j, written, codes, goal, u.value);
    }
  }

  lemma BodyEnd(text: string, j: nat, written: string, codes: Codes, goal: Outcome<string, string>)
    requires Copied(text, j, written, codes, goal) && (j == |text| || text[j] == '\"')
    ensures goal == Parsed(written, text[if j < |text| then j + 1 else j..])
  {
    assert written + [] == written;
    if j < |text| {
      Drop(text, j, 1);
    }
  }

  /** Copies one unit. The code does not look whether it still fits; where it does not, the copy
      ends here as undefined. */
  method CopyUnit(text: string, j: nat, codes: Codes, out: array<char>, p: nat, ghost goal: Outcome<string, string>)
    returns (q: nat, k: nat, next: Codes, ok: bool)
    requires p < out.Length && Copied(text, j, out[..p], codes, goal) && j < |text| && text[j] != '\"'
    modifies out
    ensures ok ==> q < out.Length && j < k && Copied(text, k, out[..q], next, goal)
    ensures !ok ==> TooLong(goal, out.Length)
  {
    ghost var written := out[..p];
    var u := NextUnit(text, j, codes, written, goal);
    if u.None? || out.Length <= p + |u.value.s| {
      return p, j, codes, false;
    }
    q := Put(out, p, u.value.s);
    assert out[..q] == written + u.value.s;
    return q, j + u.value.used, u.value.codes, true;
  }

  /** A body that the pass cannot copy into `size` bytes with a terminator. */
  ghost predicate TooLong(goal: Outcome<string, string>, size: nat) {
    goal.Parsed? ==> size <= |goal.value|
  }

  /** The second pass over a string, which copies its body. */
  method CopyBody(text: string, i: nat, out: array<char>, ghost goal: Outcome<string, string>)
    returns (p: nat, j: nat, ok: bool)
    requires 0 < out.Length && Copied(text, i, [], Unset, goal)
    modifies out
    ensures ok ==> p < out.Length && i <= j <= |text| && goal == Parsed(out[..p], text[j..])
    ensures !ok ==> TooLong(goal, out.Length)
  {
    var codes := Unset;
    j, p, ok := i, 0, true;
    assert out[..0] == [];
    while j < |text| && text[j] != '\"'
      invariant i <= j && p < out.Length && Copied(text, j, out[..p], codes, goal)
      decreases |text| - j
    {
      p, j, codes, ok := CopyUnit(text, j, codes, out, p, goal);
      if !ok {
        return;
      }
    }
    BodyEnd(text, j, out[..p], codes, goal);
    if j < |text| {
      j := j + 1;
    }
    ok := true;
  }

  /** What a function of the code, which works with positions, has to do with the function
      that it computes. */
  ghost predicate Agrees<T>(r: Outcome<T, nat>, text: string, i: nat, f: Outcome<T, string>) {
    match r
    case Parsed(v, j) => i < j <= |text| && f == Parsed(v, text[j..])
    case Failed => f.Failed?
    case Undefined => f.Undefined?
  }

  /** `parse_string`. */
  method ParseStringAt(text: string, i: nat) returns (r: Outcome<string, nat>)
    requires i <= |text|
    ensures Agrees(r, text, i, ParseString(text[i..]))
  {
    if At(text, i) != '\"' {
      return Failed;
    }
    Drop(text, i, 1);
    var len, inside := CountFrom(text, i + 1);
    if !inside {
      return Undefined;
    }
    var out := new char[len + 1](_ => NUL);
    ghost var goal := ParseBody(text[i + 1..], Unset);
    PrefixedNone(goal);
    var p, j, ok := CopyBody(text, i + 1, out, goal);
    if !ok {
      return Undefined;
    }
    out[p] := NUL;
    return Parsed(out[..p], j);
  }

  lemma PrefixedNone(r: Outcome<string, string>)
    ensures Prefixed([], r) == r
  {
    if r.Parsed? {
      assert [] + r.value == r.value;
    }
  }

  lemma PrefixedTwice(s: string, t: string, r: Outcome<string, string>)
    ensures Prefixed(s, Prefixed(t, r)) == Prefixed(s + t, r)
  {
    if r.Parsed? {
      Assoc(s, t, r.value);
    }
  }

  // ---- values

  /** The children collected so far, in front of the rest. */
  function Before(vs: seq<Value>, items: Items): (r: Items) {
    if vs == [] then items else Before(DropLast(vs), Item(Last(vs), items))
  }

  lemma BeforeAppend(vs: seq<Value>, v: Value, items: Items)
    ensures Before(vs + [v], items) == Before(vs, Item(v, items))
  {
    assert DropLast(vs + [v]) == vs && Last(vs + [v]) == v;
  }

  function ItemsBefore(vs: seq<Value>, r: Outcome<Items, string>): (q: Outcome<Items, string>) {
    if r.Parsed? then Parsed(Before(vs, r.value), r.rest) else r
  }

  function MembersFront(ms: seq<(string, Value)>, members: Members): (r: Members) {
    if ms == [] then members else MembersFront(DropLast(ms), Member(Last(ms).0, Last(ms).1, members))
  }

  lemma MembersFrontAppend(ms: seq<(string, Value)>, name: string, v: Value, members: Members)
    ensures MembersFront(ms + [(name, v)], members) == MembersFront(ms, Member(name, v, members))
  {
    assert DropLast(ms + [(name, v)]) == ms && Last(ms + [(name, v)]) == (name, v);
  }

  function MembersBefore(ms: seq<(string, Value)>, r: Outcome<Members, string>): (q: Outcome<Members, string>) {
    if r.Parsed? then Parsed(MembersFront(ms, r.value), r.rest) else r
  }

  /** A failure is passed on. */
  function Lost<T, U, R, Q>(r: Outcome<T, R>): (q: Outcome<U, Q>)
    requires !r.Parsed?
  {
    if r.Failed? then Failed else Undefined
  }

  /** `parse_value`. */
  method ParseValueAt(text: string, i: nat) returns (r: Outcome<Value, nat>)
    requires i <= |text|
    ensures Agrees(r, text, i, ParseValue(text[i..]))
    decreases |text| - i, 0
  {
    var t := text[i..];
    if "null" <= t {
      Drop(text, i, 4);
      return Parsed(Null, i + 4);
    } else if "false" <= t {
      Drop(text, i, 5);
      return Parsed(False, i + 5);
    } else if "true" <= t {
      Drop(text, i, 4);
      return Parsed(True, i + 4);
    } else if At(text, i) == '\"' {
      var s := ParseStringAt(text, i);
      return if s.Parsed? then Parsed(Str(s.value), s.rest) else Lost(s);
    } else if At(text, i) == '-' || IsDigit(At(text, i)) {
      var v, j := ParseNumberAt(text, i);
      return Parsed(v, j);
    } else if At(text, i) == '[' {
      r := ParseArrayAt(text, i);
    } else if At(text, i) == '{' {
      r := ParseObjectAt(text, i);
    } else {
      return Failed;
    }
  }

  /** `parse_array`. */
  method ParseArrayAt(text: string, i: nat) returns (r: Outcome<Value, nat>)
    requires i < |text| && text[i] == '['
    ensures Agrees(r, text, i, ParseValue(text[i..]))
    decreases |text| - i - 1, 4
  {
    Drop(text, i, 1);
    var j := SkipFrom(text, i + 1);
    if At(text, j) == ']' {
      Drop(text, j, 1);
      return Parsed(Arr(NoItems), j + 1);
    }
    var items := ParseItemsAt(text, j);
    return if items.Parsed? then Parsed(Arr(items.value), items.rest) else Lost(items);
  }

  /** One element, and whether the array ends or goes on behind it. */
  datatype Step<T> = Bad(why: Outcome<T, nat>) | End(v: T, next: nat) | More(v: T, next: nat)

  function OneItem(v: Value, r: Outcome<Items, string>): (q: Outcome<Items, string>) {
    if r.Parsed? then Parsed(Item(v, r.value), r.rest) else r
  }

  method ParseItemAt(text: string, i: nat) returns (s: Step<Value>)
    requires i <= |text|
    ensures s.Bad? ==> !s.why.Parsed? && ParseItems(text[i..]) == Lost(s.why)
    ensures s.End? ==> i < s.next <= |text| && ParseItems(text[i..]) == Parsed(Item(s.v, NoItems), text[s.next..])
    ensures s.More? ==> i < s.next <= |text| && ParseItems(text[i..]) == OneItem(s.v, ParseItems(text[s.next..]))
    decreases |text| - i, 1
  {
    var k := SkipFrom(text, i);
    var v := ParseValueAt(text, k);
    if !v.Parsed? {
      return Bad(v);
    }
    var next, mark := SeparatorAt(text, v.rest, ']');
    return if mark.Wrong? then Bad(Failed) else if mark.Close? then End(v.value, next) else More(v.value, next);
  }

  /** What follows an element, and where the text goes on. */
  method SeparatorAt(text: string, i: nat, close: char) returns (j: nat, mark: Mark)
    requires i <= |text|
    ensures mark == Separator(text[i..], close)
    ensures !mark.Wrong? ==> i < j <= |text| && mark.rest == text[j..]
  {
    j := SkipFrom(text, i);
    if j == |text| {
      return j, Wrong;
    }
    Drop(text, j, 1);
    var c := text[j];
    j := j + 1;
    mark := if c == close then Close(text[j..]) else if c == ',' then Comma(text[j..]) else Wrong;
  }

  method ParseItemsAt(text: string, i: nat) returns (r: Outcome<Items, nat>)
    requires i <= |text|
    ensures Agrees(r, text, i, ParseItems(text[i..]))
    decreases |text| - i, 2
  {
    ghost var goal := ParseItems(text[i..]);
    var j, vs: seq<Value> := i, [];
    while true
      invariant i <= j <= |text| && goal == ItemsBefore(vs, ParseItems(text[j..]))
      decreases |text| - j
    {
      var s := ParseItemAt(text, j);
      if s.Bad? {
        return Lost(s.why);
      }
      if s.End? {
        BeforeAppend(vs, s.v, NoItems);
        return Parsed(Before(vs + [s.v], NoItems), s.next);
      }
      ItemsNext(vs, s.v, ParseItems(text[s.next..]));
      vs := vs + [s.v];
      j := s.next;
    }
  }

  /** One more element has been read. */
  lemma ItemsNext(vs: seq<Value>, v: Value, r: Outcome<Items, string>)
    ensures ItemsBefore(vs, OneItem(v, r)) == ItemsBefore(vs + [v], r)
  {
    if r.Parsed? {
      BeforeAppend(vs, v, r.value);
    }
  }

  /** `parse_object`. */
  method ParseObjectAt(text: string, i: nat) returns (r: Outcome<Value, nat>)
    requires i < |text| && text[i] == '{'
    ensures Agrees(r, text, i, ParseValue(text[i..]))
    decreases |text| - i - 1, 4
  {
    Drop(text, i, 1);
    var j := SkipFrom(text, i + 1);
    if At(text, j) == '}' {
      Drop(text, j, 1);
      return Parsed(Obj(NoMembers), j + 1);
    }
    var members := ParseMembersAt(text, j);
    return if members.Parsed? then Parsed(Obj(members.value), members.rest) else Lost(members);
  }

  /** A name and its colon. */
  method ParseNameAt(text: string, i: nat) returns (r: Outcome<string, nat>)
    requires i <= |text|
    ensures Agrees(r, text, i, ParseName(text[i..]))
  {
    var j := SkipFrom(text, i);
    var s := ParseStringAt(text, j);
    if !s.Parsed? {
      return s;
    }
    var k := SkipFrom(text, s.rest);
    if At(text, k) != ':' {
      return Failed;
    }
    Drop(text, k, 1);
    return Parsed(s.value, k + 1);
  }

  /** A name, a colon and a value. */
  method ParseMemberAt(text: string, i: nat) returns (r: Outcome<(string, Value), nat>)
    requires i <= |text|
    ensures Agrees(r, text, i, ParseMember(text[i..]))
    decreases |text| - i, 1
  {
    var s := ParseNameAt(text, i);
    if !s.Parsed? {
      return Lost(s);
    }
    var l := SkipFrom(text, s.rest);
    var v := ParseValueAt(text, l);
    return if v.Parsed? then Parsed((s.value, v.value), v.rest) else Lost(v);
  }

  function OneMember(m: (string, Value), r: Outcome<Members, string>): (q: Outcome<Members, string>) {
    if r.Parsed? then Parsed(Member(m.0, m.1, r.value), r.rest) else r
  }

  method ParseNextMember(text: string, i: nat) returns (s: Step<(string, Value)>)
    requires i <= |text|
    ensures s.Bad? ==> !s.why.Parsed? && ParseMembers(text[i..]) == Lost(s.why)
    ensures s.End? ==>
      i < s.next <= |text| && ParseMembers(text[i..]) == Parsed(Member(s.v.0, s.v.1, NoMembers), text[s.next..])
    ensures s.More? ==> i < s.next <= |text| && ParseMembers(text[i..]) == OneMember(s.v, ParseMembers(text[s.next..]))
    decreases |text| - i, 2
  {
    var m := ParseMemberAt(text, i);
    if !m.Parsed? {
      return Bad(m);
    }
    var next, mark := SeparatorAt(text, m.rest, '}');
    return if mark.Wrong? then Bad(Failed) else if mark.Close? then End(m.value, next) else More(m.value, next);
  }

  method ParseMembersAt(text: string, i: nat) returns (r: Outcome<Members, nat>)
    requires i <= |text|
    ensures Agrees(r, text, i, ParseMembers(text[i..]))
    decreases |text| - i, 3
  {
    ghost var goal := ParseMembers(text[i..]);
    var j, ms: seq<(string, Value)> := i, [];
    while true
      invariant i <= j <= |text| && goal == MembersBefore(ms, ParseMembers(text[j..]))
      decreases |text| - j
    {
      var s := ParseNextMember(text, j);
      if s.Bad? {
        return Lost(s.why);
      }
      if s.End? {
        MembersFrontAppend(ms, s.v.0, s.v.1, NoMembers);
        return Parsed(MembersFront(ms + [s.v], NoMembers), s.next);
      }
      MembersNext(ms, s.v, ParseMembers(text[s.next..]));
      ms := ms + [s.v];
      j := s.next;
    }
  }

  lemma MembersNext(ms: seq<(string, Value)>, m: (string, Value), r: Outcome<Members, string>)
    ensures MembersBefore(ms, OneMember(m, r)) == MembersBefore(ms + [m], r)
  {
    if r.Parsed? {
      MembersFrontAppend(ms, m.0, m.1, r.value);
    }
  }

  /** `cJSON_Parse`. */
  method ParseText(text: string) returns (r: Outcome<Value, nat>)
    ensures Agrees(r, text, 0, Parse(text))
  {
    var i := SkipFrom(text, 0);
    assert text[0..] == text;
    r := ParseValueAt(text, i);
  }

  /** The copy that `CJsonObject` makes of a document: print it, and parse the text. */
  method Copy(v: Value, fmt: bool) returns (w: Outcome<Value, nat>)
    requires Plain(v)
    ensures w.Parsed? && w.value == Normal(v)
  {
    var text := PrintValue(v, 0, fmt);
    w := ParseText(text);
    CopyIsFaithful(v, fmt);
  }
}
