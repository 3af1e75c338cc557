/**
 What the JSON parser accepts (src/core/util/json/cJSON.c), as a grammar (section 2 of
 RFC 8259) that does not mention the parser.

 A document is a text with its structure: the brackets, commas and colons, and blanks, which
 here are all characters up to the space. Strings and numbers are leaves, and a leaf is what
 the functions for strings and numbers take from the text.
 */
module JsonGrammar {
  import opened Common
  import opened Json

  datatype Doc =
    | Word(word: Value)
    | Number(text: string, num: Value)
    | Quoted(text: string, s: string)
    | Brackets(pad: string, entries: Entries)
    | Braces(pad: string, fields: Fields)

  datatype Entries = NoEntries | Entry(pre: string, doc: Doc, post: string, next: Entries)

  datatype Fields =
    | NoFields
    | Field(pre: string, text: string, name: string, mid: string, gap: string, doc: Doc, post: string, next: Fields)

  // ---------------------------------------------------------------- grammar

  /** The text of a document, followed by `rest`. */
  function Spell(d: Doc, rest: string): (t: string) {
    match d
    case Word(v) => (if v.Null? then "null" else if v.False? then "false" else "true") + rest
    case Number(text, _) => text + rest
    case Quoted(text, _) => text + rest
    case Brackets(pad, es) => "[" + (pad + SpellEntries(es, "]" + rest))
    case Braces(pad, fs) => "{" + (pad + SpellFields(fs, "}" + rest))
  }

  function SpellEntries(es: Entries, rest: string): (t: string) {
    if es.NoEntries? then rest else es.pre + Spell(es.doc, es.post + MoreEntries(es.next, rest))
  }

  function MoreEntries(es: Entries, rest: string): (t: string) {
    if es.NoEntries? then rest else "," + (es.pre + Spell(es.doc, es.post + MoreEntries(es.next, rest)))
  }

  function SpellFields(fs: Fields, rest: string): (t: string) {
    if fs.NoFields? then rest
    else fs.pre + (fs.text + (fs.mid + (":" + (fs.gap + Spell(fs.doc, fs.post + MoreFields(fs.next, rest))))))
  }

  function MoreFields(fs: Fields, rest: string): (t: string) {
    if fs.NoFields? then rest
    else "," + (fs.pre + (fs.text + (fs.mid + (":" + (fs.gap + Spell(fs.doc, fs.post + MoreFields(fs.next, rest)))))))
  }

  function Meaning(d: Doc): (v: Value) {
    match d
    case Word(v) => v
    case Number(_, v) => v
    case Quoted(_, s) => Str(s)
    case Brackets(_, es) => Arr(MeaningItems(es))
    case Braces(_, fs) => Obj(MeaningMembers(fs))
  }

  function MeaningItems(es: Entries): (items: Items) {
    if es.NoEntries? then NoItems else Item(Meaning(es.doc), MeaningItems(es.next))
  }

  function MeaningMembers(fs: Fields): (members: Members) {
    if fs.NoFields? then NoMembers else Member(fs.name, Meaning(fs.doc), MeaningMembers(fs.next))
  }

  /** A string leaf with `rest` behind it. */
  predicate IsString(text: string, s: string, rest: string) {
    text != [] && text[0] == '\"' && ParseString(text + rest) == Parsed(s, rest)
  }

  predicate IsNumber(text: string, v: Value, rest: string) {
    text != [] && (text[0] == '-' || IsDigit(text[0])) && ParseNumber(text + rest) == (v, rest)
  }

  /** The document is well formed, in a text where `rest` follows it. */
  predicate Fits(d: Doc, rest: string) {
    match d
    case Word(v) => v.Null? || v.False? || v.True?
    case Number(text, v) => IsNumber(text, v, rest)
    case Quoted(text, s) => IsString(text, s, rest)
    case Brackets(pad, es) => Blank(pad) && FitEntries(es, "]" + rest)
    case Braces(pad, fs) => Blank(pad) && FitFields(fs, "}" + rest)
  }

  predicate FitEntries(es: Entries, rest: string) {
    es.Entry? ==>
      && Blank(es.pre) && Blank(es.post)
      && Fits(es.doc, es.post + MoreEntries(es.next, rest)) && FitEntries(es.next, rest)
  }

  predicate FitFields(fs: Fields, rest: string) {
    fs.Field? ==>
      && var after := fs.post + MoreFields(fs.next, rest);
      && Blank(fs.pre) && Blank(fs.mid) && Blank(fs.gap) && Blank(fs.post)
      && IsString(fs.text, fs.name, fs.mid + (":" + (fs.gap + Spell(fs.doc, after))))
      && Fits(fs.doc, after) && FitFields(fs.next, rest)
  }

  // -------------------------------------------------- documents are accepted

  lemma SpellHead(d: Doc, rest: string)
    requires Fits(d, rest)
    ensures var t := Spell(d, rest);
            && t != [] && t[0] > ' ' && t[0] !in ",]}" && Skip(t) == t
            && (t[0] == '[' <==> d.Brackets?) && (t[0] == '{' <==> d.Braces?) && (t[0] == '\"' <==> d.Quoted?)
            && (t[0] == '-' || IsDigit(t[0]) <==> d.Number?) && (t[0] in "nft" <==> d.Word?)
  {
  }

  lemma SkipPad(pad: string, t: string)
    requires Blank(pad) && Skip(t) == t
    ensures Skip(pad + t) == t
  {
    SkipBlank(pad, t);
  }

  lemma Marked(post: string, c: char, rest: string)
    requires Blank(post) && c > ' '
    ensures Skip(post + ([c] + rest)) == [c] + rest && ([c] + rest)[1..] == rest
  {
    SkipPad(post, [c] + rest);
  }

  lemma {:induction false} Accepts(d: Doc, rest: string)
    requires Fits(d, rest)
    ensures ParseValue(Spell(d, rest)) == Parsed(Meaning(d), rest)
    decreases d, 0
  {
    var t := Spell(d, rest);
    SpellHead(d, rest);
    match d
    case Word(v) => AcceptsWord(v, rest);
    case Number(text, v) =>
    case Quoted(text, s) =>
    case Brackets(pad, es) =>
      AfterFirst('[', pad + SpellEntries(es, "]" + rest));
      if es.NoEntries? {
        Marked(pad, ']', rest);
        EmptyArray(pad + ("]" + rest), rest);
      } else {
        AcceptsEntries(es, rest);
        SkipBlank(pad, SpellEntries(es, "]" + rest));
        ItemsSkip(pad + SpellEntries(es, "]" + rest), SpellEntries(es, "]" + rest));
        ArrayStep(pad + SpellEntries(es, "]" + rest), MeaningItems(es), rest);
      }
    case Braces(pad, fs) =>
      if fs.NoFields? {
        Marked(pad, '}', rest);
        EmptyObject(pad + ("}" + rest), rest);
      } else {
        AcceptsFields(fs, rest);
        SkipBlank(pad, SpellFields(fs, "}" + rest));
        MembersSkip(pad + SpellFields(fs, "}" + rest), SpellFields(fs, "}" + rest));
        ObjectStep(pad + SpellFields(fs, "}" + rest), MeaningMembers(fs), rest);
      }
  }

  lemma AcceptsWord(v: Value, rest: string)
    requires v.Null? || v.False? || v.True?
    ensures ParseValue(Spell(Word(v), rest)) == Parsed(v, rest)
  {
    var t := Spell(Word(v), rest);
    if v.Null? {
      assert "null" <= t && t[4..] == rest;
    } else if v.False? {
      assert t[0] == 'f' && "false" <= t && t[5..] == rest;
    } else {
      assert t[0] == 't' && "true" <= t && t[4..] == rest;
    }
  }

  /** One element, and what is behind it. */
  lemma ItemThenClose(t: string, v: Value, more: string, rest: string)
    requires ParseValue(Skip(t)) == Parsed(v, more) && Skip(more) == "]" + rest
    ensures ParseItems(t) == Parsed(Item(v, NoItems), rest)
  {
    AfterFirst(']', rest);
  }

  lemma ItemThenMore(t: string, v: Value, more: string, next: string, items: Items, rest: string)
    requires ParseValue(Skip(t)) == Parsed(v, more) && Skip(more) == "," + next
    requires ParseItems(next) == Parsed(items, rest)
    ensures ParseItems(t) == Parsed(Item(v, items), rest)
  {
    AfterFirst(',', next);
  }

  lemma {:induction false} AcceptsEntries(es: Entries, rest: string)
    requires es.Entry? && FitEntries(es, "]" + rest)
    ensures ParseItems(SpellEntries(es, "]" + rest)) == Parsed(MeaningItems(es), rest)
    decreases es, 0
  {
    var more := es.post + MoreEntries(es.next, "]" + rest);
    var t := SpellEntries(es, "]" + rest);
    Accepts(es.doc, more);
    SpellHead(es.doc, more);
    SkipPad(es.pre, Spell(es.doc, more));
    if es.next.NoEntries? {
      Marked(es.post, ']', rest);
      ItemThenClose(t, Meaning(es.doc), more, rest);
    } else {
      var next := SpellEntries(es.next, "]" + rest);
      AcceptsEntries(es.next, rest);
      Marked(es.post, ',', next);
      ItemThenMore(t, Meaning(es.doc), more, next, MeaningItems(es.next), rest);
    }
  }

  lemma MemberThenClose(t: string, name: string, v: Value, more: string, rest: string)
    requires ParseMember(t) == Parsed((name, v), more) && Skip(more) == "}" + rest
    ensures ParseMembers(t) == Parsed(Member(name, v, NoMembers), rest)
  {
    AfterFirst('}', rest);
  }

  lemma MemberThenMore(t: string, name: string, v: Value, more: string, next: string, ms: Members, rest: string)
    requires ParseMember(t) == Parsed((name, v), more) && Skip(more) == "," + next
    requires ParseMembers(next) == Parsed(ms, rest)
    ensures ParseMembers(t) == Parsed(Member(name, v, ms), rest)
  {
    AfterFirst(',', next);
  }

  /** A name, a colon and a value. */
  lemma MemberIs(t: string, name: string, u: string, next: string, v: Value, more: string)
    requires ParseString(Skip(t)) == Parsed(name, u) && Skip(u) == ":" + next
    requires ParseValue(Skip(next)) == Parsed(v, more)
    ensures ParseMember(t) == Parsed((name, v), more)
  {
    AfterFirst(':', next);
  }

  lemma {:induction false} AcceptsFields(fs: Fields, rest: string)
    requires fs.Field? && FitFields(fs, "}" + rest)
    ensures ParseMembers(SpellFields(fs, "}" + rest)) == Parsed(MeaningMembers(fs), rest)
    decreases fs, 0
  {
    var more := fs.post + MoreFields(fs.next, "}" + rest);
    var value := fs.gap + Spell(fs.doc, more);
    var named := fs.text + (fs.mid + (":" + value));
    var t := SpellFields(fs, "}" + rest);
    Accepts(fs.doc, more);
    SpellHead(fs.doc, more);
    SkipPad(fs.gap, Spell(fs.doc, more));
    Marked(fs.mid, ':', value);
    SkipPad(fs.pre, named);
    MemberIs(t, fs.name, fs.mid + (":" + value), value, Meaning(fs.doc), more);
    if fs.next.NoFields? {
      Marked(fs.post, '}', rest);
      MemberThenClose(t, fs.name, Meaning(fs.doc), more, rest);
    } else {
      var next := SpellFields(fs.next, "}" + rest);
      AcceptsFields(fs.next, rest);
      Marked(fs.post, ',', next);
      MemberThenMore(t, fs.name, Meaning(fs.doc), more, next, MeaningMembers(fs.next), rest);
    }
  }

  // ---------------------------------------------- only documents are accepted

  lemma {:induction false} SkipSplit(t: string) returns (pad: string)
    ensures Blank(pad) && t == pad + Skip(t)
  {
    if t != [] && t[0] <= ' ' {
      var more := SkipSplit(t[1..]);
      pad := [t[0]] + more;
    } else {
      pad := "";
    }
  }

  lemma First(t: string, c: char)
    requires t != [] && t[0] == c
    ensures t == [c] + t[1..]
  {
  }

  lemma {:induction false} TakesSuffix(t: string, c: Codes)
    requires CodesOk(c) && ParseBody(t, c).Parsed?
    ensures Suffix(ParseBody(t, c).rest, t)
    decreases |t|
  {
    if t != [] && t[0] != '\"' {
      var u := Unescape(t, c).value;
      TakesSuffix(t[u.used..], u.codes);
    }
  }

  lemma StringLeaf(t: string) returns (text: string)
    requires ParseString(t).Parsed?
    ensures var r := ParseString(t);
            t == text + r.rest && IsString(text, r.value, r.rest)
  {
    var r := ParseString(t);
    TakesSuffix(t[1..], Unset);
    var k := |t| - |r.rest|;
    text := t[..k];
    assert t[k..] == r.rest;
  }

  lemma NumberLeaf(t: string) returns (text: string)
    requires At(t, 0) == '-' || IsDigit(At(t, 0))
    ensures t == text + ParseNumber(t).1 && IsNumber(text, ParseNumber(t).0, ParseNumber(t).1)
  {
    var r := ParseNumber(t);
    var k := |t| - |r.1|;
    text := t[..k];
    NumberSuffix(t);
    assert t[k..] == r.1;
  }

  predicate Suffix(r: string, t: string) {
    |r| <= |t| && t[|t| - |r|..] == r
  }

  lemma SuffixOfSuffix(a: string, b: string, c: string)
    requires Suffix(a, b) && Suffix(b, c)
    ensures Suffix(a, c)
  {
  }

  lemma Dropped(t: string, k: nat)
    requires k <= |t|
    ensures Suffix(t[k..], t)
  {
  }

  lemma DigitsSuffix(t: string)
    ensures Suffix(ScanDigits(t).1, t)
  {
    var u, r := if At(t, 0) == '0' then t[1..] else t, ScanDigits(t);
    Dropped(u, |r.0|);
    Dropped(t, |t| - |u|);
    SuffixOfSuffix(r.1, u, t);
  }

  lemma FractionSuffix(t: string)
    ensures Suffix(ScanFraction(t).1, t)
  {
    var r := ScanFraction(t);
    Dropped(t, |t| - |r.1|);
  }

  lemma ExponentSuffix(t: string)
    ensures Suffix(ScanExponent(t).1, t)
  {
    if At(t, 0) == 'e' || At(t, 0) == 'E' {
      var u := if At(t, 1) == '+' || At(t, 1) == '-' then t[2..] else t[1..];
      Dropped(u, |DigitsOf(u)|);
      Dropped(t, |t| - |u|);
      SuffixOfSuffix(u[|DigitsOf(u)|..], u, t);
    } else {
      Dropped(t, 0);
    }
  }

  lemma UnsignedSuffix(t: string, negative: bool)
    ensures Suffix(ParseUnsigned(t, negative).1, t)
  {
    var d := ScanDigits(t).1;
    var f := ScanFraction(d).1;
    DigitsSuffix(t);
    FractionSuffix(d);
    ExponentSuffix(f);
    SuffixOfSuffix(f, d, t);
    SuffixOfSuffix(ScanExponent(f).1, f, t);
  }

  lemma NumberSuffix(t: string)
    ensures Suffix(ParseNumber(t).1, t)
  {
    if At(t, 0) == '-' {
      var r := ParseUnsigned(t[1..], true).1;
      UnsignedSuffix(t[1..], true);
      Dropped(t, 1);
      SuffixOfSuffix(r, t[1..], t);
    } else {
      UnsignedSuffix(t, false);
    }
  }

  ghost predicate Reads(d: Doc, t: string, v: Value, rest: string) {
    Fits(d, rest) && Spell(d, rest) == t && Meaning(d) == v
  }

  lemma WordLeaf(t: string) returns (d: Doc)
    requires "null" <= t || "false" <= t || "true" <= t
    ensures ParseValue(t).Parsed? && Reads(d, t, ParseValue(t).value, ParseValue(t).rest)
  {
    if "null" <= t {
      d := Word(Null);
      assert t == "null" + t[4..];
    } else if "false" <= t {
      d := Word(False);
      assert t == "false" + t[5..];
    } else {
      d := Word(True);
      assert t == "true" + t[4..];
    }
  }

  lemma {:induction false} OnlyDocs(t: string) returns (d: Doc)
    requires ParseValue(t).Parsed?
    ensures Reads(d, t, ParseValue(t).value, ParseValue(t).rest)
    decreases |t|, 1
  {
    if "null" <= t || "false" <= t || "true" <= t {
      d := WordLeaf(t);
    } else if At(t, 0) == '\"' {
      var text := StringLeaf(t);
      d := Quoted(text, ParseString(t).value);
    } else if At(t, 0) == '-' || IsDigit(At(t, 0)) {
      var text := NumberLeaf(t);
      d := Number(text, ParseNumber(t).0);
    } else if At(t, 0) == '[' {
      d := OnlyArrays(t);
    } else {
      d := OnlyObjects(t);
    }
  }

  lemma {:induction false} OnlyArrays(t: string) returns (d: Doc)
    requires t != [] && t[0] == '[' && ParseValue(t).Parsed?
    ensures Reads(d, t, ParseValue(t).value, ParseValue(t).rest)
    decreases |t|, 0
  {
    var u, rest := Skip(t[1..]), ParseValue(t).rest;
    var pad := SkipSplit(t[1..]);
    First(t, '[');
    if At(u, 0) == ']' {
      First(u, ']');
      d := Brackets(pad, NoEntries);
    } else {
      var es := OnlyEntries(u);
      d := Brackets(pad, es);
    }
  }

  lemma {:induction false} OnlyEntries(t: string) returns (es: Entries)
    requires ParseItems(t).Parsed?
    ensures var r := ParseItems(t);
            && es.Entry? && FitEntries(es, "]" + r.rest)
            && SpellEntries(es, "]" + r.rest) == t && MeaningItems(es) == r.value
    decreases |t|, 2
  {
    var r := ParseItems(t);
    var pre := SkipSplit(t);
    var d := OnlyDocs(Skip(t));
    var more := ParseValue(Skip(t)).rest;
    var post := SkipSplit(more);
    var m := Separator(more, ']');
    if m.Close? {
      First(Skip(more), ']');
      es := Entry(pre, d, post, NoEntries);
    } else {
      First(Skip(more), ',');
      var next := OnlyEntries(m.rest);
      es := Entry(pre, d, post, next);
      assert MoreEntries(next, "]" + r.rest) == "," + SpellEntries(next, "]" + r.rest);
    }
  }

  lemma {:induction false} OnlyObjects(t: string) returns (d: Doc)
    requires t != [] && t[0] == '{' && ParseValue(t).Parsed?
    ensures Reads(d, t, ParseValue(t).value, ParseValue(t).rest)
    decreases |t|, 0
  {
    var u, rest := Skip(t[1..]), ParseValue(t).rest;
    var pad := SkipSplit(t[1..]);
    First(t, '{');
    if At(u, 0) == '}' {
      First(u, '}');
      d := Braces(pad, NoFields);
    } else {
      var fs := OnlyFields(u);
      d := Braces(pad, fs);
    }
  }

  /** The parts of a member. */
  lemma {:induction false} OnlyMember(t: string) returns (f: Fields)
    requires ParseMember(t).Parsed?
    ensures var r := ParseMember(t);
            && f.Field? && f.next.NoFields? && f.post == ""
            && Blank(f.pre) && Blank(f.mid) && Blank(f.gap) && f.name == r.value.0
            && t == f.pre + (f.text + (f.mid + (":" + (f.gap + Spell(f.doc, r.rest)))))
            && IsString(f.text, f.name, f.mid + (":" + (f.gap + Spell(f.doc, r.rest))))
            && Fits(f.doc, r.rest) && Meaning(f.doc) == r.value.1
    decreases |t|, 2
  {
    var pre := SkipSplit(t);
    var named := ParseString(Skip(t));
    var text := StringLeaf(Skip(t));
    var mid := SkipSplit(named.rest);
    var colon := Skip(named.rest);
    First(colon, ':');
    var next := colon[1..];
    var gap := SkipSplit(next);
    var d := OnlyDocs(Skip(next));
    f := Field(pre, text, named.value, mid, gap, d, "", NoFields);
  }

  lemma {:induction false} OnlyFields(t: string) returns (fs: Fields)
    requires ParseMembers(t).Parsed?
    ensures var r := ParseMembers(t);
            && fs.Field? && FitFields(fs, "}" + r.rest)
            && SpellFields(fs, "}" + r.rest) == t && MeaningMembers(fs) == r.value
    decreases |t|, 3
  {
    var r := ParseMembers(t);
    var f := OnlyMember(t);
    var more := ParseMember(t).rest;
    var post := SkipSplit(more);
    var m := Separator(more, '}');
    if m.Close? {
      First(Skip(more), '}');
      fs := f.(post := post);
    } else {
      First(Skip(more), ',');
      var next := OnlyFields(m.rest);
      fs := f.(post := post, next := next);
      assert MoreFields(next, "}" + r.rest) == "," + SpellFields(next, "}" + r.rest);
    }
  }

  /** The parser reads a value and leaves `rest` if and only if the text is a document with that
      meaning, followed by `rest`. */
  lemma AcceptsExactly(t: string, v: Value, rest: string)
    ensures ParseValue(t) == Parsed(v, rest) <==> exists d :: Reads(d, t, v, rest)
  {
    if ParseValue(t) == Parsed(v, rest) {
      var d := OnlyDocs(t);
      assert Reads(d, t, v, rest);
    } else if d :| Reads(d, t, v, rest) {
      Accepts(d, rest);
    }
  }

  lemma Nest(a: string, b: string, c: string, d: string)
    ensures a + (b + (c + d)) == a + (b + c) + d
  {
    assert a + (b + (c + d)) == a + (b + c) + d;
  }

  /** The text of a document is in front of what follows it, whatever that is. */
  lemma {:induction false} SpellIsPrefix(d: Doc, rest: string)
    ensures Spell(d, rest) == Spell(d, "") + rest
    decreases d, 0
  {
    match d
    case Word(_) =>
    case Number(_, _) =>
    case Quoted(_, _) =>
    case Brackets(pad, es) =>
      EntriesPrefix(es, "]", rest);
      assert "]" + "" == "]";
      Nest("[", pad, SpellEntries(es, "]"), rest);
    case Braces(pad, fs) =>
      FieldsPrefix(fs, "}", rest);
      assert "}" + "" == "}";
      Nest("{", pad, SpellFields(fs, "}"), rest);
  }

  lemma {:induction false} EntriesPrefix(es: Entries, a: string, b: string)
    ensures SpellEntries(es, a + b) == SpellEntries(es, a) + b && MoreEntries(es, a + b) == MoreEntries(es, a) + b
    decreases es, 1
  {
    if es.Entry? {
      var before, more := MoreEntries(es.next, a), MoreEntries(es.next, a + b);
      EntriesPrefix(es.next, a, b);
      SpellIsPrefix(es.doc, es.post + before);
      SpellIsPrefix(es.doc, es.post + more);
      assert es.post + more == es.post + before + b;
      assert Spell(es.doc, es.post + more) == Spell(es.doc, es.post + before) + b;
    }
  }

  lemma {:induction false} FieldsPrefix(fs: Fields, a: string, b: string)
    ensures SpellFields(fs, a + b) == SpellFields(fs, a) + b && MoreFields(fs, a + b) == MoreFields(fs, a) + b
    decreases fs, 1
  {
    if fs.Field? {
      var before, more := MoreFields(fs.next, a), MoreFields(fs.next, a + b);
      FieldsPrefix(fs.next, a, b);
      SpellIsPrefix(fs.doc, fs.post + before);
      SpellIsPrefix(fs.doc, fs.post + more);
      assert fs.post + more == fs.post + before + b;
      assert Spell(fs.doc, fs.post + more) == Spell(fs.doc, fs.post + before) + b;
    }
  }
}
