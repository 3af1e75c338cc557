/**
 The two passes over a JSON string (`parse_string` in src/core/util/json/cJSON.c): the first
 one counts characters to size the output, the second one copies. They step differently over
 an escape with `\u`, whose four digits the second pass takes for granted.
 */
module JsonBounds {
  import opened Common
  import opened Json

  /** Where the copying pass stops, if it stays inside the text; its steps do not depend on
      what is written. */
  function CopyStop(t: string): (r: Option<string>)
    ensures r.Some? ==> |r.value| <= |t|
  {
    if t == [] || t[0] == '\"' then Some(t)
    else if t[0] != '\\' then CopyStop(t[1..])
    else if |t| < 2 then None
    else if t[1] != 'u' then CopyStop(t[2..])
    else if |t| < 6 then None else CopyStop(t[6..])
  }

  /** Both passes stay inside the text, and the second inside what the first has counted. */
  predicate Inside(t: string, k: nat)
    requires k <= |t|
  {
    && CountStop(t).Some? && CopyStop(t[k..]).Some?
    && |CountStop(t).value| <= |CopyStop(t[k..]).value|
  }

  /** A scan of the text with the counting pass at `t` and the copying pass `k` characters
      ahead. It fails where the copying pass has jumped over the end of what is counted, or a
      backslash is the last character. */
  predicate Tame(t: string, k: nat) {
    if t == [] || t[0] == '\"' then k == 0
    else if t[0] != '\\' then Tame(t[1..], if k == 0 then 0 else k - 1)
    else if |t| < 2 then false
    else if k == 0 then Tame(t[2..], if t[1] == 'u' then 4 else 0)
    else if k >= 2 then Tame(t[2..], k - 2)
    else Astray(t)
  }

  /** The counting pass is at an escape and the copying pass at the escaped character, which it
      takes for a closing quote, a plain character or the start of an escape of its own. */
  predicate Astray(t: string)
    requires |t| >= 2
    decreases t, 0
  {
    if t[1] == '\"' then CountStop(t[2..]).Some?
    else if t[1] != '\\' then Tame(t[2..], 0)
    else |t| >= 3 && Tame(t[2..], if t[2] == 'u' then 5 else 1)
  }

  lemma {:induction false} NotTame(t: string, k: nat)
    requires k > |t|
    ensures !Tame(t, k)
  {
    if t != [] && t[0] != '\"' {
      if t[0] != '\\' {
        NotTame(t[1..], k - 1);
      } else if |t| >= 2 {
        NotTame(t[2..], k - 2);
      }
    }
  }

  /** The copying pass stays inside what the counting pass has counted if and only if the scan
      succeeds. */
  lemma {:induction false} CopyInside(t: string, k: nat)
    requires k <= |t|
    ensures Inside(t, k) <==> Tame(t, k)
    decreases |t|, 2
  {
    if t == [] || t[0] == '\"' {
      assert t[0..] == t;
    } else if t[0] != '\\' {
      if k == 0 {
        assert t[0..] == t && t[1..][0..] == t[1..];
        CopyInside(t[1..], 0);
      } else {
        assert t[k..] == t[1..][k - 1..];
        CopyInside(t[1..], k - 1);
      }
    } else if |t| >= 2 {
      EscapeInside(t, k);
    }
  }

  lemma {:induction false} EscapeInside(t: string, k: nat)
    requires k <= |t| && 2 <= |t| && t[0] == '\\'
    ensures Inside(t, k) <==> Tame(t, k)
    decreases |t|, 1
  {
    if k == 0 {
      assert t[0..] == t;
      if t[1] == 'u' {
        FourAhead(t[2..]);
        assert |t| >= 6 ==> t[2..][4..] == t[6..];
      } else {
        assert t[2..][0..] == t[2..];
        CopyInside(t[2..], 0);
      }
    } else if k >= 2 {
      assert t[k..] == t[2..][k - 2..];
      CopyInside(t[2..], k - 2);
    } else {
      AstrayInside(t);
    }
  }

  /** Behind `\u`, four positions are passed over. */
  lemma {:induction false} FourAhead(u: string)
    ensures Tame(u, 4) <==> |u| >= 4 && Inside(u, 4)
    decreases |u|, 3
  {
    if |u| >= 4 {
      CopyInside(u, 4);
    } else {
      NotTame(u, 4);
    }
  }

  lemma {:induction false} AstrayInside(t: string)
    requires 2 <= |t| && t[0] == '\\'
    ensures Inside(t, 1) <==> Astray(t)
    decreases |t|, 0
  {
    var u := t[1..];
    assert u[0] == t[1] && u[1..] == t[2..];
    if t[1] != '\"' && t[1] != '\\' {
      assert t[2..][0..] == t[2..];
      CopyInside(t[2..], 0);
    } else if t[1] == '\\' && |t| >= 3 {
      assert t[2..][1..] == t[3..] == u[2..] && t[2..][0] == t[2] == u[1];
      if t[2] == 'u' {
        FourAhead(t[3..]);
        assert |t| >= 7 ==> t[3..][4..] == t[7..] == u[6..];
      } else {
        CopyInside(t[2..], 1);
      }
    }
  }

  // ------------------------------------------------------------ the output

  /** How many of the characters counted for `t` lie before the copying pass, `k` ahead. */
  function Passed(t: string, k: nat): (n: nat) {
    if k == 0 || t == [] then 0
    else if t[0] != '\\' then 1 + Passed(t[1..], k - 1)
    else if k == 1 then 0
    else 1 + if |t| < 2 then 0 else Passed(t[2..], k - 2)
  }

  /** A code of more than 16 bits takes a sign, and so two plain characters. */
  lemma LargeScan(t: string)
    requires Scan4(t).Some? && 0x10000 <= Scan4(t).value
    ensures 2 <= |t| && t[0] !in "\\\"" && t[1] !in "\\\""
  {
    var u := AfterSpace(t);
    var f := u[..Min(4, |u|)];
    assert ScanField(f).Some? && f[0] == '-' && HexValue(f[1]).Some?;
    assert u[0] == '-' && HexValue(u[1]).Some?;
    if u != t {
      assert u == AfterSpace(t[1..]);
      assert IsSpace(t[1]) || t[1..] == u;
    }
  }

  /** The four positions behind `\u` are worth two characters at least, and three if a long code
      is read there. */
  lemma FourPassed(u: string)
    requires Tame(u, 4)
    ensures Passed(u, 4) >= if Scan4(u).Some? && 0x10000 <= Scan4(u).value then 3 else 2
  {
    if Scan4(u).Some? && 0x10000 <= Scan4(u).value {
      LargeScan(u);
      var u1 := u[1..];
      var u2 := u1[1..];
      assert Passed(u, 4) == 1 + Passed(u1, 3) && u1[0] == u[1] && Tame(u1, 3);
      assert Passed(u1, 3) == 1 + Passed(u2, 2) && Tame(u2, 2);
      assert Passed(u2, 2) >= 1;
    } else if u[0] == '\\' {
      assert Passed(u, 4) == 1 + Passed(u[2..], 2) && Tame(u[2..], 2);
      assert Passed(u[2..], 2) >= 1;
    } else {
      var u1 := u[1..];
      assert Passed(u, 4) == 1 + Passed(u1, 3) && Tame(u1, 3);
      assert Passed(u1, 3) >= 1;
    }
  }

  /** `sscanf` finds a number behind every `\u` that the copying pass meets. */
  predicate Readable(t: string) {
    if t == [] || t[0] == '\"' then true
    else if t[0] != '\\' then Readable(t[1..])
    else if |t| < 2 then true
    else if t[1] != 'u' then Readable(t[2..])
    else |t| >= 6 ==> Scan4(t[2..]).Some? && Readable(t[6..])
  }

  /** The most that the copying pass can write. */
  function Most(t: string): (n: nat) {
    if t == [] || t[0] == '\"' then 0
    else if t[0] != '\\' then 1 + Most(t[1..])
    else if |t| < 2 then 0
    else if t[1] != 'u' then 1 + Most(t[2..])
    else if |t| < 6 then 0
    else (if Scan4(t[2..]).Some? && 0x10000 <= Scan4(t[2..]).value then 4 else 3) + Most(t[6..])
  }

  /** What a unit of the copying pass leaves to the rest. */
  predicate Leaves(t: string, size: nat, used: nat)
    requires used <= |t|
  {
    && Most(t) >= size + Most(t[used..])
    && (Readable(t) ==> Readable(t[used..]))
    && CopyStop(t) == CopyStop(t[used..])
  }

  lemma UnicodeLeaves(t: string, size: nat, used: nat)
    requires 6 <= |t| && t[0] == '\\' && t[1] == 'u'
    requires used == 6 || (used == 12 <= |t| && EscapeFollows(t))
    decreases used
    requires size <= 4 && (used == 6 && !(Scan4(t[2..]).Some? && 0x10000 <= Scan4(t[2..]).value) ==> size <= 3)
    ensures Leaves(t, size, used)
  {
    if used == 12 {
      var v := t[6..];
      assert v[0] == t[6] && v[1] == t[7] && v[6..] == t[12..];
      UnicodeLeaves(t, 3, 6);
      UnicodeLeaves(v, 3, 6);
    }
  }

  lemma ShortLeaves(t: string, used: nat)
    requires t != [] && t[0] != '\"'
    requires if t[0] == '\\' then used == 2 <= |t| && t[1] != 'u' else used == 1
    ensures Leaves(t, 1, used)
  {
  }

  lemma UnescapeShort(t: string, c: Codes)
    requires CodesOk(c) && t != [] && t[0] != '\"' && Unescape(t, c).Some? && !(t[0] == '\\' && t[1] == 'u')
    ensures var u := Unescape(t, c).value;
            |u.s| == 1 && u.used == if t[0] == '\\' then 2 else 1
  {
  }

  lemma UnescapeLeaves(t: string, c: Codes)
    requires CodesOk(c) && t != [] && t[0] != '\"' && Unescape(t, c).Some?
    ensures Leaves(t, |Unescape(t, c).value.s|, Unescape(t, c).value.used)
  {
    if t[0] == '\\' && t[1] == 'u' {
      var u := UnescapeUnicode(t, c).value;
      UnicodeLeaves(t, |u.s|, u.used);
    } else {
      UnescapeShort(t, c);
      ShortLeaves(t, Unescape(t, c).value.used);
    }
  }

  lemma UnescapeDefined(t: string, c: Codes)
    requires CodesOk(c) && t != [] && t[0] != '\"' && Readable(t) && CopyStop(t).Some?
    ensures Unescape(t, c).Some?
  {
    if t[0] == '\\' && t[1] == 'u' && EscapeFollows(t) {
      var v := t[6..];
      assert v[0] == t[6] && v[1] == t[7] && v[2..] == t[8..];
    }
  }

  /** What follows the place where a pass has stopped, at a quote or at the end. */
  function Behind(stop: string): (rest: string) {
    if stop == [] then [] else stop[1..]
  }

  /** The copying pass stops where its steps lead, and writes no more than they allow. */
  lemma {:induction false} BodyBound(t: string, c: Codes)
    requires CodesOk(c)
    ensures ParseBody(t, c).Parsed? ==>
              && |ParseBody(t, c).value| <= Most(t)
              && CopyStop(t).Some? && ParseBody(t, c).rest == Behind(CopyStop(t).value)
    ensures Readable(t) && CopyStop(t).Some? ==> ParseBody(t, c).Parsed?
    decreases |t|
  {
    if t != [] && t[0] != '\"' {
      if Readable(t) && CopyStop(t).Some? {
        UnescapeDefined(t, c);
      }
      var unit := Unescape(t, c);
      if unit.Some? {
        UnescapeLeaves(t, c);
        BodyBound(t[unit.value.used..], unit.value.codes);
      }
    }
  }

  /** The copying pass, wherever it is, writes no more than has been counted for the rest. */
  lemma {:induction false} Fits(t: string, k: nat)
    requires k <= |t| && Tame(t, k)
    ensures Most(t[k..]) + Passed(t, k) <= Count(t)
    decreases |t|, 1
  {
    var u := t[k..];
    if t == [] || t[0] == '\"' {
      assert u == t;
    } else if t[0] != '\\' {
      if k == 0 {
        assert u == t && t[1..][0..] == t[1..];
        Fits(t[1..], 0);
      } else {
        assert u == t[1..][k - 1..];
        Fits(t[1..], k - 1);
      }
    } else if k == 0 {
      assert u == t;
      if t[1] == 'u' {
        FourFit(t[2..]);
        assert t[2..][4..] == t[6..];
      } else {
        assert t[2..][0..] == t[2..];
        Fits(t[2..], 0);
      }
    } else if k >= 2 {
      assert u == t[2..][k - 2..];
      Fits(t[2..], k - 2);
    } else {
      AstrayFits(t);
    }
  }

  /** Behind `\u`. */
  lemma {:induction false} FourFit(u: string)
    requires Tame(u, 4)
    ensures |u| >= 4
    ensures (if Scan4(u).Some? && 0x10000 <= Scan4(u).value then 4 else 3) + Most(u[4..]) <= 1 + Count(u)
    decreases |u|, 2
  {
    if |u| < 4 {
      NotTame(u, 4);
    }
    FourPassed(u);
    Fits(u, 4);
  }

  lemma {:induction false} AstrayFits(t: string)
    requires 2 <= |t| && t[0] == '\\' && Astray(t)
    ensures Most(t[1..]) <= Count(t)
    decreases |t|, 0
  {
    var u := t[1..];
    assert u[0] == t[1] && u[1..] == t[2..];
    if t[1] != '\"' && t[1] != '\\' {
      assert t[2..][0..] == t[2..];
      Fits(t[2..], 0);
    } else if t[1] == '\\' {
      assert t[2..][1..] == t[3..] == u[2..] && t[2..][0] == t[2] == u[1];
      if t[2] == 'u' {
        assert Tame(t[3..], 4) && Count(t[2..]) == 1 + Count(t[3..]);
        FourFit(t[3..]);
        assert t[3..][4..] == t[7..] == u[6..];
      } else {
        Fits(t[2..], 1);
      }
    }
  }

  // ------------------------------------------------------------- the result

  /** Where the passes keep together and every code can be read, a string is parsed, and its
      output fits into what was set aside. */
  lemma TameIsParsed(t: string)
    requires Tame(t, 0) && Readable(t)
    ensures ParseString("\"" + t).Parsed? && |ParseString("\"" + t).value| <= Count(t)
  {
    assert ("\"" + t)[1..] == t && t[0..] == t;
    CopyInside(t, 0);
    BodyBound(t, Unset);
    Fits(t, 0);
  }

  /** Every `\u` is followed by four hexadecimal digits, and every backslash by something. */
  predicate FullEscapes(t: string) {
    if t == [] || t[0] == '\"' then true
    else if t[0] != '\\' then FullEscapes(t[1..])
    else if |t| < 2 then false
    else if t[1] != 'u' then FullEscapes(t[2..])
    else Hex4(t[2..]).Some? && FullEscapes(t[6..])
  }

  /** That is so for every string that JSON allows. */
  lemma {:induction false} FullIsTame(t: string)
    requires FullEscapes(t)
    ensures Tame(t, 0) && Readable(t)
    decreases |t|
  {
    if t == [] || t[0] == '\"' {
    } else if t[0] != '\\' {
      FullIsTame(t[1..]);
    } else if t[1] != 'u' {
      FullIsTame(t[2..]);
    } else {
      var u := t[2..];
      ScanHex(u);
      FullIsTame(t[6..]);
      assert u[1..][1..] == u[2..] && u[2..][1..] == u[3..] && u[3..][1..] == t[6..];
      assert Tame(u[3..], 1) && Tame(u[2..], 2) && Tame(u[1..], 3) && Tame(u, 4);
    }
  }

  lemma {:induction false} PlainBody(t: string, c: Codes)
    requires CodesOk(c) && forall k :: 0 <= k < |t| ==> t[k] != '\"' && t[k] != '\\'
    ensures ParseBody(t, c) == Parsed(t, [])
  {
    if t != [] {
      PlainBody(t[1..], c);
      assert [t[0]] + t[1..] == t;
    }
  }

  /** A short code before the closing quote: four bytes are set aside for the output, and the
      copying pass jumps over the quote and writes all the text behind it. */
  lemma OverrunExample()
    ensures var t := "\\u12\"AAAAAAAA";
            && Count(t) == 3 && ParseBody(t, Unset) == Parsed([0x12 as char] + "AAAAAAA", [])
            && ParseString("\"" + t).Undefined? && !Tame(t, 0)
  {
    var t := "\\u12\"AAAAAAAA";
    assert ("\"" + t)[1..] == t;
    assert t[2..] == "12\"AAAAAAAA" && t[6..] == "AAAAAAA";
    ShortCode();
    CodeBody(t, 0x12);
    ShortCount(t);
  }

  lemma ShortCount(t: string)
    requires t == "\\u12\"AAAAAAAA"
    ensures Count(t) == 3 && !Tame(t, 0)
  {
    var u := t[2..];
    var u1 := u[1..];
    var u2 := u1[1..];
    assert u[0] == '1' && u1[0] == '2' && u2[0] == '\"';
    assert Count(u2) == 0 && Count(u1) == 1 && Count(u) == 2;
    assert !Tame(u2, 2) && !Tame(u1, 3) && !Tame(u, 4);
  }

  lemma ReadsCode(t: string, uc: nat)
    requires 6 <= |t| && 0 < uc < 0x80 && Scan4(t[2..]) == Some(uc)
    ensures UnescapeUnicode(t, Unset) == Some(Unit([uc as char], 6, Codes(Some(uc), None)))
  {
  }

  lemma WritesUnit(t: string, c: Codes, unit: Unit)
    requires CodesOk(c) && 2 <= |t| && t[0] == '\\' && t[1] == 'u' && UnescapeUnicode(t, c) == Some(unit)
    ensures ParseBody(t, c) == Prefixed(unit.s, ParseBody(t[unit.used..], unit.codes))
  {
    assert Unescape(t, c) == Some(unit);
  }

  /** A code in front of plain text. */
  lemma CodeBody(t: string, uc: nat)
    requires 6 <= |t| && t[0] == '\\' && t[1] == 'u' && 0 < uc < 0x80 && Scan4(t[2..]) == Some(uc)
    requires forall k :: 6 <= k < |t| ==> t[k] != '\"' && t[k] != '\\'
    ensures ParseBody(t, Unset) == Parsed([uc as char] + t[6..], [])
  {
    ReadsCode(t, uc);
    WritesUnit(t, Unset, Unit([uc as char], 6, Codes(Some(uc), None)));
    PlainBody(t[6..], Codes(Some(uc), None));
  }

  lemma ShortCode()
    ensures Scan4("12\"AAAAAAAA") == Some(0x12)
  {
    var u, f := "12\"AAAAAAAA", "12\"A";
    assert AfterSpace(u) == u && u[..4] == f;
    assert f[1..] == "2\"A" && f[1..][1..] == "\"A";
    assert HexRun(f[1..][1..], 0x12) == 0x12 && HexRun(f[1..], 1) == 0x12 && HexRun(f, 0) == 0x12;
  }

  /** The passes also part where no quote is jumped over: behind a backslash in the last of the
      four positions they are one character apart. */
  lemma AstrayExample()
    ensures var t := "\\u123\\\\\"A";
            && CountStop(t) == Some("\"A") && CopyStop(t) == Some("") && !Tame(t, 0)
  {
    var t := "\\u123\\\\\"A";
    var u := t[2..];
    var v := u[1..][1..][1..];
    assert v == "\\\\\"A" && v[2..] == "\"A" && t[6..] == "\\\"A" && t[6..][2..] == "A";
    assert CountStop(v) == Some("\"A") && CountStop(u) == CountStop(u[1..]) == CountStop(u[1..][1..]) == CountStop(v);
    assert CopyStop("A") == Some("") && CopyStop(t[6..]) == Some("");
    assert t[0..] == t;
    CopyInside(t, 0);
  }
}
