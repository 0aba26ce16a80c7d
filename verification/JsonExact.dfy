/** What the reader accepts is what the printer prints, and nothing else. */
module JsonExact {
  import opened Common
  import opened Decimals
  import opened Json
  import opened JsonPrint

  lemma SpaceInFront(s: string) returns (ws: string)
    ensures AllSpace(ws) && s == ws + SkipWs(s)
  {
    ws := s[..WsPrefix(s)];
  }

  lemma ConsumeFrom(c: char, s: string) returns (ws: string)
    requires Consume(c, s).Some?
    ensures AllSpace(ws) && s == ws + ([c] + Consume(c, s).value)
  {
    hide SkipWs;
    ws := SpaceInFront(s);
    var t := SkipWs(s);
    assert t == [t[0]] + t[1..];
  }

  // ----- Strings -----

  lemma {:induction false} CharsFrom(s: string, done: string) returns (lit: seq<Spelling>)
    requires ParseChars(s, done).Ok?
    ensures var r := ParseChars(s, done);
            WellSpelt(lit) && s == Chars(lit, r.rest) && r.value == done + StringOf(lit)
    decreases |s|
  {
    CharsNonEmpty(s, done);
    if s[0] == '"' {
      CharsEnd(s, done);
      lit := [];
    } else {
      hide ParseChars, Spelled, Meaning, Chars, StringOf, WellSpelt;
      var x, n := OneSpelling(s, done);
      var rest := CharsFrom(s[n..], done + [Meaning(x)]);
      lit := [x] + rest;
      OneMoreSpelling(x, rest, ParseChars(s, done).rest, done);
      assert s == s[..n] + s[n..];
    }
  }

  lemma OneMoreSpelling(x: Spelling, rest: seq<Spelling>, tail: string, done: string)
    requires WellSpelt([x]) && WellSpelt(rest)
    ensures WellSpelt([x] + rest)
    ensures Chars([x] + rest, tail) == Spelled(x) + Chars(rest, tail)
    ensures done + StringOf([x] + rest) == (done + [Meaning(x)]) + StringOf(rest)
  {
    hide Spelled, Meaning;
    assert [x][0] == x;
    assert ([x] + rest)[0] == x && ([x] + rest)[1..] == rest;
    assert done + ([Meaning(x)] + StringOf(rest)) == (done + [Meaning(x)]) + StringOf(rest);
  }

  lemma CharsNonEmpty(s: string, done: string)
    requires ParseChars(s, done).Ok?
    ensures s != ""
  {
  }

  lemma CharsEnd(s: string, done: string)
    requires s != "" && s[0] == '"'
    ensures ParseChars(s, done) == Ok(done, s[1..])
    ensures WellSpelt([]) && s == Chars([], s[1..]) && done == done + StringOf([])
  {
  }

  /** The spelling in front of the rest of a string literal. */
  lemma OneSpelling(s: string, done: string) returns (x: Spelling, n: nat)
    requires s != "" && s[0] != '"' && ParseChars(s, done).Ok?
    ensures 0 < n <= |s| && WellSpelt([x]) && s[..n] == Spelled(x)
    ensures ParseChars(s, done) == ParseChars(s[n..], done + [Meaning(x)])
  {
    if s[0] == '\\' {
      var e := s[1..];
      if e[0] == 'u' {
        x, n := Code(e[1..5]), 6;
        assert s[..6] == "\\u" + e[1..5] && e[5..] == s[6..];
      } else {
        x, n := Letter(e[0]), 2;
        assert s[..2] == "\\" + [e[0]] && e[1..] == s[2..];
      }
    } else {
      x, n := Raw(s[0]), 1;
    }
  }

  lemma StringFrom(t: string) returns (lit: seq<Spelling>)
    requires t != "" && t[0] == '"' && ParseString(t).Ok?
    ensures WellSpelt(lit) && t == Quote(lit, ParseString(t).rest) && ParseString(t).value == StringOf(lit)
  {
    StaysFirst(t);
    lit := CharsFrom(t[1..], "");
    assert t == "\"" + t[1..];
    assert "" + StringOf(lit) == StringOf(lit);
  }

  // ----- Numbers -----

  lemma {:induction false} DecimalOfNumeral(d: string)
    requires d != "" && AllDigits(d) && (d[0] == '0' ==> |d| == 1)
    ensures Decimal(Numeral(d)) == d
  {
    var p, c := d[..|d| - 1], d[|d| - 1];
    assert d == p + [c];
    assert Digit(DigitValue(c)) == c;
    if p == "" {
      assert Numeral(p) == 0;
    } else {
      DecimalOfNumeral(p);
      assert Numeral(p) > 0 by {
        assert p[0] == d[0];
      }
      assert Numeral(d) / 10 == Numeral(p) && Numeral(d) % 10 == DigitValue(c);
    }
  }

  lemma DigitsTaken(s: string, k: nat)
    requires k < |s| && IsDigit(s[k])
    ensures var n := DigitPrefix(s[k..]); n > 0 && k + n <= |s| && AllDigits(s[k..k + n])
  {
    var n := DigitPrefix(s[k..]);
    assert s[k..][..n] == s[k..k + n];
  }

  lemma WholeFrom(t: string) returns (negative: bool, whole: nat)
    requires IntEnd(t).Some?
    ensures t[..IntEnd(t).value] == (if negative then "-" else "") + Decimal(whole)
  {
    hide DigitPrefix, Numeral;
    var i := IntEnd(t).value;
    negative := t[0] == '-';
    var k := if negative then 1 else 0;
    DigitsTaken(t, k);
    var d := t[k..i];
    assert d[0] == t[k];
    assert AllDigits(d);
    DecimalOfNumeral(d);
    whole := Numeral(d);
    assert t[..i] == t[..k] + d;
  }

  lemma FractionFrom(t: string, i: nat) returns (fraction: Option<string>)
    requires i <= |t| && FractionEnd(t, i).Some?
    ensures fraction.Some? ==> Digits(fraction.value)
    ensures t[i..FractionEnd(t, i).value] == (match fraction case None => "" case Some(d) => "." + d)
  {
    hide DigitPrefix;
    var f := FractionEnd(t, i).value;
    if f == i {
      fraction := None;
    } else {
      DigitsTaken(t, i + 1);
      fraction := Some(t[i + 1..f]);
      assert t[i..f] == [t[i]] + t[i + 1..f];
    }
  }

  lemma ExponentFrom(t: string, f: nat) returns (exponent: Option<Exponent>)
    requires f <= |t| && ExponentEnd(t, f).Some?
    ensures exponent.Some? ==> exponent.value.sign in ["", "+", "-"] && Digits(exponent.value.digits)
    ensures t[f..ExponentEnd(t, f).value]
         == (match exponent case None => "" case Some(e) => Mark(e) + e.digits)
  {
    hide DigitPrefix;
    var e := ExponentEnd(t, f).value;
    if e == f {
      exponent := None;
    } else {
      var k := if t[f + 1] == '+' || t[f + 1] == '-' then f + 2 else f + 1;
      DigitsTaken(t, k);
      exponent := Some(Exponent(t[f] == 'E', t[f + 1..k], t[k..e]));
      assert t[f..e] == [t[f]] + t[f + 1..k] + t[k..e];
      SignOf(t, f, k);
    }
  }

  lemma SignOf(t: string, f: nat, k: nat)
    requires f + 1 <= k < |t|
    requires k == if t[f + 1] == '+' || t[f + 1] == '-' then f + 2 else f + 1
    ensures t[f + 1..k] in ["", "+", "-"]
  {
    var sign := t[f + 1..k];
    if k == f + 1 {
      assert sign == "";
    } else if t[f + 1] == '+' {
      assert sign == "+";
    } else {
      assert sign == "-";
    }
  }

  lemma NumberFrom(reals: string -> bool, t: string) returns (lit: Literal)
    requires t != "" && !IsSpace(t[0]) && ParseNumber(reals, t).Ok?
    ensures WellFormedLiteral(lit) && Representable(reals, lit)
    ensures t == Token(lit) + ParseNumber(reals, t).rest && ParseNumber(reals, t).value == ValueOf(DNumber(lit))
  {
    hide IntEnd, FractionEnd, ExponentEnd, NumberOf, Digits, Signed, IntValue, Token;
    StaysFirst(t);
    var i := IntEnd(t).value;
    var f := FractionEnd(t, i).value;
    var e := ExponentEnd(t, f).value;
    var negative, whole := WholeFrom(t);
    var fraction := FractionFrom(t, i);
    var exponent := ExponentFrom(t, f);
    lit := Literal(negative, whole, fraction, exponent);
    TokenFrom(t, i, f, e, lit);
    NumberByParts(reals, t, i, f, e);
    ValueTaken(reals, lit, t, i, e);
  }

  lemma TokenFrom(t: string, i: nat, f: nat, e: nat, lit: Literal)
    requires i <= f <= e <= |t|
    requires t[..i] == WholePart(lit) && t[i..f] == FractionPart(lit) && t[f..e] == ExponentPart(lit)
    ensures t[..e] == Token(lit) && t == Token(lit) + t[e..]
    ensures |WholePart(lit)| == i && |Token(lit)| == e
  {
    assert t[..e] == t[..i] + t[i..f] + t[f..e];
  }

  lemma ValueTaken(reals: string -> bool, lit: Literal, t: string, i: nat, e: nat)
    requires WellFormedLiteral(lit) && e <= |t| && t == Token(lit) + t[e..]
    requires |WholePart(lit)| == i && |Token(lit)| == e
    requires 0 < i <= e && NumberOf(reals, t, i, e).Ok?
    ensures Representable(reals, lit) && NumberOf(reals, t, i, e) == Ok(ValueOf(DNumber(lit)), t[e..])
  {
    hide NumberOf, Representable, Token;
    NumberTaken(reals, lit, t[e..]);
  }

  // ----- Values -----

  /** Whatever is read as a value is white space and a printed document. */
  lemma {:induction false} ValueFrom(reals: string -> bool, s: string) returns (ws: string, doc: Doc)
    requires ParseValue(reals, s).Ok?
    ensures var r := ParseValue(reals, s);
            AllSpace(ws) && WellFormed(reals, doc) && s == ws + Print(doc, r.rest) && r.value == ValueOf(doc)
    decreases |s|, 2
  {
    hide ParseObject, ParseArray, ParseString, ParseNumber, SkipWs, IsSpace, Token, Representable;
    ws := SpaceInFront(s);
    var t := SkipWs(s);
    if t[0] == '{' {
      doc := ObjectFrom(reals, t);
    } else if t[0] == '[' {
      doc := ArrayFrom(reals, t);
    } else if t[0] == '"' {
      var lit := StringFrom(t);
      doc := DString(lit);
    } else if t[0] == 't' || t[0] == 'f' {
      doc := DBool(t[0] == 't');
      WordFrom(t, if t[0] == 't' then "true" else "false");
    } else if t[0] == 'n' {
      doc := DNull;
      WordFrom(t, "null");
    } else {
      var lit := NumberFrom(reals, t);
      doc := DNumber(lit);
    }
  }

  lemma WordFrom(t: string, word: string)
    ensures word <= t ==> t == word + t[|word|..]
  {
  }

  lemma {:induction false} ArrayFrom(reals: string -> bool, t: string) returns (doc: Doc)
    requires t != "" && t[0] == '[' && ParseArray(reals, t).Ok?
    ensures var r := ParseArray(reals, t);
            WellFormed(reals, doc) && t == Print(doc, r.rest) && r.value == ValueOf(doc)
    decreases |t|, 1
  {
    hide SkipWs, ParseElements, Consume;
    Opened('[', t[1..]);
    assert t == ['['] + t[1..];
    LeadingSpace(reals, t[1..]);
    var inner := SpaceInFront(t[1..]);
    if Consume(']', SkipWs(t[1..])).Some? {
      var more := ConsumeFrom(']', SkipWs(t[1..]));
      doc := DEmptyArray(inner + more);
      assert inner + (more + ("]" + ParseArray(reals, t).rest)) == (inner + more) + ("]" + ParseArray(reals, t).rest);
    } else {
      var items := ElementsFrom(reals, t[1..], []);
      doc := DArray(items);
      assert [] + ItemValues(items) == ItemValues(items);
    }
  }

  lemma {:induction false} ElementsFrom(reals: string -> bool, s: string, done: seq<Value>) returns (items: Items)
    requires ParseElements(reals, s, done).Ok?
    ensures var r := ParseElements(reals, s, done);
            && WellFormedItems(reals, items) && s == PrintItems(items, r.rest)
            && r.value == Array(done + ItemValues(items))
    decreases |s|, 3
  {
    hide ParseValue, Consume, Print, ValueOf;
    var w := ParseValue(reals, s).rest;
    var pre, doc := ValueFrom(reals, s);
    if Consume(']', w).Some? {
      var post := ConsumeFrom(']', w);
      items := LastItem(pre, doc, post);
    } else {
      var post := ConsumeFrom(',', w);
      var v := ParseValue(reals, s).value;
      var rest := ElementsFrom(reals, Consume(',', w).value, done + [v]);
      items := Item(pre, doc, post, rest);
      assert (done + [v]) + ItemValues(rest) == done + ([v] + ItemValues(rest));
    }
  }

  lemma {:induction false} ObjectFrom(reals: string -> bool, t: string) returns (doc: Doc)
    requires t != "" && t[0] == '{' && ParseObject(reals, t).Ok?
    ensures var r := ParseObject(reals, t);
            WellFormed(reals, doc) && t == Print(doc, r.rest) && r.value == ValueOf(doc)
    decreases |t|, 1
  {
    hide SkipWs, ParseMembers, Consume;
    Opened('{', t[1..]);
    assert t == ['{'] + t[1..];
    LeadingSpace(reals, t[1..]);
    var inner := SpaceInFront(t[1..]);
    if Consume('}', SkipWs(t[1..])).Some? {
      var more := ConsumeFrom('}', SkipWs(t[1..]));
      doc := DEmptyObject(inner + more);
      assert inner + (more + ("}" + ParseObject(reals, t).rest)) == (inner + more) + ("}" + ParseObject(reals, t).rest);
    } else {
      var ms := MembersFrom(reals, t[1..], map[]);
      doc := DObject(ms);
      assert Fields(ms) + map[] == Fields(ms);
    }
  }

  /** The member in front, up to what follows its value. */
  datatype Head = Head(pre: string, key: seq<Spelling>, mid: string, pad: string, doc: Doc)

  predicate HeadOf(reals: string -> bool, s: string, h: Head, w: string) {
    && AllSpace(h.pre) && WellSpelt(h.key) && AllSpace(h.mid) && AllSpace(h.pad) && WellFormed(reals, h.doc)
    && s == h.pre + Quote(h.key, h.mid + (":" + (h.pad + Print(h.doc, w))))
  }

  lemma {:induction false} HeadFrom(reals: string -> bool, s: string, done: map<string, Value>)
    returns (h: Head, w: string)
    requires ParseMembers(reals, s, done).Ok?
    ensures |w| < |s| && HeadOf(reals, s, h, w)
    ensures ParseMembers(reals, s, done) == AfterMember(reals, w, Extended(done, StringOf(h.key), ValueOf(h.doc)))
    decreases |s|, 3
  {
    MembersUnfold(reals, s, done);
    hide ParseMembers, AfterMember, ParseValue, ParseString, Consume, Print, ValueOf, SkipWs, Quote, AllSpace, WellSpelt,
         WellFormed;
    var pre := SpaceInFront(s);
    var t := SkipWs(s);
    var key := StringFrom(t);
    var mid := ConsumeFrom(':', ParseString(t).rest);
    var u := Consume(':', ParseString(t).rest).value;
    var pad, doc := ValueFrom(reals, u);
    h, w := Head(pre, key, mid, pad, doc), ParseValue(reals, u).rest;
  }

  /** A key that is already there keeps its value. */
  function Extended(done: map<string, Value>, k: string, v: Value): map<string, Value> {
    if k in done then done else done[k := v]
  }

  /** The reader after the value of a member. */
  function AfterMember(reals: string -> bool, w: string, all: map<string, Value>): Parsed<Value> {
    match Consume('}', w)
    case Some(rest) => Ok(Object(all), rest)
    case None =>
      match Consume(',', w)
      case None => Fail
      case Some(rest) => ParseMembers(reals, rest, all)
  }

  lemma {:induction false} MembersFrom(reals: string -> bool, s: string, done: map<string, Value>) returns (ms: Members)
    requires ParseMembers(reals, s, done).Ok?
    ensures var r := ParseMembers(reals, s, done);
            && WellFormedMembers(reals, ms) && s == PrintMembers(ms, r.rest)
            && r.value == Object(Fields(ms) + done)
    decreases |s|, 4
  {
    var h, w := HeadFrom(reals, s, done);
    hide ParseMembers, PrintMembers, WellFormedMembers, Fields, Consume, HeadOf, AllSpace, Extended;
    var all := Extended(done, StringOf(h.key), ValueOf(h.doc));
    if Consume('}', w).Some? {
      var post := ConsumeFrom('}', w);
      ms := LastMember(h.pre, h.key, h.mid, h.pad, h.doc, post);
      LastAssembled(reals, s, h, w, post, Consume('}', w).value, done);
    } else {
      var post := ConsumeFrom(',', w);
      var rest := MembersFrom(reals, Consume(',', w).value, all);
      ms := Member(h.pre, h.key, h.mid, h.pad, h.doc, post, rest);
      MemberAssembled(reals, s, h, w, post, rest, ParseMembers(reals, s, done).rest, done);
    }
  }

  lemma LastAssembled(reals: string -> bool, s: string, h: Head, w: string, post: string, tail: string,
                      done: map<string, Value>)
    requires HeadOf(reals, s, h, w) && AllSpace(post) && w == post + (['}'] + tail)
    ensures var ms := LastMember(h.pre, h.key, h.mid, h.pad, h.doc, post);
            && WellFormedMembers(reals, ms) && s == PrintMembers(ms, tail)
            && Extended(done, StringOf(h.key), ValueOf(h.doc)) == Fields(ms) + done
  {
    hide AllSpace, WellSpelt, WellFormed, Quote, Print, ValueOf, StringOf;
  }

  lemma MemberAssembled(reals: string -> bool, s: string, h: Head, w: string, post: string, rest: Members, tail: string,
                        done: map<string, Value>)
    requires HeadOf(reals, s, h, w) && AllSpace(post) && WellFormedMembers(reals, rest)
    requires w == post + ([','] + PrintMembers(rest, tail))
    ensures var ms := Member(h.pre, h.key, h.mid, h.pad, h.doc, post, rest);
            && WellFormedMembers(reals, ms) && s == PrintMembers(ms, tail)
            && Fields(rest) + Extended(done, StringOf(h.key), ValueOf(h.doc)) == Fields(ms) + done
  {
    hide AllSpace, WellSpelt, WellFormed, Quote, Print, ValueOf, StringOf;
  }

  /** One turn of the loop over the members, when it succeeds. */
  lemma MembersUnfold(reals: string -> bool, s: string, done: map<string, Value>)
    requires ParseMembers(reals, s, done).Ok?
    ensures var t := SkipWs(s);
            && t != "" && t[0] == '"' && ParseString(t).Ok?
            && var k, colon := ParseString(t).value, Consume(':', ParseString(t).rest);
            && colon.Some? && |colon.value| < |s| && ParseValue(reals, colon.value).Ok?
            && var v, w := ParseValue(reals, colon.value).value, ParseValue(reals, colon.value).rest;
            && |w| < |s|
            && ParseMembers(reals, s, done) == AfterMember(reals, w, Extended(done, k, v))
  {
    hide ParseValue, ParseString, Consume, SkipWs;
  }

  // ----- Whole texts -----

  /** `text` is a printed document for `v`, with white space around it. */
  ghost predicate IsTextOf(reals: string -> bool, text: string, v: Value) {
    exists doc, before, after ::
      && WellFormed(reals, doc) && AllSpace(before) && AllSpace(after)
      && text == before + Print(doc, after) && ValueOf(doc) == v
  }

  /** The reader accepts exactly the printed documents, and reads them as what they were printed from. */
  lemma AcceptedExactly(reals: string -> bool, text: string, v: Value)
    ensures Parse(reals, text) == Some(v) <==> IsTextOf(reals, text, v)
  {
    hide ParseValue, WellFormed, Print, ValueOf, SkipWs;
    if Parse(reals, text) == Some(v) {
      var outer := SpaceInFront(text);
      var inner, doc := ValueFrom(reals, SkipWs(text));
      var rest := ParseValue(reals, SkipWs(text)).rest;
      var after := SpaceInFront(rest);
      assert after == rest;
      assert outer + (inner + Print(doc, rest)) == (outer + inner) + Print(doc, rest);
      assert AllSpace(outer + inner);
    } else if IsTextOf(reals, text, v) {
      var doc, before, after :|
        && WellFormed(reals, doc) && AllSpace(before) && AllSpace(after)
        && text == before + Print(doc, after) && ValueOf(doc) == v;
      ReadBack(reals, doc, before, after);
    }
  }
}
