/** Printed documents, with white space wherever JSON allows it, and what the reader makes of them. */
module JsonPrint {
  import opened Common
  import opened Decimals
  import opened Json

  /** A number literal of section 6 of RFC 8259: sign, whole part, and the digits of fraction and exponent. */
  datatype Literal = Literal(
    negative: bool,
    whole: nat,
    fraction: Option<string>,
    exponent: Option<Exponent>)

  datatype Exponent = Exponent(upper: bool, sign: string, digits: string)

  /**
   * A character of a string literal: written as it is, as an escape of one letter, or as `\u` with
   * four characters, which the reader does not look at.
   */
  datatype Spelling = Raw(c: char) | Letter(c: char) | Code(digits: string)

  /** A document as it is laid out; `pre` and `post` are the white space around a part. */
  datatype Doc =
    | DNull
    | DBool(b: bool)
    | DNumber(lit: Literal)
    | DString(chars: seq<Spelling>)
    | DEmptyArray(inner: string)
    | DArray(items: Items)
    | DEmptyObject(inner: string)
    | DObject(members: Members)

  datatype Items =
    | LastItem(pre: string, doc: Doc, post: string)
    | Item(pre: string, doc: Doc, post: string, rest: Items)

  datatype Members =
    | LastMember(pre: string, key: seq<Spelling>, mid: string, pad: string, doc: Doc, post: string)
    | Member(pre: string, key: seq<Spelling>, mid: string, pad: string, doc: Doc, post: string, rest: Members)

  // ---------------------------------------------------------------- well-formed documents

  /**
   * White space between tokens: the four characters of section 2 of RFC 8259, and the two more that
   * `isspace` counts, vertical tab and form feed.
   */
  predicate Blank(c: char) {
    c == ' ' || c == '\t' || c == '\n' || c == '\r' || c == '\U{B}' || c == '\U{C}'
  }

  predicate AllSpace(s: string) {
    forall i :: 0 <= i < |s| ==> Blank(s[i])
  }

  /** The reader skips these six characters and no others. */
  lemma SkipsBlanks(s: string)
    ensures forall c :: IsSpace(c) <==> Blank(c)
    ensures var n := WsPrefix(s);
            AllSpace(s[..n]) && SkipWs(s) == s[n..] && (n < |s| ==> !Blank(s[n]))
  {
  }

  predicate WellSpelt(lit: seq<Spelling>) {
    forall i :: 0 <= i < |lit| ==>
      match lit[i]
      case Raw(c) => c >= ' ' && c != '"' && c != '\\'
      case Letter(c) => c in "\"\\/bfnrt"
      case Code(digits) => |digits| == 4
  }

  predicate Digits(s: string) {
    s != "" && AllDigits(s)
  }

  predicate WellFormedLiteral(lit: Literal) {
    && (lit.fraction.Some? ==> Digits(lit.fraction.value))
    && (lit.exponent.Some? ==> lit.exponent.value.sign in ["", "+", "-"] && Digits(lit.exponent.value.digits))
  }

  /** The number has a representation: a 64-bit integer, or a real the library accepts. */
  predicate Representable(reals: string -> bool, lit: Literal) {
    if lit.fraction.None? && lit.exponent.None?
    then -0x8000_0000_0000_0000 <= Signed(lit) <= 0x7FFF_FFFF_FFFF_FFFF
    else reals(Token(lit))
  }

  predicate WellFormed(reals: string -> bool, doc: Doc) {
    match doc
    case DNumber(lit) => WellFormedLiteral(lit) && Representable(reals, lit)
    case DString(chars) => WellSpelt(chars)
    case DEmptyArray(inner) => AllSpace(inner)
    case DArray(items) => WellFormedItems(reals, items)
    case DEmptyObject(inner) => AllSpace(inner)
    case DObject(members) => WellFormedMembers(reals, members)
    case _ => true
  }

  predicate WellFormedItems(reals: string -> bool, items: Items) {
    && AllSpace(items.pre) && WellFormed(reals, items.doc) && AllSpace(items.post)
    && (items.Item? ==> WellFormedItems(reals, items.rest))
  }

  predicate WellFormedMembers(reals: string -> bool, ms: Members) {
    && AllSpace(ms.pre) && WellSpelt(ms.key) && AllSpace(ms.mid) && AllSpace(ms.pad)
    && WellFormed(reals, ms.doc) && AllSpace(ms.post)
    && (ms.Member? ==> WellFormedMembers(reals, ms.rest))
  }

  // ---------------------------------------------------------------- the values documents stand for

  function Signed(lit: Literal): int {
    if lit.negative then 0 - lit.whole else lit.whole
  }

  function Meaning(x: Spelling): char {
    match x
    case Raw(c) => c
    case Letter(c) =>
      if c == 'b' then '\U{8}'
      else if c == 'f' then '\U{C}'
      else if c == 'n' then '\n'
      else if c == 'r' then '\r'
      else if c == 't' then '\t'
      else c
    case Code(_) => '?'
  }

  function StringOf(lit: seq<Spelling>): string {
    if lit == [] then "" else [Meaning(lit[0])] + StringOf(lit[1..])
  }

  function ValueOf(doc: Doc): Value {
    match doc
    case DNull => Null
    case DBool(b) => Bool(b)
    case DNumber(lit) =>
      if lit.fraction.None? && lit.exponent.None? then Int(Signed(lit)) else Real(Token(lit))
    case DString(chars) => Str(StringOf(chars))
    case DEmptyArray(_) => Array([])
    case DArray(items) => Array(ItemValues(items))
    case DEmptyObject(_) => Object(map[])
    case DObject(members) => Object(Fields(members))
  }

  function ItemValues(items: Items): seq<Value> {
    match items
    case LastItem(_, doc, _) => [ValueOf(doc)]
    case Item(_, doc, _, rest) => [ValueOf(doc)] + ItemValues(rest)
  }

  /** The first member with a key gives its value. */
  function Fields(ms: Members): map<string, Value> {
    match ms
    case LastMember(_, key, _, _, doc, _) => map[StringOf(key) := ValueOf(doc)]
    case Member(_, key, _, _, doc, _, rest) => Fields(rest)[StringOf(key) := ValueOf(doc)]
  }

  // ---------------------------------------------------------------- printing

  function WholePart(lit: Literal): string {
    (if lit.negative then "-" else "") + Decimal(lit.whole)
  }

  function FractionPart(lit: Literal): string {
    match lit.fraction
    case None => ""
    case Some(digits) => "." + digits
  }

  /** The letter and the sign of an exponent. */
  function Mark(e: Exponent): (m: string)
    ensures m != "" && (m[0] == 'e' || m[0] == 'E')
    ensures e.sign in ["", "+", "-"] ==> |m| == 1 || (|m| == 2 && (m[1] == '+' || m[1] == '-'))
  {
    (if e.upper then "E" else "e") + e.sign
  }

  function ExponentPart(lit: Literal): string {
    match lit.exponent
    case None => ""
    case Some(e) => Mark(e) + e.digits
  }

  function Token(lit: Literal): string {
    WholePart(lit) + FractionPart(lit) + ExponentPart(lit)
  }

  function Spelled(x: Spelling): string {
    match x
    case Raw(c) => [c]
    case Letter(c) => "\\" + [c]
    case Code(digits) => "\\u" + digits
  }

  /** A string literal between its quotes, followed by `tail`. */
  function Quote(lit: seq<Spelling>, tail: string): string {
    "\"" + Chars(lit, tail)
  }

  function Chars(lit: seq<Spelling>, tail: string): string {
    if lit == [] then "\"" + tail else Spelled(lit[0]) + Chars(lit[1..], tail)
  }

  /** The text of a document, followed by `tail`. */
  function Print(doc: Doc, tail: string): string {
    match doc
    case DNull => "null" + tail
    case DBool(b) => (if b then "true" else "false") + tail
    case DNumber(lit) => Token(lit) + tail
    case DString(chars) => Quote(chars, tail)
    case DEmptyArray(inner) => "[" + (inner + ("]" + tail))
    case DArray(items) => "[" + PrintItems(items, tail)
    case DEmptyObject(inner) => "{" + (inner + ("}" + tail))
    case DObject(members) => "{" + PrintMembers(members, tail)
  }

  function PrintItems(items: Items, tail: string): string {
    match items
    case LastItem(pre, doc, post) => pre + Print(doc, post + ("]" + tail))
    case Item(pre, doc, post, rest) => pre + Print(doc, post + ("," + PrintItems(rest, tail)))
  }

  function PrintMembers(ms: Members, tail: string): string {
    match ms
    case LastMember(pre, key, mid, pad, doc, post) =>
      pre + Quote(key, mid + (":" + (pad + Print(doc, post + ("}" + tail)))))
    case Member(pre, key, mid, pad, doc, post, rest) =>
      pre + Quote(key, mid + (":" + (pad + Print(doc, post + ("," + PrintMembers(rest, tail))))))
  }

  // ---------------------------------------------------------------- white space

  lemma {:induction false} SkipOver(ws: string, s: string)
    requires AllSpace(ws)
    ensures SkipWs(ws + s) == SkipWs(s)
  {
    if ws == "" {
      assert ws + s == s;
    } else {
      assert (ws + s)[1..] == ws[1..] + s;
      SkipOver(ws[1..], s);
      assert SkipWs(ws + s) == SkipWs(ws[1..] + s);
    }
  }

  lemma ConsumeOver(ws: string, c: char, s: string)
    requires AllSpace(ws) && !IsSpace(c)
    ensures Consume(c, ws + ([c] + s)) == Some(s)
    ensures forall d :: d != c ==> Consume(d, ws + ([c] + s)) == None
  {
    SkipOver(ws, [c] + s);
    assert ([c] + s)[1..] == s;
  }

  // ---------------------------------------------------------------- strings

  lemma OneCharRead(x: Spelling, more: string, done: string)
    requires WellSpelt([x])
    ensures ParseChars(Spelled(x) + more, done) == ParseChars(more, done + [Meaning(x)])
  {
    var s := Spelled(x) + more;
    assert [x][0] == x;
    match x
    case Raw(c) =>
      assert s[1..] == more;
    case Letter(c) =>
      assert s[1..] == [c] + more && s[1..][1..] == more;
    case Code(digits) =>
      assert s[1..] == "u" + digits + more && s[1..][5..] == more;
  }

  lemma {:induction false} CharsRead(lit: seq<Spelling>, tail: string, done: string)
    requires WellSpelt(lit)
    ensures ParseChars(Chars(lit, tail), done) == Ok(done + StringOf(lit), tail)
  {
    hide Spelled, Meaning;
    if lit == [] {
      assert done + "" == done;
      assert ("\"" + tail)[1..] == tail && ("\"" + tail)[0] == '"';
    } else {
      OneCharRead(lit[0], Chars(lit[1..], tail), done);
      assert done + StringOf(lit) == (done + [Meaning(lit[0])]) + StringOf(lit[1..]);
      CharsRead(lit[1..], tail, done + [Meaning(lit[0])]);
    }
  }

  lemma StringRead(lit: seq<Spelling>, tail: string)
    requires WellSpelt(lit)
    ensures ParseString(Quote(lit, tail)) == Ok(StringOf(lit), tail)
  {
    var q := Quote(lit, tail);
    assert q[1..] == Chars(lit, tail);
    CharsRead(lit, tail, "");
    assert "" + StringOf(lit) == StringOf(lit);
    assert SkipWs(q) == q;
  }

  // ---------------------------------------------------------------- numbers

  /** What may follow a value: nothing, white space, or a separator. */
  predicate Terminated(tail: string) {
    tail == "" || Blank(tail[0]) || tail[0] == ',' || tail[0] == ']' || tail[0] == '}'
  }

  predicate NoDigitFirst(s: string) {
    s == "" || !IsDigit(s[0])
  }

  lemma WholeRead(lit: Literal, rest: string)
    requires NoDigitFirst(rest)
    ensures IntEnd(WholePart(lit) + rest) == Some(|WholePart(lit)|)
  {
    var d := Decimal(lit.whole);
    var k := if lit.negative then 1 else 0;
    var s := WholePart(lit) + rest;
    assert s[k..] == d + rest;
    assert s[k] == d[0];
    DigitPrefixOf(d, rest);
  }

  lemma FractionRead(a: string, lit: Literal, rest: string)
    requires lit.fraction.Some? ==> Digits(lit.fraction.value)
    requires NoDigitFirst(rest) && (rest == "" || rest[0] != '.')
    ensures FractionEnd(a + (FractionPart(lit) + rest), |a|) == Some(|a| + |FractionPart(lit)|)
  {
    var s := a + (FractionPart(lit) + rest);
    if lit.fraction.Some? {
      assert s[|a| + 1..] == lit.fraction.value + rest;
      DigitPrefixOf(lit.fraction.value, rest);
    }
  }

  lemma ExponentRead(a: string, lit: Literal, rest: string)
    requires lit.exponent.Some? ==> lit.exponent.value.sign in ["", "+", "-"] && Digits(lit.exponent.value.digits)
    requires NoDigitFirst(rest) && (rest == "" || (rest[0] != 'e' && rest[0] != 'E'))
    ensures ExponentEnd(a + (ExponentPart(lit) + rest), |a|) == Some(|a| + |ExponentPart(lit)|)
  {
    hide ExponentEnd, Digits, NoDigitFirst, Mark;
    var s := a + (ExponentPart(lit) + rest);
    if lit.exponent.Some? {
      var e := lit.exponent.value;
      assert s == (a + Mark(e)) + (e.digits + rest);
      ExponentDigits(s, a, Mark(e), e.digits, rest);
    } else {
      assert s == a + rest;
      NoExponent(a, rest);
    }
  }

  lemma NoExponent(a: string, rest: string)
    requires rest == "" || (rest[0] != 'e' && rest[0] != 'E')
    ensures ExponentEnd(a + rest, |a|) == Some(|a|)
  {
    if rest != "" {
      assert (a + rest)[|a|] == rest[0];
    }
  }

  lemma ExponentDigits(s: string, a: string, mark: string, digits: string, rest: string)
    requires s == (a + mark) + (digits + rest)
    requires |mark| == 1 || (|mark| == 2 && (mark[1] == '+' || mark[1] == '-'))
    requires mark[0] == 'e' || mark[0] == 'E'
    requires Digits(digits) && NoDigitFirst(rest)
    ensures ExponentEnd(s, |a|) == Some(|a| + |mark| + |digits|)
  {
    var k := |a| + |mark|;
    DigitPrefixOf(digits, rest);
    assert s[k..] == digits + rest && s[k] == digits[0];
    assert s[|a|] == mark[0];
    if |mark| == 2 {
      assert s[|a| + 1] == mark[1];
    }
  }

  lemma IntValueOf(lit: Literal)
    ensures IntValue(WholePart(lit)) == Signed(lit)
  {
    var d := Decimal(lit.whole);
    NumeralOfDecimal(lit.whole);
    if lit.negative {
      assert WholePart(lit)[1..] == d;
    } else {
      assert WholePart(lit) == d;
    }
  }

  /** A literal is read as a whole, and refused exactly when it has no representation. */
  lemma NumberRead(reals: string -> bool, lit: Literal, tail: string)
    requires WellFormedLiteral(lit) && Terminated(tail)
    ensures ParseNumber(reals, Token(lit) + tail)
            == if Representable(reals, lit) then Ok(ValueOf(DNumber(lit)), tail) else Fail
  {
    hide IntEnd, FractionEnd, ExponentEnd, IntValue, Signed, WholePart, NumberOf, Representable, ParseNumber;
    var w, f, e := WholePart(lit), FractionPart(lit), ExponentPart(lit);
    var s := Token(lit) + tail;
    assert s == w + (f + (e + tail)) && s == (w + f) + (e + tail);
    WholeRead(lit, f + (e + tail));
    FractionRead(w, lit, e + tail);
    ExponentRead(w + f, lit, tail);
    FirstOfToken(lit);
    NumberTaken(reals, lit, tail);
    NumberByParts(reals, s, |w|, |w + f|, |Token(lit)|);
  }

  lemma NumberByParts(reals: string -> bool, s: string, i: nat, f: nat, e: nat)
    requires s != "" && !IsSpace(s[0])
    requires IntEnd(s) == Some(i) && FractionEnd(s, i) == Some(f) && ExponentEnd(s, f) == Some(e)
    ensures ParseNumber(reals, s) == NumberOf(reals, s, i, e)
  {
    hide IntEnd, FractionEnd, ExponentEnd, NumberOf;
    StaysFirst(s);
  }

  lemma NumberTaken(reals: string -> bool, lit: Literal, tail: string)
    requires WellFormedLiteral(lit)
    ensures 0 < |WholePart(lit)| <= |Token(lit)|
    ensures NumberOf(reals, Token(lit) + tail, |WholePart(lit)|, |Token(lit)|)
            == if Representable(reals, lit) then Ok(ValueOf(DNumber(lit)), tail) else Fail
  {
    hide IntValue, Signed;
    var n := |Token(lit)|;
    assert (Token(lit) + tail)[..n] == Token(lit) && (Token(lit) + tail)[n..] == tail;
    IntValueOf(lit);
    if lit.fraction.None? && lit.exponent.None? {
      assert Token(lit) == WholePart(lit);
    }
  }

  lemma FirstOfToken(lit: Literal)
    ensures Token(lit) != "" && (Token(lit)[0] == '-' || IsDigit(Token(lit)[0]))
  {
    assert Token(lit)[0] == WholePart(lit)[0];
  }

  // ---------------------------------------------------------------- documents

  /** The first character of a printed document is not white space and does not close anything. */
  lemma FirstOfPrint(doc: Doc, tail: string)
    ensures var s := Print(doc, tail);
            s != "" && !IsSpace(s[0]) && s[0] != ']' && s[0] != '}'
  {
  }

  lemma {:induction false} DocRead(reals: string -> bool, doc: Doc, ws: string, tail: string)
    requires WellFormed(reals, doc) && AllSpace(ws) && Terminated(tail)
    ensures ParseValue(reals, ws + Print(doc, tail)) == Ok(ValueOf(doc), tail)
    decreases doc, 0
  {
    hide ParseObject, ParseArray, ParseString, ParseNumber, IsSpace;
    hide Token;
    var s := Print(doc, tail);
    SkipOver(ws, s);
    FirstOfPrint(doc, tail);
    assert SkipWs(s) == s;
    match doc
    case DNumber(lit) => NumberRead(reals, lit, tail); FirstOfToken(lit);
    case DString(str) => StringRead(str, tail);
    case DEmptyArray(inner) => EmptyArrayRead(reals, inner, tail);
    case DEmptyObject(inner) => EmptyObjectRead(reals, inner, tail);
    case DArray(items) => ArrayRead(reals, items, tail);
    case DObject(members) => ObjectRead(reals, members, tail);
    case DNull =>
    case DBool(_) =>
  }

  lemma Opened(c: char, t: string)
    requires !IsSpace(c)
    ensures Consume(c, [c] + t) == Some(t)
  {
    ConsumeOver("", c, t);
    assert "" + ([c] + t) == [c] + t;
  }

  lemma EmptyArrayRead(reals: string -> bool, inner: string, tail: string)
    requires AllSpace(inner)
    ensures ParseArray(reals, "[" + (inner + ("]" + tail))) == Ok(Array([]), tail)
  {
    hide ParseElements, Consume, SkipWs;
    var t := inner + ("]" + tail);
    Opened('[', t);
    SkipOver(inner, "]" + tail);
    assert SkipWs("]" + tail) == "]" + tail by { StaysFirst("]" + tail); }
    Opened(']', tail);
  }

  lemma EmptyObjectRead(reals: string -> bool, inner: string, tail: string)
    requires AllSpace(inner)
    ensures ParseObject(reals, "{" + (inner + ("}" + tail))) == Ok(Object(map[]), tail)
  {
    hide ParseMembers, Consume, SkipWs;
    var t := inner + ("}" + tail);
    Opened('{', t);
    SkipOver(inner, "}" + tail);
    assert SkipWs("}" + tail) == "}" + tail by { StaysFirst("}" + tail); }
    Opened('}', tail);
  }

  lemma StaysFirst(s: string)
    requires s != "" && !IsSpace(s[0])
    ensures SkipWs(s) == s
  {
  }

  /** A closing bracket is not found where something else comes first. */
  lemma NotClosed(c: char, ws: string, s: string)
    requires AllSpace(ws) && s != "" && !IsSpace(s[0]) && s[0] != c
    ensures Consume(c, SkipWs(ws + s)) == None
  {
    SkipOver(ws, s);
    StaysFirst(s);
  }

  /** White space in front of the first element or member makes no difference. */
  lemma LeadingSpace(reals: string -> bool, s: string)
    ensures ParseElements(reals, SkipWs(s), []) == ParseElements(reals, s, [])
    ensures ParseMembers(reals, SkipWs(s), map[]) == ParseMembers(reals, s, map[])
  {
    hide ParseString, Consume;
    var t := SkipWs(s);
    assert SkipWs(t) == t;
    assert ParseValue(reals, t) == ParseValue(reals, s) by { hide ParseElements, ParseMembers; }
  }

  lemma {:induction false} ArrayRead(reals: string -> bool, items: Items, tail: string)
    requires WellFormedItems(reals, items)
    ensures ParseArray(reals, "[" + PrintItems(items, tail)) == Ok(Array(ItemValues(items)), tail)
    decreases items, 1
  {
    hide ParseElements, ItemValues, Consume, SkipWs;
    var t := PrintItems(items, tail);
    Opened('[', t);
    LeadingSpace(reals, t);
    ItemsRead(reals, items, tail, []);
    assert [] + ItemValues(items) == ItemValues(items);
    var inner := if items.LastItem? then items.post + ("]" + tail) else items.post + ("," + PrintItems(items.rest, tail));
    FirstOfPrint(items.doc, inner);
    NotClosed(']', items.pre, Print(items.doc, inner));
  }

  lemma {:induction false} ItemsRead(reals: string -> bool, items: Items, tail: string, done: seq<Value>)
    requires WellFormedItems(reals, items)
    ensures ParseElements(reals, PrintItems(items, tail), done) == Ok(Array(done + ItemValues(items)), tail)
    decreases items, 0
  {
    hide ParseValue, SkipWs, Consume;
    var v := ValueOf(items.doc);
    match items
    case LastItem(pre, doc, post) =>
      DocRead(reals, doc, pre, post + ("]" + tail));
      ConsumeOver(post, ']', tail);
    case Item(pre, doc, post, rest) =>
      var more := PrintItems(rest, tail);
      DocRead(reals, doc, pre, post + ("," + more));
      ConsumeOver(post, ',', more);
      ItemsRead(reals, rest, tail, done + [v]);
      assert done + ([v] + ItemValues(rest)) == (done + [v]) + ItemValues(rest);
  }

  lemma {:induction false} ObjectRead(reals: string -> bool, ms: Members, tail: string)
    requires WellFormedMembers(reals, ms)
    ensures ParseObject(reals, "{" + PrintMembers(ms, tail)) == Ok(Object(Fields(ms)), tail)
    decreases ms, 1
  {
    hide ParseMembers, Fields, Consume, SkipWs;
    var t := PrintMembers(ms, tail);
    Opened('{', t);
    LeadingSpace(reals, t);
    MembersRead(reals, ms, tail, map[]);
    assert Fields(ms) + map[] == Fields(ms);
    var q := t[|ms.pre|..];
    assert t == ms.pre + q && q[0] == '"';
    NotClosed('}', ms.pre, q);
  }

  lemma {:induction false} MembersRead(reals: string -> bool, ms: Members, tail: string, done: map<string, Value>)
    requires WellFormedMembers(reals, ms)
    ensures ParseMembers(reals, PrintMembers(ms, tail), done) == Ok(Object(Fields(ms) + done), tail)
    decreases ms, 0
  {
    hide ParseMembers, PrintMembers, Print;
    var after := if ms.LastMember? then "}" + tail else "," + PrintMembers(ms.rest, tail);
    DocRead(reals, ms.doc, ms.pad, ms.post + after);
    MemberRead(reals, ms, tail, after, done);
    match ms
    case LastMember(_, _, _, _, _, _) =>
      assert Fields(ms) + done == WithMember(ms, done);
    case Member(_, _, _, _, _, _, rest) =>
      MembersRead(reals, rest, tail, WithMember(ms, done));
      assert Fields(rest) + WithMember(ms, done) == Fields(ms) + done;
  }

  function WithMember(ms: Members, done: map<string, Value>): map<string, Value> {
    if StringOf(ms.key) in done then done else done[StringOf(ms.key) := ValueOf(ms.doc)]
  }

  /** One turn of the loop over the members. */
  lemma MemberRead(reals: string -> bool, ms: Members, tail: string, after: string, done: map<string, Value>)
    requires AllSpace(ms.pre) && WellSpelt(ms.key) && AllSpace(ms.mid) && AllSpace(ms.post)
    requires after == if ms.LastMember? then "}" + tail else "," + PrintMembers(ms.rest, tail)
    requires ParseValue(reals, ms.pad + Print(ms.doc, ms.post + after)) == Ok(ValueOf(ms.doc), ms.post + after)
    ensures ParseMembers(reals, PrintMembers(ms, tail), done)
         == if ms.LastMember? then Ok(Object(WithMember(ms, done)), tail)
            else ParseMembers(reals, PrintMembers(ms.rest, tail), WithMember(ms, done))
  {
    hide ParseValue, SkipWs, Consume, ParseString, Quote, Print;
    var u := ms.pad + Print(ms.doc, ms.post + after);
    KeyRead(ms.pre, ms.key, ms.mid + (":" + u));
    ConsumeOver(ms.mid, ':', u);
    if ms.LastMember? {
      ConsumeOver(ms.post, '}', tail);
    } else {
      ConsumeOver(ms.post, ',', PrintMembers(ms.rest, tail));
    }
  }

  lemma KeyRead(ws: string, key: seq<Spelling>, tail: string)
    requires AllSpace(ws) && WellSpelt(key)
    ensures SkipWs(ws + Quote(key, tail)) == Quote(key, tail)
    ensures Quote(key, tail) != "" && Quote(key, tail)[0] == '"'
    ensures ParseString(Quote(key, tail)) == Ok(StringOf(key), tail)
  {
    SkipOver(ws, Quote(key, tail));
    StringRead(key, tail);
  }

  /** Reading a printed document, with white space around it, gives the value it was printed from. */
  lemma ReadBack(reals: string -> bool, doc: Doc, before: string, after: string)
    requires WellFormed(reals, doc) && AllSpace(before) && AllSpace(after)
    ensures Parse(reals, before + Print(doc, after)) == Some(ValueOf(doc))
  {
    var s := Print(doc, after);
    FirstOfPrint(doc, after);
    SkipOver(before, s);
    assert SkipWs(s) == s;
    DocRead(reals, doc, "", after);
    assert "" + s == s;
    SkipOver(after, "");
    assert after + "" == after;
  }
}
