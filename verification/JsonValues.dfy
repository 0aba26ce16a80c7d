/** Every value made of plain parts has a printed document. */
module JsonValues {
  import opened Common
  import opened Json
  import opened JsonPrint

  /** No control characters but those with an escape of one letter. */
  predicate Plain(s: string) {
    forall i :: 0 <= i < |s| ==> s[i] >= ' ' || s[i] in ['\n', '\r', '\t', '\U{8}', '\U{C}']
  }

  function SpellOne(c: char): Spelling {
    match c
    case '"' => Letter('"')
    case '\\' => Letter('\\')
    case '\n' => Letter('n')
    case '\r' => Letter('r')
    case '\t' => Letter('t')
    case _ => if c == '\U{8}' then Letter('b') else if c == '\U{C}' then Letter('f') else Raw(c)
  }

  lemma {:induction false} Spell(s: string) returns (lit: seq<Spelling>)
    requires Plain(s)
    ensures WellSpelt(lit) && StringOf(lit) == s
  {
    if s == "" {
      lit := [];
    } else {
      var rest := Spell(s[1..]);
      lit := [SpellOne(s[0])] + rest;
      assert lit[1..] == rest;
      assert s == [s[0]] + s[1..];
    }
  }

  /** Values of objects, arrays, 64-bit integers, booleans, null and plain strings. */
  predicate Printable(v: Value) {
    match v
    case Null => true
    case Bool(_) => true
    case Int(n) => -0x8000_0000_0000_0000 <= n <= 0x7FFF_FFFF_FFFF_FFFF
    case Real(_) => false
    case Str(s) => Plain(s)
    case Array(items) => forall i :: 0 <= i < |items| ==> Printable(items[i])
    case Object(fields) => forall k :: k in fields ==> Plain(k) && Printable(fields[k])
  }

  lemma {:induction false} DocumentOf(reals: string -> bool, v: Value) returns (doc: Doc)
    requires Printable(v)
    ensures WellFormed(reals, doc) && ValueOf(doc) == v
    decreases v, 2
  {
    match v
    case Null => doc := DNull;
    case Bool(b) => doc := DBool(b);
    case Int(n) =>
      doc := DNumber(Literal(n < 0, if n < 0 then 0 - n else n, None, None));
    case Str(s) =>
      var lit := Spell(s);
      doc := DString(lit);
    case Array(items) =>
      if items == [] {
        doc := DEmptyArray("");
      } else {
        var list := ItemsFrom(reals, v, 0);
        doc := DArray(list);
      }
    case Object(fields) =>
      if fields.Keys == {} {
        assert fields == map[];
        doc := DEmptyObject("");
      } else {
        var ms := MembersFor(reals, v, fields.Keys);
        doc := DObject(ms);
      }
  }

  lemma {:induction false} ItemsFrom(reals: string -> bool, v: Value, i: nat) returns (list: Items)
    requires v.Array? && Printable(v) && i < |v.items|
    ensures WellFormedItems(reals, list) && ItemValues(list) == v.items[i..]
    decreases v, 1, |v.items| - i
  {
    var doc := DocumentOf(reals, v.items[i]);
    if i + 1 == |v.items| {
      list := LastItem("", doc, "");
    } else {
      var rest := ItemsFrom(reals, v, i + 1);
      list := Item("", doc, "", rest);
    }
  }

  lemma {:induction false} MembersFor(reals: string -> bool, v: Value, keys: set<string>) returns (ms: Members)
    requires v.Object? && Printable(v) && keys != {} && keys <= v.fields.Keys
    ensures WellFormedMembers(reals, ms) && Fields(ms) == map k | k in keys :: v.fields[k]
    decreases v, 1, |keys|
  {
    var key :| key in keys;
    var doc := DocumentOf(reals, v.fields[key]);
    var lit := Spell(key);
    if keys == {key} {
      ms := LastMember("", lit, "", "", doc, "");
    } else {
      var rest := MembersFor(reals, v, keys - {key});
      ms := Member("", lit, "", "", doc, "", rest);
    }
  }

  /** Every such value is what some text reads as, and every text printed from it reads as it. */
  lemma PrintParse(reals: string -> bool, v: Value)
    requires Printable(v)
    ensures exists doc :: WellFormed(reals, doc) && ValueOf(doc) == v
    ensures forall doc, before, after ::
      WellFormed(reals, doc) && ValueOf(doc) == v && AllSpace(before) && AllSpace(after) ==>
        Parse(reals, before + Print(doc, after)) == Some(v)
  {
    var _ := DocumentOf(reals, v);
    forall doc, before, after | WellFormed(reals, doc) && ValueOf(doc) == v && AllSpace(before) && AllSpace(after)
      ensures Parse(reals, before + Print(doc, after)) == Some(v)
    {
      ReadBack(reals, doc, before, after);
    }
  }
}
