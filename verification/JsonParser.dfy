/** The `Parser` object of config.cpp: a cursor over a text, proved against the functions of `Json`. */
module JsonParser {
  import opened Common
  import opened Decimals
  import opened Json

  lemma Tail(s: string, i: nat)
    requires i < |s|
    ensures s[i..] != "" && s[i..][0] == s[i] && s[i..][1..] == s[i + 1..]
  {
  }

  lemma Slices(s: string, i: nat, j: nat)
    requires i + j <= |s|
    ensures s[i..][j..] == s[i + j..]
    ensures s[i..][..j] == s[i..i + j]
  {
  }

  class Parser {
    const text: string
    const reals: string -> bool
    var pos: nat

    constructor (text: string, reals: string -> bool)
      ensures this.text == text && this.reals == reals && pos == 0
    {
      this.text, this.reals, pos := text, reals, 0;
    }

    predicate Valid()
      reads this
    {
      pos <= |text|
    }

    /** What the cursor has not passed yet. */
    function Rest(): string
      requires Valid()
      reads this
    {
      text[pos..]
    }

    method SkipSpace()
      requires Valid()
      modifies this
      ensures Valid() && Rest() == SkipWs(old(Rest()))
      ensures pos >= old(pos)
    {
      while pos < |text| && IsSpace(text[pos])
        invariant Valid() && pos >= old(pos)
        invariant SkipWs(Rest()) == SkipWs(old(Rest()))
        decreases |text| - pos
      {
        Tail(text, pos);
        SkipOne(Rest());
        pos := pos + 1;
      }
      SkipNone(Rest());
    }

    static lemma SkipOne(s: string)
      requires s != "" && IsSpace(s[0])
      ensures SkipWs(s) == SkipWs(s[1..])
    {
    }

    static lemma SkipTwice(s: string)
      ensures SkipWs(SkipWs(s)) == SkipWs(s)
    {
      SkipNone(SkipWs(s));
    }

    static lemma ConsumeAfterSpace(c: char, s: string)
      ensures Consume(c, SkipWs(s)) == Consume(c, s)
    {
      SkipTwice(s);
    }

    static lemma SkipNone(s: string)
      requires s != "" ==> !IsSpace(s[0])
      ensures SkipWs(s) == s
    {
    }

    /** Moves past `c` if it comes next after white space. */
    method TryConsume(c: char) returns (found: bool)
      requires Valid()
      modifies this
      ensures Valid() && pos >= old(pos)
      ensures found <==> Consume(c, old(Rest())).Some?
      ensures found ==> Rest() == Consume(c, old(Rest())).value
      ensures !found ==> Rest() == SkipWs(old(Rest()))
    {
      hide SkipWs;
      SkipSpace();
      if pos < |text| && text[pos] == c {
        Tail(text, pos);
        pos := pos + 1;
        return true;
      }
      return false;
    }

    /** The result of a parsing method agrees with the function it implements. */
    static ghost predicate Agrees<T>(expected: Parsed<T>, ok: bool, value: T, rest: string) {
      if ok then expected == Ok(value, rest) else expected == Fail
    }

    method ReadString() returns (ok: bool, str: string)
      requires Valid()
      modifies this
      ensures Valid() && pos >= old(pos)
      ensures Agrees(ParseString(old(Rest())), ok, str, Rest())
    {
      hide SkipWs, ParseChars;
      str := "";
      SkipSpace();
      if pos >= |text| || text[pos] != '"' {
        return false, str;
      }
      Tail(text, pos);
      pos := pos + 1;
      ok, str := ReadChars();
    }

    /** What follows a backslash. */
    method ReadEscape() returns (ok: bool, meant: char)
      requires Valid()
      modifies this
      ensures Valid() && pos >= old(pos) && (ok ==> pos > old(pos))
      ensures Agrees(ParseEscape(old(Rest())), ok, meant, Rest())
    {
      if pos >= |text| {
        return false, '?';
      }
      Tail(text, pos);
      var esc := text[pos];
      pos := pos + 1;
      if esc == 'u' {
        if pos + 4 > |text| {
          return false, '?';
        }
        Slices(text, pos - 1, 5);
        pos := pos + 4;
        return true, '?';
      }
      match Unescape(esc) {
        case None =>
          return false, '?';
        case Some(c) =>
          return true, c;
      }
    }

    method ReadChars() returns (ok: bool, str: string)
      requires Valid()
      modifies this
      ensures Valid() && pos >= old(pos)
      ensures Agrees(ParseChars(old(Rest()), ""), ok, str, Rest())
    {
      hide ParseEscape, Unescape;
      str := "";
      while pos < |text|
        invariant Valid() && pos >= old(pos)
        invariant ParseChars(Rest(), str) == ParseChars(old(Rest()), "")
        decreases |text| - pos
      {
        Tail(text, pos);
        var c := text[pos];
        pos := pos + 1;
        if c == '"' {
          return true, str;
        }
        if c == '\\' {
          var escaped, meant := ReadEscape();
          if !escaped {
            return false, str;
          }
          str := str + [meant];
        } else if c < ' ' {
          return false, str;
        } else {
          str := str + [c];
        }
      }
      return false, str;
    }

    /** Moves past digits. */
    method SkipDigits()
      requires Valid()
      modifies this
      ensures Valid() && pos == old(pos) + DigitPrefix(old(Rest()))
    {
      while pos < |text| && IsDigit(text[pos])
        invariant Valid() && pos >= old(pos)
        invariant pos + DigitPrefix(Rest()) == old(pos) + DigitPrefix(old(Rest()))
        decreases |text| - pos
      {
        Tail(text, pos);
        pos := pos + 1;
      }
    }

    method ReadNumber() returns (ok: bool, value: Value)
      requires Valid()
      modifies this
      ensures Valid() && pos >= old(pos)
      ensures Agrees(ParseNumber(reals, old(Rest())), ok, value, Rest())
    {
      hide SkipWs, NumberOf, FractionEnd, ExponentEnd;
      value := Null;
      SkipSpace();
      var start := pos;
      ghost var t := Rest();
      ok := ReadInt(start, t);
      if !ok {
        return;
      }
      var intEnd := pos;
      ok := ReadFraction(start, t);
      if !ok {
        return;
      }
      ok := ReadExponent(start, t);
      if !ok {
        return;
      }
      ok, value := MakeNumber(start, intEnd, t);
    }

    method ReadInt(start: nat, ghost t: string) returns (ok: bool)
      requires Valid() && start == pos && t == Rest()
      modifies this
      ensures Valid() && pos >= start
      ensures ok <==> IntEnd(t).Some?
      ensures ok ==> pos == start + IntEnd(t).value
    {
      if pos < |text| && text[pos] == '-' {
        pos := pos + 1;
      }
      if pos >= |text| || !IsDigit(text[pos]) {
        return false;
      }
      Slices(text, start, pos - start);
      if text[pos] == '0' {
        pos := pos + 1;
      } else {
        Tail(text, pos);
        SkipDigits();
      }
      return true;
    }

    method ReadFraction(start: nat, ghost t: string) returns (ok: bool)
      requires Valid() && start <= pos && t == text[start..]
      modifies this
      ensures Valid() && pos >= old(pos)
      ensures ok <==> FractionEnd(t, old(pos) - start).Some?
      ensures ok ==> pos == start + FractionEnd(t, old(pos) - start).value
    {
      if pos < |text| && text[pos] == '.' {
        pos := pos + 1;
        if pos >= |text| || !IsDigit(text[pos]) {
          return false;
        }
        Slices(text, start, pos - start);
        SkipDigits();
      }
      return true;
    }

    /** Moves past a sign, if there is one. */
    method SkipSign()
      requires Valid()
      modifies this
      ensures Valid() && pos == old(pos) + SignLength(text, old(pos))
    {
      if pos < |text| && (text[pos] == '+' || text[pos] == '-') {
        pos := pos + 1;
      }
    }

    static function SignLength(s: string, k: nat): (n: nat)
      ensures k <= |s| ==> k + n <= |s|
    {
      if k < |s| && (s[k] == '+' || s[k] == '-') then 1 else 0
    }

    /** Where the exponent ends whose letter is at `k` and whose digits should begin at `d`. */
    static lemma ExponentEndIs(t: string, k: nat, d: nat)
      requires k < |t| && (t[k] == 'e' || t[k] == 'E')
      requires d == k + 1 + SignLength(t, k + 1)
      ensures ExponentEnd(t, k) == if d >= |t| || !IsDigit(t[d]) then None else Some(d + DigitPrefix(t[d..]))
    {
      hide DigitPrefix, IsDigit;
    }

    static lemma SignAt(s: string, start: nat, k: nat)
      requires start <= k <= |s|
      ensures SignLength(s[start..], k - start) == SignLength(s, k)
    {
      if k < |s| {
        assert s[start..][k - start] == s[k];
      }
    }

    static lemma ExponentAt(s: string, start: nat, k: nat)
      requires start <= k < |s| && (s[k] == 'e' || s[k] == 'E')
      ensures var d := k + 1 + SignLength(s, k + 1);
              && (d >= |s| || !IsDigit(s[d]) ==> ExponentEnd(s[start..], k - start) == None)
              && (d < |s| && IsDigit(s[d]) ==>
                    ExponentEnd(s[start..], k - start) == Some(d - start + DigitPrefix(s[d..])))
    {
      hide ExponentEnd, DigitPrefix, IsDigit, SignLength;
      var t, d := s[start..], k + 1 + SignLength(s, k + 1);
      SignAt(s, start, k + 1);
      assert t[k - start] == s[k];
      ExponentEndIs(t, k - start, d - start);
      if d < |s| {
        assert t[d - start] == s[d];
        Slices(s, start, d - start);
      }
    }

    /** Without the letter there is no exponent. */
    static lemma NoExponentAt(s: string, start: nat, k: nat)
      requires start <= k <= |s| && (k == |s| || (s[k] != 'e' && s[k] != 'E'))
      ensures ExponentEnd(s[start..], k - start) == Some(k - start)
    {
      if k < |s| {
        assert s[start..][k - start] == s[k];
      }
    }

    method ReadExponent(start: nat, ghost t: string) returns (ok: bool)
      requires Valid() && start <= pos && t == text[start..]
      modifies this
      ensures Valid() && pos >= old(pos)
      ensures ok <==> ExponentEnd(t, old(pos) - start).Some?
      ensures ok ==> pos == start + ExponentEnd(t, old(pos) - start).value
    {
      hide ExponentEnd, SignLength, DigitPrefix, IsDigit;
      if pos >= |text| || (text[pos] != 'e' && text[pos] != 'E') {
        NoExponentAt(text, start, pos);
        return true;
      }
      ExponentAt(text, start, pos);
      pos := pos + 1;
      SkipSign();
      if pos >= |text| || !IsDigit(text[pos]) {
        return false;
      }
      SkipDigits();
      return true;
    }

    method MakeNumber(start: nat, intEnd: nat, ghost t: string) returns (ok: bool, value: Value)
      requires Valid() && start < intEnd <= pos && t == text[start..]
      ensures Agrees(NumberOf(reals, t, intEnd - start, pos - start), ok, value, Rest())
    {
      Slices(text, start, pos - start);
      var token := text[start..pos];
      if pos > intEnd {
        return reals(token), Real(token);
      }
      var n := IntValue(token);
      if MIN_INT64 <= n <= MAX_INT64 {
        return true, Int(n);
      }
      return false, Null;
    }

    method ReadBool() returns (ok: bool, value: Value)
      requires Valid()
      modifies this
      ensures Valid() && pos >= old(pos)
      ensures Agrees(ParseBool(old(Rest())), ok, value, Rest())
    {
      if "true" <= text[pos..] {
        Slices(text, pos, 4);
        pos := pos + 4;
        return true, Bool(true);
      }
      if "false" <= text[pos..] {
        Slices(text, pos, 5);
        pos := pos + 5;
        return true, Bool(false);
      }
      return false, Null;
    }

    method ReadNull() returns (ok: bool, value: Value)
      requires Valid()
      modifies this
      ensures Valid() && pos >= old(pos)
      ensures Agrees(ParseNull(old(Rest())), ok, value, Rest())
    {
      if "null" <= text[pos..] {
        Slices(text, pos, 4);
        pos := pos + 4;
        return true, Null;
      }
      return false, Null;
    }

    method ReadValue() returns (ok: bool, value: Value)
      requires Valid()
      modifies this
      ensures Valid() && pos >= old(pos)
      ensures Agrees(ParseValue(reals, old(Rest())), ok, value, Rest())
      decreases |text| - pos, 1
    {
      hide SkipWs, ParseObject, ParseArray, ParseString, ParseBool, ParseNull, ParseNumber;
      SkipSpace();
      if pos >= |text| {
        return false, Null;
      }
      var c := text[pos];
      assert Rest()[0] == c;
      if c == '{' {
        ok, value := ReadObject();
      } else if c == '[' {
        ok, value := ReadArray();
      } else if c == '"' {
        var str;
        ok, str := ReadString();
        value := Str(str);
      } else if c == 't' || c == 'f' {
        ok, value := ReadBool();
      } else if c == 'n' {
        ok, value := ReadNull();
      } else if c == '-' || IsDigit(c) {
        ok, value := ReadNumber();
      } else {
        return false, Null;
      }
    }

    method ReadArray() returns (ok: bool, value: Value)
      requires Valid()
      modifies this
      ensures Valid() && pos >= old(pos)
      ensures Agrees(ParseArray(reals, old(Rest())), ok, value, Rest())
      decreases |text| - pos, 0
    {
      hide SkipWs, ParseElements, Consume;
      var open := TryConsume('[');
      if !open {
        return false, Null;
      }
      SkipTwice(Rest());
      SkipSpace();
      var closed := TryConsume(']');
      if closed {
        return true, Array([]);
      }
      ok, value := ReadElements();
    }

    /** The loop over the elements. */
    method ReadElements() returns (ok: bool, value: Value)
      requires Valid()
      modifies this
      ensures Valid() && pos >= old(pos)
      ensures Agrees(ParseElements(reals, old(Rest()), []), ok, value, Rest())
      decreases |text| - pos, 2
    {
      hide SkipWs, ParseValue, Consume;
      var items: seq<Value> := [];
      ghost var all := ParseElements(reals, Rest(), []);
      while true
        invariant Valid() && pos >= old(pos)
        invariant ParseElements(reals, Rest(), items) == all
        decreases |text| - pos
      {
        var v;
        ok, v := ReadValue();
        if !ok {
          return false, Null;
        }
        ConsumeAfterSpace(',', Rest());
        var closed := TryConsume(']');
        if closed {
          return true, Array(items + [v]);
        }
        var more := TryConsume(',');
        if !more {
          return false, Null;
        }
        items := items + [v];
      }
    }

    method ReadObject() returns (ok: bool, value: Value)
      requires Valid()
      modifies this
      ensures Valid() && pos >= old(pos)
      ensures Agrees(ParseObject(reals, old(Rest())), ok, value, Rest())
      decreases |text| - pos, 0
    {
      hide SkipWs, ParseMembers, Consume;
      var open := TryConsume('{');
      if !open {
        return false, Null;
      }
      SkipTwice(Rest());
      SkipSpace();
      var closed := TryConsume('}');
      if closed {
        return true, Object(map[]);
      }
      ok, value := ReadMembers();
    }

    /** The loop over the members. */
    method ReadMembers() returns (ok: bool, value: Value)
      requires Valid()
      modifies this
      ensures Valid() && pos >= old(pos)
      ensures Agrees(ParseMembers(reals, old(Rest()), map[]), ok, value, Rest())
      decreases |text| - pos, 2
    {
      hide SkipWs, ParseValue, ParseString, Consume;
      var fields: map<string, Value> := map[];
      ghost var all := ParseMembers(reals, Rest(), map[]);
      while true
        invariant Valid() && pos >= old(pos)
        invariant ParseMembers(reals, Rest(), fields) == all
        decreases |text| - pos
      {
        SkipTwice(Rest());
        ghost var t := SkipWs(Rest());
        SkipSpace();
        if pos >= |text| || text[pos] != '"' {
          return false, Null;
        }
        assert t[0] == '"';
        assert ParseString(t) == ParseString(Rest());
        var key;
        ok, key := ReadString();
        if !ok {
          return false, Null;
        }
        var colon := TryConsume(':');
        if !colon {
          return false, Null;
        }
        var v;
        ok, v := ReadValue();
        if !ok {
          return false, Null;
        }
        if key !in fields {
          fields := fields[key := v];
        }
        ConsumeAfterSpace(',', Rest());
        var closed := TryConsume('}');
        if closed {
          return true, Object(fields);
        }
        var more := TryConsume(',');
        if !more {
          return false, Null;
        }
      }
    }

    /** Reads the whole text; anything but white space after the value is an error. */
    method ReadText() returns (result: Option<Value>)
      requires pos == 0
      modifies this
      ensures Valid() && result == Parse(reals, text)
      ensures result.Some? ==> pos == |text|
    {
      hide SkipWs, ParseValue;
      assert Rest() == text;
      SkipSpace();
      var ok, value := ReadValue();
      if !ok {
        return None;
      }
      SkipSpace();
      return if pos == |text| then Some(value) else None;
    }
  }
}
