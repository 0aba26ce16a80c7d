/**
 * The JSON reader of config.cpp as functions on the text that is still to be read. Whether the
 * library can represent a real number is decided by the parameter `reals`.
 */
module Json {
  import opened Common
  import opened Decimals

  /** Real numbers are kept as written. */
  datatype Value =
    | Null
    | Bool(b: bool)
    | Int(n: int)
    | Real(token: string)
    | Str(s: string)
    | Array(items: seq<Value>)
    | Object(fields: map<string, Value>)

  datatype Parsed<+T> = Fail | Ok(value: T, rest: string)

  const MIN_INT64: int := -0x8000_0000_0000_0000
  const MAX_INT64: int := 0x7FFF_FFFF_FFFF_FFFF

  const BACKSPACE: char := '\U{8}'
  const FORM_FEED: char := '\U{C}'
  const VERTICAL_TAB: char := '\U{B}'

  predicate IsSpace(c: char) {
    c == ' ' || c == '\t' || c == '\n' || c == '\r' || c == VERTICAL_TAB || c == FORM_FEED
  }

  /** Length of the white space in front. */
  function WsPrefix(s: string): (n: nat)
    ensures n <= |s|
    ensures forall i :: 0 <= i < n ==> IsSpace(s[i])
    ensures n < |s| ==> !IsSpace(s[n])
  {
    if s == "" || !IsSpace(s[0]) then 0
    else
      var n := 1 + WsPrefix(s[1..]);
      assert forall i :: 0 < i < |s| ==> s[i] == s[1..][i - 1];
      n
  }

  function SkipWs(s: string): (r: string)
    ensures |r| <= |s|
    ensures r != "" ==> !IsSpace(r[0])
  {
    s[WsPrefix(s)..]
  }

  /** Skips white space and then the given character, if it comes next. */
  function Consume(c: char, s: string): (r: Option<string>)
    ensures r.Some? ==> |r.value| < |s|
  {
    var t := SkipWs(s);
    if t != "" && t[0] == c then Some(t[1..]) else None
  }

  function ParseValue(reals: string -> bool, s: string): (r: Parsed<Value>)
    ensures r.Ok? ==> |r.rest| < |s|
    decreases |s|, 1
  {
    var t := SkipWs(s);
    if t == "" then Fail
    else if t[0] == '{' then ParseObject(reals, t)
    else if t[0] == '[' then ParseArray(reals, t)
    else if t[0] == '"' then
      match ParseString(t)
      case Fail => Fail
      case Ok(str, rest) => Ok(Str(str), rest)
    else if t[0] == 't' || t[0] == 'f' then ParseBool(t)
    else if t[0] == 'n' then ParseNull(t)
    else if t[0] == '-' || IsDigit(t[0]) then ParseNumber(reals, t)
    else Fail
  }

  function ParseObject(reals: string -> bool, s: string): (r: Parsed<Value>)
    ensures r.Ok? ==> |r.rest| < |s|
    decreases |s|, 0
  {
    match Consume('{', s)
    case None => Fail
    case Some(t) =>
      var u := SkipWs(t);
      match Consume('}', u)
      case Some(rest) => Ok(Object(map[]), rest)
      case None => ParseMembers(reals, u, map[])
  }

  /** From the opening quote of a key; a key that occurs again does not replace the first value. */
  function ParseMembers(reals: string -> bool, s: string, fields: map<string, Value>): (r: Parsed<Value>)
    ensures r.Ok? ==> |r.rest| < |s|
    decreases |s|, 2
  {
    var t := SkipWs(s);
    if t == "" || t[0] != '"' then Fail
    else
      match ParseString(t)
      case Fail => Fail
      case Ok(key, afterKey) =>
        match Consume(':', afterKey)
        case None => Fail
        case Some(u) =>
          match ParseValue(reals, u)
          case Fail => Fail
          case Ok(v, w) =>
            var all := if key in fields then fields else fields[key := v];
            match Consume('}', w)
            case Some(rest) => Ok(Object(all), rest)
            case None =>
              match Consume(',', w)
              case None => Fail
              case Some(rest) => ParseMembers(reals, rest, all)
  }

  function ParseArray(reals: string -> bool, s: string): (r: Parsed<Value>)
    ensures r.Ok? ==> |r.rest| < |s|
    decreases |s|, 0
  {
    match Consume('[', s)
    case None => Fail
    case Some(t) =>
      var u := SkipWs(t);
      match Consume(']', u)
      case Some(rest) => Ok(Array([]), rest)
      case None => ParseElements(reals, u, [])
  }

  function ParseElements(reals: string -> bool, s: string, items: seq<Value>): (r: Parsed<Value>)
    ensures r.Ok? ==> |r.rest| < |s|
    decreases |s|, 2
  {
    match ParseValue(reals, s)
    case Fail => Fail
    case Ok(v, w) =>
      match Consume(']', w)
      case Some(rest) => Ok(Array(items + [v]), rest)
      case None =>
        match Consume(',', w)
        case None => Fail
        case Some(rest) => ParseElements(reals, rest, items + [v])
  }

  function ParseString(s: string): (r: Parsed<string>)
    ensures r.Ok? ==> |r.rest| < |s|
  {
    var t := SkipWs(s);
    if t == "" || t[0] != '"' then Fail else ParseChars(t[1..], "")
  }

  /** The character a one-letter escape stands for. */
  function Unescape(c: char): Option<char> {
    match c
    case '"' => Some('"')
    case '\\' => Some('\\')
    case '/' => Some('/')
    case 'b' => Some(BACKSPACE)
    case 'f' => Some(FORM_FEED)
    case 'n' => Some('\n')
    case 'r' => Some('\r')
    case 't' => Some('\t')
    case _ => None
  }

  /** What follows a backslash; a `\u` escape becomes a question mark. */
  function ParseEscape(s: string): (r: Parsed<char>)
    ensures r.Ok? ==> |r.rest| < |s|
  {
    if s == "" then Fail
    else if s[0] == 'u' then if |s| < 5 then Fail else Ok('?', s[5..])
    else
      match Unescape(s[0])
      case None => Fail
      case Some(c) => Ok(c, s[1..])
  }

  /** The characters up to the closing quote. */
  function ParseChars(s: string, done: string): (r: Parsed<string>)
    ensures r.Ok? ==> |r.rest| < |s|
  {
    if s == "" then Fail
    else if s[0] == '"' then Ok(done, s[1..])
    else if s[0] == '\\' then
      match ParseEscape(s[1..])
      case Fail => Fail
      case Ok(c, rest) => ParseChars(rest, done + [c])
    else if s[0] < ' ' then Fail
    else ParseChars(s[1..], done + [s[0]])
  }

  /** End of the integer part of a number: a sign, then a single zero or digits without one in front. */
  function IntEnd(s: string): (e: Option<nat>)
    ensures e.Some? ==> 0 < e.value <= |s|
  {
    var k := if s != "" && s[0] == '-' then 1 else 0;
    if k >= |s| || !IsDigit(s[k]) then None
    else if s[k] == '0' then Some(k + 1)
    else
      var n := DigitPrefix(s[k..]);
      if n == 0 then None else Some(k + n)
  }

  /** End of the fraction that may start at `k`. */
  function FractionEnd(s: string, k: nat): (e: Option<nat>)
    requires k <= |s|
    ensures e.Some? ==> k <= e.value <= |s|
  {
    if k == |s| || s[k] != '.' then Some(k)
    else if k + 1 == |s| || !IsDigit(s[k + 1]) then None
    else Some(k + 1 + DigitPrefix(s[k + 1..]))
  }

  /** End of the exponent that may start at `k`. */
  function ExponentEnd(s: string, k: nat): (e: Option<nat>)
    requires k <= |s|
    ensures e.Some? ==> k <= e.value <= |s|
  {
    if k == |s| || (s[k] != 'e' && s[k] != 'E') then Some(k)
    else
      var d := if k + 1 < |s| && (s[k + 1] == '+' || s[k + 1] == '-') then k + 2 else k + 1;
      if d >= |s| || !IsDigit(s[d]) then None else Some(d + DigitPrefix(s[d..]))
  }

  function IntValue(token: string): int {
    if token != "" && token[0] == '-' && AllDigits(token[1..]) then -(Numeral(token[1..]) as int)
    else if AllDigits(token) then Numeral(token)
    else 0
  }

  function ParseNumber(reals: string -> bool, s: string): (r: Parsed<Value>)
    ensures r.Ok? ==> |r.rest| < |s|
  {
    var t := SkipWs(s);
    match IntEnd(t)
    case None => Fail
    case Some(i) =>
      match FractionEnd(t, i)
      case None => Fail
      case Some(f) =>
        match ExponentEnd(t, f)
        case None => Fail
        case Some(e) => NumberOf(reals, t, i, e)
  }

  /** Integers outside 64 bits and reals that cannot be represented are refused. */
  function NumberOf(reals: string -> bool, s: string, intEnd: nat, end: nat): (r: Parsed<Value>)
    requires 0 < intEnd <= end <= |s|
    ensures r.Ok? ==> |r.rest| < |s|
  {
    if end > intEnd then if reals(s[..end]) then Ok(Real(s[..end]), s[end..]) else Fail
    else if MIN_INT64 <= IntValue(s[..end]) <= MAX_INT64 then Ok(Int(IntValue(s[..end])), s[end..])
    else Fail
  }

  function ParseBool(s: string): (r: Parsed<Value>)
    ensures r.Ok? ==> |r.rest| < |s|
  {
    if "true" <= s then Ok(Bool(true), s[4..])
    else if "false" <= s then Ok(Bool(false), s[5..])
    else Fail
  }

  function ParseNull(s: string): (r: Parsed<Value>)
    ensures r.Ok? ==> |r.rest| < |s|
  {
    if "null" <= s then Ok(Null, s[4..]) else Fail
  }

  /** A whole text: one value with nothing but white space around it. */
  function Parse(reals: string -> bool, text: string): Option<Value> {
    match ParseValue(reals, SkipWs(text))
    case Fail => None
    case Ok(v, rest) => if SkipWs(rest) == "" then Some(v) else None
  }
}
