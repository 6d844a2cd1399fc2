/**
  JSON values, the text `json.dumps` prints for them and the reader `json.loads`.

  Values follow section 3 of RFC 8259, with numbers restricted to integers. An
  object is the sequence of its fields in insertion order, as a Python dict keeps
  it; `Opaque` stands for a Python object that is not a JSON value and that
  `default=str` turns into a string.
 */
module Json {

  datatype Value =
    | Null
    | Bool(b: bool)
    | Int(n: int)
    | Str(s: string)
    | Arr(items: seq<Value>)
    | Obj(fields: seq<Field>)
    | Opaque(repr: string)

  datatype Field = Field(key: string, value: Value)

  datatype Read<+T> = Fail | Got(value: T, rest: string)

  ghost predicate DistinctKeys(fields: seq<Field>) {
    forall i, j :: 0 <= i < j < |fields| ==> fields[i].key != fields[j].key
  }

  // Every object has distinct keys, as every Python dict and every jsonb object has.
  ghost predicate Distinct(v: Value) {
    match v
    case Arr(items) => forall i :: 0 <= i < |items| ==> Distinct(items[i])
    case Obj(fields) =>
      && DistinctKeys(fields)
      && forall i :: 0 <= i < |fields| ==> Distinct(fields[i].value)
    case _ => true
  }

  ghost predicate NoOpaque(v: Value) {
    match v
    case Arr(items) => forall i :: 0 <= i < |items| ==> NoOpaque(items[i])
    case Obj(fields) => forall i :: 0 <= i < |fields| ==> NoOpaque(fields[i].value)
    case Opaque(_) => false
    case _ => true
  }

  ghost predicate IsJson(v: Value) {
    Distinct(v) && NoOpaque(v)
  }

  // Same content: equal up to the order of keys at every depth, an opaque object
  // counting as the string that `str` gives for it.
  ghost predicate Equivalent(v: Value, w: Value)
    decreases v
  {
    match v
    case Arr(items) => w.Arr? && SameItems(items, w.items)
    case Obj(fields) => w.Obj? && Covers(fields, w.fields) && CoveredBy(fields, w.fields)
    case Str(s) => w == Str(s) || w == Opaque(s)
    case Opaque(s) => w == Str(s) || w == Opaque(s)
    case _ => v == w
  }

  ghost predicate SameItems(a: seq<Value>, b: seq<Value>)
    decreases a
  {
    |a| == |b| && forall i :: 0 <= i < |a| ==> Equivalent(a[i], b[i])
  }

  // Every field of `f` has its counterpart in `g`.
  ghost predicate Covers(f: seq<Field>, g: seq<Field>)
    decreases f
  {
    forall i {:trigger HasCounterpart(f[i], g)} :: 0 <= i < |f| ==> HasCounterpart(f[i], g)
  }

  // Every field of `g` has its counterpart in `f`.
  ghost predicate CoveredBy(f: seq<Field>, g: seq<Field>)
    decreases f, 1
  {
    forall j {:trigger IsCounterpart(f, g[j])} :: 0 <= j < |g| ==> IsCounterpart(f, g[j])
  }

  ghost predicate HasCounterpart(x: Field, g: seq<Field>)
    decreases x, 1
  {
    exists j :: 0 <= j < |g| && SameField(x, g[j])
  }

  ghost predicate IsCounterpart(f: seq<Field>, y: Field)
    decreases f, 0
  {
    exists i :: 0 <= i < |f| && SameField(f[i], y)
  }

  ghost predicate SameField(f: Field, g: Field)
    decreases f, 0
  {
    f.key == g.key && Equivalent(f.value, g.value)
  }

  // ---------------------------------------------------------------- printing

  function HexDigit(n: nat): char
    requires n < 16
  {
    if n < 10 then ('0' as int + n) as char else ('a' as int + n - 10) as char
  }

  function Hex4(n: nat): string
    requires n < 0x1_0000
  {
    [HexDigit(n / 16 / 16 / 16), HexDigit(n / 16 / 16 % 16), HexDigit(n / 16 % 16), HexDigit(n % 16)]
  }

  // Section 7 of RFC 8259, with every character outside ' '..'~' escaped.
  function Escape(c: char): string {
    if c == '\"' then "\\\""
    else if c == '\\' then "\\\\"
    else if c == '\n' then "\\n"
    else if c == '\r' then "\\r"
    else if c == '\t' then "\\t"
    else if c as int == 0x0C then "\\f"
    else if c as int == 0x08 then "\\b"
    else if ' ' <= c <= '~' then [c]
    else if c as int < 0x1_0000 then "\\u" + Hex4(c as int)
    else
      var v := c as int - 0x1_0000;
      "\\u" + Hex4(0xD800 + v / 0x400) + "\\u" + Hex4(0xDC00 + v % 0x400)
  }

  // The characters of a string token after its opening quote.
  function Chars(s: string): string {
    if s == [] then "\"" else Escape(s[0]) + Chars(s[1..])
  }

  function Quote(s: string): string {
    "\"" + Chars(s)
  }

  function Digit(n: nat): char
    requires n < 10
  {
    ('0' as int + n) as char
  }

  function NatText(n: nat): string {
    if n < 10 then [Digit(n)] else NatText(n / 10) + [Digit(n % 10)]
  }

  function IntText(n: int): string {
    if n < 0 then "-" + NatText(-n) else NatText(n)
  }

  // `json.dumps(v, default=str)`
  function Dumps(v: Value): string
    decreases v
  {
    match v
    case Null => "null"
    case Bool(b) => if b then "true" else "false"
    case Int(n) => IntText(n)
    case Str(s) => Quote(s)
    case Opaque(s) => Quote(s)
    case Arr(items) =>
      if items == [] then "[]" else "[" + Dumps(items[0]) + ItemsTail(items[1..])
    case Obj(fields) =>
      if fields == [] then "{}" else "{" + FieldText(fields[0]) + FieldsTail(fields[1..])
  }

  function ItemsTail(items: seq<Value>): string
    decreases items
  {
    if items == [] then "]" else ", " + Dumps(items[0]) + ItemsTail(items[1..])
  }

  function FieldText(f: Field): string
    decreases f
  {
    Quote(f.key) + ": " + Dumps(f.value)
  }

  function FieldsTail(fields: seq<Field>): string
    decreases fields
  {
    if fields == [] then "}" else ", " + FieldText(fields[0]) + FieldsTail(fields[1..])
  }

  // ------------------------------------------------------------ sorted keys

  // Python's order on str: code point by code point, a proper prefix first.
  predicate Less(a: string, b: string) {
    if b == [] then false
    else if a == [] then true
    else a[0] < b[0] || (a[0] == b[0] && Less(a[1..], b[1..]))
  }

  function Insert(f: Field, fields: seq<Field>): seq<Field> {
    if fields == [] || Less(f.key, fields[0].key) then [f] + fields
    else [fields[0]] + Insert(f, fields[1..])
  }

  function SortFields(fields: seq<Field>): seq<Field> {
    if fields == [] then [] else Insert(fields[0], SortFields(fields[1..]))
  }

  // The value as `sort_keys=True, default=str` sees it.
  function Canon(v: Value): Value
    decreases v
  {
    match v
    case Arr(items) => Arr(CanonItems(items))
    case Obj(fields) => Obj(SortFields(CanonFields(fields)))
    case Opaque(s) => Str(s)
    case _ => v
  }

  function CanonItems(items: seq<Value>): seq<Value>
    decreases items
  {
    seq(|items|, i requires 0 <= i < |items| => Canon(items[i]))
  }

  function CanonFields(fields: seq<Field>): seq<Field>
    decreases fields
  {
    seq(|fields|, i requires 0 <= i < |fields| => Field(fields[i].key, Canon(fields[i].value)))
  }

  // `json.dumps(v, sort_keys=True, default=str)`
  function SortedText(v: Value): string {
    Dumps(Canon(v))
  }

  // ----------------------------------------------------------------- reading

  predicate IsSpace(c: char) {
    c == ' ' || c == '\t' || c == '\n' || c == '\r'
  }

  function SkipSpace(t: string): (r: string)
    ensures |r| <= |t|
  {
    if t != [] && IsSpace(t[0]) then SkipSpace(t[1..]) else t
  }

  predicate IsDigit(c: char) {
    '0' <= c <= '9'
  }

  function HexValue(c: char): int {
    if IsDigit(c) then c as int - '0' as int
    else if 'a' <= c <= 'f' then c as int - 'a' as int + 10
    else if 'A' <= c <= 'F' then c as int - 'A' as int + 10
    else -1
  }

  // Four hex digits, or -1.
  function ReadHex4(t: string): int {
    if |t| < 4 || HexValue(t[0]) < 0 || HexValue(t[1]) < 0 || HexValue(t[2]) < 0 || HexValue(t[3]) < 0 then -1
    else HexValue(t[0]) * 0x1000 + HexValue(t[1]) * 0x100 + HexValue(t[2]) * 0x10 + HexValue(t[3])
  }

  // The rest of an escape whose backslash has been read. A surrogate without its
  // partner is no character here.
  function ReadEscape(t: string): (r: Read<char>)
    ensures r.Got? ==> |r.rest| < |t|
  {
    if t == [] then Fail
    else if t[0] == '\"' || t[0] == '\\' || t[0] == '/' then Got(t[0], t[1..])
    else if t[0] == 'n' then Got('\n', t[1..])
    else if t[0] == 'r' then Got('\r', t[1..])
    else if t[0] == 't' then Got('\t', t[1..])
    else if t[0] == 'f' then Got(0x0C as char, t[1..])
    else if t[0] == 'b' then Got(0x08 as char, t[1..])
    else if t[0] == 'u' then
      var n := ReadHex4(t[1..]);
      if n < 0 then Fail
      else if n < 0xD800 || 0xE000 <= n < 0x1_0000 then Got(n as char, t[5..])
      else if 0xD800 <= n < 0xDC00 && |t| >= 11 && t[5] == '\\' && t[6] == 'u' then
        var m := ReadHex4(t[7..]);
        if 0xDC00 <= m < 0xE000
        then Got((0x1_0000 + (n - 0xD800) * 0x400 + (m - 0xDC00)) as char, t[11..])
        else Fail
      else Fail
    else Fail
  }

  function ReadChars(t: string): (r: Read<string>)
    ensures r.Got? ==> |r.rest| < |t|
    decreases |t|
  {
    if t == [] then Fail
    else if t[0] == '\"' then Got([], t[1..])
    else if t[0] == '\\' then
      match ReadEscape(t[1..])
      case Fail => Fail
      case Got(c, rest) =>
        match ReadChars(rest)
        case Fail => Fail
        case Got(s, rest') => Got([c] + s, rest')
    else if t[0] < ' ' then Fail
    else
      match ReadChars(t[1..])
      case Fail => Fail
      case Got(s, rest) => Got([t[0]] + s, rest)
  }

  function DigitRun(t: string): (n: nat)
    ensures n <= |t|
  {
    if t != [] && IsDigit(t[0]) then 1 + DigitRun(t[1..]) else 0
  }

  function DigitsValue(ds: string): nat
    requires forall i :: 0 <= i < |ds| ==> IsDigit(ds[i])
  {
    if ds == [] then 0
    else
      assert IsDigit(ds[|ds| - 1]);
      DigitsValue(ds[..|ds| - 1]) * 10 + (ds[|ds| - 1] as int - '0' as int)
  }

  // What may not follow an integer: another digit, or the start of a fraction or exponent.
  predicate EndsNumber(t: string) {
    t == [] || !(IsDigit(t[0]) || t[0] == '.' || t[0] == 'e' || t[0] == 'E')
  }

  function ReadNat(t: string): (r: Read<int>)
    ensures r.Got? ==> |r.rest| < |t|
  {
    var n := DigitRun(t);
    DigitRunIsDigits(t);
    if n == 0 || (n > 1 && t[0] == '0') || !EndsNumber(t[n..]) then Fail
    else Got(DigitsValue(t[..n]), t[n..])
  }

  function ReadWord(word: string, v: Value, t: string): (r: Read<Value>)
    ensures r.Got? ==> |r.rest| <= |t| - |word|
  {
    if word <= t then Got(v, t[|word|..]) else Fail
  }

  function ReadNumber(t: string): (r: Read<Value>)
    ensures r.Got? ==> |r.rest| < |t|
  {
    if t != [] && t[0] == '-' then
      match ReadNat(t[1..])
      case Fail => Fail
      case Got(n, rest) => Got(Int(-n), rest)
    else
      match ReadNat(t)
      case Fail => Fail
      case Got(n, rest) => Got(Int(n), rest)
  }

  function ReadString(t: string): (r: Read<Value>)
    ensures r.Got? ==> |r.rest| < |t|
  {
    match ReadChars(t)
    case Fail => Fail
    case Got(s, rest) => Got(Str(s), rest)
  }

  function ReadScalar(t: string): (r: Read<Value>)
    ensures r.Got? ==> |r.rest| < |t|
  {
    if t == [] then Fail
    else if t[0] == 'n' then ReadWord("null", Null, t)
    else if t[0] == 't' then ReadWord("true", Bool(true), t)
    else if t[0] == 'f' then ReadWord("false", Bool(false), t)
    else if t[0] == '\"' then ReadString(t[1..])
    else ReadNumber(t)
  }

  function ReadValue(t: string): (r: Read<Value>)
    ensures r.Got? ==> |r.rest| < |t|
    decreases |t|, 1
  {
    if t == [] then Fail
    else if t[0] == '[' then ReadArr(SkipSpace(t[1..]))
    else if t[0] == '{' then ReadObj(SkipSpace(t[1..]))
    else ReadScalar(t)
  }

  function ReadArr(t: string): (r: Read<Value>)
    ensures r.Got? ==> |r.rest| <= |t|
    decreases |t|, 3
  {
    if t != [] && t[0] == ']' then Got(Arr([]), t[1..])
    else
      match ReadItems(t, [])
      case Fail => Fail
      case Got(items, rest) => Got(Arr(items), rest)
  }

  function ReadObj(t: string): (r: Read<Value>)
    ensures r.Got? ==> |r.rest| <= |t|
    decreases |t|, 4
  {
    if t != [] && t[0] == '}' then Got(Obj([]), t[1..])
    else
      match ReadFields(t, [])
      case Fail => Fail
      case Got(fields, rest) => Got(Obj(fields), rest)
  }

  function ReadItems(t: string, done: seq<Value>): (r: Read<seq<Value>>)
    ensures r.Got? ==> |r.rest| <= |t|
    decreases |t|, 2
  {
    match ReadValue(t)
    case Fail => Fail
    case Got(v, rest) =>
      var u := SkipSpace(rest);
      if u == [] then Fail
      else if u[0] == ']' then Got(done + [v], u[1..])
      else if u[0] == ',' then ReadItems(SkipSpace(u[1..]), done + [v])
      else Fail
  }

  // A repeated key overwrites the earlier value in place, as in a Python dict.
  function Put(fields: seq<Field>, f: Field): seq<Field> {
    if fields == [] then [f]
    else if fields[0].key == f.key then [f] + fields[1..]
    else [fields[0]] + Put(fields[1..], f)
  }

  function ReadField(t: string): (r: Read<Field>)
    ensures r.Got? ==> |r.rest| < |t|
    decreases |t|, 2
  {
    if t == [] || t[0] != '\"' then Fail
    else
      match ReadChars(t[1..])
      case Fail => Fail
      case Got(key, afterKey) =>
        var colon := SkipSpace(afterKey);
        if colon == [] || colon[0] != ':' then Fail
        else
          match ReadValue(SkipSpace(colon[1..]))
          case Fail => Fail
          case Got(v, rest) => Got(Field(key, v), rest)
  }

  function ReadFields(t: string, done: seq<Field>): (r: Read<seq<Field>>)
    ensures r.Got? ==> |r.rest| <= |t|
    decreases |t|, 3
  {
    match ReadField(t)
    case Fail => Fail
    case Got(f, rest) =>
      var u := SkipSpace(rest);
      if u == [] then Fail
      else if u[0] == '}' then Got(Put(done, f), u[1..])
      else if u[0] == ',' then ReadFields(SkipSpace(u[1..]), Put(done, f))
      else Fail
  }

  // `json.loads(t)`; `Fail` for what it rejects, and for numbers that are not integers.
  function Loads(t: string): (r: Read<Value>) {
    match ReadValue(SkipSpace(t))
    case Fail => Fail
    case Got(v, rest) => if SkipSpace(rest) == [] then Got(v, []) else Fail
  }

  lemma DigitRunIsDigits(t: string)
    ensures forall i :: 0 <= i < DigitRun(t) ==> IsDigit(t[i])
  {
  }
}
