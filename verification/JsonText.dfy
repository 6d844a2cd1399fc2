/**
  `json.loads` undoes `json.dumps`: a printed value is read back exactly, with
  whatever text follows it left over. Everything the audit trail needs to know
  about printed JSON (no two values share a text, no printed object is a proper
  prefix of another, no line break is ever printed) follows from here.
 */
module JsonText {
  import opened Json

  predicate Printable(t: string) {
    forall i :: 0 <= i < |t| ==> ' ' <= t[i] <= '~'
  }

  lemma PrintableConcat(a: string, b: string)
    requires Printable(a) && Printable(b)
    ensures Printable(a + b)
  {
  }

  lemma Assoc(a: string, b: string, c: string)
    ensures (a + b) + c == a + (b + c)
  {
  }

  // An integer has no closing bracket of its own, so what follows it must end it.
  ghost predicate Closed(v: Value, rest: string) {
    v.Int? ==> EndsNumber(rest)
  }

  lemma HexDigitReads(n: nat)
    requires n < 16
    ensures HexValue(HexDigit(n)) == n
    ensures ' ' <= HexDigit(n) <= '~'
  {
  }

  lemma Hex4Reads(n: nat, rest: string)
    requires n < 0x1_0000
    ensures ReadHex4(Hex4(n) + rest) == n
    ensures Printable(Hex4(n)) && |Hex4(n)| == 4
  {
    var a, b, c, d := n / 16 / 16 / 16, n / 16 / 16 % 16, n / 16 % 16, n % 16;
    HexDigitReads(a);
    HexDigitReads(b);
    HexDigitReads(c);
    HexDigitReads(d);
    var h := Hex4(n);
    assert h[0] == HexDigit(a) && h[1] == HexDigit(b) && h[2] == HexDigit(c) && h[3] == HexDigit(d);
    HexRead(h, rest);
  }

  lemma HexRead(h: string, rest: string)
    requires |h| == 4
    ensures ReadHex4(h + rest) == ReadHex4(h)
  {
    var t := h + rest;
    assert t[0] == h[0] && t[1] == h[1] && t[2] == h[2] && t[3] == h[3];
  }

  lemma BasicReads(n: nat, rest: string)
    requires n < 0xD800 || 0xE000 <= n < 0x1_0000
    ensures ReadEscape("u" + (Hex4(n) + rest)) == Got(n as char, rest)
  {
    var t := "u" + (Hex4(n) + rest);
    Hex4Reads(n, rest);
    assert t[1..] == Hex4(n) + rest;
    assert t[5..] == rest;
  }

  lemma AstralReads(hi: nat, lo: nat, rest: string)
    requires 0xD800 <= hi < 0xDC00 <= lo < 0xE000
    ensures ReadEscape("u" + (Hex4(hi) + ("\\u" + (Hex4(lo) + rest)))) ==
            Got((0x1_0000 + (hi - 0xD800) * 0x400 + (lo - 0xDC00)) as char, rest)
  {
    hide Hex4, ReadHex4;
    var tail := Hex4(lo) + rest;
    var t := "u" + (Hex4(hi) + ("\\u" + tail));
    Hex4Reads(hi, "\\u" + tail);
    assert t[1..] == Hex4(hi) + ("\\u" + tail);
    Hex4Reads(lo, rest);
    assert t[7..] == tail;
    assert t[11..] == rest;
    assert t[5] == '\\' && t[6] == 'u';
  }

  predicate ShortEscape(c: char) {
    c == '\"' || c == '\\' || c == '\n' || c == '\r' || c == '\t' || c as int == 0x0C || c as int == 0x08
  }

  lemma ShortReads(c: char, rest: string)
    requires ShortEscape(c)
    ensures |Escape(c)| == 2 && Escape(c)[0] == '\\' && Printable(Escape(c))
    ensures ReadEscape([Escape(c)[1]] + rest) == Got(c, rest)
  {
    var t := [Escape(c)[1]] + rest;
    assert t[1..] == rest;
  }

  lemma LongReads(c: char, rest: string)
    requires !ShortEscape(c) && !(' ' <= c <= '~')
    ensures |Escape(c)| > 1 && Escape(c)[0] == '\\' && Printable(Escape(c))
    ensures ReadEscape(Escape(c)[1..] + rest) == Got(c, rest)
  {
    if c as int < 0x1_0000 {
      OneReads(c as int, rest);
    } else {
      AstralEscapeReads(c, rest);
    }
  }

  lemma AstralEscapeReads(c: char, rest: string)
    requires c as int >= 0x1_0000
    ensures |Escape(c)| > 1 && Escape(c)[0] == '\\' && Printable(Escape(c))
    ensures ReadEscape(Escape(c)[1..] + rest) == Got(c, rest)
  {
    var v := c as int - 0x1_0000;
    var hi, lo := 0xD800 + v / 0x400, 0xDC00 + v % 0x400;
    assert Escape(c) == "\\u" + Hex4(hi) + "\\u" + Hex4(lo);
    PairReads(hi, lo, rest);
    assert 0x1_0000 + (hi - 0xD800) * 0x400 + (lo - 0xDC00) == c as int;
  }

  lemma OneReads(n: nat, rest: string)
    requires n < 0xD800 || 0xE000 <= n < 0x1_0000
    ensures var e := "\\u" + Hex4(n);
            Printable(e) && ReadEscape(e[1..] + rest) == Got(n as char, rest)
  {
    Hex4Reads(n, []);
    BasicReads(n, rest);
    var e := "\\u" + Hex4(n);
    assert e[1..] == "u" + Hex4(n);
    Assoc("u", Hex4(n), rest);
  }

  lemma PairReads(hi: nat, lo: nat, rest: string)
    requires 0xD800 <= hi < 0xDC00 <= lo < 0xE000
    ensures var e := "\\u" + Hex4(hi) + "\\u" + Hex4(lo);
            && Printable(e)
            && ReadEscape(e[1..] + rest) == Got((0x1_0000 + (hi - 0xD800) * 0x400 + (lo - 0xDC00)) as char, rest)
  {
    Hex4Reads(hi, []);
    Hex4Reads(lo, []);
    AstralReads(hi, lo, rest);
    PairText(Hex4(hi), Hex4(lo), rest);
  }

  lemma PairText(h: string, l: string, rest: string)
    ensures ("\\u" + h + "\\u" + l)[1..] + rest == "u" + (h + ("\\u" + (l + rest)))
  {
    assert ("\\u" + h + "\\u" + l)[1..] == "u" + h + "\\u" + l;
    Assoc("u" + h + "\\u", l, rest);
    Assoc("u" + h, "\\u", l + rest);
    Assoc("u", h, "\\u" + (l + rest));
  }

  // An escape sequence is read back and leaves the text after it.
  lemma EscapeReads(c: char, rest: string)
    requires Escape(c) != [c]
    ensures |Escape(c)| > 1 && Escape(c)[0] == '\\'
    ensures ReadEscape(Escape(c)[1..] + rest) == Got(c, rest)
    ensures Printable(Escape(c))
  {
    if ShortEscape(c) {
      ShortReads(c, rest);
      assert Escape(c)[1..] == [Escape(c)[1]];
    } else {
      LongReads(c, rest);
    }
  }

  // One character of a string token: it is read back, and it is not the closing quote.
  lemma CharReads(c: char, rest: string)
    ensures ReadChars(Escape(c) + rest) ==
            (match ReadChars(rest) case Fail => Fail case Got(s, r) => Got([c] + s, r))
    ensures Printable(Escape(c))
  {
    if Escape(c) == [c] {
      PlainReads(c, rest);
    } else {
      EscapeReads(c, rest);
      EscapedReads(Escape(c), c, rest);
    }
  }

  lemma PlainReads(c: char, rest: string)
    requires ' ' <= c && c != '\"' && c != '\\'
    ensures ReadChars([c] + rest) ==
            (match ReadChars(rest) case Fail => Fail case Got(s, r) => Got([c] + s, r))
  {
    assert ([c] + rest)[1..] == rest;
  }

  lemma EscapedReads(e: string, c: char, rest: string)
    requires e != [] && e[0] == '\\' && ReadEscape(e[1..] + rest) == Got(c, rest)
    ensures ReadChars(e + rest) ==
            (match ReadChars(rest) case Fail => Fail case Got(s, r) => Got([c] + s, r))
  {
    var t := e + rest;
    assert t[1..] == e[1..] + rest;
    assert t[0] == '\\';
  }

  lemma {:induction false} CharsRead(s: string, rest: string)
    ensures ReadChars(Chars(s) + rest) == Got(s, rest)
  {
    if s == [] {
      assert ("\"" + rest)[1..] == rest;
    } else {
      CharsRead(s[1..], rest);
      CharReads(s[0], Chars(s[1..]) + rest);
      Assoc(Escape(s[0]), Chars(s[1..]), rest);
      assert [s[0]] + s[1..] == s;
    }
  }

  lemma {:induction false} CharsPrintable(s: string)
    ensures Printable(Chars(s))
  {
    if s != [] {
      CharsPrintable(s[1..]);
      CharReads(s[0], []);
      PrintableConcat(Escape(s[0]), Chars(s[1..]));
    }
  }

  lemma {:induction false} NatTextReads(n: nat)
    ensures var t := NatText(n);
            && t != [] && Printable(t)
            && (forall i :: 0 <= i < |t| ==> IsDigit(t[i]))
            && DigitsValue(t) == n
            && (t[0] == '0' ==> n == 0 && |t| == 1)
  {
    if n >= 10 {
      NatTextReads(n / 10);
      var t := NatText(n);
      assert t[..|t| - 1] == NatText(n / 10);
      assert t[|t| - 1] == Digit(n % 10);
      assert t[0] == NatText(n / 10)[0];
    }
  }

  lemma {:induction false} DigitRunStops(ds: string, rest: string)
    requires forall i :: 0 <= i < |ds| ==> IsDigit(ds[i])
    requires EndsNumber(rest)
    ensures DigitRun(ds + rest) == |ds|
  {
    if ds == [] {
      assert ds + rest == rest;
    } else {
      DigitRunStops(ds[1..], rest);
      assert (ds + rest)[1..] == ds[1..] + rest;
    }
  }

  lemma NatReads(n: nat, rest: string)
    requires EndsNumber(rest)
    ensures ReadNat(NatText(n) + rest) == Got(n, rest)
  {
    NatTextReads(n);
    DigitRunStops(NatText(n), rest);
    var t := NatText(n) + rest;
    assert t[..|NatText(n)|] == NatText(n) && t[|NatText(n)|..] == rest;
  }

  // The first character of a printed value: no space and no closing bracket.
  lemma FirstChar(v: Value)
    ensures Dumps(v) != []
    ensures !IsSpace(Dumps(v)[0]) && Dumps(v)[0] != ']' && Dumps(v)[0] != '}'
    ensures v.Obj? <==> Dumps(v)[0] == '{'
    ensures v.Null? <==> Dumps(v)[0] == 'n'
  {
    if v.Int? {
      NatTextReads(if v.n < 0 then -v.n else v.n);
    }
  }

  lemma SkipToValue(v: Value, rest: string)
    ensures SkipSpace(Dumps(v) + rest) == Dumps(v) + rest
    ensures SkipSpace(" " + (Dumps(v) + rest)) == Dumps(v) + rest
  {
    FirstChar(v);
    assert (" " + (Dumps(v) + rest))[1..] == Dumps(v) + rest;
  }

  lemma ArrReads(u: string, items: seq<Value>, rest: string)
    requires u != [] && !IsSpace(u[0]) && u[0] != ']'
    requires ReadItems(u, []) == Got(items, rest)
    ensures ReadValue("[" + u) == Got(Arr(items), rest)
  {
    assert ("[" + u)[1..] == u;
    assert SkipSpace(u) == u;
  }

  lemma ObjReads(u: string, fields: seq<Field>, rest: string)
    requires u != [] && u[0] == '\"'
    requires ReadFields(u, []) == Got(fields, rest)
    ensures ReadValue("{" + u) == Got(Obj(fields), rest)
  {
    assert ("{" + u)[1..] == u;
    assert SkipSpace(u) == u;
  }

  lemma EmptyReads(rest: string)
    ensures ReadValue("[]" + rest) == Got(Arr([]), rest)
    ensures ReadValue("{}" + rest) == Got(Obj([]), rest)
  {
    assert ("[]" + rest)[1..] == "]" + rest && ("]" + rest)[1..] == rest;
    assert ("{}" + rest)[1..] == "}" + rest && ("}" + rest)[1..] == rest;
  }

  lemma NumberReads(n: int, rest: string)
    requires EndsNumber(rest)
    ensures ReadNumber(IntText(n) + rest) == Got(Int(n), rest)
    ensures IntText(n)[0] == '-' || IsDigit(IntText(n)[0])
  {
    if n < 0 {
      NatReads(-n, rest);
      var tail := NatText(-n) + rest;
      Assoc("-", NatText(-n), rest);
      assert ("-" + tail)[1..] == tail;
    } else {
      NatTextReads(n);
      NatReads(n, rest);
    }
  }

  lemma WordReads(word: string, v: Value, rest: string)
    ensures ReadWord(word, v, word + rest) == Got(v, rest)
  {
    assert (word + rest)[|word|..] == rest;
  }

  lemma StringReads(s: string, rest: string)
    ensures ReadScalar(Quote(s) + rest) == Got(Str(s), rest)
  {
    CharsRead(s, rest);
    Assoc("\"", Chars(s), rest);
    assert ("\"" + (Chars(s) + rest))[1..] == Chars(s) + rest;
  }

  lemma WordsRead(rest: string)
    ensures ReadScalar("null" + rest) == Got(Null, rest)
    ensures ReadScalar("true" + rest) == Got(Bool(true), rest)
    ensures ReadScalar("false" + rest) == Got(Bool(false), rest)
  {
    WordReads("null", Null, rest);
    WordReads("true", Bool(true), rest);
    WordReads("false", Bool(false), rest);
  }

  lemma ScalarReads(v: Value, rest: string)
    requires v.Null? || v.Bool? || v.Int? || v.Str?
    requires Closed(v, rest)
    ensures ReadScalar(Dumps(v) + rest) == Got(v, rest)
    ensures Dumps(v)[0] != '[' && Dumps(v)[0] != '{'
  {
    match v
    case Int(n) => NumberReads(n, rest);
    case Str(s) => StringReads(s, rest);
    case _ => WordsRead(rest);
  }

  // One turn of the array loop.
  lemma ReadItemsStep(t: string, v: Value, rest: string, done: seq<Value>)
    requires ReadValue(t) == Got(v, rest)
    requires rest != [] && (rest[0] == ']' || rest[0] == ',')
    ensures ReadItems(t, done) ==
            if rest[0] == ']' then Got(done + [v], rest[1..])
            else ReadItems(SkipSpace(rest[1..]), done + [v])
  {
  }

  // One turn of the object loop.
  lemma ReadFieldsStep(t: string, f: Field, rest: string, done: seq<Field>)
    requires ReadField(t) == Got(f, rest)
    requires rest != [] && (rest[0] == '}' || rest[0] == ',')
    ensures ReadFields(t, done) ==
            if rest[0] == '}' then Got(Put(done, f), rest[1..])
            else ReadFields(SkipSpace(rest[1..]), Put(done, f))
  {
  }

  lemma FieldParts(t: string, f: Field, value: string, rest: string)
    requires t != [] && t[0] == '\"' && ReadChars(t[1..]) == Got(f.key, ": " + value)
    requires SkipSpace(" " + value) == value && ReadValue(value) == Got(f.value, rest)
    ensures ReadField(t) == Got(f, rest)
  {
    assert (": " + value)[1..] == " " + value;
  }

  lemma ArrText(items: seq<Value>, rest: string)
    requires items != []
    ensures Dumps(Arr(items)) + rest == "[" + (Dumps(items[0]) + (ItemsTail(items[1..]) + rest))
  {
    Assoc("[" + Dumps(items[0]), ItemsTail(items[1..]), rest);
    Assoc("[", Dumps(items[0]), ItemsTail(items[1..]) + rest);
  }

  lemma ObjText(fields: seq<Field>, rest: string)
    requires fields != []
    ensures Dumps(Obj(fields)) + rest == "{" + (FieldText(fields[0]) + (FieldsTail(fields[1..]) + rest))
  {
    Assoc("{" + FieldText(fields[0]), FieldsTail(fields[1..]), rest);
    Assoc("{", FieldText(fields[0]), FieldsTail(fields[1..]) + rest);
  }

  // The text after an element: a comma, a space and the next element.
  lemma TailText(element: string, tail: string, rest: string)
    ensures var after := ", " + element + tail + rest;
            after[0] == ',' && after[1..] == " " + (element + (tail + rest))
  {
  }

  lemma {:induction false} ValueReads(v: Value, rest: string)
    requires IsJson(v) && Closed(v, rest)
    ensures ReadValue(Dumps(v) + rest) == Got(v, rest)
    decreases v, 0
  {
    match v
    case Arr(items) => ArrValueReads(items, rest);
    case Obj(fields) => ObjValueReads(fields, rest);
    case Opaque(_) =>
    case _ => ScalarReads(v, rest);
  }

  lemma {:induction false} ArrValueReads(items: seq<Value>, rest: string)
    requires IsJson(Arr(items))
    ensures ReadValue(Dumps(Arr(items)) + rest) == Got(Arr(items), rest)
    decreases items, 2
  {
    if items == [] {
      EmptyReads(rest);
    } else {
      ItemsRead(items, [], rest);
      assert [] + items == items;
      FirstChar(items[0]);
      ArrReads(Dumps(items[0]) + (ItemsTail(items[1..]) + rest), items, rest);
      ArrText(items, rest);
    }
  }

  lemma {:induction false} ObjValueReads(fields: seq<Field>, rest: string)
    requires IsJson(Obj(fields))
    ensures ReadValue(Dumps(Obj(fields)) + rest) == Got(Obj(fields), rest)
    decreases fields, 2
  {
    if fields == [] {
      EmptyReads(rest);
    } else {
      assert [] + fields == fields;
      FieldsRead(fields, [], rest);
      ObjReads(FieldText(fields[0]) + (FieldsTail(fields[1..]) + rest), fields, rest);
      ObjText(fields, rest);
    }
  }

  // A number before the rest of an array or object ends there.
  lemma TailCloses(v: Value, items: seq<Value>, fields: seq<Field>, rest: string)
    ensures Closed(v, ItemsTail(items) + rest) && Closed(v, FieldsTail(fields) + rest)
  {
  }

  lemma {:induction false} ItemsRead(items: seq<Value>, done: seq<Value>, rest: string)
    requires items != [] && forall i :: 0 <= i < |items| ==> IsJson(items[i])
    ensures ReadItems(Dumps(items[0]) + (ItemsTail(items[1..]) + rest), done) == Got(done + items, rest)
    decreases items, 1
  {
    hide Closed, IsJson, Dumps, ItemsTail, ReadItems, ReadValue;
    var v, more := items[0], items[1..];
    TailCloses(v, more, [], rest);
    ValueReads(v, ItemsTail(more) + rest);
    if more == [] {
      LastItemReads(v, done, rest);
      assert done + [v] == done + items;
    } else {
      ItemsRead(more, done + [v], rest);
      NextItemReads(v, more, done, rest);
      assert done + [v] + more == done + items;
    }
  }

  lemma LastItemReads(v: Value, done: seq<Value>, rest: string)
    requires ReadValue(Dumps(v) + (ItemsTail([]) + rest)) == Got(v, ItemsTail([]) + rest)
    ensures ReadItems(Dumps(v) + (ItemsTail([]) + rest), done) == Got(done + [v], rest)
  {
    var after := ItemsTail([]) + rest;
    assert after[0] == ']' && after[1..] == rest;
    ReadItemsStep(Dumps(v) + after, v, after, done);
  }

  lemma NextItemReads(v: Value, more: seq<Value>, done: seq<Value>, rest: string)
    requires more != []
    requires ReadValue(Dumps(v) + (ItemsTail(more) + rest)) == Got(v, ItemsTail(more) + rest)
    ensures ReadItems(Dumps(v) + (ItemsTail(more) + rest), done) ==
            ReadItems(Dumps(more[0]) + (ItemsTail(more[1..]) + rest), done + [v])
  {
    var after := ItemsTail(more) + rest;
    TailText(Dumps(more[0]), ItemsTail(more[1..]), rest);
    SkipToValue(more[0], ItemsTail(more[1..]) + rest);
    ReadItemsStep(Dumps(v) + after, v, after, done);
  }

  lemma {:induction false} PutNew(done: seq<Field>, f: Field)
    requires forall i :: 0 <= i < |done| ==> done[i].key != f.key
    ensures Put(done, f) == done + [f]
  {
    if done != [] {
      PutNew(done[1..], f);
    }
  }

  lemma {:induction false} FieldsRead(fields: seq<Field>, done: seq<Field>, rest: string)
    requires fields != [] && DistinctKeys(done + fields)
    requires forall i :: 0 <= i < |fields| ==> IsJson(fields[i].value)
    ensures ReadFields(FieldText(fields[0]) + (FieldsTail(fields[1..]) + rest), done) == Got(done + fields, rest)
    decreases fields, 1
  {
    hide Closed, DistinctKeys, IsJson, Put, Dumps, FieldText, FieldsTail, ReadFields, ReadValue;
    var f, more := fields[0], fields[1..];
    TailCloses(f.value, [], more, rest);
    ValueReads(f.value, FieldsTail(more) + rest);
    NewKey(done, fields);
    PutNew(done, f);
    if more == [] {
      LastFieldReads(f, done, rest);
      assert done + [f] == done + fields;
    } else {
      assert done + [f] + more == done + fields;
      FieldsRead(more, done + [f], rest);
      NextFieldReads(f, more, done, rest);
    }
  }

  lemma LastFieldReads(f: Field, done: seq<Field>, rest: string)
    requires ReadValue(Dumps(f.value) + (FieldsTail([]) + rest)) == Got(f.value, FieldsTail([]) + rest)
    ensures ReadFields(FieldText(f) + (FieldsTail([]) + rest), done) == Got(Put(done, f), rest)
  {
    var after := FieldsTail([]) + rest;
    assert after[0] == '}' && after[1..] == rest;
    FieldStep(f, after, done);
  }

  lemma NextFieldReads(f: Field, more: seq<Field>, done: seq<Field>, rest: string)
    requires more != []
    requires ReadValue(Dumps(f.value) + (FieldsTail(more) + rest)) == Got(f.value, FieldsTail(more) + rest)
    ensures ReadFields(FieldText(f) + (FieldsTail(more) + rest), done) ==
            ReadFields(FieldText(more[0]) + (FieldsTail(more[1..]) + rest), Put(done, f))
  {
    TailText(FieldText(more[0]), FieldsTail(more[1..]), rest);
    SkipToField(more[0], FieldsTail(more[1..]) + rest);
    FieldStep(f, FieldsTail(more) + rest, done);
  }

  lemma SkipToField(f: Field, rest: string)
    ensures SkipSpace(" " + (FieldText(f) + rest)) == FieldText(f) + rest
  {
    var t := FieldText(f) + rest;
    assert t[0] == '\"';
    assert (" " + t)[1..] == t;
  }

  lemma NewKey(done: seq<Field>, fields: seq<Field>)
    requires fields != [] && DistinctKeys(done + fields)
    ensures forall i :: 0 <= i < |done| ==> done[i].key != fields[0].key
  {
    forall i | 0 <= i < |done| ensures done[i].key != fields[0].key {
      assert (done + fields)[i] == done[i] && (done + fields)[|done|] == fields[0];
    }
  }

  lemma FieldTextSplit(f: Field, after: string)
    ensures FieldText(f) + after == "\"" + (Chars(f.key) + (": " + (Dumps(f.value) + after)))
  {
    var key, value := Chars(f.key), Dumps(f.value);
    Assoc(Quote(f.key) + ": ", value, after);
    Assoc(Quote(f.key), ": ", value + after);
    Assoc("\"", key, ": " + (value + after));
  }

  lemma FieldStep(f: Field, after: string, done: seq<Field>)
    requires ReadValue(Dumps(f.value) + after) == Got(f.value, after)
    requires after != [] && (after[0] == '}' || after[0] == ',')
    ensures ReadFields(FieldText(f) + after, done) ==
            if after[0] == '}' then Got(Put(done, f), after[1..])
            else ReadFields(SkipSpace(after[1..]), Put(done, f))
  {
    var value := Dumps(f.value) + after;
    var u := Chars(f.key) + (": " + value);
    FieldTextSplit(f, after);
    CharsRead(f.key, ": " + value);
    assert ("\"" + u)[1..] == u;
    SkipToValue(f.value, after);
    FieldParts("\"" + u, f, value, after);
    ReadFieldsStep("\"" + u, f, after, done);
  }

  /** `json.loads(json.dumps(v)) == v`, for every JSON value. */
  lemma LoadsDumps(v: Value)
    requires IsJson(v)
    ensures Loads(Dumps(v)) == Got(v, [])
  {
    ValueReads(v, []);
    assert Dumps(v) + [] == Dumps(v);
    FirstChar(v);
  }
}
