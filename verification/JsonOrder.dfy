/**
  `json.dumps(sort_keys=True, default=str)` is a normal form: two values print
  the same text exactly when they have the same content, whatever order their
  keys are in.
 */
module JsonOrder {
  import opened Json
  import opened JsonText

  // -------------------------------------------------------- the order on keys

  lemma {:induction false} LessTotal(a: string, b: string)
    ensures a == b || Less(a, b) || Less(b, a)
  {
    if a != [] && b != [] && a[0] == b[0] {
      LessTotal(a[1..], b[1..]);
      assert a == [a[0]] + a[1..] && b == [b[0]] + b[1..];
    }
  }

  lemma {:induction false} LessTransitive(a: string, b: string, c: string)
    requires Less(a, b) && Less(b, c)
    ensures Less(a, c)
  {
    if a != [] && a[0] == b[0] == c[0] {
      LessTransitive(a[1..], b[1..], c[1..]);
    }
  }

  lemma {:induction false} LessIrreflexive(a: string)
    ensures !Less(a, a)
  {
    if a != [] {
      LessIrreflexive(a[1..]);
    }
  }

  // ------------------------------------------------------------- sorted fields

  ghost predicate Sorted(fields: seq<Field>) {
    forall i, j :: 0 <= i < j < |fields| ==> Less(fields[i].key, fields[j].key)
  }

  lemma {:induction false} InsertKeeps(f: Field, fields: seq<Field>)
    ensures |Insert(f, fields)| == |fields| + 1
    ensures forall x :: x in Insert(f, fields) <==> x == f || x in fields
  {
    if fields != [] && !Less(f.key, fields[0].key) {
      InsertKeeps(f, fields[1..]);
      assert fields == [fields[0]] + fields[1..];
    }
  }

  lemma {:induction false} InsertSorted(f: Field, fields: seq<Field>)
    requires Sorted(fields)
    requires forall x :: x in fields ==> x.key != f.key
    ensures Sorted(Insert(f, fields))
  {
    if fields == [] {
    } else if Less(f.key, fields[0].key) {
      forall j | 0 < j < |fields| ensures Less(f.key, fields[j].key) {
        LessTransitive(f.key, fields[0].key, fields[j].key);
      }
    } else {
      var rest := Insert(f, fields[1..]);
      InsertSorted(f, fields[1..]);
      InsertKeeps(f, fields[1..]);
      LessTotal(f.key, fields[0].key);
      assert fields[0] in fields;
      forall j | 0 <= j < |rest| ensures Less(fields[0].key, rest[j].key) {
        assert rest[j] in rest;
      }
    }
  }

  lemma {:induction false} SortKeeps(fields: seq<Field>)
    ensures |SortFields(fields)| == |fields|
    ensures forall x :: x in SortFields(fields) <==> x in fields
  {
    if fields != [] {
      SortKeeps(fields[1..]);
      InsertKeeps(fields[0], SortFields(fields[1..]));
      assert fields == [fields[0]] + fields[1..];
    }
  }

  lemma {:induction false} SortSorts(fields: seq<Field>)
    requires DistinctKeys(fields)
    ensures Sorted(SortFields(fields))
  {
    if fields != [] {
      SortSorts(fields[1..]);
      SortKeeps(fields[1..]);
      InsertSorted(fields[0], SortFields(fields[1..]));
    }
  }

  lemma SortedDistinct(fields: seq<Field>)
    requires Sorted(fields)
    ensures DistinctKeys(fields)
  {
    forall i, j | 0 <= i < j < |fields| ensures fields[i].key != fields[j].key {
      LessIrreflexive(fields[i].key);
    }
  }

  // A strictly sorted sequence is determined by its elements.
  lemma {:induction false} SortedUnique(a: seq<Field>, b: seq<Field>)
    requires Sorted(a) && Sorted(b)
    requires forall x :: x in a <==> x in b
    ensures a == b
  {
    assert a != [] ==> a[0] in a;
    assert b != [] ==> b[0] in b;
    if a != [] {
      HeadLeast(a, b);
      HeadLeast(b, a);
      if Less(a[0].key, b[0].key) && Less(b[0].key, a[0].key) {
        LessTransitive(a[0].key, b[0].key, a[0].key);
        LessIrreflexive(a[0].key);
      }
      TailElements(a);
      TailElements(b);
      SortedUnique(a[1..], b[1..]);
      assert a == [a[0]] + a[1..] && b == [b[0]] + b[1..];
    }
  }

  lemma HeadLeast(a: seq<Field>, b: seq<Field>)
    requires Sorted(a) && a != [] && b != []
    requires forall x :: x in b ==> x in a
    ensures a[0] == b[0] || Less(a[0].key, b[0].key)
  {
    assert b[0] in b;
    var i :| 0 <= i < |a| && a[i] == b[0];
  }

  lemma TailElements(a: seq<Field>)
    requires Sorted(a) && a != []
    ensures Sorted(a[1..])
    ensures forall x :: x in a[1..] <==> x in a && x != a[0]
  {
    LessIrreflexive(a[0].key);
    assert a == [a[0]] + a[1..];
  }

  // --------------------------------------------------------------- normal form

  lemma {:induction false} CanonIsJson(v: Value)
    requires Distinct(v)
    ensures IsJson(Canon(v))
    decreases v
  {
    match v
    case Arr(items) =>
      forall i | 0 <= i < |items| ensures IsJson(Canon(items[i])) {
        CanonIsJson(items[i]);
      }
    case Obj(fields) =>
      var canon := CanonFields(fields);
      var sorted := SortFields(canon);
      forall i | 0 <= i < |fields| ensures IsJson(canon[i].value) {
        CanonIsJson(fields[i].value);
      }
      SortKeeps(canon);
      SortSorts(canon);
      SortedDistinct(sorted);
      forall i | 0 <= i < |sorted| ensures IsJson(sorted[i].value) {
        assert sorted[i] in sorted;
        var j :| 0 <= j < |canon| && canon[j] == sorted[i];
      }
    case _ =>
  }

  lemma {:induction false} CanonOfEquivalent(v: Value, w: Value)
    requires Distinct(v) && Distinct(w) && Equivalent(v, w)
    ensures Canon(v) == Canon(w)
    decreases v
  {
    match v
    case Arr(items) =>
      forall i | 0 <= i < |items| ensures Canon(items[i]) == Canon(w.items[i]) {
        CanonOfEquivalent(items[i], w.items[i]);
      }
      assert CanonItems(items) == CanonItems(w.items);
    case Obj(fields) => CanonOfFields(fields, w.fields);
    case _ =>
  }

  lemma {:induction false} CanonOfFields(f: seq<Field>, g: seq<Field>)
    requires Distinct(Obj(f)) && Distinct(Obj(g)) && Covers(f, g) && CoveredBy(f, g)
    ensures SortFields(CanonFields(f)) == SortFields(CanonFields(g))
    decreases f, 1
  {
    var a, b := CanonFields(f), CanonFields(g);
    forall i | 0 <= i < |a| ensures a[i] in b {
      var j := Counterpart(f, g, i);
      assert a[i] == b[j];
    }
    forall j | 0 <= j < |b| ensures b[j] in a {
      var i := Original(f, g, j);
      assert b[j] == a[i];
    }
    SortedSame(a, b);
  }

  lemma {:induction false} Counterpart(f: seq<Field>, g: seq<Field>, i: nat) returns (j: nat)
    requires Distinct(Obj(f)) && Distinct(Obj(g)) && Covers(f, g) && i < |f|
    ensures j < |g| && f[i].key == g[j].key && Canon(f[i].value) == Canon(g[j].value)
    decreases f, 0
  {
    assert HasCounterpart(f[i], g);
    j :| 0 <= j < |g| && SameField(f[i], g[j]);
    CanonOfEquivalent(f[i].value, g[j].value);
  }

  lemma {:induction false} Original(f: seq<Field>, g: seq<Field>, j: nat) returns (i: nat)
    requires Distinct(Obj(f)) && Distinct(Obj(g)) && CoveredBy(f, g) && j < |g|
    ensures i < |f| && f[i].key == g[j].key && Canon(f[i].value) == Canon(g[j].value)
    decreases f, 0
  {
    assert IsCounterpart(f, g[j]);
    i :| 0 <= i < |f| && SameField(f[i], g[j]);
    CanonOfEquivalent(f[i].value, g[j].value);
  }

  lemma SortedSame(a: seq<Field>, b: seq<Field>)
    requires DistinctKeys(a) && DistinctKeys(b)
    requires forall x :: x in a <==> x in b
    ensures SortFields(a) == SortFields(b)
  {
    SortKeeps(a);
    SortKeeps(b);
    SortSorts(a);
    SortSorts(b);
    SortedUnique(SortFields(a), SortFields(b));
  }

  lemma {:induction false} EquivalentOfCanon(v: Value, w: Value)
    requires Canon(v) == Canon(w)
    ensures Equivalent(v, w)
    decreases v
  {
    match v
    case Arr(items) =>
      assert |CanonItems(items)| == |items| && |CanonItems(w.items)| == |w.items|;
      forall i | 0 <= i < |items| ensures Equivalent(items[i], w.items[i]) {
        assert CanonItems(items)[i] == Canon(items[i]) && CanonItems(w.items)[i] == Canon(w.items[i]);
        EquivalentOfCanon(items[i], w.items[i]);
      }
    case Obj(fields) => FieldsOfCanon(fields, w.fields);
    case _ =>
  }

  lemma {:induction false} FieldsOfCanon(f: seq<Field>, g: seq<Field>)
    requires SortFields(CanonFields(f)) == SortFields(CanonFields(g))
    ensures Covers(f, g) && CoveredBy(f, g)
    decreases f
  {
    var a, b := CanonFields(f), CanonFields(g);
    SortKeeps(a);
    SortKeeps(b);
    forall i, j | 0 <= i < |f| && 0 <= j < |g| && a[i] == b[j] ensures SameField(f[i], g[j]) {
      EquivalentOfCanon(f[i].value, g[j].value);
    }
    forall i | 0 <= i < |f| ensures HasCounterpart(f[i], g) {
      assert a[i] in SortFields(a);
      var j :| 0 <= j < |b| && b[j] == a[i];
      assert SameField(f[i], g[j]);
    }
    forall j | 0 <= j < |g| ensures IsCounterpart(f, g[j]) {
      assert b[j] in SortFields(b);
      var i :| 0 <= i < |a| && a[i] == b[j];
      assert SameField(f[i], g[j]);
    }
  }

  /** Printed with sorted keys, two values give the same text exactly when they have the same content. */
  lemma SameTextIffEquivalent(v: Value, w: Value)
    requires Distinct(v) && Distinct(w)
    ensures SortedText(v) == SortedText(w) <==> Equivalent(v, w)
  {
    if Equivalent(v, w) {
      CanonOfEquivalent(v, w);
    }
    if SortedText(v) == SortedText(w) {
      CanonIsJson(v);
      CanonIsJson(w);
      LoadsDumps(Canon(v));
      LoadsDumps(Canon(w));
      EquivalentOfCanon(v, w);
    }
  }

  /** No text but the value's own begins where a printed value begins: the texts are prefix-free. */
  lemma PrefixFree(v: Value, x: string, w: Value, y: string)
    requires Distinct(v) && Distinct(w) && !v.Int? && !w.Int?
    requires SortedText(v) + x == SortedText(w) + y
    ensures Equivalent(v, w) && x == y
  {
    CanonIsJson(v);
    CanonIsJson(w);
    ValueReads(Canon(v), x);
    ValueReads(Canon(w), y);
    EquivalentOfCanon(v, w);
  }

  // --------------------------------------------------------- no line is broken

  lemma {:induction false} DumpsPrintable(v: Value)
    ensures Printable(Dumps(v))
    decreases v, 0
  {
    match v
    case Int(n) => NatTextReads(if n < 0 then -n else n);
    case Str(s) => CharsPrintable(s);
    case Opaque(s) => CharsPrintable(s);
    case Arr(items) =>
      if items != [] {
        ItemsPrintable(items);
        PrintableConcat("[", Dumps(items[0]));
        PrintableConcat("[" + Dumps(items[0]), ItemsTail(items[1..]));
      }
    case Obj(fields) =>
      if fields != [] {
        FieldsPrintable(fields);
        PrintableConcat("{", FieldText(fields[0]));
        PrintableConcat("{" + FieldText(fields[0]), FieldsTail(fields[1..]));
      }
    case _ =>
  }

  lemma {:induction false} ItemsPrintable(items: seq<Value>)
    ensures items != [] ==> Printable(Dumps(items[0])) && Printable(ItemsTail(items[1..]))
    ensures Printable(ItemsTail(items))
    decreases items, 0
  {
    if items != [] {
      DumpsPrintable(items[0]);
      ItemsPrintable(items[1..]);
    }
  }

  lemma {:induction false} FieldPrintable(f: Field)
    ensures Printable(FieldText(f))
    decreases f, 0
  {
    CharsPrintable(f.key);
    DumpsPrintable(f.value);
  }

  lemma {:induction false} FieldsPrintable(fields: seq<Field>)
    ensures fields != [] ==> Printable(FieldText(fields[0])) && Printable(FieldsTail(fields[1..]))
    ensures Printable(FieldsTail(fields))
    decreases fields, 0
  {
    if fields != [] {
      FieldPrintable(fields[0]);
      FieldsPrintable(fields[1..]);
    }
  }

  // ------------------------------------------------------------ the text itself

  // Python's order on str, said at once: at the first difference, or as a proper prefix.
  ghost predicate Before(a: string, b: string) {
    exists i :: 0 <= i <= |a| && i < |b| && DiffersAt(a, b, i)
  }

  ghost predicate DiffersAt(a: string, b: string, i: nat)
    requires i <= |a| && i < |b|
  {
    (forall k :: 0 <= k < i ==> a[k] == b[k]) && (i < |a| ==> a[i] < b[i])
  }

  lemma {:induction false} LessIsBefore(a: string, b: string)
    requires Less(a, b)
    ensures Before(a, b)
  {
    if a == [] || a[0] < b[0] {
      assert DiffersAt(a, b, 0);
    } else {
      LessIsBefore(a[1..], b[1..]);
      var i :| 0 <= i <= |a[1..]| && i < |b[1..]| && DiffersAt(a[1..], b[1..], i);
      forall k | 0 <= k < i + 1 ensures a[k] == b[k] {
        assert k > 0 ==> a[1..][k - 1] == b[1..][k - 1];
      }
      assert DiffersAt(a, b, i + 1);
    }
  }

  /** An object is printed with its keys in rising order of their characters. */
  lemma KeysRise(v: Value, i: nat, j: nat)
    requires v.Obj? && Distinct(v) && i < j < |Canon(v).fields|
    ensures Before(Canon(v).fields[i].key, Canon(v).fields[j].key)
  {
    SortSorts(CanonFields(v.fields));
    LessIsBefore(Canon(v).fields[i].key, Canon(v).fields[j].key);
  }

  lemma PrintedString()
    ensures Quote("x\n\U{E9}") == "\"x\\n\\u00e9\""
  {
    var s := "x\n\U{E9}";
    assert s[1..][1..] == "\U{E9}" && s[1..][1..][1..] == "";
    assert Chars(s[1..][1..]) == "\\u00e9" + "\"";
  }

  lemma PrintedArray()
    ensures Dumps(Arr([Int(-20), Bool(true), Null])) == "[-20, true, null]"
  {
    var items := [Int(-20), Bool(true), Null];
    PrintedNumber();
    assert items[1..][1..][1..] == [];
    assert ItemsTail(items[1..][1..]) == ", null]";
    assert ItemsTail(items[1..]) == ", true, null]";
  }

  lemma PrintedNumber()
    ensures Dumps(Int(-20)) == "-20"
  {
    assert NatText(20) == "2" + "0";
  }

  // The sample with its keys in order.
  lemma SortedSample(v: Value, w: Value)
    requires Canon(v) == v && Canon(w) == w
    ensures Canon(Obj([Field("b", v), Field("a", w)])) == Obj([Field("a", w), Field("b", v)])
  {
    var fields := [Field("b", v), Field("a", w)];
    assert CanonFields(fields) == fields;
    assert SortFields(fields[1..]) == [fields[1]];
    assert Less("a", "b") && !Less("b", "a");
    assert Insert(fields[0], [fields[1]]) == [fields[1]] + [fields[0]];
  }

  lemma PrintedObject(v: Value, w: Value)
    ensures Dumps(Obj([Field("a", w), Field("b", v)])) ==
            "{" + ("\"a\": " + Dumps(w)) + (", " + ("\"b\": " + Dumps(v)) + "}")
  {
    hide Escape;
    var fields := [Field("a", w), Field("b", v)];
    assert Quote("a") == "\"a\"" && Quote("b") == "\"b\"" by {
      PlainKey('a');
      PlainKey('b');
    }
    assert fields[1..][1..] == [];
    assert FieldsTail(fields[1..]) == ", " + FieldText(fields[1]) + "}";
  }

  lemma PlainKey(c: char)
    requires c == 'a' || c == 'b'
    ensures Quote([c]) == "\"" + [c] + "\""
  {
    assert [c][1..] == "" && Chars("") == "\"";
    assert Chars([c]) == [c] + "\"";
    assert "\"" + ([c] + "\"") == "\"" + [c] + "\"";
  }

  /** A sample of the text: its separators, literals, numbers, and escapes. */
  lemma PrintsAsPython()
    ensures SortedText(Obj([Field("b", Arr([Int(-20), Bool(true), Null])), Field("a", Str("x\n\U{E9}"))])) ==
            "{" + ("\"a\": " + "\"x\\n\\u00e9\"") + (", " + ("\"b\": " + "[-20, true, null]") + "}")
  {
    hide Dumps, Quote;
    var v, w := Arr([Int(-20), Bool(true), Null]), Str("x\n\U{E9}");
    PrintedString();
    PrintedArray();
    assert Canon(v) == v;
    SortedSample(v, w);
    PrintedObject(v, w);
    StringText("x\n\U{E9}");
  }

  lemma StringText(s: string)
    ensures Dumps(Str(s)) == Quote(s)
  {
  }
}
