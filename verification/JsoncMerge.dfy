/**
 Rewriting a commented JSON file to a new configuration while keeping its comments
 (crates/executors/src/mcp_config.rs, update_jsonc_content and deep_merge_cst_object).

 The concrete syntax tree keeps, for every property, the comments and spacing attached to it. Looking a
 property up by name finds the first of that name; reading the file back keeps the last.
 */
module JsoncMerge {
  import opened Options
  import opened Text

  // ---------------------------------------------------------------- numbers

  const I64_MIN: int := -0x8000_0000_0000_0000
  const I64_MAX: int := 0x7fff_ffff_ffff_ffff
  const U64_MAX: int := 0xffff_ffff_ffff_ffff

  /**
   A finite double, given by the shortest decimal that denotes it: a sign, the digits before the point as a
   number, and the digits after it, of which the last is not a zero.
   */
  datatype F64 = F64(negative: bool, whole: nat, fraction: string)

  /** What a number in a document is read as: an integer of 64 bits, signed or unsigned, or a double. */
  datatype Num = Integer(i: int) | Double(f: F64)

  /** A number of the new configuration. For an integer, `nearest` is the double closest to it, as as_f64 gives it. */
  datatype Number = Whole(i: int, nearest: F64) | Real(f: F64)

  /** A number as it stands in a document, and what reading makes of it. */
  datatype Literal = Literal(text: string, read: Num)

  predicate FitsInteger(i: int) {
    I64_MIN <= i <= U64_MAX
  }

  predicate ProperF64(f: F64) {
    AllDigits(f.fraction) && (f.fraction != "" ==> f.fraction[|f.fraction| - 1] != '0')
  }

  predicate ProperNumber(n: Number) {
    match n
    case Whole(i, nearest) => FitsInteger(i) && ProperF64(nearest)
    case Real(f) => ProperF64(f)
  }

  function NumOf(n: Number): Num {
    match n
    case Whole(i, _) => Integer(i)
    case Real(f) => Double(f)
  }

  function Sign(negative: bool): string {
    if negative then "-" else ""
  }

  /** A double's text has no exponent, and no point if there is nothing to say after it. */
  function F64Text(f: F64): string {
    Sign(f.negative) + (NatText(f.whole) + if f.fraction == "" then "" else ['.'] + f.fraction)
  }

  /** An integer that i64 can hold is written as it is, any other number as its double. */
  function NumberText(n: Number): string {
    match n
    case Whole(i, nearest) => if i <= I64_MAX then IntText(i) else F64Text(nearest)
    case Real(f) => F64Text(f)
  }

  // ---------------------------------------------------------------- reading numbers back

  /** Text of the form that is written: a sign, digits, and digits after a point. */
  datatype Plain = Plain(negative: bool, digits: string, fraction: Option<string>)

  /** The parts of such a text: the first point separates them. */
  function PartsOf(text: string): Plain {
    var negative := text != "" && text[0] == '-';
    var parts := Split(if negative then text[1..] else text, '.');
    Plain(negative, parts[0], if |parts| > 1 then Some(parts[1]) else None)
  }

  function Signed(negative: bool, n: nat): int {
    var i: int := n;
    if negative then -i else i
  }

  /**
   The reader's rule: without a point, and in range, an integer, except for a negative zero; otherwise the
   double that the decimal denotes.
   */
  function ReadNumber(text: string): Num {
    var p := PartsOf(text);
    if !AllDigits(p.digits) then Double(F64(false, 0, ""))
    else
      var n := DigitsValue(p.digits);
      if p.fraction.Some? then Double(F64(p.negative, n, p.fraction.value))
      else if FitsInteger(Signed(p.negative, n)) && !(p.negative && n == 0) then Integer(Signed(p.negative, n))
      else Double(F64(p.negative, n, ""))
  }

  function Written(n: Number): Literal {
    Literal(NumberText(n), ReadNumber(NumberText(n)))
  }

  /**
   The numbers that survive: an integer up to I64_MAX, or the very integer its double is written as; a double
   that is not written as an integer of 64 bits.
   */
  predicate NumberSurvives(n: Number) {
    match n
    case Whole(i, nearest) => i <= I64_MAX || nearest == F64(false, i, "")
    case Real(f) => f.fraction != "" || (f.negative && f.whole == 0) || !FitsInteger(Signed(f.negative, f.whole))
  }

  lemma DigitsHaveNoPoint(s: string)
    requires AllDigits(s)
    ensures '.' !in s
  {
  }

  lemma ReadsDecimal(negative: bool, whole: nat, fraction: string)
    requires AllDigits(fraction)
    ensures PartsOf(F64Text(F64(negative, whole, fraction)))
         == Plain(negative, NatText(whole), if fraction == "" then None else Some(fraction))
  {
    var digits := NatText(whole);
    var body := digits + if fraction == "" then "" else ['.'] + fraction;
    var text := F64Text(F64(negative, whole, fraction));
    assert IsDigit(body[0]) by {
      assert body[0] == digits[0];
    }
    assert if negative then text[0] == '-' && text[1..] == body else text == body;
    DigitsHaveNoPoint(digits);
    DigitsHaveNoPoint(fraction);
    SplitPlain(digits, '.');
    if fraction == "" {
      assert body == digits;
    } else {
      assert body == digits + ['.'] + fraction;
      SplitPlain(fraction, '.');
      SplitAt(digits, fraction, '.');
    }
  }

  lemma IntTextIsF64Text(i: int)
    ensures IntText(i) == F64Text(F64(i < 0, if i < 0 then -i else i, ""))
  {
    assert NatText(if i < 0 then -i else i) + "" == NatText(if i < 0 then -i else i);
  }

  lemma ReadsF64Text(f: F64)
    requires ProperF64(f)
    ensures ReadNumber(F64Text(f))
         == if f.fraction == "" && FitsInteger(Signed(f.negative, f.whole)) && !(f.negative && f.whole == 0)
            then Integer(Signed(f.negative, f.whole)) else Double(f)
  {
    ReadsDecimal(f.negative, f.whole, f.fraction);
    NatTextValue(f.whole);
  }

  /** A number is read back as what it was exactly if it survives. */
  lemma NumberReadBack(n: Number)
    requires ProperNumber(n)
    ensures Written(n).read == NumOf(n) <==> NumberSurvives(n)
  {
    match n
    case Whole(i, nearest) =>
      if i <= I64_MAX {
        IntTextIsF64Text(i);
        ReadsF64Text(F64(i < 0, if i < 0 then -i else i, ""));
      } else {
        ReadsF64Text(nearest);
      }
    case Real(f) => ReadsF64Text(f);
  }

  /**
   What is read instead of a number that does not survive: for an integer, its nearest double, or the integer
   that double is written as; for a double, the integer it is written as.
   */
  lemma ReadInstead(n: Number)
    requires ProperNumber(n) && !NumberSurvives(n)
    ensures match n
            case Whole(i, nearest) =>
              i > I64_MAX
              && Written(n).read == if nearest.fraction == "" && FitsInteger(Signed(nearest.negative, nearest.whole))
                                       && !(nearest.negative && nearest.whole == 0)
                                    then Integer(Signed(nearest.negative, nearest.whole)) else Double(nearest)
            case Real(f) => f.fraction == "" && Written(n).read == Integer(Signed(f.negative, f.whole))
  {
    match n
    case Whole(i, nearest) => ReadsF64Text(nearest);
    case Real(f) => ReadsF64Text(f);
  }

  /** The largest unsigned integer changes, and so does a double with nothing after its point. */
  lemma NumbersThatChange()
    ensures Written(Whole(U64_MAX, F64(false, 18446744073709552000, ""))).read == Double(F64(false, 18446744073709552000, ""))
    ensures Written(Real(F64(false, 1, ""))).read == Integer(1)
    ensures !NumberSurvives(Whole(U64_MAX, F64(false, 18446744073709552000, ""))) && !NumberSurvives(Real(F64(false, 1, "")))
  {
    ReadsF64Text(F64(false, 18446744073709552000, ""));
    ReadsF64Text(F64(false, 1, ""));
  }

  // ---------------------------------------------------------------- trees

  /** A new configuration. The entries of an object have distinct keys, in the order the map iterates. */
  datatype Json =
    | JNull
    | JBool(b: bool)
    | JNumber(n: Number)
    | JString(s: string)
    | JArray(items: seq<Json>)
    | JObject(entries: seq<Entry>)

  datatype Entry = Entry(key: string, value: Json)

  datatype Cst =
    | CNull
    | CBool(b: bool)
    | CNumber(literal: Literal)
    | CString(s: string)
    | CArray(items: seq<Cst>, comments: string)
    | CObject(props: seq<Prop>, comments: string)

  datatype Prop = Prop(comments: string, key: string, value: Cst)

  /** What a document means once comments are erased and objects are unordered. */
  datatype Val =
    | VNull
    | VBool(b: bool)
    | VNumber(n: Num)
    | VString(s: string)
    | VArray(items: seq<Val>)
    | VObject(fields: map<string, Val>)

  function Meaning(c: Cst): Val
    decreases c, 1
  {
    match c
    case CNull => VNull
    case CBool(b) => VBool(b)
    case CNumber(l) => VNumber(l.read)
    case CString(s) => VString(s)
    case CArray(items, _) => VArray(ItemsMeaning(items))
    case CObject(props, _) => VObject(PropsMeaning(props))
  }

  function ItemsMeaning(items: seq<Cst>): seq<Val>
    decreases items, 0
  {
    if |items| == 0 then [] else [Meaning(items[0])] + ItemsMeaning(items[1..])
  }

  /** A later property of the same name hides an earlier one. */
  function PropsMeaning(props: seq<Prop>): map<string, Val>
    decreases props, 0
  {
    if |props| == 0 then map[] else map[props[0].key := PropMeaning(props[0])] + PropsMeaning(props[1..])
  }

  function PropMeaning(p: Prop): Val
    decreases p, 2
  {
    Meaning(p.value)
  }

  function JsonMeaning(j: Json): Val
    decreases j, 1
  {
    match j
    case JNull => VNull
    case JBool(b) => VBool(b)
    case JNumber(n) => VNumber(NumOf(n))
    case JString(s) => VString(s)
    case JArray(items) => VArray(JsonItemsMeaning(items))
    case JObject(entries) => VObject(EntriesMeaning(entries))
  }

  function JsonItemsMeaning(items: seq<Json>): seq<Val>
    decreases items, 0
  {
    if |items| == 0 then [] else [JsonMeaning(items[0])] + JsonItemsMeaning(items[1..])
  }

  function EntriesMeaning(entries: seq<Entry>): map<string, Val>
    decreases entries, 0
  {
    if |entries| == 0 then map[] else map[entries[0].key := EntryMeaning(entries[0])] + EntriesMeaning(entries[1..])
  }

  function EntryMeaning(e: Entry): Val
    decreases e, 2
  {
    JsonMeaning(e.value)
  }

  // ---------------------------------------------------------------- look-up

  /** The position of the first property of this name, or the length if there is none. */
  function First(props: seq<Prop>, key: string): (i: nat)
    ensures i <= |props| && (i < |props| ==> props[i].key == key)
    ensures forall j :: 0 <= j < i ==> props[j].key != key
  {
    if |props| == 0 || props[0].key == key then 0 else 1 + First(props[1..], key)
  }

  /** The position of the last property of this name, or the length if there is none. */
  function Last(props: seq<Prop>, key: string): (i: nat)
    ensures i <= |props| && (i < |props| ==> props[i].key == key)
    ensures i < |props| ==> forall j :: i < j < |props| ==> props[j].key != key
    ensures i == |props| ==> forall j :: 0 <= j < |props| ==> props[j].key != key
  {
    if |props| == 0 then 0
    else
      var r := Last(props[1..], key);
      if r < |props| - 1 then r + 1 else if props[0].key == key then 0 else |props|
  }

  function Find(entries: seq<Entry>, key: string): (i: nat)
    ensures i <= |entries| && (i < |entries| ==> entries[i].key == key)
    ensures forall j :: 0 <= j < i ==> entries[j].key != key
  {
    if |entries| == 0 || entries[0].key == key then 0 else 1 + Find(entries[1..], key)
  }

  predicate HasProp(props: seq<Prop>, key: string) {
    First(props, key) < |props|
  }

  predicate HasEntry(entries: seq<Entry>, key: string) {
    Find(entries, key) < |entries|
  }

  /** serde_json maps have one entry per key, at every depth, and numbers are of 64 bits. */
  predicate WellFormed(j: Json) {
    match j
    case JNumber(n) => ProperNumber(n)
    case JArray(items) => forall i :: 0 <= i < |items| ==> WellFormed(items[i])
    case JObject(entries) =>
      && (forall i, k :: 0 <= i < k < |entries| ==> entries[i].key != entries[k].key)
      && (forall i :: 0 <= i < |entries| ==> WellFormed(entries[i].value))
    case _ => true
  }

  // ---------------------------------------------------------------- the merge

  function ToCst(j: Json): Cst
    decreases j, 1
  {
    match j
    case JNull => CNull
    case JBool(b) => CBool(b)
    case JNumber(n) => CNumber(Written(n))
    case JString(s) => CString(s)
    case JArray(items) => CArray(ToCsts(items), "")
    case JObject(entries) => CObject(ToProps(entries), "")
  }

  function ToCsts(items: seq<Json>): seq<Cst>
    decreases items, 0
  {
    if |items| == 0 then [] else [ToCst(items[0])] + ToCsts(items[1..])
  }

  function ToProps(entries: seq<Entry>): (props: seq<Prop>)
    ensures |props| == |entries|
    decreases entries, 0
  {
    if |entries| == 0 then [] else [ToProp(entries[0])] + ToProps(entries[1..])
  }

  function ToProp(e: Entry): Prop
    decreases e, 2
  {
    Prop("", e.key, ToCst(e.value))
  }

  /** The properties whose name the new object still has. */
  function Kept(props: seq<Prop>, entries: seq<Entry>): seq<Prop> {
    if |props| == 0 then []
    else IfWanted(props[0], entries) + Kept(props[1..], entries)
  }

  function IfWanted(p: Prop, entries: seq<Entry>): (r: seq<Prop>)
    ensures |r| <= 1
  {
    if HasEntry(entries, p.key) then [p] else []
  }

  function MergeValue(c: Cst, v: Json): Cst
    decreases v, 0
  {
    if c.CObject? && v.JObject? then CObject(Merge(c.props, v.entries), c.comments) else ToCst(v)
  }

  function ApplyOne(props: seq<Prop>, e: Entry): seq<Prop>
    decreases e, 1
  {
    var i := First(props, e.key);
    if i < |props| then props[i := props[i].(value := MergeValue(props[i].value, e.value))]
    else props + [ToProp(e)]
  }

  function ApplyAll(props: seq<Prop>, entries: seq<Entry>): seq<Prop>
    decreases entries, 0
  {
    if |entries| == 0 then props else ApplyAll(ApplyOne(props, entries[0]), entries[1..])
  }

  /** deep_merge_cst_object: drop the names that are gone, then set or append every new entry in turn. */
  function Merge(props: seq<Prop>, entries: seq<Entry>): seq<Prop>
    decreases entries, 1
  {
    ApplyAll(Kept(props, entries), entries)
  }

  /** update_jsonc_content, on the parsed document (None when the file does not parse). */
  function Update(parsed: Option<Cst>, config: Json): Cst {
    var root := if parsed.Some? && parsed.value.CObject? then parsed.value else CObject([], "");
    if config.JObject? then CObject(Merge(root.props, config.entries), root.comments) else root
  }

  // ---------------------------------------------------------------- the loops

  lemma {:induction false} KeptConcat(a: seq<Prop>, b: seq<Prop>, entries: seq<Entry>)
    ensures Kept(a + b, entries) == Kept(a, entries) + Kept(b, entries)
  {
    hide IfWanted;
    if |a| == 0 {
      assert a + b == b;
    } else {
      assert (a + b)[0] == a[0] && (a + b)[1..] == a[1..] + b;
      KeptConcat(a[1..], b, entries);
      var first, x, y := IfWanted(a[0], entries), Kept(a[1..], entries), Kept(b, entries);
      assert first + (x + y) == (first + x) + y;
    }
  }

  lemma {:induction false} KeptKeys(props: seq<Prop>, entries: seq<Entry>)
    ensures forall i :: 0 <= i < |Kept(props, entries)| ==>
              HasEntry(entries, Kept(props, entries)[i].key) && Kept(props, entries)[i] in props
    ensures forall i :: 0 <= i < |props| && HasEntry(entries, props[i].key) ==> props[i] in Kept(props, entries)
  {
    if |props| > 0 {
      KeptKeys(props[1..], entries);
      forall i | 0 <= i < |props| && HasEntry(entries, props[i].key)
        ensures props[i] in Kept(props, entries)
      {
        if i > 0 {
          assert props[i] == props[1..][i - 1];
        }
      }
    }
  }

  function Names(props: seq<Prop>): (names: seq<string>)
    ensures |names| == |props| && forall i :: 0 <= i < |props| ==> names[i] == props[i].key
  {
    if |props| == 0 then [] else [props[0].key] + Names(props[1..])
  }

  /** The removal loop after k names: survivors of the first k properties, then the rest untouched. */
  function Partly(doc: seq<Prop>, entries: seq<Entry>, k: nat): seq<Prop>
    requires k <= |doc|
  {
    Kept(doc[..k], entries) + doc[k..]
  }

  lemma KeptOneMore(doc: seq<Prop>, entries: seq<Entry>, k: nat)
    requires k < |doc|
    ensures Kept(doc[..k + 1], entries) == Kept(doc[..k], entries) + (if HasEntry(entries, doc[k].key) then [doc[k]] else [])
  {
    assert doc[..k + 1] == doc[..k] + [doc[k]];
    KeptConcat(doc[..k], [doc[k]], entries);
    assert Kept([doc[k]], entries) == if HasEntry(entries, doc[k].key) then [doc[k]] else [];
  }

  lemma FirstBehind(a: seq<Prop>, p: Prop, b: seq<Prop>)
    requires forall j :: 0 <= j < |a| ==> a[j].key != p.key
    ensures var props := a + ([p] + b);
            First(props, p.key) == |a| && props[..|a|] + props[|a| + 1..] == a + b
  {
    var props := a + ([p] + b);
    assert props[|a|] == p;
    assert forall j :: 0 <= j < |a| ==> props[j] == a[j];
    assert props[..|a|] == a && props[|a| + 1..] == b;
  }

  /** When the removal loop reaches a name that is gone, the first property of that name is the one it started from. */
  lemma RemovalStep(doc: seq<Prop>, entries: seq<Entry>, k: nat)
    requires k < |doc|
    ensures var props := Partly(doc, entries, k);
            var i := First(props, doc[k].key);
            if HasEntry(entries, doc[k].key) then Partly(doc, entries, k + 1) == props
            else i < |props| && Partly(doc, entries, k + 1) == props[..i] + props[i + 1..]
  {
    var done := Kept(doc[..k], entries);
    KeptOneMore(doc, entries, k);
    assert doc[k..] == [doc[k]] + doc[k + 1..];
    if HasEntry(entries, doc[k].key) {
      assert done + ([doc[k]] + doc[k + 1..]) == (done + [doc[k]]) + doc[k + 1..];
    } else {
      KeptKeys(doc[..k], entries);
      FirstBehind(done, doc[k], doc[k + 1..]);
    }
  }

  /** First loop of deep_merge_cst_object: each existing name that is gone loses its first remaining property. */
  method RemoveMissing(doc: seq<Prop>, entries: seq<Entry>) returns (props: seq<Prop>)
    ensures props == Kept(doc, entries)
  {
    props := doc;
    var existing := Names(doc);
    var k := 0;
    PartlyEnds(doc, entries);
    hide Partly, HasEntry, Kept, First;
    while k < |existing|
      invariant 0 <= k <= |existing| == |doc|
      invariant props == Partly(doc, entries, k)
    {
      RemovalStep(doc, entries, k);
      if !HasEntry(entries, existing[k]) {
        var i := First(props, existing[k]);
        props := props[..i] + props[i + 1..];
      }
      k := k + 1;
    }
  }

  lemma PartlyEnds(doc: seq<Prop>, entries: seq<Entry>)
    ensures Partly(doc, entries, 0) == doc && Partly(doc, entries, |doc|) == Kept(doc, entries)
  {
    assert doc[..|doc|] == doc;
  }

  /** deep_merge_cst_object over one object's properties: the removal loop, then the loop over the new entries. */
  method DeepMerge(doc: seq<Prop>, entries: seq<Entry>) returns (props: seq<Prop>)
    ensures props == Merge(doc, entries)
    decreases entries
  {
    props := RemoveMissing(doc, entries);
    var k := 0;
    assert entries[0..] == entries;
    while k < |entries|
      invariant 0 <= k <= |entries|
      invariant ApplyAll(props, entries[k..]) == Merge(doc, entries)
    {
      var e := entries[k];
      assert entries[k..][0] == e && entries[k..][1..] == entries[k + 1..];
      ghost var before := props;
      var i := First(props, e.key);
      if i < |props| {
        var value := props[i].value;
        if value.CObject? && e.value.JObject? {
          var merged := DeepMerge(value.props, e.value.entries);
          value := CObject(merged, value.comments);
        } else {
          value := ToCst(e.value);
        }
        props := props[i := props[i].(value := value)];
      } else {
        props := props + [ToProp(e)];
      }
      assert props == ApplyOne(before, e);
      k := k + 1;
    }
  }

  // ---------------------------------------------------------------- the shape of the result

  /** What the merge does to the property at one position: only the first of its name can change. */
  function UpdatedAt(props: seq<Prop>, entries: seq<Entry>, i: nat): Prop
    requires i < |props|
  {
    var p := props[i];
    var n := Find(entries, p.key);
    if First(props, p.key) == i && n < |entries| then p.(value := MergeValue(p.value, entries[n].value)) else p
  }

  /** The entries whose names are new, in order. */
  function Added(props: seq<Prop>, entries: seq<Entry>): seq<Prop> {
    if |entries| == 0 then []
    else (if HasProp(props, entries[0].key) then [] else [ToProp(entries[0])]) + Added(props, entries[1..])
  }

  predicate DistinctKeys(entries: seq<Entry>) {
    forall i, k :: 0 <= i < k < |entries| ==> entries[i].key != entries[k].key
  }

  lemma {:induction false} AddedSame(props: seq<Prop>, props': seq<Prop>, entries: seq<Entry>)
    requires forall i :: 0 <= i < |entries| ==> (HasProp(props, entries[i].key) <==> HasProp(props', entries[i].key))
    ensures Added(props, entries) == Added(props', entries)
  {
    if |entries| > 0 {
      assert HasProp(props, entries[0].key) <==> HasProp(props', entries[0].key);
      forall i | 0 <= i < |entries| - 1
        ensures HasProp(props, entries[1..][i].key) <==> HasProp(props', entries[1..][i].key)
      {
        assert entries[1..][i] == entries[i + 1];
      }
      AddedSame(props, props', entries[1..]);
    }
  }

  /** Replacing a value, or appending a property of another name, does not move the first of a name. */
  lemma FirstAfter(props: seq<Prop>, props': seq<Prop>, key: string)
    requires |props| <= |props'| && forall i :: 0 <= i < |props| ==> props'[i].key == props[i].key
    requires forall i :: |props| <= i < |props'| ==> props'[i].key != key
    ensures HasProp(props', key) <==> HasProp(props, key)
    ensures HasProp(props, key) ==> First(props', key) == First(props, key)
  {
    var f, f' := First(props, key), First(props', key);
    if f < |props| {
      assert props'[f].key == key;
    }
    if f' < |props'| {
      assert f' < |props| && props[f'].key == key;
    }
  }

  /** Order and comments: the surviving properties stay where they are, and the new ones follow in the order of the new object. */
  lemma {:induction false} ApplyAllShape(props: seq<Prop>, entries: seq<Entry>)
    requires DistinctKeys(entries)
    ensures var r := ApplyAll(props, entries);
            && |props| <= |r| && r[|props|..] == Added(props, entries)
            && forall i :: 0 <= i < |props| ==> r[i] == UpdatedAt(props, entries, i)
    decreases entries
  {
    if |entries| > 0 {
      var e, rest := entries[0], entries[1..];
      var next := ApplyOne(props, e);
      var r := ApplyAll(next, rest);
      ApplyAllShape(next, rest);
      assert Find(rest, e.key) == |rest|;
      forall i | 0 <= i < |props|
        ensures r[i] == UpdatedAt(props, entries, i)
      {
        OneMoreUpdate(props, entries, i);
      }
      forall i | 0 <= i < |rest|
        ensures HasProp(next, rest[i].key) <==> HasProp(props, rest[i].key)
      {
        FirstAfter(props, next, rest[i].key);
      }
      AddedSame(next, props, rest);
      if !HasProp(props, e.key) {
        assert UpdatedAt(next, rest, |props|) == next[|props|];
        assert r[|props|..] == [ToProp(e)] + r[|next|..];
      }
    }
  }

  lemma OneMoreUpdate(props: seq<Prop>, entries: seq<Entry>, i: nat)
    requires DistinctKeys(entries) && |entries| > 0 && i < |props|
    ensures i < |ApplyOne(props, entries[0])|
    ensures UpdatedAt(ApplyOne(props, entries[0]), entries[1..], i) == UpdatedAt(props, entries, i)
  {
    var next := ApplyOne(props, entries[0]);
    var key := props[i].key;
    assert next[i].key == key;
    if key != entries[0].key {
      FirstAfter(props, next, key);
      assert Find(entries, key) == 1 + Find(entries[1..], key);
    } else {
      assert Find(entries[1..], key) == |entries| - 1;
    }
  }

  // ---------------------------------------------------------------- meanings

  lemma {:induction false} PropsMeaningLookup(props: seq<Prop>, key: string)
    ensures key in PropsMeaning(props) <==> Last(props, key) < |props|
    ensures Last(props, key) < |props| ==> PropsMeaning(props)[key] == Meaning(props[Last(props, key)].value)
  {
    if |props| > 0 {
      PropsMeaningLookup(props[1..], key);
    }
  }

  lemma {:induction false} EntriesMeaningLookup(entries: seq<Entry>, key: string)
    requires DistinctKeys(entries)
    ensures key in EntriesMeaning(entries) <==> HasEntry(entries, key)
    ensures HasEntry(entries, key) ==> EntriesMeaning(entries)[key] == JsonMeaning(entries[Find(entries, key)].value)
  {
    if |entries| > 0 {
      EntriesMeaningLookup(entries[1..], key);
    }
  }

  /** Every number in the value, at any depth, survives being written. */
  predicate Survives(j: Json) {
    match j
    case JNumber(n) => NumberSurvives(n)
    case JArray(items) => forall i :: 0 <= i < |items| ==> Survives(items[i])
    case JObject(entries) => forall i :: 0 <= i < |entries| ==> Survives(entries[i].value)
    case _ => true
  }

  /** Writing a value out and reading it back gives the value exactly if all its numbers survive. */
  lemma {:induction false} ToCstMeaning(j: Json)
    requires WellFormed(j)
    ensures Meaning(ToCst(j)) == JsonMeaning(j) <==> Survives(j)
    decreases j, 1
  {
    match j
    case JNumber(n) => NumberReadBack(n);
    case JArray(items) => ToCstsMeaning(items);
    case JObject(entries) => ToPropsMeaning(entries);
    case _ =>
  }

  lemma {:induction false} ToCstsMeaning(items: seq<Json>)
    requires forall i :: 0 <= i < |items| ==> WellFormed(items[i])
    ensures ItemsMeaning(ToCsts(items)) == JsonItemsMeaning(items) <==> forall i :: 0 <= i < |items| ==> Survives(items[i])
    decreases items, 0
  {
    if |items| > 0 {
      var first, rest := items[0], items[1..];
      ToCstMeaning(first);
      ToCstsMeaning(rest);
      assert ToCsts(items)[1..] == ToCsts(rest);
      var a, b := ItemsMeaning(ToCsts(items)), JsonItemsMeaning(items);
      assert a == [Meaning(ToCst(first))] + ItemsMeaning(ToCsts(rest)) && b == [JsonMeaning(first)] + JsonItemsMeaning(rest);
      assert a[0] == Meaning(ToCst(first)) && b[0] == JsonMeaning(first);
      assert a[1..] == ItemsMeaning(ToCsts(rest)) && b[1..] == JsonItemsMeaning(rest);
      hide Meaning, JsonMeaning, ItemsMeaning, JsonItemsMeaning, ToCst, ToCsts, Survives, WellFormed;
      assert items == [first] + rest;
    }
  }

  lemma {:induction false} ToPropsMeaning(entries: seq<Entry>)
    requires WellFormed(JObject(entries))
    ensures PropsMeaning(ToProps(entries)) == EntriesMeaning(entries)
       <==> forall i :: 0 <= i < |entries| ==> Survives(entries[i].value)
    ensures PropsMeaning(ToProps(entries)).Keys == EntriesMeaning(entries).Keys
    decreases entries, 0
  {
    if |entries| > 0 {
      var e, rest := entries[0], entries[1..];
      assert WellFormed(JObject(rest));
      ToCstMeaning(e.value);
      ToPropsMeaning(rest);
      EntriesMeaningLookup(rest, e.key);
      assert e.key !in EntriesMeaning(rest);
      OneMoreField(entries);
      FirstFieldApart(e.key, Meaning(ToCst(e.value)), JsonMeaning(e.value), PropsMeaning(ToProps(rest)), EntriesMeaning(rest));
      hide Meaning, JsonMeaning, PropsMeaning, EntriesMeaning, ToCst, ToProps, Survives, WellFormed;
      assert entries == [e] + rest;
    }
  }

  lemma OneMoreField(entries: seq<Entry>)
    requires |entries| > 0
    ensures var e, rest := entries[0], entries[1..];
            && PropsMeaning(ToProps(entries)) == map[e.key := Meaning(ToCst(e.value))] + PropsMeaning(ToProps(rest))
            && EntriesMeaning(entries) == map[e.key := JsonMeaning(e.value)] + EntriesMeaning(rest)
  {
    assert ToProps(entries)[1..] == ToProps(entries[1..]);
  }

  lemma FirstFieldApart(key: string, v: Val, w: Val, a: map<string, Val>, b: map<string, Val>)
    requires key !in a && key !in b
    ensures map[key := v] + a == map[key := w] + b <==> v == w && a == b
  {
    var x, y := map[key := v] + a, map[key := w] + b;
    if x == y {
      assert x[key] == v && y[key] == w;
      assert a == x - {key} && b == y - {key};
    }
  }

  lemma {:induction false} AddedKeys(props: seq<Prop>, entries: seq<Entry>, i: nat)
    requires i < |Added(props, entries)|
    ensures var p := Added(props, entries)[i];
            && !HasProp(props, p.key) && HasEntry(entries, p.key)
            && (DistinctKeys(entries) ==> p == ToProp(entries[Find(entries, p.key)]))
  {
    var head := if HasProp(props, entries[0].key) then [] else [ToProp(entries[0])];
    if i >= |head| {
      AddedKeys(props, entries[1..], i - |head|);
      var p := Added(props, entries)[i];
      assert p == Added(props, entries[1..])[i - |head|];
      if DistinctKeys(entries) {
        assert entries[1 + Find(entries[1..], p.key)].key == p.key;
        assert Find(entries, p.key) == 1 + Find(entries[1..], p.key);
      }
    }
  }

  lemma {:induction false} AddedHas(props: seq<Prop>, entries: seq<Entry>, key: string) returns (i: nat)
    requires !HasProp(props, key) && HasEntry(entries, key)
    ensures i < |Added(props, entries)| && Added(props, entries)[i].key == key
  {
    if entries[0].key == key {
      i := 0;
    } else {
      var j := AddedHas(props, entries[1..], key);
      i := if HasProp(props, entries[0].key) then j else j + 1;
    }
  }

  lemma LastIs(props: seq<Prop>, key: string, i: nat)
    requires i < |props| && props[i].key == key && forall j :: i < j < |props| ==> props[j].key != key
    ensures Last(props, key) == i
  {
  }

  /** The value an object means under one key after the merge. */
  lemma MergedField(props: seq<Prop>, entries: seq<Entry>, key: string)
    requires DistinctKeys(entries) && HasEntry(entries, key)
    ensures key in PropsMeaning(ApplyAll(props, entries))
    ensures var v := entries[Find(entries, key)].value;
            var l := Last(props, key);
            PropsMeaning(ApplyAll(props, entries))[key] ==
              if l == |props| then Meaning(ToCst(v))
              else if l == First(props, key) then Meaning(MergeValue(props[l].value, v))
              else Meaning(props[l].value)
  {
    hide Meaning, ToCst, MergeValue, Added, PropsMeaning;
    var r := ApplyAll(props, entries);
    var e := entries[Find(entries, key)];
    var l := Last(props, key);
    ApplyAllShape(props, entries);
    if l == |props| {
      var i := AddedHas(props, entries, key);
      var at := Last(r, key);
      assert r[|props| + i].key == key;
      assert at < |r|;
      assert at >= |props|;
      AddedKeys(props, entries, at - |props|);
      assert r[at] == Added(props, entries)[at - |props|];
    } else {
      forall j | l < j < |r|
        ensures r[j].key != key
      {
        if j >= |props| {
          AddedKeys(props, entries, j - |props|);
          assert r[j] == Added(props, entries)[j - |props|];
          assert props[l].key == key;
        }
      }
      LastIs(r, key, l);
    }
    PropsMeaningLookup(r, key);
  }

  // ---------------------------------------------------------------- agreement with replacement

  /**
   The new value takes effect: either the name occurs at most once (and so do the names inside, where two
   objects are merged) and the numbers that are written survive, or the last of several occurrences, which
   the merge does not touch, already means it.
   */
  predicate TakesEffect(props: seq<Prop>, e: Entry)
    decreases e, 1
  {
    var f, l := First(props, e.key), Last(props, e.key);
    if f == |props| then Survives(e.value)
    else if f == l then ValueTakesEffect(props[f].value, e.value)
    else Meaning(props[l].value) == JsonMeaning(e.value)
  }

  predicate ValueTakesEffect(c: Cst, v: Json)
    decreases v, 0
  {
    if c.CObject? && v.JObject? then AllTakeEffect(c.props, v.entries) else Survives(v)
  }

  predicate AllTakeEffect(props: seq<Prop>, entries: seq<Entry>)
    decreases entries, 1
  {
    var kept := Kept(props, entries);
    forall i :: 0 <= i < |entries| ==> TakesEffect(kept, entries[i])
  }

  lemma {:induction false} ValueAgrees(c: Cst, v: Json)
    requires WellFormed(v)
    ensures Meaning(MergeValue(c, v)) == JsonMeaning(v) <==> ValueTakesEffect(c, v)
    decreases v, 0
  {
    if c.CObject? && v.JObject? {
      MergeAgrees(c.props, v.entries);
    } else {
      ToCstMeaning(v);
    }
  }

  lemma {:induction false} FieldAgrees(props: seq<Prop>, entries: seq<Entry>, i: nat)
    requires WellFormed(JObject(entries)) && i < |entries|
    ensures entries[i].key in PropsMeaning(ApplyAll(props, entries)) && entries[i].key in EntriesMeaning(entries)
    ensures PropsMeaning(ApplyAll(props, entries))[entries[i].key] == EntriesMeaning(entries)[entries[i].key]
       <==> TakesEffect(props, entries[i])
    decreases entries, 0
  {
    var e := entries[i];
    assert Find(entries, e.key) == i;
    MergedField(props, entries, e.key);
    EntriesMeaningLookup(entries, e.key);
    var l := Last(props, e.key);
    if l == |props| {
      ToCstMeaning(e.value);
    } else if l == First(props, e.key) {
      ValueAgrees(props[l].value, e.value);
    }
  }

  /** No name is left over that the new object does not have. */
  lemma MergedKeys(props: seq<Prop>, entries: seq<Entry>, key: string)
    requires DistinctKeys(entries) && key in PropsMeaning(Merge(props, entries))
    ensures HasEntry(entries, key)
  {
    var kept := Kept(props, entries);
    var r := Merge(props, entries);
    PropsMeaningLookup(r, key);
    var i := Last(r, key);
    hide PropsMeaning, DistinctKeys, HasEntry, Added, MergeValue;
    ApplyAllShape(kept, entries);
    KeptKeys(props, entries);
    if i < |kept| {
      assert r[i].key == kept[i].key;
    } else {
      assert r[i] == Added(kept, entries)[i - |kept|];
      AddedKeys(kept, entries, i - |kept|);
    }
  }

  lemma MergedKeySet(props: seq<Prop>, entries: seq<Entry>)
    requires DistinctKeys(entries)
    ensures PropsMeaning(Merge(props, entries)).Keys == EntriesMeaning(entries).Keys
  {
    var merged, wanted := PropsMeaning(Merge(props, entries)), EntriesMeaning(entries);
    forall key
      ensures key in merged <==> key in wanted
    {
      EntriesMeaningLookup(entries, key);
      if key in merged {
        MergedKeys(props, entries, key);
      }
      if HasEntry(entries, key) {
        MergedField(Kept(props, entries), entries, key);
      }
    }
  }

  /** The merge agrees with plain replacement exactly when every new value takes effect. */
  lemma {:induction false} MergeAgrees(props: seq<Prop>, entries: seq<Entry>)
    requires WellFormed(JObject(entries))
    ensures PropsMeaning(Merge(props, entries)) == EntriesMeaning(entries) <==> AllTakeEffect(props, entries)
    decreases entries, 1
  {
    var kept := Kept(props, entries);
    var merged, wanted := PropsMeaning(Merge(props, entries)), EntriesMeaning(entries);
    MergedKeySet(props, entries);
    forall i | 0 <= i < |entries|
      ensures entries[i].key in merged && entries[i].key in wanted
      ensures merged[entries[i].key] == wanted[entries[i].key] <==> TakesEffect(kept, entries[i])
    {
      FieldAgrees(kept, entries, i);
    }
    hide TakesEffect, Merge, PropsMeaning, EntriesMeaning, WellFormed;
    if AllTakeEffect(props, entries) {
      forall key | key in wanted
        ensures merged[key] == wanted[key]
      {
        EntriesMeaningLookup(entries, key);
        assert TakesEffect(kept, entries[Find(entries, key)]);
      }
      assert merged == wanted;
    }
  }

  /** update_jsonc_content yields a document that means the new configuration, whatever the file held, exactly when every value takes effect. */
  lemma UpdateAgrees(parsed: Option<Cst>, config: Json)
    requires WellFormed(config) && config.JObject?
    ensures Meaning(Update(parsed, config)) == JsonMeaning(config)
       <==> (if parsed.Some? && parsed.value.CObject? then AllTakeEffect(parsed.value.props, config.entries) else Survives(config))
  {
    var root := if parsed.Some? && parsed.value.CObject? then parsed.value else CObject([], "");
    MergeAgrees(root.props, config.entries);
    IntoNothing(config.entries);
    hide AllTakeEffect, Survives, Merge, PropsMeaning, EntriesMeaning, WellFormed;
  }

  lemma IntoNothing(entries: seq<Entry>)
    ensures AllTakeEffect([], entries) <==> Survives(JObject(entries))
  {
    assert Kept([], entries) == [];
    assert forall i :: 0 <= i < |entries| ==> (TakesEffect([], entries[i]) <==> Survives(entries[i].value));
  }

  // ---------------------------------------------------------------- documents without duplicate names

  predicate DistinctProps(props: seq<Prop>) {
    forall i, k :: 0 <= i < k < |props| ==> props[i].key != props[k].key
  }

  predicate NoDuplicates(c: Cst) {
    match c
    case CArray(items, _) => forall i :: 0 <= i < |items| ==> NoDuplicates(items[i])
    case CObject(props, _) =>
      && DistinctProps(props)
      && (forall i :: 0 <= i < |props| ==> NoDuplicates(props[i].value))
    case _ => true
  }

  lemma {:induction false} KeptDistinct(props: seq<Prop>, entries: seq<Entry>)
    requires DistinctProps(props)
    ensures DistinctProps(Kept(props, entries))
  {
    if |props| > 0 {
      KeptDistinct(props[1..], entries);
      KeptKeys(props[1..], entries);
      var rest := Kept(props[1..], entries);
      forall i | 0 <= i < |rest|
        ensures rest[i].key != props[0].key
      {
        var j :| 0 <= j < |props| - 1 && props[1..][j] == rest[i];
        assert props[j + 1] == rest[i];
      }
      var r := Kept(props, entries);
      if r == [props[0]] + rest {
        forall i, k | 0 <= i < k < |r|
          ensures r[i].key != r[k].key
        {
          assert r[k] == rest[k - 1] && (i > 0 ==> r[i] == rest[i - 1]);
        }
      }
    }
  }

  /** Among distinct names, the first and the last property of a name are the same one. */
  lemma OnlyOccurrence(props: seq<Prop>, entries: seq<Entry>, key: string) returns (f: nat)
    requires DistinctProps(props)
    ensures var kept := Kept(props, entries);
            f == First(kept, key) == Last(kept, key) && (f < |kept| ==> kept[f] in props)
  {
    var kept := Kept(props, entries);
    KeptDistinct(props, entries);
    KeptKeys(props, entries);
    f := First(kept, key);
    if f < |kept| {
      assert forall k :: f < k < |kept| ==> kept[f].key != kept[k].key;
      LastIs(kept, key, f);
    }
  }

  lemma {:induction false} NoDuplicatesTakeEffect(c: Cst, v: Json)
    requires NoDuplicates(c)
    ensures ValueTakesEffect(c, v) <==> Survives(v)
    decreases v
  {
    if c.CObject? && v.JObject? {
      forall i | 0 <= i < |v.entries|
        ensures TakesEffect(Kept(c.props, v.entries), v.entries[i]) <==> Survives(v.entries[i].value)
      {
        var kept := Kept(c.props, v.entries);
        var f := OnlyOccurrence(c.props, v.entries, v.entries[i].key);
        if f < |kept| {
          var j :| 0 <= j < |c.props| && c.props[j] == kept[f];
          NoDuplicatesTakeEffect(c.props[j].value, v.entries[i].value);
        }
      }
    }
  }

  /**
   For a document without duplicate names at any depth, erasing comments after the update gives the new
   configuration exactly if all its numbers survive being written.
   */
  lemma UpdateReplaces(doc: Cst, config: Json)
    requires NoDuplicates(doc) && WellFormed(config) && config.JObject?
    ensures Meaning(Update(Some(doc), config)) == JsonMeaning(config) <==> Survives(config)
  {
    NoDuplicatesTakeEffect(doc, config);
    UpdateAgrees(Some(doc), config);
  }

  /**
   The layout of a merged object, down to any depth: the survivors come first, in their old order, each with
   its own comments; objects merged into objects keep their comments and are laid out in the same way; the
   other values are written anew, except that a later property of a name stays as it is; additions follow.
   */
  predicate LaidOut(props: seq<Prop>, entries: seq<Entry>, r: seq<Prop>)
    decreases entries, 1
  {
    var kept := Kept(props, entries);
    && |kept| <= |r| && r[|kept|..] == Added(kept, entries)
    && forall i :: 0 <= i < |kept| ==>
         && r[i].key == kept[i].key && r[i].comments == kept[i].comments
         && var n := Find(entries, kept[i].key);
            && n < |entries|
            && if First(kept, kept[i].key) == i then ValueLaidOut(kept[i].value, entries[n].value, r[i].value)
               else r[i].value == kept[i].value
  }

  predicate ValueLaidOut(c: Cst, v: Json, r: Cst)
    decreases v, 0
  {
    if c.CObject? && v.JObject? then r.CObject? && r.comments == c.comments && LaidOut(c.props, v.entries, r.props)
    else r == ToCst(v)
  }

  lemma {:induction false} ValueKeepsItsPlace(c: Cst, v: Json)
    requires WellFormed(v)
    ensures ValueLaidOut(c, v, MergeValue(c, v))
    decreases v, 0
  {
    if c.CObject? && v.JObject? {
      SurvivorsKeepTheirPlace(c.props, v.entries);
    }
  }

  /** Comments and order survive the merge. */
  lemma {:induction false} SurvivorsKeepTheirPlace(props: seq<Prop>, entries: seq<Entry>)
    requires WellFormed(JObject(entries))
    ensures LaidOut(props, entries, Merge(props, entries))
    decreases entries, 1
  {
    var kept := Kept(props, entries);
    ApplyAllShape(kept, entries);
    KeptKeys(props, entries);
    forall i | 0 <= i < |kept|
      ensures var n := Find(entries, kept[i].key);
              && n < |entries| && UpdatedAt(kept, entries, i).key == kept[i].key
              && UpdatedAt(kept, entries, i).comments == kept[i].comments
              && if First(kept, kept[i].key) == i
                 then ValueLaidOut(kept[i].value, entries[n].value, UpdatedAt(kept, entries, i).value)
                 else UpdatedAt(kept, entries, i).value == kept[i].value
    {
      assert HasEntry(entries, kept[i].key);
      var n := Find(entries, kept[i].key);
      ValueKeepsItsPlace(kept[i].value, entries[n].value);
    }
  }

  /**
   Who survives, said without the filter: every property whose name the new object has keeps its place among
   those before it, and there are no others.
   */
  lemma {:induction false} SurvivorsAreThoseWanted(props: seq<Prop>, entries: seq<Entry>)
    ensures forall i :: 0 <= i < |props| && HasEntry(entries, props[i].key) ==>
              var at := |Kept(props[..i], entries)|; at < |Kept(props, entries)| && Kept(props, entries)[at] == props[i]
    ensures |Kept(props, entries)| == |WantedAt(props, entries)|
    decreases |props|
  {
    if |props| > 0 {
      var n := |props| - 1;
      var most, last := props[..n], props[n];
      SurvivorsAreThoseWanted(most, entries);
      assert props == most + [last];
      KeptConcat(most, [last], entries);
      KeptOne(last, entries);
      forall i | 0 <= i < n
        ensures props[..i] == most[..i] && props[i] == most[i]
      {
      }
      OneMoreWanted(most, last, entries);
    }
  }

  function WantedAt(props: seq<Prop>, entries: seq<Entry>): set<nat> {
    set i: nat | 0 <= i < |props| && HasEntry(entries, props[i].key)
  }

  lemma OneMoreWanted(most: seq<Prop>, last: Prop, entries: seq<Entry>)
    ensures |WantedAt(most + [last], entries)| == |WantedAt(most, entries)| + if HasEntry(entries, last.key) then 1 else 0
  {
    var n: nat := |most|;
    var a, b := WantedAt(most, entries), WantedAt(most + [last], entries);
    assert b == if HasEntry(entries, last.key) then a + {n} else a;
  }

  lemma KeptOne(p: Prop, entries: seq<Entry>)
    ensures Kept([p], entries) == if HasEntry(entries, p.key) then [p] else []
  {
    assert Kept([p][1..], entries) == [];
  }

  /**
   The whole file: an object is merged in place, its own comments kept and its properties laid out as above;
   what is no object becomes one, without comments; and a configuration that is no object changes nothing.
   */
  lemma UpdateKeepsTheFile(parsed: Option<Cst>, config: Json)
    requires WellFormed(config)
    ensures Update(parsed, config).CObject?
    ensures parsed.Some? && parsed.value.CObject? && config.JObject? ==>
              && Update(parsed, config).comments == parsed.value.comments
              && LaidOut(parsed.value.props, config.entries, Update(parsed, config).props)
    ensures !(parsed.Some? && parsed.value.CObject?) && config.JObject? ==>
              Update(parsed, config).comments == "" && LaidOut([], config.entries, Update(parsed, config).props)
    ensures !config.JObject? ==>
              Update(parsed, config) == if parsed.Some? && parsed.value.CObject? then parsed.value else CObject([], "")
  {
    if config.JObject? {
      SurvivorsKeepTheirPlace(if parsed.Some? && parsed.value.CObject? then parsed.value.props else [], config.entries);
    }
  }

  /** With two properties of one name the merge changes the first, and reading back keeps the second. */
  lemma DuplicateNameDefeatsTheUpdate(key: string, old_: string, new_: string)
    requires old_ != new_
    ensures var doc := CObject([Prop("", key, CString(old_)), Prop("", key, CString(old_))], "");
            var config := JObject([Entry(key, JString(new_))]);
            Meaning(Update(Some(doc), config)) != JsonMeaning(config)
  {
    var doc := CObject([Prop("", key, CString(old_)), Prop("", key, CString(old_))], "");
    var config := JObject([Entry(key, JString(new_))]);
    UpdateAgrees(Some(doc), config);
    KeptConcat([doc.props[0]], [doc.props[1]], config.entries);
    assert doc.props == [doc.props[0]] + [doc.props[1]];
    var kept := Kept(doc.props, config.entries);
    assert Kept([doc.props[0]], config.entries) == [doc.props[0]];
    assert kept == doc.props;
    LastIs(kept, key, 1);
    assert !TakesEffect(kept, config.entries[0]);
  }

  /** Whatever the file held, an integer at the top of the unsigned range is not what the updated file says. */
  lemma LargeIntegerDefeatsTheUpdate(parsed: Option<Cst>, key: string)
    requires parsed.Some? ==> NoDuplicates(parsed.value)
    ensures var config := JObject([Entry(key, JNumber(Whole(U64_MAX, F64(false, 18446744073709552000, ""))))]);
            Meaning(Update(parsed, config)) != JsonMeaning(config)
  {
    var number := Whole(U64_MAX, F64(false, 18446744073709552000, ""));
    var config := JObject([Entry(key, JNumber(number))]);
    assert WellFormed(config);
    NumbersThatChange();
    assert !Survives(config.entries[0].value);
    UpdateAgrees(parsed, config);
    if parsed.Some? {
      NoDuplicatesTakeEffect(parsed.value, config);
    }
  }

  // ---------------------------------------------------------------- updating twice

  lemma {:induction false} KeptAll(props: seq<Prop>, entries: seq<Entry>)
    requires forall i :: 0 <= i < |props| ==> HasEntry(entries, props[i].key)
    ensures Kept(props, entries) == props
  {
    if |props| > 0 {
      KeptAll(props[1..], entries);
    }
  }

  lemma {:induction false} AddedNone(props: seq<Prop>, entries: seq<Entry>)
    requires forall i :: 0 <= i < |entries| ==> HasProp(props, entries[i].key)
    ensures Added(props, entries) == []
  {
    if |entries| > 0 {
      assert HasProp(props, entries[0].key);
      forall i | 0 <= i < |entries| - 1
        ensures HasProp(props, entries[1..][i].key)
      {
        assert entries[1..][i] == entries[i + 1];
      }
      AddedNone(props, entries[1..]);
    }
  }

  lemma {:induction false} AddedToNothing(entries: seq<Entry>)
    ensures Added([], entries) == ToProps(entries)
  {
    if |entries| > 0 {
      AddedToNothing(entries[1..]);
    }
  }

  /** Names after a merge: every entry's, and no others. */
  lemma MergedNames(props: seq<Prop>, entries: seq<Entry>)
    requires DistinctKeys(entries)
    ensures var r := Merge(props, entries);
            && (forall i :: 0 <= i < |r| ==> HasEntry(entries, r[i].key))
            && (forall i :: 0 <= i < |entries| ==> HasProp(r, entries[i].key))
  {
    var kept := Kept(props, entries);
    var r := Merge(props, entries);
    ApplyAllShape(kept, entries);
    KeptKeys(props, entries);
    forall i | 0 <= i < |r|
      ensures HasEntry(entries, r[i].key)
    {
      if i >= |kept| {
        AddedKeys(kept, entries, i - |kept|);
        assert r[i] == Added(kept, entries)[i - |kept|];
      } else {
        assert r[i].key == kept[i].key;
      }
    }
    forall i | 0 <= i < |entries|
      ensures HasProp(r, entries[i].key)
    {
      var key := entries[i].key;
      var at := First(kept, key);
      if at == |kept| {
        var j := AddedHas(kept, entries, key);
        at := at + j;
        assert r[at] == Added(kept, entries)[at - |kept|];
      }
      assert r[at].key == key;
    }
  }

  lemma {:induction false} ValueSettles(c: Cst, v: Json)
    requires WellFormed(v)
    ensures MergeValue(MergeValue(c, v), v) == MergeValue(c, v)
    ensures MergeValue(ToCst(v), v) == ToCst(v)
    decreases v, 0
  {
    if v.JObject? {
      if c.CObject? {
        UpdateSettles(c.props, v.entries);
      }
      UpdateSettles([], v.entries);
      ApplyAllShape([], v.entries);
      AddedToNothing(v.entries);
      assert ApplyAll([], v.entries)[0..] == ToProps(v.entries);
    }
  }

  /** Repeating an update changes nothing, for every document: duplicate names and comments included. */
  lemma {:induction false} UpdateSettles(props: seq<Prop>, entries: seq<Entry>)
    requires WellFormed(JObject(entries))
    ensures Merge(Merge(props, entries), entries) == Merge(props, entries)
    decreases entries, 1
  {
    var kept := Kept(props, entries);
    var r := Merge(props, entries);
    MergedNames(props, entries);
    KeptAll(r, entries);
    AddedNone(r, entries);
    ApplyAllShape(kept, entries);
    ApplyAllShape(r, entries);
    forall i | 0 <= i < |r|
      ensures UpdatedAt(r, entries, i) == r[i]
    {
      Settled(props, entries, i);
    }
    assert ApplyAll(r, entries) == r;
  }

  lemma {:induction false} Settled(props: seq<Prop>, entries: seq<Entry>, i: nat)
    requires WellFormed(JObject(entries)) && i < |Merge(props, entries)|
    ensures UpdatedAt(Merge(props, entries), entries, i) == Merge(props, entries)[i]
    decreases entries, 0
  {
    var kept := Kept(props, entries);
    var r := Merge(props, entries);
    var n := Find(entries, r[i].key);
    ApplyAllShape(kept, entries);
    if n < |entries| && First(r, r[i].key) == i {
      var v := entries[n].value;
      if i < |kept| {
        assert forall j :: 0 <= j < i ==> r[j].key == kept[j].key;
        assert First(kept, kept[i].key) == i;
        ValueSettles(kept[i].value, v);
      } else {
        AddedKeys(kept, entries, i - |kept|);
        assert r[i] == Added(kept, entries)[i - |kept|] == ToProp(entries[n]);
        ValueSettles(CNull, v);
      }
    }
  }
}
