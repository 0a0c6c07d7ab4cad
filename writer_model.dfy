/**
 * The json_writer as a state machine over values: its state is the text it has
 * appended to the stream and the `m_first` flag; each member-function call is a
 * `Call`, and `Step` gives the state after one call. Sequences of calls are
 * replayed by `Run`, and the lemmas below state the text a whole array or
 * object produces.
 */
module WriterModel {
  import opened Escaping
  import opened IntText

  /** The scalar values the writer can emit (`write_value` overloads, float left out). */
  datatype Value = IntVal(i: Int32) | StrVal(s: string) | BoolVal(b: bool)

  /** One call on the writer; `name` arguments of begin/end calls are kept as given. */
  datatype Call =
    | BeginObject(name: string)
    | EndObject(name: string)
    | BeginProp(name: string)
    | EndProp(name: string)
    | WriteValue(value: Value)
    | BeginArray
    | EndArray
    | BeginItem
    | EndItem

  /** The text appended to the stream so far and the `m_first` flag. */
  datatype WriterState = WriterState(out: string, first: bool)

  /** A writer just built by the constructor or by get_json_writer. */
  const Initial: WriterState := WriterState([], false)

  /** The JSON text of a value. */
  function Literal(v: Value): string {
    match v
    case IntVal(i) => IntToText(i)
    case StrVal(s) => "\"" + Escape(s) + "\""
    case BoolVal(b) => if b then "true" else "false"
  }

  /** The separator a member-begin call writes: a comma unless it is the first member. */
  function Separator(first: bool): string {
    if first then [] else ","
  }

  /** What begin_prop writes after the separator: the name in quotes, not escaped, and a colon. */
  function PropName(n: string): string {
    "\"" + n + "\":"
  }

  /** The state after one call. */
  function Step(st: WriterState, c: Call): WriterState {
    match c
    case BeginObject(_) => WriterState(st.out + "{", true)
    case EndObject(_) => WriterState(st.out + "}", st.first)
    case BeginProp(n) => WriterState(st.out + Separator(st.first) + PropName(n), false)
    case EndProp(_) => st
    case WriteValue(v) => WriterState(st.out + Literal(v), st.first)
    case BeginArray => WriterState(st.out + "[", true)
    case EndArray => WriterState(st.out + "]", st.first)
    case BeginItem => WriterState(st.out + Separator(st.first), false)
    case EndItem => st
  }

  /** The state after a sequence of calls, in order. */
  function Run(st: WriterState, calls: seq<Call>): WriterState
    decreases |calls|
  {
    if calls == [] then st else Run(Step(st, calls[0]), calls[1..])
  }

  /** No call takes anything back: the earlier output is always a prefix of the later one. */
  lemma {:induction false} RunExtends(st: WriterState, calls: seq<Call>)
    ensures st.out <= Run(st, calls).out
    decreases |calls|
  {
    if calls != [] {
      var next := Step(st, calls[0]);
      assert st.out <= next.out by {
        match calls[0]
        case BeginProp(n) =>
          assert next.out == st.out + (Separator(st.first) + PropName(n));
        case _ =>
      }
      RunExtends(next, calls[1..]);
    }
  }

  /** Running two call sequences one after the other is running their concatenation. */
  lemma {:induction false} RunAppend(st: WriterState, a: seq<Call>, b: seq<Call>)
    ensures Run(st, a + b) == Run(Run(st, a), b)
    decreases |a|
  {
    if a == [] {
      assert a + b == b;
    } else {
      assert (a + b)[0] == a[0];
      assert (a + b)[1..] == a[1..] + b;
      RunAppend(Step(st, a[0]), a[1..], b);
    }
  }

  /** Three calls in a row. */
  lemma RunThree(st: WriterState, a: Call, b: Call, c: Call)
    ensures Run(st, [a, b, c]) == Step(Step(Step(st, a), b), c)
  {
    var s1 := Step(st, a);
    var s2 := Step(s1, b);
    assert [a, b, c][1..] == [b, c];
    assert [b, c][1..] == [c];
    assert [c][1..] == [];
    assert Run(st, [a, b, c]) == Run(s1, [b, c]);
    assert Run(s1, [b, c]) == Run(s2, [c]);
    assert Run(s2, [c]) == Run(Step(s2, c), []);
  }

  // ---------------------------------------------------------------------------
  // Text helpers

  /** Parts joined with a comma between each two neighbours. */
  function Join(parts: seq<string>): string
    decreases |parts|
  {
    if parts == [] then []
    else if |parts| == 1 then parts[0]
    else Join(parts[..|parts| - 1]) + "," + parts[|parts| - 1]
  }

  /** Regrouping a concatenation of three pieces. */
  lemma Concat3<T>(a: seq<T>, b: seq<T>, c: seq<T>)
    ensures a + b + c == a + (b + c)
  {
  }

  /** Regrouping a concatenation of four pieces. */
  lemma Regroup<T>(a: seq<T>, b: seq<T>, c: seq<T>, d: seq<T>)
    ensures a + b + c + d == a + (b + (c + d))
  {
  }

  /** A non-empty sequence is its prefix followed by its last element. */
  lemma LastSplit<T>(s: seq<T>)
    requires s != []
    ensures s[..|s| - 1] + [s[|s| - 1]] == s
  {
  }

  lemma JoinSnoc(parts: seq<string>, p: string)
    ensures Join(parts + [p]) == Join(parts) + Separator(parts == []) + p
  {
    assert (parts + [p])[..|parts|] == parts;
  }

  /** Number of occurrences of `x` in `s`. */
  function Count(x: char, s: string): nat
    decreases |s|
  {
    if s == [] then 0 else Count(x, s[..|s| - 1]) + (if s[|s| - 1] == x then 1 else 0)
  }

  lemma {:induction false} CountConcat(x: char, a: string, b: string)
    ensures Count(x, a + b) == Count(x, a) + Count(x, b)
    decreases |b|
  {
    if b == [] {
      assert a + b == a;
    } else {
      assert (a + b)[..|a + b| - 1] == a + b[..|b| - 1];
      CountConcat(x, a, b[..|b| - 1]);
    }
  }

  lemma {:induction false} CountAbsent(x: char, s: string)
    ensures Count(x, s) == 0 <==> x !in s
    decreases |s|
  {
    if s != [] {
      CountAbsent(x, s[..|s| - 1]);
      assert s == s[..|s| - 1] + [s[|s| - 1]];
    }
  }

  /** Joining `k` parts free of `x` contains `x` only as the `k - 1` separators, if `x` is the comma. */
  lemma {:induction false} JoinCount(x: char, parts: seq<string>)
    requires forall i :: 0 <= i < |parts| ==> x !in parts[i]
    ensures Count(x, Join(parts)) == if x == ',' && |parts| > 0 then |parts| - 1 else 0
    decreases |parts|
  {
    if |parts| == 1 {
      CountAbsent(x, parts[0]);
    } else if |parts| > 1 {
      var init := parts[..|parts| - 1];
      var last := parts[|parts| - 1];
      JoinCount(x, init);
      CountAbsent(x, last);
      CountConcat(x, Join(init) + ",", last);
      CountConcat(x, Join(init), ",");
      assert Count(x, ",") == if x == ',' then 1 else 0 by {
        assert ","[..0] == [];
      }
    }
  }

  /** A joined list between an opening and a closing bracket: each bracket once, K - 1 commas. */
  lemma BracketedCount(x: char, open: char, close: char, parts: seq<string>)
    requires open != ',' && close != ','
    requires forall i :: 0 <= i < |parts| ==> x !in parts[i]
    ensures Count(x, [open] + Join(parts) + [close]) ==
            (if x == open then 1 else 0) + (if x == close then 1 else 0) +
            (if x == ',' && |parts| > 0 then |parts| - 1 else 0)
  {
    JoinCount(x, parts);
    CountConcat(x, [open] + Join(parts), [close]);
    CountConcat(x, [open], Join(parts));
    assert [open][..0] == [] && [close][..0] == [];
  }

  /** The structural characters whose number in the output the shape lemmas state. */
  predicate Structural(x: char) {
    x == ',' || x == '{' || x == '}' || x == '[' || x == ']'
  }

  /** A structural character occurs in a value's text only inside a string value that contains it. */
  lemma LiteralStructural(v: Value, x: char)
    requires Structural(x)
    requires v.StrVal? ==> x !in v.s
    ensures x !in Literal(v)
  {
    match v
    case IntVal(i) =>
      IntToTextRoundTrip(i);
    case StrVal(s) =>
      EscapeChars(s, x);
      assert x !in EscapeLetters;
    case BoolVal(b) =>
  }

  // ---------------------------------------------------------------------------
  // Arrays: begin_array, (begin_item, write_value, end_item)*, end_array

  /** The calls that write one value as an array item. */
  function ValueCalls(v: Value): seq<Call> {
    [BeginItem, WriteValue(v), EndItem]
  }

  /** The calls that write `vs` as the items of an array. */
  function ItemCalls(vs: seq<Value>): seq<Call>
    decreases |vs|
  {
    if vs == [] then [] else ItemCalls(vs[..|vs| - 1]) + ValueCalls(vs[|vs| - 1])
  }

  function ArrayCalls(vs: seq<Value>): seq<Call> {
    [BeginArray] + ItemCalls(vs) + [EndArray]
  }

  /** The texts of the values, in order. */
  function Literals(vs: seq<Value>): (r: seq<string>)
    ensures |r| == |vs|
    decreases |vs|
  {
    if vs == [] then [] else Literals(vs[..|vs| - 1]) + [Literal(vs[|vs| - 1])]
  }

  /** One item: a separator unless it is the first, then the value's text. */
  lemma ItemStep(st: WriterState, v: Value)
    ensures Run(st, ValueCalls(v)) == WriterState(st.out + Separator(st.first) + Literal(v), false)
  {
    RunThree(st, BeginItem, WriteValue(v), EndItem);
  }

  lemma LiteralsSnoc(vs: seq<Value>)
    requires vs != []
    ensures Literals(vs) == Literals(vs[..|vs| - 1]) + [Literal(vs[|vs| - 1])]
  {
  }

  /** Running the calls of one more item after the earlier items. */
  lemma ItemCallsStep(o: string, init: seq<Value>, v: Value)
    requires Run(WriterState(o, true), ItemCalls(init)) == WriterState(o + Join(Literals(init)), init == [])
    ensures Run(WriterState(o, true), ItemCalls(init + [v])) ==
            WriterState(o + (Join(Literals(init)) + (Separator(init == []) + Literal(v))), false)
  {
    var vs := init + [v];
    assert vs[..|vs| - 1] == init;
    assert ItemCalls(vs) == ItemCalls(init) + ValueCalls(v);
    RunAppend(WriterState(o, true), ItemCalls(init), ValueCalls(v));
    var j := Join(Literals(init));
    ItemStep(WriterState(o + j, init == []), v);
    Regroup(o, j, Separator(init == []), Literal(v));
  }

  /** The joined item texts of one more value. */
  lemma LiteralsJoinStep(init: seq<Value>, v: Value)
    ensures Join(Literals(init + [v])) == Join(Literals(init)) + (Separator(init == []) + Literal(v))
  {
    var vs := init + [v];
    assert vs[..|vs| - 1] == init;
    LiteralsSnoc(vs);
    JoinSnoc(Literals(init), Literal(v));
  }

  /** Appending one value to the items appends its literal to the text. */
  lemma ItemsTextStep(o: string, vs: seq<Value>)
    requires vs != []
    requires Run(WriterState(o, true), ItemCalls(vs[..|vs| - 1])) ==
             WriterState(o + Join(Literals(vs[..|vs| - 1])), vs[..|vs| - 1] == [])
    ensures Run(WriterState(o, true), ItemCalls(vs)) == WriterState(o + Join(Literals(vs)), false)
  {
    var init, v := vs[..|vs| - 1], vs[|vs| - 1];
    LastSplit(vs);
    ItemCallsStep(o, init, v);
    LiteralsJoinStep(init, v);
  }

  /** After begin_array, the items come out as their literals separated by commas. */
  lemma {:induction false} ItemsText(o: string, vs: seq<Value>)
    ensures Run(WriterState(o, true), ItemCalls(vs)) == WriterState(o + Join(Literals(vs)), vs == [])
    decreases |vs|
  {
    if vs != [] {
      ItemsText(o, vs[..|vs| - 1]);
      ItemsTextStep(o, vs);
    }
  }

  /**
   * An array of K values is `[`, the K literals separated by K - 1 commas, and
   * `]`, whatever the flag was before; the flag is left true only when K = 0.
   */
  lemma ArrayText(st: WriterState, vs: seq<Value>)
    ensures Run(st, ArrayCalls(vs)) == WriterState(st.out + "[" + Join(Literals(vs)) + "]", vs == [])
  {
    var open := Step(st, BeginArray);
    assert Run(st, [BeginArray]) == open;
    RunAppend(st, [BeginArray], ItemCalls(vs));
    RunAppend(st, [BeginArray] + ItemCalls(vs), [EndArray]);
    ItemsText(st.out + "[", vs);
  }

  /** With no items, begin_array then end_array writes exactly `[]`. */
  lemma EmptyArray(st: WriterState)
    ensures Run(st, [BeginArray, EndArray]).out == st.out + "[]"
  {
    ArrayText(st, []);
    assert ArrayCalls([]) == [BeginArray, EndArray];
  }

  /** `k` begin_item calls with nothing between them. */
  function BareItems(k: nat): seq<Call> {
    seq(k, _ => BeginItem)
  }

  /** `k` commas. */
  function Commas(k: nat): string {
    seq(k, _ => ',')
  }

  lemma {:induction false} BareItemsText(o: string, k: nat)
    ensures Run(WriterState(o, true), BareItems(k)) == WriterState(o + Commas(if k == 0 then 0 else k - 1), k == 0)
    decreases k
  {
    if k > 0 {
      BareItemsText(o, k - 1);
      assert BareItems(k) == BareItems(k - 1) + [BeginItem];
      RunAppend(WriterState(o, true), BareItems(k - 1), [BeginItem]);
      if k > 1 {
        assert Commas(k - 1) == Commas(k - 2) + ",";
      }
    }
  }

  /** begin_array followed by K begin_item calls emits exactly K - 1 commas (none when K = 0). */
  lemma BareArrayText(st: WriterState, k: nat)
    ensures Run(st, [BeginArray] + BareItems(k) + [EndArray]).out ==
            st.out + "[" + Commas(if k == 0 then 0 else k - 1) + "]"
  {
    RunAppend(st, [BeginArray], BareItems(k));
    RunAppend(st, [BeginArray] + BareItems(k), [EndArray]);
    assert Run(st, [BeginArray]) == WriterState(st.out + "[", true);
    BareItemsText(st.out + "[", k);
  }

  lemma LiteralsStructural(vs: seq<Value>, x: char)
    requires Structural(x)
    requires forall i :: 0 <= i < |vs| && vs[i].StrVal? ==> x !in vs[i].s
    ensures forall i :: 0 <= i < |Literals(vs)| ==> x !in Literals(vs)[i]
  {
    forall i | 0 <= i < |vs| ensures x !in Literals(vs)[i] {
      LiteralStructural(vs[i], x);
    }
  }

  /**
   * If no string value contains the structural character `x`, the array's text
   * holds exactly one `[`, one `]` and K - 1 commas.
   */
  lemma ArrayShape(st: WriterState, vs: seq<Value>, x: char)
    requires Structural(x)
    requires forall i :: 0 <= i < |vs| && vs[i].StrVal? ==> x !in vs[i].s
    ensures Count(x, Run(st, ArrayCalls(vs)).out) == Count(x, st.out) +
      (if x == '[' || x == ']' then 1 else if x == ',' && |vs| > 0 then |vs| - 1 else 0)
  {
    ArrayText(st, vs);
    var body := ['['] + Join(Literals(vs)) + [']'];
    assert Run(st, ArrayCalls(vs)).out == st.out + body;
    CountConcat(x, st.out, body);
    LiteralsStructural(vs, x);
    BracketedCount(x, '[', ']', Literals(vs));
  }

  // ---------------------------------------------------------------------------
  // Objects: begin_object, (begin_prop, write_value, end_prop)*, end_object

  /** One registered field of a value object: its name and its current value. */
  datatype Field = Field(name: string, value: Value)

  /** The calls the descriptor-driven serializer makes for one field. */
  function FieldCalls(f: Field): seq<Call> {
    [BeginProp(f.name), WriteValue(f.value), EndProp(f.name)]
  }

  function PropCalls(fs: seq<Field>): seq<Call>
    decreases |fs|
  {
    if fs == [] then [] else PropCalls(fs[..|fs| - 1]) + FieldCalls(fs[|fs| - 1])
  }

  function ObjectCalls(name: string, fs: seq<Field>): seq<Call> {
    [BeginObject(name)] + PropCalls(fs) + [EndObject(name)]
  }

  /** The text of one property: the name in quotes, unescaped, a colon and the value. */
  function PropText(f: Field): string {
    PropName(f.name) + Literal(f.value)
  }

  /** A structural character occurs in a property's text only if its name or string value contains it. */
  lemma PropStructural(f: Field, x: char)
    requires Structural(x)
    requires x !in f.name && (f.value.StrVal? ==> x !in f.value.s)
    ensures x !in PropText(f)
  {
    LiteralStructural(f.value, x);
  }

  /** The texts of the properties, in order. */
  function Props(fs: seq<Field>): (r: seq<string>)
    ensures |r| == |fs|
    decreases |fs|
  {
    if fs == [] then [] else Props(fs[..|fs| - 1]) + [PropText(fs[|fs| - 1])]
  }

  /** One property: a separator unless it is the first, then the property's text. */
  lemma FieldStep(st: WriterState, f: Field)
    ensures Run(st, FieldCalls(f)) == WriterState(st.out + Separator(st.first) + PropText(f), false)
  {
    RunThree(st, BeginProp(f.name), WriteValue(f.value), EndProp(f.name));
    var head := st.out + Separator(st.first);
    assert head + PropName(f.name) + Literal(f.value) == head + PropText(f);
  }

  lemma PropsSnoc(fs: seq<Field>)
    requires fs != []
    ensures Props(fs) == Props(fs[..|fs| - 1]) + [PropText(fs[|fs| - 1])]
  {
  }

  /** Running the calls of one more field after the earlier fields. */
  lemma PropCallsStep(o: string, init: seq<Field>, f: Field)
    requires Run(WriterState(o, true), PropCalls(init)) == WriterState(o + Join(Props(init)), init == [])
    ensures Run(WriterState(o, true), PropCalls(init + [f])) ==
            WriterState(o + (Join(Props(init)) + (Separator(init == []) + PropText(f))), false)
  {
    var fs := init + [f];
    assert fs[..|fs| - 1] == init;
    assert PropCalls(fs) == PropCalls(init) + FieldCalls(f);
    RunAppend(WriterState(o, true), PropCalls(init), FieldCalls(f));
    var j := Join(Props(init));
    FieldStep(WriterState(o + j, init == []), f);
    Regroup(o, j, Separator(init == []), PropText(f));
  }

  /** The joined property texts of one more field. */
  lemma PropsJoinStep(init: seq<Field>, f: Field)
    ensures Join(Props(init + [f])) == Join(Props(init)) + (Separator(init == []) + PropText(f))
  {
    var fs := init + [f];
    assert fs[..|fs| - 1] == init;
    PropsSnoc(fs);
    JoinSnoc(Props(init), PropText(f));
  }

  /** Appending one field to the registered list appends its property to the text. */
  lemma PropsTextStep(o: string, fs: seq<Field>)
    requires fs != []
    requires Run(WriterState(o, true), PropCalls(fs[..|fs| - 1])) ==
             WriterState(o + Join(Props(fs[..|fs| - 1])), fs[..|fs| - 1] == [])
    ensures Run(WriterState(o, true), PropCalls(fs)) == WriterState(o + Join(Props(fs)), false)
  {
    var init, f := fs[..|fs| - 1], fs[|fs| - 1];
    LastSplit(fs);
    PropCallsStep(o, init, f);
    PropsJoinStep(init, f);
  }

  /** After begin_object, the fields come out as their properties separated by commas. */
  lemma {:induction false} PropsText(o: string, fs: seq<Field>)
    ensures Run(WriterState(o, true), PropCalls(fs)) == WriterState(o + Join(Props(fs)), fs == [])
    decreases |fs|
  {
    if fs != [] {
      PropsText(o, fs[..|fs| - 1]);
      PropsTextStep(o, fs);
    }
  }

  /**
   * An object with N fields is `{`, the N properties in registration order
   * separated by N - 1 commas, and `}`; the flag is left true only when N = 0.
   */
  lemma ObjectText(st: WriterState, name: string, fs: seq<Field>)
    ensures Run(st, ObjectCalls(name, fs)) == WriterState(st.out + "{" + Join(Props(fs)) + "}", fs == [])
  {
    assert Run(st, [BeginObject(name)]) == WriterState(st.out + "{", true);
    RunAppend(st, [BeginObject(name)], PropCalls(fs));
    RunAppend(st, [BeginObject(name)] + PropCalls(fs), [EndObject(name)]);
    PropsText(st.out + "{", fs);
  }

  /** An object with no fields writes exactly `{}`. */
  lemma EmptyObject(st: WriterState, name: string)
    ensures Run(st, ObjectCalls(name, [])).out == st.out + "{}"
  {
    ObjectText(st, name, []);
  }

  lemma PropsStructural(fs: seq<Field>, x: char)
    requires Structural(x)
    requires forall i :: 0 <= i < |fs| ==> x !in fs[i].name && (fs[i].value.StrVal? ==> x !in fs[i].value.s)
    ensures forall i :: 0 <= i < |Props(fs)| ==> x !in Props(fs)[i]
  {
    forall i | 0 <= i < |fs| ensures x !in Props(fs)[i] {
      PropStructural(fs[i], x);
    }
  }

  /**
   * If no field name and no string value contains the structural character `x`,
   * the object's text holds exactly one `{`, one `}` and N - 1 commas.
   */
  lemma ObjectShape(st: WriterState, name: string, fs: seq<Field>, x: char)
    requires Structural(x)
    requires forall i :: 0 <= i < |fs| ==> x !in fs[i].name && (fs[i].value.StrVal? ==> x !in fs[i].value.s)
    ensures Count(x, Run(st, ObjectCalls(name, fs)).out) == Count(x, st.out) +
      (if x == '{' || x == '}' then 1 else if x == ',' && |fs| > 0 then |fs| - 1 else 0)
  {
    ObjectText(st, name, fs);
    var body := ['{'] + Join(Props(fs)) + ['}'];
    assert Run(st, ObjectCalls(name, fs)).out == st.out + body;
    CountConcat(x, st.out, body);
    PropsStructural(fs, x);
    BracketedCount(x, '{', '}', Props(fs));
  }

  // ---------------------------------------------------------------------------
  // The flag, call by call

  /** No call in `calls` opens an object or an array. */
  predicate OpensNoCollection(calls: seq<Call>) {
    forall i :: 0 <= i < |calls| ==> !calls[i].BeginObject? && !calls[i].BeginArray?
  }

  /** Only begin_object and begin_array set the flag: without them a false flag stays false. */
  lemma {:induction false} FlagStaysFalse(st: WriterState, calls: seq<Call>)
    requires !st.first
    requires OpensNoCollection(calls)
    ensures !Run(st, calls).first
    decreases |calls|
  {
    if calls != [] {
      assert !calls[0].BeginObject? && !calls[0].BeginArray?;
      assert OpensNoCollection(calls[1..]) by {
        forall i | 0 <= i < |calls[1..]| ensures !calls[1..][i].BeginObject? && !calls[1..][i].BeginArray? {
          assert calls[1..][i] == calls[i + 1];
        }
      }
      FlagStaysFalse(Step(st, calls[0]), calls[1..]);
    }
  }

  /**
   * A writer fresh from the constructor has `m_first` false, so every begin_prop
   * or begin_item made before any begin_object or begin_array, whatever other
   * calls precede it, writes a leading comma.
   */
  lemma FreshWriterLeadingComma(calls: seq<Call>, n: string)
    requires OpensNoCollection(calls)
    ensures var st := Run(Initial, calls);
      Step(st, BeginProp(n)).out == st.out + "," + PropName(n) &&
      Step(st, BeginItem).out == st.out + ","
  {
    FlagStaysFalse(Initial, calls);
  }

  /**
   * begin_prop and begin_item write a comma exactly when the flag is false, and
   * both leave it false.
   */
  lemma CommaIffNotFirst(st: WriterState, n: string)
    ensures Step(st, BeginItem).out == st.out + "," <==> !st.first
    ensures Step(st, BeginProp(n)).out == st.out + "," + PropName(n) <==> !st.first
    ensures !Step(st, BeginItem).first && !Step(st, BeginProp(n)).first
  {
    if st.first {
      assert |Step(st, BeginItem).out| == |st.out|;
      assert |Step(st, BeginProp(n)).out| == |st.out| + |PropName(n)|;
    }
  }
}
