/**
 * A driver that replays the call sequence assumed for a class registered with
 * the descriptor macros (as foo.h registers its fields): begin_object, then
 * begin_prop / write_value / end_prop for each field in registration order, then
 * end_object. The code the macros generate is not part of this model; the
 * registered list is given as a sequence of `Field`s.
 */
module Serializer {
  import opened IntText
  import opened WriterModel
  import opened Json

  /** The write_value overload chosen by the field's type. */
  method WriteFieldValue(w: JsonWriter, v: Value)
    modifies w
    ensures w.State() == Step(old(w.State()), WriteValue(v))
  {
    match v
    case IntVal(i) => w.WriteInt(i);
    case StrVal(s) => w.WriteString(s);
    case BoolVal(b) => w.WriteBool(b);
  }

  /**
   * Serializes one object: the writer makes exactly the calls `ObjectCalls`
   * lists, so it appends `{`, the properties in registration order separated by
   * commas, and `}`.
   */
  method SerializeObject(w: JsonWriter, name: string, fields: seq<Field>)
    modifies w
    ensures w.State() == Run(old(w.State()), ObjectCalls(name, fields))
    ensures w.out == old(w.out) + "{" + Join(Props(fields)) + "}"
    ensures w.first == (fields == [])
  {
    ghost var start := w.State();
    w.BeginObject(name);
    var i := 0;
    while i < |fields|
      invariant 0 <= i <= |fields|
      invariant w.State() == Run(start, [BeginObject(name)] + PropCalls(fields[..i]))
    {
      var f := fields[i];
      ghost var before := w.State();
      w.BeginProp(f.name);
      WriteFieldValue(w, f.value);
      w.EndProp(f.name);
      RunThree(before, BeginProp(f.name), WriteValue(f.value), EndProp(f.name));
      assert fields[..i + 1][..i] == fields[..i];
      assert PropCalls(fields[..i + 1]) == PropCalls(fields[..i]) + FieldCalls(f);
      RunAppend(start, [BeginObject(name)] + PropCalls(fields[..i]), FieldCalls(f));
      assert [BeginObject(name)] + PropCalls(fields[..i + 1]) == [BeginObject(name)] + PropCalls(fields[..i]) + FieldCalls(f);
      i := i + 1;
    }
    ghost var beforeEnd := w.State();
    w.EndObject(name);
    assert fields[..i] == fields;
    assert Run(beforeEnd, [EndObject(name)]) == Step(beforeEnd, EndObject(name));
    RunAppend(start, [BeginObject(name)] + PropCalls(fields), [EndObject(name)]);
    ObjectText(start, name, fields);
  }

  /**
   * Serializing through a fresh writer: the text depends on the name-value list
   * alone, so two independent writers given the same object write the same text.
   */
  method SerializeToText(name: string, fields: seq<Field>) returns (text: string)
    ensures text == "{" + Join(Props(fields)) + "}"
  {
    var w := GetJsonWriter();
    SerializeObject(w, name, fields);
    text := w.out;
  }

  /** The registered fields of foo (foo.h), in registration order, for the given values. */
  function FooFields(a: Int32, another: Int32, third: string): seq<Field> {
    [Field("a_val", IntVal(a)), Field("another_val", IntVal(another)), Field("third_val", StrVal(third))]
  }

  /** foo(1, 2, "hi<TAB>there") serializes to its three properties, the tab escaped. */
  method SerializeFoo() returns (text: string)
    ensures text == "{" + "\"a_val\":1" + "," + "\"another_val\":2" + "," + "\"third_val\":\"hi\\tthere\"" + "}"
  {
    var fields := FooFields(1, 2, "hi\tthere");
    var w := GetJsonWriter();
    SerializeObject(w, "foo", fields);
    text := w.out;
    FooText();
  }

  /** Three properties joined. */
  lemma JoinThree(f1: Field, f2: Field, f3: Field)
    ensures Join(Props([f1, f2, f3])) == PropText(f1) + "," + PropText(f2) + "," + PropText(f3)
  {
    var fs := [f1, f2, f3];
    assert fs[..2] == [f1, f2] && [f1, f2][..1] == [f1] && [f1][..0] == [];
    assert Props([f1]) == [PropText(f1)];
    assert Props([f1, f2]) == [PropText(f1), PropText(f2)];
    var ps := [PropText(f1), PropText(f2), PropText(f3)];
    assert Props(fs) == ps;
    assert ps[..2] == [PropText(f1), PropText(f2)] && ps[..2][..1] == [PropText(f1)];
    assert Join([PropText(f1)]) == PropText(f1);
    assert Join(ps[..2]) == PropText(f1) + "," + PropText(f2);
  }

  lemma EscapeTabbed()
    ensures Escaping.Escape("hi\tthere") == "hi\\tthere"
  {
    Escaping.EscapeBetween("hi", '\t', "there");
    assert "hi" + ['\t'] + "there" == "hi\tthere";
  }

  lemma FooPropA()
    ensures PropText(Field("a_val", IntVal(1))) == "\"a_val\":1"
  {
    assert IntToText(1) == "1";
  }

  lemma FooPropB()
    ensures PropText(Field("another_val", IntVal(2))) == "\"another_val\":2"
  {
    assert IntToText(2) == "2";
  }

  lemma FooPropC()
    ensures PropText(Field("third_val", StrVal("hi\tthere"))) == "\"third_val\":\"hi\\tthere\""
  {
    EscapeTabbed();
  }

  /** The properties of foo(1, 2, "hi<TAB>there"). */
  lemma FooText()
    ensures Join(Props(FooFields(1, 2, "hi\tthere"))) ==
            "\"a_val\":1" + "," + "\"another_val\":2" + "," + "\"third_val\":\"hi\\tthere\""
  {
    var f1, f2, f3 := Field("a_val", IntVal(1)), Field("another_val", IntVal(2)), Field("third_val", StrVal("hi\tthere"));
    assert FooFields(1, 2, "hi\tthere") == [f1, f2, f3];
    JoinThree(f1, f2, f3);
    FooPropA();
    FooPropB();
    FooPropC();
  }

  /** Double quotes inside a string value are written as they are, not escaped. */
  method WriteQuotedText() returns (text: string)
    ensures text == "\"he said \"hi\"\""
  {
    var w := GetJsonWriter();
    w.WriteString("he said \"hi\"");
    text := w.out;
    QuotedPlain();
  }

  lemma QuotedPlain()
    ensures Escaping.Escape("he said \"hi\"") == "he said \"hi\""
  {
    var s := "he said \"hi\"";
    forall i | 0 <= i < |s| ensures !Escaping.IsEscaped(s[i]) {
    }
    Escaping.EscapeIdentity(s);
  }

  /** A property or an item written before any collection is opened gets a leading comma. */
  method PropBeforeObject() returns (prop: string, item: string)
    ensures prop == ",\"a\":" && item == ","
  {
    var w := GetJsonWriter();
    w.BeginProp("a");
    prop := w.out;
    var v := GetJsonWriter();
    v.BeginItem();
    item := v.out;
  }

  /**
   * One flag serves every open collection: an empty object written as a property
   * value leaves it true, so the outer object's next property gets no comma.
   */
  method NestedEmptyObject() returns (text: string)
    ensures text == "{\"a\":{}\"b\":true}"
  {
    var w := GetJsonWriter();
    w.BeginObject("outer");
    w.BeginProp("a");
    w.BeginObject("inner");
    w.EndObject("inner");
    w.EndProp("a");
    w.BeginProp("b");
    w.WriteBool(true);
    w.EndProp("b");
    w.EndObject("outer");
    text := w.out;
  }
}
