# json_writer — a verified model

This project models `json_writer<TStream>` from jsonpp in Dafny. It is a small
writer that produces JSON text on a stream through a sequence of member-function
calls:

- `begin_object` / `end_object` write `{` and `}`;
- `begin_prop` writes an optional comma and `"name":`;
- `write_value` writes an `int`, a `std::string` or a `bool`;
- `begin_array` / `end_array` write `[` and `]`;
- `begin_item` writes an optional comma;
- `end_prop` and `end_item` do nothing.

A single boolean `m_first` decides whether the next `begin_prop` or `begin_item`
writes a comma. The model reproduces the writer's behaviour exactly as written,
including these quirks:

- the constructor sets `m_first` to false, so a property or item written before
  any object or array is opened gets a leading comma;
- one flag serves every open collection, so opening a nested collection overwrites
  it;
- property names are written without escaping;
- the double quote is not among the escaped characters.

The project has five files:

- `escaping.dfy`: the string escaping of `write_value(const std::string&)` as a
  pure function `Escape`. It comes with a strict inverse, `Unescape`, and the
  round trip in both directions.
- `int_text.dfy`: the decimal text `std::ostream` writes for an `int`. The range is
  a 32-bit newtype, and there is a parser that reads the text back.
- `writer_model.dfy`: the writer as a state machine over values. The state is
  the text appended so far plus the flag. `Step` is one call and `Run` is a sequence
  of calls. The lemmas give the text of a whole array or object: literals in
  order, K − 1 commas, `[]` and `{}` when there are no members, and counts of the
  structural characters.
- `json_writer.dfy`: the class `JsonWriter`, whose fields `out` and `first` stand
  for the stream and `m_first`. It has one method per member function, and each
  method is proved to be one `Step` of the model. `write_value` for strings keeps
  its character loop. `get_json_writer` is `GetJsonWriter`.
- `serializer.dfy`: `SerializeObject`, a driver that replays the call sequence
  `begin_object`, then `begin_prop` / `write_value` / `end_prop` per field in
  registration order, then `end_object`, for a list of name-value fields. The code
  the descriptor macros generate is not part of this model, so this sequence is
  assumed rather than read from it. Around the driver are the `foo` example from
  `foo.h` and a few scenarios built from concrete calls.

One `m_first` serves the whole writer, not one flag per open collection, and the
model keeps that single flag.

## Model

| member | source | states |
|---|---|---|
| Escaping.EscapeLength | include/json/json_writer.h:95-127 | the escaped text is never shorter than the input and at most twice as long |
| Escaping.EscapeConcat | include/json/json_writer.h:98-124 | escaping is character by character: Escape(a + b) == Escape(a) + Escape(b) |
| Escaping.EscapeSnoc | include/json/json_writer.h:98-124 | one more loop iteration appends exactly the current character's escape |
| Escaping.LetterInverse | include/json/json_writer.h:100-123 | the six escape letters t, f, r, n, \ and b map back to tab, form feed, carriage return, newline, backslash and backspace, in both directions |
| Escaping.UnescapeOfEscape | include/json/json_writer.h:95-127 | round trip: undoing the six escapes gives back the original string |
| Escaping.EscapeOfUnescape | include/json/json_writer.h:95-127 | whatever Unescape accepts is exactly the escaped form of what it returns |
| Escaping.UnescapeIff | include/json/json_writer.h:95-127 | Unescape(t) == Some(s) if and only if t == Escape(s) |
| Escaping.EscapeInjective | include/json/json_writer.h:95-127 | two strings with the same escaped text are equal |
| Escaping.EscapeIdentity | include/json/json_writer.h:120-122 | the text is written unchanged if and only if it holds none of the six escaped characters, and that is exactly when escaping keeps its length |
| Escaping.EscapePlain | include/json/json_writer.h:120-122 | a text free of the six escaped characters is copied as it is; the double quote is not among them |
| Escaping.EscapeBetween | include/json/json_writer.h:98-124 | one escaped character between two plain texts is the only part that changes |
| Escaping.EscapeChars | include/json/json_writer.h:98-124 | every output character comes from the input or from an escape sequence; every input character outside the escaped set appears in the output |
| IntText.DigitsOfValue | include/json/json_writer.h:77-80 | the digits of a magnitude are one or more decimal digits, with no leading zero, and they stand for that magnitude |
| IntText.IntToTextRoundTrip | include/json/json_writer.h:77-80 | the text of an int starts with '-' exactly when it is negative, holds only '-' and digits with no leading zero, and parses back to the value |
| WriterModel.RunExtends | include/json/json_writer.h:37-178 | no call removes text: the earlier output is always a prefix of the later one |
| WriterModel.RunAppend | include/json/json_writer.h:37-178 | running two call sequences in turn is running their concatenation |
| WriterModel.CommaIffNotFirst | include/json/json_writer.h:57-64 | begin_prop and begin_item write a comma exactly when the flag is false, and both leave it false |
| WriterModel.FlagStaysFalse | include/json/json_writer.h:37-178 | only begin_object and begin_array set the flag: after any calls that include neither, a false flag is still false |
| WriterModel.FreshWriterLeadingComma | include/json/json_writer.h:27-30 | a fresh writer starts with the flag false, so every begin_prop or begin_item made before any begin_object or begin_array, after whatever other calls, writes a leading comma |
| WriterModel.ItemsText | include/json/json_writer.h:168-178 | after begin_array, K items write their literals in order with a comma between each two; the flag stays true only when K = 0 |
| WriterModel.ArrayText | include/json/json_writer.h:150-178 | an array of K values writes `[`, the K literals separated by K − 1 commas, and `]`, whatever the flag was before |
| WriterModel.EmptyArray | include/json/json_writer.h:150-163 | begin_array then end_array writes exactly `[]` |
| WriterModel.BareArrayText | include/json/json_writer.h:150-174 | begin_array followed by K begin_item calls and end_array writes exactly K − 1 commas between the brackets |
| WriterModel.ArrayShape | include/json/json_writer.h:150-178 | when no string value holds the character, an array adds one `[`, one `]` and K − 1 commas, and no brace |
| WriterModel.PropsText | include/json/json_writer.h:57-73 | after begin_object, N properties write `"name":literal` in order with a comma between each two; the flag stays true only when N = 0 |
| WriterModel.ObjectText | include/json/json_writer.h:37-73 | an object with N fields writes `{`, the N properties in order separated by N − 1 commas, and `}` |
| WriterModel.EmptyObject | include/json/json_writer.h:37-50 | begin_object then end_object writes exactly `{}` |
| WriterModel.ObjectShape | include/json/json_writer.h:37-73 | when no name or string value holds the character, an object adds one `{`, one `}` and N − 1 commas, and no bracket |
| Json.JsonWriter.constructor | include/json/json_writer.h:27-30 | a new writer has written nothing and its flag is false; this is the model's initial state |
| Json.JsonWriter.BeginObject | include/json/json_writer.h:37-41 | appends `{` and sets the flag; the name is not written |
| Json.JsonWriter.EndObject | include/json/json_writer.h:47-50 | appends `}` and keeps the flag |
| Json.JsonWriter.BeginProp | include/json/json_writer.h:57-64 | appends a comma only when the flag is false, then the name in quotes and a colon; clears the flag |
| Json.JsonWriter.EndProp | include/json/json_writer.h:71-73 | changes nothing |
| Json.JsonWriter.WriteInt | include/json/json_writer.h:77-80 | appends the decimal text of the value and keeps the flag |
| Json.JsonWriter.WriteString | include/json/json_writer.h:95-127 | the character loop appends a quote, the escaped text and a quote, and keeps the flag |
| Json.JsonWriter.WriteBool | include/json/json_writer.h:133-143 | appends `true` or `false` and keeps the flag |
| Json.JsonWriter.BeginArray | include/json/json_writer.h:150-154 | appends `[` and sets the flag |
| Json.JsonWriter.EndArray | include/json/json_writer.h:160-163 | appends `]` and keeps the flag |
| Json.JsonWriter.BeginItem | include/json/json_writer.h:168-174 | appends a comma only when the flag is false; clears the flag |
| Json.JsonWriter.EndItem | include/json/json_writer.h:176-178 | changes nothing |
| Json.GetJsonWriter | include/json/json_writer.h:185-189 | returns a new writer in the constructor's state |
| Serializer.WriteFieldValue | include/json/json_writer.h:77-143 | the write_value overload chosen by the field's type makes one WriteValue step |
| Serializer.SerializeObject | foo.h:25-29 | the driver makes exactly the assumed call sequence for the registered fields and appends `{`, the properties in registration order separated by commas, and `}` |
| Serializer.SerializeToText | foo.h:25-29 | serializing through a fresh writer gives text that depends only on the fields, so two independent writers give identical output |
| Serializer.SerializeFoo | foo.h:9 | foo(1, 2, "hi<TAB>there") serializes to `{"a_val":1,"another_val":2,"third_val":"hi\tthere"}` |
| Serializer.WriteQuotedText | include/json/json_writer.h:120-122 | `he said "hi"` is written as `"he said "hi""`, with the inner quotes left unescaped |
| Serializer.PropBeforeObject | include/json/json_writer.h:27-30 | on a fresh writer, begin_prop("a") writes `,"a":` and begin_item writes `,` |
| Serializer.NestedEmptyObject | include/json/json_writer.h:37-41 | an empty object written as a property value leaves the single flag true, so the next property of the outer object has no comma: `{"a":{}"b":true}` |

## Left out

- `write_value(float)` (json_writer.h:85-88) is not modelled. Its text comes from the host's default floating-point formatting, which has no counterpart here.
- The stream type `TStream` is modelled only as the text appended to it. Stream failure states, flushing and text already in the stream before the writer was bound are not modelled.
- The base class `writer<TStream>` is not modelled: `common/writer.h` is not part of this model.
- The registration macros are not modelled: `json/class_descriptor.h` is not part of this model. The serializer receives the registered fields as a sequence of name-value pairs in registration order, and the type name passed to `begin_object` is a parameter.
- `foo::print` (foo.h:12-17) writes to the console and is not modelled. The default constructor of `foo` (foo.h:10) can be expressed as `FooFields(0, 0, "")`.
- Serializer.SerializeObject: the code the descriptor macros generate (`json/class_descriptor.h`) is not available, so the call sequence `begin_object(name); (begin_prop(field); write_value(value); end_prop(field))*; end_object(name)` and the type name passed as `name` are assumed, not read from code.
- A C++ `char` is modelled as a Dafny `char`. Signedness, multi-byte encodings and the NUL that ends a `const char*` name are not modelled: a name is any string, copied verbatim.
- Json.JsonWriter.WriteInt: models the text of `std::ostream << int` under the default flags and the classic locale. Digit grouping and other locale facets are not modelled.
- Copying a `json_writer` (which `get_json_writer` does by returning it by value) is not modelled: `GetJsonWriter` returns a fresh object with the same state.
