/**
 * The class template json_writer<TStream>. The bound stream becomes the field
 * `out`: the text this writer has appended to it (the stream is only ever
 * appended to). `first` is the source's `m_first`. Each method states the text it
 * appends and the new flag, and that this is one `Step` of the model.
 */
module Json {
  import opened Escaping
  import opened IntText
  import opened WriterModel

  class JsonWriter {
    /** Text appended to the bound stream by this writer, in order. */
    var out: string
    /** Whether the next begin_prop / begin_item is the first member of the open collection. */
    var first: bool

    function State(): WriterState
      reads this
    {
      WriterState(out, first)
    }

    /** Binds a stream; `m_first` starts false, not true. */
    constructor ()
      ensures out == [] && !first
      ensures State() == Initial
    {
      out := [];
      first := false;
    }

    /** Writes `{` and marks the next property as the first one. `name` is not written. */
    method BeginObject(name: string)
      modifies this
      ensures out == old(out) + "{" && first
      ensures State() == Step(old(State()), Call.BeginObject(name))
    {
      out := out + "{";
      first := true;
    }

    /** Writes `}`; the flag is left as it was. */
    method EndObject(name: string)
      modifies this
      ensures out == old(out) + "}" && first == old(first)
      ensures State() == Step(old(State()), Call.EndObject(name))
    {
      out := out + "}";
    }

    /** Writes a comma unless this is the first property, then the name in quotes (not escaped) and a colon. */
    method BeginProp(name: string)
      modifies this
      ensures out == old(out) + (if old(first) then "" else ",") + "\"" + name + "\":"
      ensures !first
      ensures State() == Step(old(State()), Call.BeginProp(name))
    {
      if first {
        first := false;
      } else {
        out := out + ",";
      }
      out := out + "\"" + name + "\":";
    }

    /** Does nothing. */
    method EndProp(name: string)
      modifies this
      ensures out == old(out) && first == old(first)
      ensures State() == Step(old(State()), Call.EndProp(name))
    {
    }

    /** write_value(int): the decimal text of the value. */
    method WriteInt(value: Int32)
      modifies this
      ensures out == old(out) + IntToText(value) && first == old(first)
      ensures State() == Step(old(State()), WriteValue(IntVal(value)))
    {
      out := out + IntToText(value);
    }

    /**
     * write_value(const std::string&): a quote, each character of `str` in turn
     * (the six escaped characters as backslash and letter, every other one, the
     * quote included, as it is), and a closing quote.
     */
    method WriteString(str: string)
      modifies this
      ensures out == old(out) + "\"" + Escape(str) + "\"" && first == old(first)
      ensures State() == Step(old(State()), WriteValue(StrVal(str)))
    {
      out := out + "\"";
      ghost var opening := out;
      var i := 0;
      while i < |str|
        invariant 0 <= i <= |str|
        invariant out == opening + Escape(str[..i])
        invariant first == old(first)
      {
        var c := str[i];
        var piece: string;
        if c == '\t' {
          piece := "\\t";
        } else if c == FormFeed {
          piece := "\\f";
        } else if c == '\r' {
          piece := "\\r";
        } else if c == '\n' {
          piece := "\\n";
        } else if c == '\\' {
          piece := "\\\\";
        } else if c == Backspace {
          piece := "\\b";
        } else {
          piece := [c];
        }
        assert piece == EscapeChar(c);
        EscapeSnoc(str, i);
        Concat3(opening, Escape(str[..i]), piece);
        out := out + piece;
        i := i + 1;
      }
      assert str[..i] == str;
      out := out + "\"";
    }

    /** write_value(bool): `true` or `false`. */
    method WriteBool(b: bool)
      modifies this
      ensures out == old(out) + (if b then "true" else "false") && first == old(first)
      ensures State() == Step(old(State()), WriteValue(BoolVal(b)))
    {
      if b {
        out := out + "true";
      } else {
        out := out + "false";
      }
    }

    /** Writes `[` and marks the next item as the first one. */
    method BeginArray()
      modifies this
      ensures out == old(out) + "[" && first
      ensures State() == Step(old(State()), Call.BeginArray)
    {
      out := out + "[";
      first := true;
    }

    /** Writes `]`; the flag is left as it was. */
    method EndArray()
      modifies this
      ensures out == old(out) + "]" && first == old(first)
      ensures State() == Step(old(State()), Call.EndArray)
    {
      out := out + "]";
    }

    /** Writes a comma unless this is the first item. */
    method BeginItem()
      modifies this
      ensures out == old(out) + (if old(first) then "" else ",") && !first
      ensures State() == Step(old(State()), Call.BeginItem)
    {
      if first {
        first := false;
      } else {
        out := out + ",";
      }
    }

    /** Does nothing. */
    method EndItem()
      modifies this
      ensures out == old(out) && first == old(first)
      ensures State() == Step(old(State()), Call.EndItem)
    {
    }
  }

  /** get_json_writer: a new writer bound to the stream, as the constructor builds it. */
  method GetJsonWriter() returns (w: JsonWriter)
    ensures fresh(w)
    ensures w.out == [] && !w.first
  {
    w := new JsonWriter();
  }
}
