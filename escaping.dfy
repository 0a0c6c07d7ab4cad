/** Options shared by the decoders of this model. */
module Options {
  datatype Option<+T> = None | Some(value: T)
}

/**
 * The string escaping performed by json_writer::write_value(const std::string&):
 * six characters become a backslash followed by a letter, every other character
 * (the double quote included) is copied unchanged.
 */
module Escaping {
  import opened Options

  const Backspace: char := 8 as char
  const FormFeed: char := 12 as char

  /** The six characters the writer replaces by a two-character escape. */
  predicate IsEscaped(c: char) {
    c == '\t' || c == FormFeed || c == '\r' || c == '\n' || c == '\\' || c == Backspace
  }

  /** The letter written after the backslash in the escape of `c`. */
  function EscapeLetter(c: char): char
    requires IsEscaped(c)
  {
    if c == '\t' then 't'
    else if c == FormFeed then 'f'
    else if c == '\r' then 'r'
    else if c == '\n' then 'n'
    else if c == '\\' then '\\'
    else 'b'
  }

  /** The character whose escape ends in the letter `d`, if there is one. */
  function UnescapeLetter(d: char): Option<char> {
    if d == 't' then Some('\t')
    else if d == 'f' then Some(FormFeed)
    else if d == 'r' then Some('\r')
    else if d == 'n' then Some('\n')
    else if d == '\\' then Some('\\')
    else if d == 'b' then Some(Backspace)
    else None
  }

  /** The characters that can follow a backslash in escaped text. */
  const EscapeLetters: string := "tfrn\\b"

  /** What one character of the input becomes in the output. */
  function EscapeChar(c: char): string {
    if IsEscaped(c) then ['\\', EscapeLetter(c)] else [c]
  }

  /**
   * The text written between the quotes for `s`: the characters of `s` in order,
   * each replaced by EscapeChar. Never shorter than `s`, at most twice as long.
   */
  function Escape(s: string): string {
    if s == [] then [] else Escape(s[..|s| - 1]) + EscapeChar(s[|s| - 1])
  }

  /** Escaping never shortens a text and at most doubles it. */
  lemma {:induction false} EscapeLength(s: string)
    ensures |s| <= |Escape(s)| <= 2 * |s|
    decreases |s|
  {
    if s != [] {
      EscapeLength(s[..|s| - 1]);
    }
  }

  /**
   * Inverse of Escape: undoes the six escapes and rejects every text Escape
   * cannot produce (a dangling or unknown escape, a raw control character
   * from the escaped set).
   */
  function Unescape(t: string): Option<string>
    decreases |t|
  {
    if t == [] then Some([])
    else if t[0] == '\\' then
      if |t| < 2 then None
      else match UnescapeLetter(t[1])
        case None => None
        case Some(c) =>
          match Unescape(t[2..])
          case None => None
          case Some(rest) => Some([c] + rest)
    else if IsEscaped(t[0]) then None
    else
      match Unescape(t[1..])
      case None => None
      case Some(rest) => Some([t[0]] + rest)
  }

  /** The letter table and its inverse agree, in both directions. */
  lemma LetterInverse(c: char, d: char)
    ensures IsEscaped(c) ==> UnescapeLetter(EscapeLetter(c)) == Some(c)
    ensures UnescapeLetter(d) == Some(c) ==> IsEscaped(c) && EscapeLetter(c) == d
  {
  }

  /** Escaping distributes over concatenation: it is a per-character mapping. */
  lemma {:induction false} EscapeConcat(a: string, b: string)
    ensures Escape(a + b) == Escape(a) + Escape(b)
    decreases |b|
  {
    if b == [] {
      assert a + b == a;
    } else {
      var b' := b[..|b| - 1];
      assert (a + b)[..|a + b| - 1] == a + b';
      assert (a + b)[|a + b| - 1] == b[|b| - 1];
      EscapeConcat(a, b');
    }
  }

  /** Escaping one more character of a prefix appends that character's escape. */
  lemma EscapeSnoc(s: string, i: nat)
    requires i < |s|
    ensures Escape(s[..i + 1]) == Escape(s[..i]) + EscapeChar(s[i])
  {
    assert s[..i + 1][..i] == s[..i];
  }

  /** Escape viewed from the front of the string. */
  lemma EscapeCons(c: char, s: string)
    ensures Escape([c] + s) == EscapeChar(c) + Escape(s)
  {
    EscapeConcat([c], s);
    assert [c][..0] == [];
  }

  /** Round trip: unescaping the escaped text gives back the original text. */
  lemma {:induction false} UnescapeOfEscape(s: string)
    ensures Unescape(Escape(s)) == Some(s)
    decreases |s|
  {
    if s != [] {
      var c, rest := s[0], s[1..];
      assert s == [c] + rest;
      EscapeCons(c, rest);
      UnescapeOfEscape(rest);
      var t := Escape(s);
      if IsEscaped(c) {
        LetterInverse(c, EscapeLetter(c));
        assert t[0] == '\\' && t[1] == EscapeLetter(c);
        assert t[2..] == Escape(rest);
      } else {
        assert t[0] == c && t[1..] == Escape(rest);
      }
    }
  }

  /** Unescape accepts only text Escape produced: whatever it returns escapes back to its input. */
  lemma {:induction false} EscapeOfUnescape(t: string, s: string)
    requires Unescape(t) == Some(s)
    ensures Escape(s) == t
    decreases |t|
  {
    if t != [] {
      if t[0] == '\\' {
        var c := UnescapeLetter(t[1]).value;
        LetterInverse(c, t[1]);
        var rest := Unescape(t[2..]).value;
        EscapeOfUnescape(t[2..], rest);
        assert s == [c] + rest;
        EscapeCons(c, rest);
        assert t == ['\\', t[1]] + t[2..];
      } else {
        var rest := Unescape(t[1..]).value;
        EscapeOfUnescape(t[1..], rest);
        assert s == [t[0]] + rest;
        EscapeCons(t[0], rest);
        assert t == [t[0]] + t[1..];
      }
    }
  }

  /** Unescape decodes exactly the texts Escape produces, and decodes them to their source. */
  lemma UnescapeIff(t: string, s: string)
    ensures Unescape(t) == Some(s) <==> t == Escape(s)
  {
    if Unescape(t) == Some(s) {
      EscapeOfUnescape(t, s);
    }
    if t == Escape(s) {
      UnescapeOfEscape(s);
    }
  }

  /** Escape is injective: two texts with the same escaped form are equal. */
  lemma EscapeInjective(a: string, b: string)
    requires Escape(a) == Escape(b)
    ensures a == b
  {
    UnescapeOfEscape(a);
    UnescapeOfEscape(b);
  }

  /**
   * Escape leaves a text unchanged exactly when none of its characters is in the
   * escaped set; the double quote in particular always passes through.
   */
  lemma {:induction false} EscapeIdentity(s: string)
    ensures Escape(s) == s <==> forall i :: 0 <= i < |s| ==> !IsEscaped(s[i])
    ensures |Escape(s)| == |s| <==> Escape(s) == s
    decreases |s|
  {
    if s != [] {
      var s' := s[..|s| - 1];
      EscapeIdentity(s');
      if forall i :: 0 <= i < |s| ==> !IsEscaped(s[i]) {
        assert forall i :: 0 <= i < |s'| ==> !IsEscaped(s'[i]) by {
          forall i | 0 <= i < |s'| ensures !IsEscaped(s'[i]) { assert s'[i] == s[i]; }
        }
        assert s == s' + [s[|s| - 1]];
      } else {
        var i :| 0 <= i < |s| && IsEscaped(s[i]);
        EscapeLength(s');
        if i == |s| - 1 {
          assert |EscapeChar(s[i])| == 2;
        } else {
          assert IsEscaped(s'[i]);
        }
        assert |Escape(s)| > |s|;
      }
    }
  }

  /** A text with none of the six characters is written as it is. */
  lemma EscapePlain(s: string)
    requires forall c | c in s :: !IsEscaped(c)
    ensures Escape(s) == s
  {
    EscapeIdentity(s);
    forall i | 0 <= i < |s| ensures !IsEscaped(s[i]) {
      assert s[i] in s;
    }
  }

  /** One escaped character between two plain texts. */
  lemma EscapeBetween(a: string, c: char, b: string)
    requires forall x | x in a :: !IsEscaped(x)
    requires forall x | x in b :: !IsEscaped(x)
    ensures Escape(a + [c] + b) == a + EscapeChar(c) + b
  {
    EscapeConcat(a + [c], b);
    EscapeConcat(a, [c]);
    EscapePlain(a);
    EscapePlain(b);
    assert Escape([c]) == Escape([]) + EscapeChar(c);
  }

  /**
   * Every character of the escaped text either comes from the input or belongs to
   * an escape sequence; so a character outside the escape alphabet (a comma, a
   * brace, a bracket) occurs in the output only if it occurs in the input.
   */
  lemma {:induction false} EscapeChars(s: string, x: char)
    ensures x in Escape(s) ==> x in s || x in EscapeLetters
    ensures x in s && !IsEscaped(x) ==> x in Escape(s)
    decreases |s|
  {
    if s != [] {
      var s' := s[..|s| - 1];
      var c := s[|s| - 1];
      assert s == s' + [c];
      EscapeChars(s', x);
      assert Escape(s) == Escape(s') + EscapeChar(c);
      if IsEscaped(c) {
        assert EscapeChar(c) == ['\\', EscapeLetter(c)];
        assert '\\' in EscapeLetters;
        assert EscapeLetter(c) in EscapeLetters;
      }
    }
  }
}
