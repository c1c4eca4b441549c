/** Python's f-string template syntax, as LangChain's `PromptTemplate` reads
    it through `string.Formatter().parse`: `{{` and `}}` stand for literal
    braces, and `{name}` (optionally `{name:spec}` or `{name!conv}`) is a
    replacement field. */
module Templates {
  import opened Results

  /** The position of the first `c` in `s`, or `|s|` when there is none. */
  function IndexOf(s: string, c: char): (r: nat)
    ensures r <= |s|
    ensures r < |s| ==> s[r] == c
    ensures forall k :: 0 <= k < r ==> s[k] != c
  {
    if |s| == 0 || s[0] == c then 0 else 1 + IndexOf(s[1..], c)
  }

  /** The name of a replacement field: its text up to the first `:` (the
      start of a format spec) or `!` (the start of a conversion). */
  function FieldName(field: string): (r: string)
    ensures |r| <= |field| && r == field[..|r|]
    ensures ':' !in r && '!' !in r
    ensures |r| < |field| ==> field[|r|] == ':' || field[|r|] == '!'
  {
    if |field| == 0 || field[0] == ':' || field[0] == '!' then ""
    else [field[0]] + FieldName(field[1..])
  }

  /** The field names that `Formatter().parse(s)` yields, in order, or the
      `ValueError` it raises for a lone `}`, an unclosed `{`, or a `{` inside
      a field name. A field ends at the first `}` after its `{`. */
  function Fields(s: string): Result<seq<string>>
    decreases |s|
  {
    if |s| == 0 then Ok([])
    else if |s| >= 2 && s[0] == '{' && s[1] == '{' then Fields(s[2..])
    else if |s| >= 2 && s[0] == '}' && s[1] == '}' then Fields(s[2..])
    else if s[0] == '}' then Err("ValueError")
    else if s[0] == '{' then
      var close := 1 + IndexOf(s[1..], '}');
      if close == |s| then Err("ValueError")
      else
        var name := FieldName(s[1..close]);
        if '{' in name then Err("ValueError")
        else
          var rest :- Fields(s[close + 1..]);
          Ok([name] + rest)
    else Fields(s[1..])
  }

  /** One character of literal text as written into a template: a brace
      doubled, any other character as it is. */
  function EscapeChar(c: char): (r: string)
    ensures |r| >= 1 && r[0] == c
    ensures |r| == 2 <==> c == '{' || c == '}'
    ensures |r| == 2 ==> r[1] == c
  {
    if c == '{' || c == '}' then [c, c] else [c]
  }

  /** Literal text written into a template: every brace doubled. */
  function Escape(s: string): (r: string)
    ensures |r| >= |s|
  {
    if |s| == 0 then "" else EscapeChar(s[0]) + Escape(s[1..])
  }

  /** The replacement field `{name}`. */
  function Placeholder(name: string): string {
    "{" + name + "}"
  }

  /** A name that can stand between the braces of a field as it is. */
  predicate PlainName(name: string) {
    '{' !in name && '}' !in name && ':' !in name && '!' !in name
  }

  /** One escaped character contributes no field. */
  lemma FieldsAfterEscapedChar(c: char, rest: string)
    ensures Fields(EscapeChar(c) + rest) == Fields(rest)
  {
    var head := EscapeChar(c);
    var x := head + rest;
    assert x[|head|..] == rest;
    assert x[0] == c;
    if |head| == 2 {
      assert x[1] == c;
    }
  }

  /** Escaped text followed by more text, split after its first character. */
  lemma EscapeUnfolds(s: string, rest: string)
    requires |s| > 0
    ensures Escape(s) + rest == EscapeChar(s[0]) + (Escape(s[1..]) + rest)
  {
  }

  /** Escaped text contributes no field and ends on a field boundary. */
  lemma {:induction false} FieldsAfterEscape(s: string, rest: string)
    ensures Fields(Escape(s) + rest) == Fields(rest)
  {
    if |s| > 0 {
      var tail := Escape(s[1..]) + rest;
      FieldsAfterEscape(s[1..], rest);
      FieldsAfterEscapedChar(s[0], tail);
      EscapeUnfolds(s, rest);
    } else {
      assert Escape(s) + rest == rest;
    }
  }

  /** Where a field `{name}` with no `}` in its name ends: the first `}`
      after its `{` is the one written after the name. */
  lemma PlaceholderParts(name: string, rest: string)
    requires '}' !in name
    ensures var s := Placeholder(name) + rest;
      && |s| >= 2 && s[0] == '{'
      && s[1] == (if |name| > 0 then name[0] else '}')
      && 1 + IndexOf(s[1..], '}') == 1 + |name|
      && s[1..1 + |name|] == name
      && s[1 + |name| + 1..] == rest
  {
    var s := Placeholder(name) + rest;
    var inner := s[1..];
    assert inner == name + "}" + rest;
    assert inner[|name|] == '}';
    assert s[1..1 + |name|] == name;
    assert s[1 + |name| + 1..] == rest;
  }

  /** A field `{name}` with a plain name yields that name, then parsing goes on
      after its closing brace. */
  lemma FieldsAfterField(name: string, rest: string)
    requires PlainName(name)
    ensures Fields(Placeholder(name) + rest).Ok? <==> Fields(rest).Ok?
    ensures Fields(rest).Ok? ==> Fields(Placeholder(name) + rest) == Ok([name] + Fields(rest).value)
  {
    PlaceholderParts(name, rest);
    assert FieldName(name) == name;
  }

  /** A `{` inside a field's name is the `ValueError` "unexpected '{' in field
      name", for parsing and for formatting alike, whatever follows. */
  lemma BraceInFieldName(name: string, rest: string, env: map<string, string>)
    requires '{' in name && name[0] != '{' && '}' !in name && ':' !in name && '!' !in name
    ensures Fields(Placeholder(name) + rest) == Err("ValueError")
    ensures Format(Placeholder(name) + rest, env) == Err("ValueError")
  {
    PlaceholderParts(name, rest);
    assert FieldName(name) == name;
  }

  /** `s.format(**env)` for string values: doubled braces become single ones
      and each field is replaced by its value; a field with no value is the
      `KeyError` Python raises, and a malformed template (as `Fields` defines
      it) its `ValueError`.
      Format specs and conversions are not applied. */
  function Format(s: string, env: map<string, string>): Result<string>
    decreases |s|
  {
    if |s| == 0 then Ok("")
    else if |s| >= 2 && s[0] == '{' && s[1] == '{' then
      var rest :- Format(s[2..], env); Ok("{" + rest)
    else if |s| >= 2 && s[0] == '}' && s[1] == '}' then
      var rest :- Format(s[2..], env); Ok("}" + rest)
    else if s[0] == '}' then Err("ValueError")
    else if s[0] == '{' then
      var close := 1 + IndexOf(s[1..], '}');
      if close == |s| then Err("ValueError")
      else
        var name := FieldName(s[1..close]);
        if '{' in name then Err("ValueError")
        else if name !in env then Err("KeyError")
        else
          var rest :- Format(s[close + 1..], env);
          Ok(env[name] + rest)
    else
      var rest :- Format(s[1..], env); Ok([s[0]] + rest)
  }

  /** One escaped character formats to itself, then formatting goes on. */
  lemma FormatAfterEscapedChar(c: char, rest: string, env: map<string, string>)
    ensures Format(EscapeChar(c) + rest, env).Ok? <==> Format(rest, env).Ok?
    ensures Format(rest, env).Ok? ==> Format(EscapeChar(c) + rest, env) == Ok([c] + Format(rest, env).value)
  {
    var head := EscapeChar(c);
    var x := head + rest;
    assert x[|head|..] == rest;
    assert x[0] == c;
    if |head| == 2 {
      assert x[1] == c;
    }
  }

  /** Formatting escaped text gives the text back, then goes on with the rest. */
  lemma FormatAfterEscape(s: string, rest: string, env: map<string, string>)
    ensures Format(Escape(s) + rest, env).Ok? <==> Format(rest, env).Ok?
    ensures Format(rest, env).Ok? ==> Format(Escape(s) + rest, env) == Ok(s + Format(rest, env).value)
  {
    if Format(rest, env).Ok? {
      EscapeFormatsToItself(s, rest, env, Format(rest, env).value);
    } else {
      EscapeKeepsFormatError(s, rest, env);
    }
  }

  /** The `Ok` half of `FormatAfterEscape`, by induction on the text. */
  lemma {:induction false} EscapeFormatsToItself(s: string, rest: string, env: map<string, string>, out: string)
    requires Format(rest, env) == Ok(out)
    ensures Format(Escape(s) + rest, env) == Ok(s + out)
  {
    if |s| > 0 {
      EscapeFormatsToItself(s[1..], rest, env, out);
      FormatAfterEscapedChar(s[0], Escape(s[1..]) + rest, env);
      EscapeUnfolds(s, rest);
      assert [s[0]] + (s[1..] + out) == s + out;
    } else {
      assert Escape(s) + rest == rest;
      assert s + out == out;
    }
  }

  /** The `Err` half of `FormatAfterEscape`, by induction on the text. */
  lemma {:induction false} EscapeKeepsFormatError(s: string, rest: string, env: map<string, string>)
    requires Format(rest, env).Err?
    ensures Format(Escape(s) + rest, env).Err?
  {
    if |s| > 0 {
      EscapeKeepsFormatError(s[1..], rest, env);
      FormatAfterEscapedChar(s[0], Escape(s[1..]) + rest, env);
      EscapeUnfolds(s, rest);
    } else {
      assert Escape(s) + rest == rest;
    }
  }

  /** Formatting a field `{name}` with a plain name gives its value, then goes
      on after the closing brace. */
  lemma FormatAfterField(name: string, rest: string, env: map<string, string>)
    requires PlainName(name) && name in env
    ensures Format(Placeholder(name) + rest, env).Ok? <==> Format(rest, env).Ok?
    ensures Format(rest, env).Ok? ==> Format(Placeholder(name) + rest, env) == Ok(env[name] + Format(rest, env).value)
  {
    PlaceholderParts(name, rest);
    assert FieldName(name) == name;
  }
}
