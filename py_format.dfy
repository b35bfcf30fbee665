/**
 * A restricted model of Python's `str.format(**kwargs)`, the substitution that turns
 * `{name}` placeholders of the column registry and of the caller's fragments into text.
 *
 * Covered: literal text, the escapes `{{` and `}}`, fields `{name}` and `{name:spec}`
 * looked up by keyword, the specs "" and "+", and the errors Python raises for a lone
 * brace, an unterminated field, a positional field, a missing keyword (KeyError) and a
 * sign on a string. Attribute and index access (`.`, `[`), conversions (`!r`), nested
 * fields and every other spec give Unsupported, the edge of the model.
 *
 * Python formats left to right and raises the first error it meets, so Resolve scans and
 * renders in one pass; Tokenize and Render split the same work in two for reasoning, and
 * ResolveIsRender shows that they agree whenever the whole text scans.
 */
module PyFormat {
  import opened Outcome
  import opened Text

  /** A keyword argument's value: a string, or a number given by its `str()` text. */
  datatype Arg = Str(s: string) | Num(repr: string)

  type Kwargs = map<string, Arg>

  /** One unit of a scanned format string: a literal character or a replacement field. */
  datatype Token = Char(c: char) | Field(name: string, spec: string)

  predicate BraceFree(s: string) {
    '{' !in s && '}' !in s
  }

  /** The index of the first `c` in `s`, or |s| when there is none. */
  function FirstIndex(s: string, c: char): (k: nat)
    ensures k <= |s|
    ensures k < |s| ==> s[k] == c
    ensures forall i :: 0 <= i < k ==> s[i] != c
  {
    if |s| == 0 || s[0] == c then 0 else 1 + FirstIndex(s[1..], c)
  }

  predicate AllDigits(s: string) {
    forall i :: 0 <= i < |s| ==> IsDigit(s[i])
  }

  /** The text between `{` and `}`: a field name, then optionally `:` and a format spec. */
  function FieldOf(content: string): (r: Result<Token>)
    ensures r.Ok? ==> r.value.Field?
  {
    if '{' in content || '[' in content || '.' in content || '!' in content then
      Err(Unsupported(content))
    else
      var c := FirstIndex(content, ':');
      var name := content[..c];
      var spec := if c < |content| then content[c + 1..] else "";
      if name == "" || AllDigits(name) then Err(IndexError) else Ok(Field(name, spec))
  }

  /** A replacement field opened by the `{` at the head of `s`. */
  function OpenField(s: string): (r: Result<(Token, nat)>)
    requires |s| >= 2 && s[0] == '{'
    ensures r.Ok? ==> 2 <= r.value.1 <= |s|
  {
    var k := FirstIndex(s[1..], '}');
    if k == |s| - 1 then Err(ValueError("expected '}' before end of string"))
    else
      var t :- FieldOf(s[1..1 + k]);
      Ok((t, k + 2))
  }

  /** The next token of a non-empty format string and the number of characters it spans. */
  function Next(s: string): (r: Result<(Token, nat)>)
    requires |s| > 0
    ensures r.Ok? ==> 0 < r.value.1 <= |s|
  {
    if s[0] == '{' then
      if |s| == 1 then Err(ValueError("Single '{' encountered in format string"))
      else if s[1] == '{' then Ok((Char('{'), 2))
      else OpenField(s)
    else if s[0] == '}' then
      if |s| >= 2 && s[1] == '}' then Ok((Char('}'), 2))
      else Err(ValueError("Single '}' encountered in format string"))
    else Ok((Char(s[0]), 1))
  }

  function Tokenize(s: string): Result<seq<Token>>
    decreases |s|
  {
    if |s| == 0 then Ok([])
    else
      var p :- Next(s);
      var rest :- Tokenize(s[p.1..]);
      Ok([p.0] + rest)
  }

  /** Python's `format(value, spec)` for the two supported specs. */
  function FormatArg(a: Arg, spec: string): Result<string> {
    if spec == "" then Ok(match a case Str(s) => s case Num(r) => r)
    else if spec == "+" then
      match a
      case Num(r) => Ok(if |r| > 0 && r[0] == '-' then r else "+" + r)
      case Str(_) => Err(ValueError("Sign not allowed in string format specifier"))
    else Err(Unsupported(spec))
  }

  function RenderToken(t: Token, kw: Kwargs): Result<string> {
    match t
    case Char(c) => Ok([c])
    case Field(name, spec) => if name in kw then FormatArg(kw[name], spec) else Err(KeyError(name))
  }

  function Render(ts: seq<Token>, kw: Kwargs): Result<string> {
    if |ts| == 0 then Ok("")
    else
      var v :- RenderToken(ts[0], kw);
      var w :- Render(ts[1..], kw);
      Ok(v + w)
  }

  /** `s.format(**kw)`. */
  function Resolve(s: string, kw: Kwargs): Result<string>
    decreases |s|
  {
    if |s| == 0 then Ok("")
    else
      var p :- Next(s);
      var v :- RenderToken(p.0, kw);
      var w :- Resolve(s[p.1..], kw);
      Ok(v + w)
  }

  // ---------------------------------------------------------------------------
  // token helpers

  function Chars(s: string): (r: seq<Token>)
    ensures |r| == |s|
  {
    seq(|s|, i requires 0 <= i < |s| => Char(s[i]))
  }

  /** The fields of a token sequence, in order. */
  function FieldsOf(ts: seq<Token>): (r: seq<Token>)
    ensures forall i :: 0 <= i < |r| ==> r[i].Field?
  {
    if |ts| == 0 then [] else (if ts[0].Field? then [ts[0]] else []) + FieldsOf(ts[1..])
  }

  /** The literal characters of a token sequence, fields left out. */
  function LiteralText(ts: seq<Token>): string {
    if |ts| == 0 then "" else (if ts[0].Char? then [ts[0].c] else "") + LiteralText(ts[1..])
  }

  /** Whether `kw` can fill token `t` without an error. */
  predicate Accepts(kw: Kwargs, t: Token) {
    match t
    case Char(_) => true
    case Field(name, spec) => name in kw && (spec == "" || (spec == "+" && kw[name].Num?))
  }

  /** Every field of the list can be filled from `kw`. */
  predicate AcceptsAll(kw: Kwargs, fs: seq<Token>) {
    forall i :: 0 <= i < |fs| ==> Accepts(kw, fs[i])
  }

  predicate FieldsNewlineFree(ts: seq<Token>) {
    forall i :: 0 <= i < |ts| && ts[i].Field? ==> NewlineFree(ts[i].name) && NewlineFree(ts[i].spec)
  }

  /** What the tokens of `s` become when a tab is inserted after every newline of `s`. */
  function IndentTokens(ts: seq<Token>, tab: string): seq<Token> {
    if |ts| == 0 then []
    else (if ts[0] == Char('\n') then [Char('\n')] + Chars(tab) else [ts[0]]) + IndentTokens(ts[1..], tab)
  }

  /** The text a caller writes to get `s` back literally from format: braces doubled. */
  function Escape(s: string): string {
    if |s| == 0 then ""
    else (if s[0] == '{' then "{{" else if s[0] == '}' then "}}" else [s[0]]) + Escape(s[1..])
  }

  lemma CharsAppend(a: string, b: string)
    ensures Chars(a + b) == Chars(a) + Chars(b)
  {
    assert forall i :: 0 <= i < |a + b| ==> Chars(a + b)[i] == (Chars(a) + Chars(b))[i];
  }

  lemma {:induction false} FieldsOfAppend(a: seq<Token>, b: seq<Token>)
    ensures FieldsOf(a + b) == FieldsOf(a) + FieldsOf(b)
  {
    if |a| == 0 {
      assert a + b == b;
    } else {
      assert (a + b)[1..] == a[1..] + b;
      FieldsOfAppend(a[1..], b);
    }
  }

  lemma {:induction false} FieldsOfChars(s: string)
    ensures FieldsOf(Chars(s)) == []
  {
    if |s| > 0 {
      assert Chars(s)[1..] == Chars(s[1..]);
      FieldsOfChars(s[1..]);
    }
  }

  lemma {:induction false} LiteralTextAppend(a: seq<Token>, b: seq<Token>)
    ensures LiteralText(a + b) == LiteralText(a) + LiteralText(b)
  {
    if |a| == 0 {
      assert a + b == b;
    } else {
      var head := if a[0].Char? then [a[0].c] else "";
      assert (a + b)[0] == a[0];
      assert (a + b)[1..] == a[1..] + b;
      LiteralTextAppend(a[1..], b);
      calc {
        LiteralText(a + b);
        head + LiteralText(a[1..] + b);
        head + (LiteralText(a[1..]) + LiteralText(b));
        (head + LiteralText(a[1..])) + LiteralText(b);
      }
    }
  }

  // ---------------------------------------------------------------------------
  // locality: a token depends only on the characters it spans

  lemma {:induction false} FirstIndexPrefix(s: string, k: nat, b: string, c: char)
    requires k < |s| && s[k] == c
    requires forall i :: 0 <= i < k ==> s[i] != c
    ensures FirstIndex(s[..k + 1] + b, c) == k
    decreases k
  {
    if k > 0 {
      assert (s[..k + 1] + b)[1..] == s[1..][..k] + b;
      FirstIndexPrefix(s[1..], k - 1, b, c);
    }
  }

  lemma NextLocal(s: string, b: string)
    requires |s| > 0 && Next(s).Ok?
    ensures |s[..Next(s).value.1] + b| > 0
    ensures Next(s[..Next(s).value.1] + b) == Next(s)
  {
    var n := Next(s).value.1;
    var x := s[..n] + b;
    assert x[0] == s[0];
    if s[0] == '{' && s[1] != '{' {
      var k := FirstIndex(s[1..], '}');
      assert n == k + 2;
      assert x[1..] == s[1..][..k + 1] + b;
      FirstIndexPrefix(s[1..], k, b, '}');
      assert x[1..1 + k] == s[1..1 + k];
    } else if n == 2 {
      assert x[1] == s[1];
    }
  }

  lemma NextAppend(s: string, b: string)
    requires |s| > 0 && Next(s).Ok?
    ensures Next(s + b) == Next(s)
  {
    var n := Next(s).value.1;
    assert s + b == s[..n] + (s[n..] + b);
    NextLocal(s, s[n..] + b);
  }

  lemma TokenizeStep(s: string)
    requires |s| > 0 && Next(s).Ok?
    ensures Tokenize(s[Next(s).value.1..]).Err? ==> Tokenize(s) == Err(Tokenize(s[Next(s).value.1..]).error)
    ensures Tokenize(s[Next(s).value.1..]).Ok? ==> Tokenize(s) == Ok([Next(s).value.0] + Tokenize(s[Next(s).value.1..]).value)
  {
  }

  /** A text that scans completely scans the same way whatever follows it. */
  lemma {:induction false} TokenizeAppend(a: string, b: string)
    requires Tokenize(a).Ok?
    ensures Tokenize(b).Err? ==> Tokenize(a + b) == Err(Tokenize(b).error)
    ensures Tokenize(b).Ok? ==> Tokenize(a + b) == Ok(Tokenize(a).value + Tokenize(b).value)
    decreases |a|
  {
    if |a| == 0 {
      assert a + b == b;
      assert Tokenize(a) == Ok([]);
      if Tokenize(b).Ok? {
        assert [] + Tokenize(b).value == Tokenize(b).value;
      }
    } else {
      var p := Next(a).value;
      NextAppend(a, b);
      assert (a + b)[p.1..] == a[p.1..] + b;
      TokenizeAppend(a[p.1..], b);
      TokenizeStep(a);
      TokenizeStep(a + b);
      var ta := Tokenize(a[p.1..]).value;
      if Tokenize(b).Ok? {
        assert [p.0] + (ta + Tokenize(b).value) == ([p.0] + ta) + Tokenize(b).value;
      }
    }
  }

  lemma ResolveStep(s: string, kw: Kwargs)
    requires |s| > 0 && Next(s).Ok? && RenderToken(Next(s).value.0, kw).Ok?
    ensures Resolve(s[Next(s).value.1..], kw).Err? ==>
      Resolve(s, kw) == Err(Resolve(s[Next(s).value.1..], kw).error)
    ensures Resolve(s[Next(s).value.1..], kw).Ok? ==>
      Resolve(s, kw) == Ok(RenderToken(Next(s).value.0, kw).value + Resolve(s[Next(s).value.1..], kw).value)
  {
  }

  /** Formatting a text that formats completely, followed by more text. */
  lemma {:induction false} ResolveAppend(a: string, b: string, kw: Kwargs)
    requires Resolve(a, kw).Ok?
    ensures Resolve(b, kw).Err? ==> Resolve(a + b, kw) == Err(Resolve(b, kw).error)
    ensures Resolve(b, kw).Ok? ==> Resolve(a + b, kw) == Ok(Resolve(a, kw).value + Resolve(b, kw).value)
    decreases |a|
  {
    if |a| == 0 {
      assert a + b == b;
      assert Resolve(a, kw) == Ok("");
      if Resolve(b, kw).Ok? {
        assert "" + Resolve(b, kw).value == Resolve(b, kw).value;
      }
    } else {
      var p := Next(a).value;
      NextAppend(a, b);
      assert (a + b)[p.1..] == a[p.1..] + b;
      ResolveAppend(a[p.1..], b, kw);
      ResolveStep(a, kw);
      ResolveStep(a + b, kw);
      var v := RenderToken(p.0, kw).value;
      var ra := Resolve(a[p.1..], kw).value;
      if Resolve(b, kw).Ok? {
        assert v + (ra + Resolve(b, kw).value) == (v + ra) + Resolve(b, kw).value;
      }
    }
  }

  // ---------------------------------------------------------------------------
  // Resolve against Tokenize and Render

  /** When the whole text scans, formatting it is rendering its tokens. */
  lemma {:induction false} ResolveIsRender(s: string, kw: Kwargs)
    requires Tokenize(s).Ok?
    ensures Resolve(s, kw) == Render(Tokenize(s).value, kw)
    decreases |s|
  {
    if |s| > 0 {
      var p := Next(s).value;
      ResolveIsRender(s[p.1..], kw);
      assert Tokenize(s).value[1..] == Tokenize(s[p.1..]).value;
    }
  }

  /** Formatting succeeds only on a text that scans. */
  lemma {:induction false} ResolveOkScans(s: string, kw: Kwargs)
    requires Resolve(s, kw).Ok?
    ensures Tokenize(s).Ok?
    decreases |s|
  {
    if |s| > 0 {
      ResolveOkScans(s[Next(s).value.1..], kw);
    }
  }

  lemma RenderTokenOk(t: Token, kw: Kwargs)
    ensures RenderToken(t, kw).Ok? <==> Accepts(kw, t)
  {
  }

  /** Rendering succeeds exactly when every token can be filled. */
  lemma {:induction false} RenderOk(ts: seq<Token>, kw: Kwargs)
    ensures Render(ts, kw).Ok? <==> forall i :: 0 <= i < |ts| ==> Accepts(kw, ts[i])
  {
    if |ts| > 0 {
      RenderOk(ts[1..], kw);
      RenderTokenOk(ts[0], kw);
      assert forall i :: 1 <= i < |ts| ==> ts[i] == ts[1..][i - 1];
    }
  }

  /** Only the fields matter: literal characters always render. */
  lemma {:induction false} AcceptsFields(ts: seq<Token>, kw: Kwargs)
    ensures (forall i :: 0 <= i < |ts| ==> Accepts(kw, ts[i])) <==>
            (forall i :: 0 <= i < |FieldsOf(ts)| ==> Accepts(kw, FieldsOf(ts)[i]))
  {
    if |ts| > 0 {
      var rest := ts[1..];
      var tail := FieldsOf(rest);
      var f := FieldsOf(ts);
      AcceptsFields(rest, kw);
      var k := if ts[0].Field? then 1 else 0;
      assert f == (if ts[0].Field? then [ts[0]] else []) + tail;
      if forall i :: 0 <= i < |ts| ==> Accepts(kw, ts[i]) {
        forall j | 0 <= j < |rest| ensures Accepts(kw, rest[j]) {
          assert rest[j] == ts[j + 1];
        }
        forall i | 0 <= i < |f| ensures Accepts(kw, f[i]) {
          if i < k { assert f[i] == ts[0]; } else { assert f[i] == tail[i - k]; }
        }
      }
      if forall i :: 0 <= i < |f| ==> Accepts(kw, f[i]) {
        forall j | 0 <= j < |tail| ensures Accepts(kw, tail[j]) {
          assert tail[j] == f[j + k];
        }
        forall i | 0 <= i < |ts| ensures Accepts(kw, ts[i]) {
          if i > 0 { assert ts[i] == rest[i - 1]; } else if k == 1 { assert ts[0] == f[0]; }
        }
      }
    }
  }

  /**
   * For a text that scans, formatting succeeds exactly when every field has a keyword
   * of a kind its spec allows; in particular a field with no keyword is an error.
   */
  lemma ResolveOkIff(s: string, kw: Kwargs)
    requires Tokenize(s).Ok?
    ensures Resolve(s, kw).Ok? <==> AcceptsAll(kw, FieldsOf(Tokenize(s).value))
  {
    ResolveIsRender(s, kw);
    RenderOk(Tokenize(s).value, kw);
    AcceptsFields(Tokenize(s).value, kw);
  }

  // ---------------------------------------------------------------------------
  // texts without placeholders

  lemma {:induction false} TokenizeBraceFree(s: string)
    requires BraceFree(s)
    ensures Tokenize(s) == Ok(Chars(s))
  {
    if |s| > 0 {
      assert s[0] in s;
      assert forall c :: c in s[1..] ==> c in s;
      TokenizeBraceFree(s[1..]);
      assert Chars(s) == [Char(s[0])] + Chars(s[1..]);
    }
  }

  lemma {:induction false} RenderChars(s: string, kw: Kwargs)
    ensures Render(Chars(s), kw) == Ok(s)
  {
    if |s| > 0 {
      assert Chars(s)[1..] == Chars(s[1..]);
      RenderChars(s[1..], kw);
      assert [s[0]] + s[1..] == s;
    }
  }

  /** A text with no braces is left exactly as it is, whatever the keywords. */
  lemma ResolveBraceFree(s: string, kw: Kwargs)
    requires BraceFree(s)
    ensures Resolve(s, kw) == Ok(s)
  {
    TokenizeBraceFree(s);
    ResolveIsRender(s, kw);
    RenderChars(s, kw);
  }

  lemma BraceFreeAppend(a: string, b: string)
    ensures BraceFree(a + b) <==> BraceFree(a) && BraceFree(b)
  {
    assert forall c :: c in a + b <==> c in a || c in b;
  }

  lemma {:induction false} TokenizeEscape(s: string)
    ensures Tokenize(Escape(s)) == Ok(Chars(s))
  {
    if |s| > 0 {
      var e := Escape(s);
      var head := if s[0] == '{' then "{{" else if s[0] == '}' then "}}" else [s[0]];
      assert e == head + Escape(s[1..]);
      assert e[|head|..] == Escape(s[1..]);
      TokenizeEscape(s[1..]);
      assert Chars(s) == [Char(s[0])] + Chars(s[1..]);
    }
  }

  /** Doubling the braces of any text makes format give the text back: the escapes round-trip. */
  lemma ResolveEscape(s: string, kw: Kwargs)
    ensures Resolve(Escape(s), kw) == Ok(s)
  {
    TokenizeEscape(s);
    ResolveIsRender(Escape(s), kw);
    RenderChars(s, kw);
  }

  /**
   * With every field's keyword the empty string and no spec, format keeps exactly the
   * literal text: each placeholder disappears without a trace.
   */
  lemma {:induction false} RenderBlank(ts: seq<Token>, kw: Kwargs)
    requires forall i :: 0 <= i < |ts| && ts[i].Field? ==>
      ts[i].name in kw && kw[ts[i].name] == Str("") && ts[i].spec == ""
    ensures Render(ts, kw) == Ok(LiteralText(ts))
  {
    if |ts| > 0 {
      assert forall i :: 1 <= i < |ts| ==> ts[i] == ts[1..][i - 1];
      RenderBlank(ts[1..], kw);
    }
  }

  // ---------------------------------------------------------------------------
  // indentation of a format string

  lemma {:induction false} IndentTokensAppend(a: seq<Token>, b: seq<Token>, tab: string)
    ensures IndentTokens(a + b, tab) == IndentTokens(a, tab) + IndentTokens(b, tab)
  {
    if |a| == 0 {
      assert a + b == b;
    } else {
      assert (a + b)[1..] == a[1..] + b;
      IndentTokensAppend(a[1..], b, tab);
    }
  }

  /** Indentation only adds literal characters: the fields stay the same, in order. */
  lemma {:induction false} FieldsOfIndentTokens(ts: seq<Token>, tab: string)
    ensures FieldsOf(IndentTokens(ts, tab)) == FieldsOf(ts)
  {
    if |ts| > 0 {
      var head := if ts[0] == Char('\n') then [Char('\n')] + Chars(tab) else [ts[0]];
      FieldsOfIndentTokens(ts[1..], tab);
      FieldsOfAppend(head, IndentTokens(ts[1..], tab));
      if ts[0] == Char('\n') {
        FieldsOfAppend([Char('\n')], Chars(tab));
        FieldsOfChars(tab);
      }
    }
  }

  lemma FieldTextNewlineFree(content: string)
    requires FieldOf(content).Ok?
    requires NewlineFree(FieldOf(content).value.name) && NewlineFree(FieldOf(content).value.spec)
    ensures NewlineFree(content)
  {
    var c := FirstIndex(content, ':');
    if c < |content| {
      assert content == content[..c] + [':'] + content[c + 1..];
    } else {
      assert content == content[..c];
    }
  }

  /** The characters a successfully scanned token spans hold no newline unless it is one. */
  lemma NextSpanNewlineFree(s: string)
    requires |s| > 0 && Next(s).Ok?
    requires Next(s).value.0 != Char('\n')
    requires Next(s).value.0.Field? ==>
      NewlineFree(Next(s).value.0.name) && NewlineFree(Next(s).value.0.spec)
    ensures NewlineFree(s[..Next(s).value.1])
  {
    var n := Next(s).value.1;
    if s[0] == '{' && s[1] != '{' {
      var k := FirstIndex(s[1..], '}');
      FieldTextNewlineFree(s[1..1 + k]);
      assert s[..n] == [s[0]] + s[1..1 + k] + [s[1 + k]];
    } else if n == 2 {
      assert s[..n] == [s[0], s[1]];
    } else {
      assert s[..n] == [s[0]];
    }
  }

  /** A newline token followed by an inserted brace-free unit. */
  lemma TokenizeNewlineUnit(tab: string, tail: string)
    requires BraceFree(tab) && Tokenize(tail).Ok?
    ensures Tokenize("\n" + tab + tail) == Ok([Char('\n')] + Chars(tab) + Tokenize(tail).value)
  {
    var x := "\n" + (tab + tail);
    assert x == "\n" + tab + tail;
    TokenizeBraceFree(tab);
    TokenizeAppend(tab, tail);
    assert x[0] == '\n';
    assert Next(x) == Ok((Char('\n'), 1));
    assert x[1..] == tab + tail;
    TokenizeStep(x);
    assert [Char('\n')] + (Chars(tab) + Tokenize(tail).value) == [Char('\n')] + Chars(tab) + Tokenize(tail).value;
  }

  /** A token other than a newline, followed by a text that scans. */
  lemma TokenizeSpan(s: string, tail: string)
    requires |s| > 0 && Next(s).Ok? && Tokenize(tail).Ok?
    ensures Tokenize(s[..Next(s).value.1] + tail) == Ok([Next(s).value.0] + Tokenize(tail).value)
  {
    var p := Next(s).value;
    var x := s[..p.1] + tail;
    NextLocal(s, tail);
    assert x[p.1..] == tail;
    TokenizeStep(x);
  }

  /**
   * Inserting a brace-free unit after every newline of a format string whose fields hold
   * no newline scans to the same tokens with the unit's characters after each newline.
   */
  lemma {:induction false} TokenizeAfterNewlines(s: string, tab: string)
    requires BraceFree(tab)
    requires Tokenize(s).Ok? && FieldsNewlineFree(Tokenize(s).value)
    ensures Tokenize(AfterNewlines(s, tab)) == Ok(IndentTokens(Tokenize(s).value, tab))
    decreases |s|
  {
    if |s| == 0 {
      assert Tokenize(s) == Ok([]);
    } else {
      var p := Next(s).value;
      TokenizeStep(s);
      var ts := Tokenize(s).value;
      var rest := Tokenize(s[p.1..]).value;
      assert ts == [p.0] + rest;
      assert ts[0] == p.0 && ts[1..] == rest;
      assert forall i :: 0 <= i < |rest| ==> rest[i] == ts[i + 1];
      TokenizeAfterNewlines(s[p.1..], tab);
      if p.0 == Char('\n') {
        AfterNewlinesNewlineStep(s, tab);
      } else {
        AfterNewlinesSpanStep(s, tab);
      }
    }
  }

  /** One step of the above at a newline: the unit follows it. */
  lemma AfterNewlinesNewlineStep(s: string, tab: string)
    requires BraceFree(tab) && |s| > 0 && Next(s).Ok? && Next(s).value.0 == Char('\n')
    requires Tokenize(s[Next(s).value.1..]).Ok?
    requires Tokenize(AfterNewlines(s[Next(s).value.1..], tab)) ==
             Ok(IndentTokens(Tokenize(s[Next(s).value.1..]).value, tab))
    ensures Tokenize(AfterNewlines(s, tab)) ==
            Ok(IndentTokens([Next(s).value.0] + Tokenize(s[Next(s).value.1..]).value, tab))
  {
    var p := Next(s).value;
    var rest := Tokenize(s[p.1..]).value;
    var tail := AfterNewlines(s[p.1..], tab);
    assert s[0] == '\n' && p.1 == 1;
    assert AfterNewlines(s, tab) == "\n" + tab + tail;
    TokenizeNewlineUnit(tab, tail);
    var ts := [p.0] + rest;
    assert ts[0] == Char('\n') && ts[1..] == rest;
    assert IndentTokens(ts, tab) == [Char('\n')] + Chars(tab) + IndentTokens(rest, tab);
  }

  /** One step of the above at any other token: its text holds no newline and is kept. */
  lemma AfterNewlinesSpanStep(s: string, tab: string)
    requires BraceFree(tab) && |s| > 0 && Next(s).Ok? && Next(s).value.0 != Char('\n')
    requires Next(s).value.0.Field? ==>
      NewlineFree(Next(s).value.0.name) && NewlineFree(Next(s).value.0.spec)
    requires Tokenize(s[Next(s).value.1..]).Ok?
    requires Tokenize(AfterNewlines(s[Next(s).value.1..], tab)) ==
             Ok(IndentTokens(Tokenize(s[Next(s).value.1..]).value, tab))
    ensures Tokenize(AfterNewlines(s, tab)) ==
            Ok(IndentTokens([Next(s).value.0] + Tokenize(s[Next(s).value.1..]).value, tab))
  {
    var p := Next(s).value;
    var rest := Tokenize(s[p.1..]).value;
    var tail := AfterNewlines(s[p.1..], tab);
    NextSpanNewlineFree(s);
    assert s == s[..p.1] + s[p.1..];
    AfterNewlinesAppend(s[..p.1], s[p.1..], tab);
    AfterNewlinesOfFree(s[..p.1], tab);
    TokenizeSpan(s, tail);
    var ts := [p.0] + rest;
    assert ts[0] == p.0 && ts[1..] == rest;
    assert IndentTokens(ts, tab) == [p.0] + IndentTokens(rest, tab);
  }

  /** The same for the source's indentation: the unit first, then after each newline. */
  lemma TokenizeIndent(s: string, tab: string)
    requires BraceFree(tab) && NewlineFree(tab)
    requires Tokenize(s).Ok? && FieldsNewlineFree(Tokenize(s).value)
    ensures Tokenize(Indent(s, tab)).Ok?
    ensures FieldsOf(Tokenize(Indent(s, tab)).value) == FieldsOf(Tokenize(s).value)
  {
    var ts := Tokenize(s).value;
    IndentUnfold(s, tab);
    TokenizeAfterNewlines(s, tab);
    TokenizeBraceFree(tab);
    TokenizeAppend(tab, AfterNewlines(s, tab));
    FieldsOfAppend(Chars(tab), IndentTokens(ts, tab));
    FieldsOfChars(tab);
    FieldsOfIndentTokens(ts, tab);
  }

  // ---------------------------------------------------------------------------
  // the fields of a text, for reasoning about assembled queries

  predicate Scans(s: string) {
    Tokenize(s).Ok?
  }

  /** The replacement fields of a text that scans, in order. */
  function FieldsIn(s: string): seq<Token>
    requires Scans(s)
  {
    FieldsOf(Tokenize(s).value)
  }

  /** A keyword name as it may appear in a modelled replacement field. */
  predicate FieldName(name: string) {
    name != "" && !AllDigits(name) &&
    '{' !in name && '}' !in name && '[' !in name && '.' !in name && '!' !in name && ':' !in name
  }

  /** A name that does not start with a digit and has none of the field syntax characters. */
  lemma FieldNameOf(name: string)
    requires |name| > 0 && !IsDigit(name[0])
    requires '{' !in name && '}' !in name && '[' !in name && '.' !in name && '!' !in name && ':' !in name
    ensures FieldName(name)
  {
    assert !IsDigit(name[0]);
  }

  /** `{name}`. */
  function Placeholder(name: string): string {
    "{" + name + "}"
  }

  /** `{name:+}`: the value with its sign always written. */
  function SignedPlaceholder(name: string): string {
    "{" + name + ":+}"
  }

  lemma FirstIndexAt(s: string, k: nat, c: char)
    requires k < |s| && s[k] == c
    requires forall i :: 0 <= i < k ==> s[i] != c
    ensures FirstIndex(s, c) == k
  {
  }

  lemma FirstIndexAbsent(s: string, c: char)
    requires c !in s
    ensures FirstIndex(s, c) == |s|
  {
    assert forall i :: 0 <= i < |s| ==> s[i] != c by {
      assert forall i :: 0 <= i < |s| ==> s[i] in s;
    }
  }

  /** A text that is a single token. */
  lemma TokenizeOne(s: string, t: Token)
    requires |s| > 0 && Next(s) == Ok((t, |s|))
    ensures Tokenize(s) == Ok([t])
  {
    assert s[|s|..] == "";
    assert Tokenize(s[|s|..]) == Ok([]);
    TokenizeStep(s);
    assert [t] + [] == [t];
  }

  lemma NextPlaceholder(name: string)
    requires FieldName(name)
    ensures Next(Placeholder(name)) == Ok((Field(name, ""), |Placeholder(name)|))
  {
    var s := Placeholder(name);
    assert name[0] in name;
    assert s[1..] == name + "}";
    assert forall i :: 0 <= i < |name| ==> name[i] in name;
    FirstIndexAt(s[1..], |name|, '}');
    assert s[1..1 + |name|] == name;
    FirstIndexAbsent(name, ':');
    assert name[..|name|] == name;
    assert FieldOf(name) == Ok(Field(name, ""));
  }

  lemma TokenizePlaceholder(name: string)
    requires FieldName(name)
    ensures Tokenize(Placeholder(name)) == Ok([Field(name, "")])
  {
    NextPlaceholder(name);
    TokenizeOne(Placeholder(name), Field(name, ""));
  }

  lemma FieldOfSigned(name: string)
    requires FieldName(name)
    ensures FieldOf(name + ":+") == Ok(Field(name, "+"))
  {
    var content := name + ":+";
    assert forall i :: 0 <= i < |name| ==> name[i] in name && content[i] == name[i];
    assert forall c :: c in content ==> c in name || c == ':' || c == '+';
    FirstIndexAt(content, |name|, ':');
    assert content[..|name|] == name;
    assert content[|name| + 1..] == "+";
  }

  lemma NextSignedPlaceholder(name: string)
    requires FieldName(name)
    ensures Next(SignedPlaceholder(name)) == Ok((Field(name, "+"), |SignedPlaceholder(name)|))
  {
    var s := SignedPlaceholder(name);
    var content := name + ":+";
    assert name[0] in name;
    assert s == "{" + content + "}";
    assert s[1..] == content + "}";
    assert forall i :: 0 <= i < |name| ==> name[i] in name && content[i] == name[i];
    FirstIndexAt(s[1..], |content|, '}');
    assert s[1..1 + |content|] == content;
    FieldOfSigned(name);
  }

  lemma TokenizeSignedPlaceholder(name: string)
    requires FieldName(name)
    ensures Tokenize(SignedPlaceholder(name)) == Ok([Field(name, "+")])
  {
    NextSignedPlaceholder(name);
    TokenizeOne(SignedPlaceholder(name), Field(name, "+"));
  }

  lemma ScanPlaceholder(name: string)
    requires FieldName(name)
    ensures Scans(Placeholder(name)) && FieldsIn(Placeholder(name)) == [Field(name, "")]
  {
    TokenizePlaceholder(name);
    var ts := [Field(name, "")];
    assert ts[1..] == [];
    assert FieldsOf(ts) == [ts[0]] + FieldsOf(ts[1..]);
  }

  lemma ScanSignedPlaceholder(name: string)
    requires FieldName(name)
    ensures Scans(SignedPlaceholder(name)) && FieldsIn(SignedPlaceholder(name)) == [Field(name, "+")]
  {
    TokenizeSignedPlaceholder(name);
    var ts := [Field(name, "+")];
    assert ts[1..] == [];
    assert FieldsOf(ts) == [ts[0]] + FieldsOf(ts[1..]);
  }

  lemma ScanPlain(s: string)
    requires BraceFree(s)
    ensures Scans(s) && FieldsIn(s) == []
  {
    TokenizeBraceFree(s);
    FieldsOfChars(s);
  }

  /** The fields of two texts side by side are the fields of the first, then of the second. */
  lemma ScanConcat(a: string, b: string)
    requires Scans(a) && Scans(b)
    ensures Scans(a + b) && FieldsIn(a + b) == FieldsIn(a) + FieldsIn(b)
  {
    TokenizeAppend(a, b);
    FieldsOfAppend(Tokenize(a).value, Tokenize(b).value);
  }

  predicate FieldsInNewlineFree(s: string)
    requires Scans(s)
  {
    forall i :: 0 <= i < |FieldsIn(s)| ==> NewlineFree(FieldsIn(s)[i].name) && NewlineFree(FieldsIn(s)[i].spec)
  }

  lemma {:induction false} FieldsNewlineFreeOf(ts: seq<Token>)
    requires FieldsNewlineFree(FieldsOf(ts))
    ensures FieldsNewlineFree(ts)
  {
    if |ts| > 0 {
      var f := FieldsOf(ts);
      var tail := FieldsOf(ts[1..]);
      var k := if ts[0].Field? then 1 else 0;
      assert f == (if ts[0].Field? then [ts[0]] else []) + tail;
      assert forall j :: 0 <= j < |tail| ==> tail[j] == f[j + k];
      FieldsNewlineFreeOf(ts[1..]);
      assert forall i :: 1 <= i < |ts| ==> ts[i] == ts[1..][i - 1];
      if k == 1 {
        assert f[0] == ts[0];
      }
    }
  }

  /** Indenting a text by a plain unit keeps its fields, provided they hold no newline. */
  lemma ScanIndent(s: string, tab: string)
    requires BraceFree(tab) && NewlineFree(tab)
    requires Scans(s) && FieldsInNewlineFree(s)
    ensures Scans(Indent(s, tab)) && FieldsIn(Indent(s, tab)) == FieldsIn(s)
  {
    var f := FieldsOf(Tokenize(s).value);
    assert f == FieldsIn(s);
    assert forall i :: 0 <= i < |f| ==> NewlineFree(f[i].name) && NewlineFree(f[i].spec);
    assert FieldsNewlineFree(f);
    FieldsNewlineFreeOf(Tokenize(s).value);
    TokenizeIndent(s, tab);
  }

  /** Two texts that both format, formatted together. */
  lemma ResolveConcat(a: string, b: string, kw: Kwargs)
    requires Resolve(a, kw).Ok? && Resolve(b, kw).Ok?
    ensures Resolve(a + b, kw) == Ok(Resolve(a, kw).value + Resolve(b, kw).value)
  {
    ResolveAppend(a, b, kw);
  }
}
