/**
 * `rewrite_sparql(query, context, prefixes)`: rewrites the vocabulary
 * terms of a SPARQL query into the identifiers a JSON-LD context gives
 * them, and puts the prefix table in front as `PREFIX` declarations.
 *
 * The query is cut into tokens (angle-bracket IRIs, quoted literals,
 * `?variables`, words, the property-path `/`, white space, other
 * punctuation) whose texts, put back together, give the query again.
 * Only words made of letters and `_` are terms; every other token is
 * copied unchanged.
 */
module SparqlRewrite {
  import opened Wrappers
  import opened Text

  // ---------------------------------------------------------------------
  // Characters

  predicate IsSpace(c: char) {
    c == ' ' || c == '\t' || c == '\n' || c == '\r'
  }

  /** The characters of a vocabulary term, `[a-zA-Z_]`. */
  predicate IsTermChar(c: char) {
    'a' <= c <= 'z' || 'A' <= c <= 'Z' || c == '_'
  }

  /** The characters of a word: terms, keywords, numbers and prefixed names such as `prov:agent`. */
  predicate IsNameChar(c: char) {
    IsTermChar(c) || '0' <= c <= '9' || c == ':' || c == '-'
  }

  predicate IsQuote(c: char) {
    c == '"' || c == '\''
  }

  /** A character allowed between the brackets of an IRI. */
  predicate IsIriChar(c: char) {
    c != '>' && c != '<' && !IsSpace(c)
  }

  // ---------------------------------------------------------------------
  // Tokens

  datatype Token =
    | Space(raw: string)     // a run of white space
    | Word(raw: string)      // a run of name characters
    | Variable(raw: string)  // `?name` or `$name`
    | Iri(raw: string)       // `<...>`, brackets included
    | Literal(raw: string)   // a quoted string, quotes included
    | PathSep                // the `/` of a property path
    | Punct(c: char)         // any other single character
  {
    /** The text the token stands for in the query. */
    function Raw(): string {
      match this
      case PathSep => "/"
      case Punct(c) => [c]
      case _ => raw
    }
  }

  /** The text a sequence of tokens stands for. */
  function Render(ts: seq<Token>): string {
    if ts == [] then "" else ts[0].Raw() + Render(ts[1..])
  }

  lemma {:induction false} RenderAppend(a: seq<Token>, b: seq<Token>)
    ensures Render(a + b) == Render(a) + Render(b)
  {
    if a != [] {
      assert (a + b)[1..] == a[1..] + b;
      RenderAppend(a[1..], b);
    } else {
      assert a + b == b;
    }
  }

  // ---------------------------------------------------------------------
  // Lexing

  function SpanSpace(s: string): (n: nat)
    ensures n <= |s|
  {
    if s == [] || !IsSpace(s[0]) then 0 else 1 + SpanSpace(s[1..])
  }

  function SpanName(s: string): (n: nat)
    ensures n <= |s|
  {
    if s == [] || !IsNameChar(s[0]) then 0 else 1 + SpanName(s[1..])
  }

  /** Where the `>` closing an IRI is in `s` (the text after `<`); none if white space or `<` comes first. */
  function IriEnd(s: string): (k: Option<nat>)
    ensures k.Some? ==> k.value < |s|
  {
    if s == [] || s[0] == '<' || IsSpace(s[0]) then None
    else if s[0] == '>' then Some(0)
    else
      match IriEnd(s[1..])
      case None => None
      case Some(k) => Some(k + 1)
  }

  /** Where the quote `q` closing a literal is in `s` (the text after the opening quote). */
  function QuoteEnd(s: string, q: char): (k: Option<nat>)
    ensures k.Some? ==> k.value < |s|
  {
    if s == [] then None
    else if s[0] == q then Some(0)
    else
      match QuoteEnd(s[1..], q)
      case None => None
      case Some(k) => Some(k + 1)
  }

  /** The longest token at the front of `s`. An unclosed literal runs to the end of the query. */
  function NextToken(s: string): (t: Token)
    requires s != []
    ensures 0 < |t.Raw()| <= |s| && t.Raw() == s[..|t.Raw()|]
  {
    var c := s[0];
    if IsSpace(c) then Space(s[..SpanSpace(s)])
    else if IsNameChar(c) then Word(s[..SpanName(s)])
    else if (c == '?' || c == '$') && SpanName(s[1..]) > 0 then Variable(s[..1 + SpanName(s[1..])])
    else if c == '<' && IriEnd(s[1..]).Some? then Iri(s[..IriEnd(s[1..]).value + 2])
    else if IsQuote(c) then
      match QuoteEnd(s[1..], c)
      case Some(k) => Literal(s[..k + 2])
      case None => Literal(s)
    else if c == '/' then PathSep
    else Punct(c)
  }

  function Lex(s: string): seq<Token>
    decreases |s|
  {
    if s == [] then [] else
    var t := NextToken(s);
    [t] + Lex(s[|t.Raw()|..])
  }

  /** Lexing loses nothing: the tokens' texts give back the query, character for character. */
  lemma {:induction false} RenderLex(s: string)
    ensures Render(Lex(s)) == s
    decreases |s|
  {
    if s != [] {
      var t := NextToken(s);
      var rest := s[|t.Raw()|..];
      RenderLex(rest);
      assert ([t] + Lex(rest))[1..] == Lex(rest);
      assert s == t.Raw() + rest;
    }
  }

  // ---------------------------------------------------------------------
  // Token sequences the lexer gives back unchanged

  predicate WellFormedToken(t: Token) {
    match t
    case Space(s) => |s| > 0 && forall i :: 0 <= i < |s| ==> IsSpace(s[i])
    case Word(s) => |s| > 0 && forall i :: 0 <= i < |s| ==> IsNameChar(s[i])
    case Variable(s) => |s| > 1 && (s[0] == '?' || s[0] == '$') && forall i :: 1 <= i < |s| ==> IsNameChar(s[i])
    case Iri(s) => |s| > 1 && s[0] == '<' && s[|s| - 1] == '>' && forall i :: 1 <= i < |s| - 1 ==> IsIriChar(s[i])
    case Literal(s) => |s| > 1 && IsQuote(s[0]) && s[|s| - 1] == s[0] && forall i :: 1 <= i < |s| - 1 ==> s[i] != s[0]
    case PathSep => true
    case Punct(c) => !IsSpace(c) && !IsNameChar(c) && !IsQuote(c) && c !in "?$</"
  }

  /** Whether `c` right after `t` would be read as part of `t`. */
  predicate Continues(t: Token, c: char) {
    match t
    case Space(_) => IsSpace(c)
    case Word(_) => IsNameChar(c)
    case Variable(_) => IsNameChar(c)
    case _ => false
  }

  /** Well-formed tokens, none of which runs into the next. */
  predicate Canonical(ts: seq<Token>) {
    ts != [] ==>
      && WellFormedToken(ts[0])
      && (|ts| == 1 || ts[1].Raw() == [] || !Continues(ts[0], ts[1].Raw()[0]))
      && Canonical(ts[1..])
  }

  lemma {:induction false} CanonicalAppend(a: seq<Token>, b: seq<Token>)
    requires Canonical(a) && Canonical(b)
    requires a != [] && b != [] ==> !Continues(a[|a| - 1], b[0].Raw()[0])
    requires b != [] ==> WellFormedToken(b[0])
    ensures Canonical(a + b)
  {
    if a != [] {
      assert (a + b)[1..] == a[1..] + b;
      CanonicalAppend(a[1..], b);
    } else {
      assert a + b == b;
    }
  }

  lemma {:induction false} SpanSpaceAppend(s: string, r: string)
    requires forall i :: 0 <= i < |s| ==> IsSpace(s[i])
    requires r == [] || !IsSpace(r[0])
    ensures SpanSpace(s + r) == |s|
  {
    if s != [] {
      assert (s + r)[1..] == s[1..] + r;
      SpanSpaceAppend(s[1..], r);
    } else {
      assert s + r == r;
    }
  }

  lemma {:induction false} SpanNameAppend(s: string, r: string)
    requires forall i :: 0 <= i < |s| ==> IsNameChar(s[i])
    requires r == [] || !IsNameChar(r[0])
    ensures SpanName(s + r) == |s|
  {
    if s != [] {
      assert (s + r)[1..] == s[1..] + r;
      SpanNameAppend(s[1..], r);
    } else {
      assert s + r == r;
    }
  }

  lemma {:induction false} IriEndAppend(body: string, r: string)
    requires forall i :: 0 <= i < |body| ==> IsIriChar(body[i])
    ensures IriEnd(body + ">" + r) == Some(|body|)
  {
    if body != [] {
      assert (body + ">" + r)[1..] == body[1..] + ">" + r;
      IriEndAppend(body[1..], r);
    }
  }

  lemma {:induction false} QuoteEndAppend(body: string, q: char, r: string)
    requires forall i :: 0 <= i < |body| ==> body[i] != q
    ensures QuoteEnd(body + [q] + r, q) == Some(|body|)
  {
    if body != [] {
      assert (body + [q] + r)[1..] == body[1..] + [q] + r;
      QuoteEndAppend(body[1..], q, r);
    }
  }

  lemma NextTokenSpace(w: string, r: string)
    requires WellFormedToken(Space(w))
    requires r == [] || !IsSpace(r[0])
    ensures NextToken(w + r) == Space(w)
  {
    SpanSpaceAppend(w, r);
    assert (w + r)[..|w|] == w;
  }

  lemma NextTokenWord(w: string, r: string)
    requires WellFormedToken(Word(w))
    requires r == [] || !IsNameChar(r[0])
    ensures NextToken(w + r) == Word(w)
  {
    SpanNameAppend(w, r);
    assert (w + r)[0] == w[0];
    assert !IsSpace(w[0]);
    assert (w + r)[..|w|] == w;
  }

  lemma NextTokenVariable(w: string, r: string)
    requires WellFormedToken(Variable(w))
    requires r == [] || !IsNameChar(r[0])
    ensures NextToken(w + r) == Variable(w)
  {
    var s := w + r;
    assert s[0] == w[0];
    assert s[1..] == w[1..] + r;
    SpanNameAppend(w[1..], r);
    assert s[..|w|] == w;
  }

  lemma NextTokenIri(w: string, r: string)
    requires WellFormedToken(Iri(w))
    ensures NextToken(w + r) == Iri(w)
  {
    var s := w + r;
    var body := w[1..|w| - 1];
    assert s[0] == '<';
    assert s[1..] == body + ">" + r;
    IriEndAppend(body, r);
    assert s[..|w|] == w;
  }

  lemma NextTokenLiteral(w: string, r: string)
    requires WellFormedToken(Literal(w))
    ensures NextToken(w + r) == Literal(w)
  {
    var s := w + r;
    var body := w[1..|w| - 1];
    assert s[0] == w[0];
    assert s[1..] == body + [w[0]] + r;
    QuoteEndAppend(body, w[0], r);
    assert s[..|w|] == w;
  }

  /** A well-formed token followed by text that does not continue it is read back as that token. */
  lemma NextTokenOf(t: Token, r: string)
    requires WellFormedToken(t)
    requires r == [] || !Continues(t, r[0])
    ensures NextToken(t.Raw() + r) == t
  {
    match t
    case Space(w) => NextTokenSpace(w, r);
    case Word(w) => NextTokenWord(w, r);
    case Variable(w) => NextTokenVariable(w, r);
    case Iri(w) => NextTokenIri(w, r);
    case Literal(w) => NextTokenLiteral(w, r);
    case PathSep => assert ("/" + r)[0] == '/';
    case Punct(c) => assert ([c] + r)[0] == c;
  }

  /** A canonical token sequence survives rendering and lexing again. */
  lemma {:induction false} LexRender(ts: seq<Token>)
    requires Canonical(ts)
    ensures Lex(Render(ts)) == ts
  {
    if ts != [] {
      var rest := Render(ts[1..]);
      if ts[1..] != [] {
        assert ts[1..][0] == ts[1];
        assert rest == ts[1].Raw() + Render(ts[2..]) by {
          assert ts[1..][1..] == ts[2..];
        }
        assert rest[0] == ts[1].Raw()[0];
      }
      NextTokenOf(ts[0], rest);
      LexRender(ts[1..]);
      assert Render(ts)[|ts[0].Raw()|..] == rest;
    }
  }

  // ---------------------------------------------------------------------
  // The JSON-LD context

  /** A term definition, section 3.1 of JSON-LD 1.1: an IRI string, or an object with `@id` (and `@type`). */
  datatype TermDefinition =
    | IriString(iri: string)
    | Expanded(id: Option<string>, typ: Option<string>)

  /** The object under `"@context"`. */
  type Context = map<string, TermDefinition>

  datatype RewriteError = BadTermDefinition(term: string)

  /** A word the rewriter looks up: `[a-zA-Z_]+`. */
  predicate IsTerm(w: string) {
    |w| > 0 && forall i :: 0 <= i < |w| ==> IsTermChar(w[i])
  }

  /** The identifier the context gives `term`, none when it has no definition. */
  function Resolve(ctx: Context, term: string): Result<Option<string>, RewriteError> {
    if term !in ctx then Ok(None)
    else
      match ctx[term]
      case IriString(v) => Ok(Some(v))
      case Expanded(Some(id), _) => Ok(Some(id))
      case Expanded(None, _) => Err(BadTermDefinition(term))
  }

  /** An absolute IRI: what follows its first `:` starts with `//`; otherwise `prefix:suffix` is a compact IRI. */
  predicate IsAbsoluteIri(v: string) {
    var k := FirstIndexOf(v, ':');
    0 <= k && k + 2 < |v| && v[k + 1] == '/' && v[k + 2] == '/'
  }

  /** A compact IRI replaces the term as it is; an absolute IRI goes between angle brackets. */
  function Replacement(v: string): Token {
    if IsAbsoluteIri(v) then Iri("<" + v + ">") else Word(v)
  }

  function RewriteToken(t: Token, ctx: Context): Result<Token, RewriteError> {
    if t.Word? && IsTerm(t.raw) then
      match Resolve(ctx, t.raw)
      case Err(e) => Err(e)
      case Ok(None) => Ok(t)
      case Ok(Some(v)) => Ok(Replacement(v))
    else Ok(t)
  }

  /** Every token rewritten on its own, in order; the first bad term definition met is the error. */
  function RewriteTokens(ts: seq<Token>, ctx: Context): (r: Result<seq<Token>, RewriteError>)
    ensures r.Ok? ==> |r.value| == |ts|
  {
    if ts == [] then Ok([])
    else
      match RewriteToken(ts[0], ctx)
      case Err(e) => Err(e)
      case Ok(t) =>
        match RewriteTokens(ts[1..], ctx)
        case Err(e) => Err(e)
        case Ok(rest) => Ok([t] + rest)
  }

  /**
   * The rewrite is token-wise: it succeeds exactly when every token does,
   * and then the i-th output token is the i-th token rewritten.
   */
  lemma {:induction false} RewriteTokensPointwise(ts: seq<Token>, ctx: Context)
    ensures RewriteTokens(ts, ctx).Ok? <==> forall i :: 0 <= i < |ts| ==> RewriteToken(ts[i], ctx).Ok?
    ensures RewriteTokens(ts, ctx).Ok? ==>
      && |RewriteTokens(ts, ctx).value| == |ts|
      && forall i :: 0 <= i < |ts| ==> RewriteToken(ts[i], ctx) == Ok(RewriteTokens(ts, ctx).value[i])
  {
    if ts != [] {
      RewriteTokensPointwise(ts[1..], ctx);
      if RewriteToken(ts[0], ctx).Ok? && RewriteTokens(ts[1..], ctx).Ok? {
        var out := RewriteTokens(ts, ctx).value;
        forall i | 0 <= i < |ts| ensures RewriteToken(ts[i], ctx) == Ok(out[i]) {
          if i > 0 {
            assert ts[i] == ts[1..][i - 1];
          }
        }
      } else if RewriteToken(ts[0], ctx).Ok? {
        var i :| 0 <= i < |ts[1..]| && !RewriteToken(ts[1..][i], ctx).Ok?;
        assert ts[i + 1] == ts[1..][i];
      }
    }
  }

  lemma {:induction false} RewriteTokensAppend(a: seq<Token>, b: seq<Token>, ctx: Context, a': seq<Token>, b': seq<Token>)
    requires RewriteTokens(a, ctx) == Ok(a') && RewriteTokens(b, ctx) == Ok(b')
    ensures RewriteTokens(a + b, ctx) == Ok(a' + b')
  {
    if a != [] {
      assert (a + b)[0] == a[0];
      assert (a + b)[1..] == a[1..] + b;
      var t := RewriteToken(a[0], ctx).value;
      assert RewriteTokens(a[1..], ctx) == Ok(a'[1..]) && a' == [t] + a'[1..];
      RewriteTokensAppend(a[1..], b, ctx, a'[1..], b');
      assert a' + b' == [t] + (a'[1..] + b');
    } else {
      assert a' == [];
      assert a + b == b && a' + b' == b';
    }
  }

  // ---------------------------------------------------------------------
  // The prefix header

  /** `f"PREFIX {k}: <{v}>"`. */
  function PrefixLine(name: string, iri: string): string {
    "PREFIX " + name + ": <" + iri + ">"
  }

  /** `"\n".join(lines)`. */
  function Join(lines: seq<string>): string {
    if lines == [] then ""
    else if |lines| == 1 then lines[0]
    else lines[0] + "\n" + Join(lines[1..])
  }

  /** `s.split("\n")`. */
  function Lines(s: string): seq<string>
    decreases |s|
  {
    var k := FirstIndexOf(s, '\n');
    if k < 0 then [s] else [s[..k]] + Lines(s[k + 1..])
  }

  /** A first line without a line break, then a line break: the split gives that line, then the split of the rest. */
  lemma LinesCons(first: string, rest: string)
    requires '\n' !in first
    ensures Lines(first + "\n" + rest) == [first] + Lines(rest)
  {
    var s := first + "\n" + rest;
    assert s[|first|] == '\n';
    assert forall j :: 0 <= j < |first| ==> s[j] == first[j];
    assert FirstIndexOf(s, '\n') == |first|;
    assert s[..|first|] == first;
    assert s[|first| + 1..] == rest;
  }

  lemma {:induction false} LinesJoin(lines: seq<string>)
    requires |lines| > 0
    requires forall i :: 0 <= i < |lines| ==> '\n' !in lines[i]
    ensures Lines(Join(lines)) == lines
  {
    if |lines| > 1 {
      LinesCons(lines[0], Join(lines[1..]));
      LinesJoin(lines[1..]);
      assert lines == [lines[0]] + lines[1..];
    } else {
      assert FirstIndexOf(lines[0], '\n') < 0;
    }
  }

  /** Splitting text that starts with joined lines gives those lines, then the split of the rest. */
  lemma {:induction false} LinesJoinThen(lines: seq<string>, rest: string)
    requires |lines| > 0
    requires forall i :: 0 <= i < |lines| ==> '\n' !in lines[i]
    ensures Lines(Join(lines) + "\n" + rest) == lines + Lines(rest)
  {
    var first := lines[0];
    if |lines| > 1 {
      var tail := Join(lines[1..]) + "\n" + rest;
      assert Join(lines) + "\n" + rest == first + "\n" + tail;
      LinesCons(first, tail);
      LinesJoinThen(lines[1..], rest);
      assert lines == [first] + lines[1..];
    } else {
      LinesCons(first, rest);
    }
  }

  /** Every entry of the prefix table becomes one declaration line, in table order, whether the query uses it or not. */
  function Header(prefixes: seq<(string, string)>): string {
    Join(PrefixLines(prefixes))
  }

  function PrefixLines(prefixes: seq<(string, string)>): (lines: seq<string>)
    ensures |lines| == |prefixes|
    ensures forall i :: 0 <= i < |prefixes| ==> lines[i] == PrefixLine(prefixes[i].0, prefixes[i].1)
  {
    seq(|prefixes|, i requires 0 <= i < |prefixes| => PrefixLine(prefixes[i].0, prefixes[i].1))
  }

  /**
   * Splitting the header at line breaks gives back one `PREFIX name: <iri>`
   * line per table entry, in table order, when no name or IRI holds a
   * line break.
   */
  lemma HeaderLines(prefixes: seq<(string, string)>)
    requires |prefixes| > 0
    requires forall i :: 0 <= i < |prefixes| ==> '\n' !in prefixes[i].0 && '\n' !in prefixes[i].1
    ensures Lines(Header(prefixes)) == PrefixLines(prefixes)
  {
    var lines := PrefixLines(prefixes);
    forall i | 0 <= i < |lines| ensures '\n' !in lines[i] {
      var line := lines[i];
      assert line == "PREFIX " + prefixes[i].0 + ": <" + prefixes[i].1 + ">";
    }
    LinesJoin(lines);
  }

  // ---------------------------------------------------------------------
  // rewrite_sparql

  function RewriteSparql(query: string, ctx: Context, prefixes: seq<(string, string)>): Result<string, RewriteError> {
    match RewriteTokens(Lex(query), ctx)
    case Err(e) => Err(e)
    case Ok(body) => Ok(Header(prefixes) + "\n" + Render(body))
  }

  /**
   * A successful rewrite starts with one `PREFIX name: <iri>` line per
   * table entry, in table order, whether the query uses the entry or not;
   * when the table is not empty, the lines after them are exactly those of
   * the rewritten query (with an empty table the header is empty and the
   * output starts with an empty line).
   */
  lemma RewriteSparqlDeclaresAll(query: string, ctx: Context, prefixes: seq<(string, string)>)
    requires forall i :: 0 <= i < |prefixes| ==> '\n' !in prefixes[i].0 && '\n' !in prefixes[i].1
    ensures RewriteSparql(query, ctx, prefixes).Ok? ==>
      var lines := Lines(RewriteSparql(query, ctx, prefixes).value);
      |lines| > |prefixes| && lines[..|prefixes|] == PrefixLines(prefixes)
    ensures RewriteSparql(query, ctx, prefixes).Ok? && |prefixes| > 0 ==>
      Lines(RewriteSparql(query, ctx, prefixes).value)[|prefixes|..]
        == Lines(Render(RewriteTokens(Lex(query), ctx).value))
  {
    if RewriteSparql(query, ctx, prefixes).Ok? && |prefixes| > 0 {
      var body := Render(RewriteTokens(Lex(query), ctx).value);
      var lines := PrefixLines(prefixes);
      forall i | 0 <= i < |lines| ensures '\n' !in lines[i] {
        assert lines[i] == "PREFIX " + prefixes[i].0 + ": <" + prefixes[i].1 + ">";
      }
      LinesJoinThen(lines, body);
      assert (lines + Lines(body))[..|lines|] == lines;
      assert (lines + Lines(body))[|lines|..] == Lines(body);
    }
  }

  /** Tokens other than terms (IRIs, literals, variables, punctuation, unmapped words) are their own rewrite. */
  lemma RewriteKeeps(t: Token, ctx: Context)
    requires !t.Word? || !IsTerm(t.raw) || t.raw !in ctx
    ensures RewriteToken(t, ctx) == Ok(t)
  {
  }

  /**
   * The output is the header, a line break, then the query with each token
   * in place: a token that is not a term (an IRI, a literal, a variable)
   * appears in the output character for character, between the rewrites
   * of the tokens before it and after it.
   */
  lemma RewriteSparqlShape(query: string, ctx: Context, prefixes: seq<(string, string)>, i: nat)
    requires RewriteSparql(query, ctx, prefixes).Ok?
    requires i < |Lex(query)|
    requires !Lex(query)[i].Word? || !IsTerm(Lex(query)[i].raw)
    ensures var body := RewriteTokens(Lex(query), ctx).value;
      RewriteSparql(query, ctx, prefixes).value
        == Header(prefixes) + "\n" + Render(body[..i]) + Lex(query)[i].Raw() + Render(body[i + 1..])
  {
    var ts := Lex(query);
    RewriteTokensKeep(ts, ctx, i);
  }

  lemma RewriteTokensKeep(ts: seq<Token>, ctx: Context, i: nat)
    requires RewriteTokens(ts, ctx).Ok?
    requires i < |ts|
    requires !ts[i].Word? || !IsTerm(ts[i].raw)
    ensures var body := RewriteTokens(ts, ctx).value;
      Render(body) == Render(body[..i]) + ts[i].Raw() + Render(body[i + 1..])
  {
    var body := RewriteTokens(ts, ctx).value;
    RewriteTokensPointwise(ts, ctx);
    assert body[i] == ts[i];
    assert body == body[..i] + [body[i]] + body[i + 1..];
    RenderAppend(body[..i] + [body[i]], body[i + 1..]);
    RenderAppend(body[..i], [body[i]]);
    assert Render([body[i]]) == body[i].Raw() by {
      assert [body[i]][1..] == [];
    }
  }

  /**
   * A term with a definition becomes the identifier the definition gives:
   * a compact IRI as written, an absolute IRI between angle brackets; a
   * definition without `@id` is an error.
   */
  lemma RewriteTerm(w: string, ctx: Context)
    requires IsTerm(w) && w in ctx
    ensures ctx[w].IriString? ==> RewriteToken(Word(w), ctx) == Ok(Replacement(ctx[w].iri))
    ensures ctx[w].Expanded? && ctx[w].id.Some? ==> RewriteToken(Word(w), ctx) == Ok(Replacement(ctx[w].id.value))
    ensures ctx[w].Expanded? && ctx[w].id.None? ==> RewriteToken(Word(w), ctx) == Err(BadTermDefinition(w))
  {
  }
}
