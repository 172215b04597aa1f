/**
 * The five `rewrite_sparql` cases of the store archetype's tests, over
 * the test context (nine term definitions) and the three-entry prefix
 * table.
 *
 * Each query is given as the tokens of its text, two at a time, and
 * `QueryNUptoI` is the query up to and including part I; its expected
 * body is the same tokens with the mapped terms replaced. Every two-token
 * part is shown to read (well formed, not running into the next token,
 * rewritten into the matching expected token), and the parts are put end
 * to end with `ReadsJoin`. `QueryNTextI` shows that the text of the first
 * parts is the test's string up to there, written a part at a time.
 * `ReadsAll` then turns a query that reads into the answer of
 * `RewriteSparql`: `prefixes_string`, a line break and the expected text.
 *
 * The statements are the five lemmas `Case1` .. `Case5` at the end of each
 * case's block; everything else here is the scaffolding they rest on.
 */
module RewriteCases {
  import opened Wrappers
  import opened Text
  import opened SparqlRewrite

  /** The `"@context"` of the test fixture. */
  function TestContext(): Context {
    map[
      "type" := Expanded(Some("rdf:type"), Some("@id")),
      "rdf" := IriString("http://www.w3.org/1999/02/22-rdf-syntax-ns#"),
      "prov" := IriString("http://www.w3.org/ns/prov#"),
      "schema" := IriString("http://schema.org/"),
      "Person" := Expanded(Some("schema:Person"), Some("@id")),
      "Association" := IriString("prov:Association"),
      "name" := IriString("schema:name"),
      "agent" := IriString("prov:agent"),
      "description" := IriString("http://schema.org/description")
    ]
  }

  /** The prefix table of the test fixture, in its insertion order. */
  function TestPrefixes(): seq<(string, string)> {
    [ ("rdf", "http://www.w3.org/1999/02/22-rdf-syntax-ns#"),
      ("prov", "http://www.w3.org/ns/prov#"),
      ("schema", "http://schema.org/") ]
  }

  /** The test's `prefixes_string`: one `PREFIX k: <v>` line per entry of `prefixes`, joined by line breaks. */
  function PrefixesString(): string {
    "PREFIX rdf: <" + "http://www.w3.org/1999/02/22-rdf-syntax-ns#" + ">" + "\n" +
    "PREFIX prov: <" + "http://www.w3.org/ns/prov#" + ">" + "\n" +
    "PREFIX schema: <" + "http://schema.org/" + ">"
  }

  /** Regrouping a concatenation of strings. */
  lemma Assoc(a: string, b: string, c: string) ensures a + (b + c) == a + b + c {}

  /** The three declaration lines of the test table, as the test's f-string writes them. */
  lemma TestPrefixLines()
    ensures PrefixLines(TestPrefixes()) == [
      "PREFIX rdf: <" + "http://www.w3.org/1999/02/22-rdf-syntax-ns#" + ">",
      "PREFIX prov: <" + "http://www.w3.org/ns/prov#" + ">",
      "PREFIX schema: <" + "http://schema.org/" + ">"]
  {
    assert PrefixLine("rdf", "http://www.w3.org/1999/02/22-rdf-syntax-ns#") == "PREFIX rdf: <" + "http://www.w3.org/1999/02/22-rdf-syntax-ns#" + ">";
    assert PrefixLine("prov", "http://www.w3.org/ns/prov#") == "PREFIX prov: <" + "http://www.w3.org/ns/prov#" + ">";
    assert PrefixLine("schema", "http://schema.org/") == "PREFIX schema: <" + "http://schema.org/" + ">";
  }

  /** The header for the test table is the test's `prefixes_string`. */
  lemma TestHeader()
    ensures Header(TestPrefixes()) == PrefixesString()
  {
    var i0, i1, i2 := "http://www.w3.org/1999/02/22-rdf-syntax-ns#", "http://www.w3.org/ns/prov#", "http://schema.org/";
    var p0, p1, p2 := "PREFIX rdf: <", "PREFIX prov: <", "PREFIX schema: <";
    var l0, l1, l2 := p0 + i0 + ">", p1 + i1 + ">", p2 + i2 + ">";
    TestPrefixLines();
    assert Header(TestPrefixes()) == l0 + "\n" + (l1 + "\n" + l2);
    var a := l0 + "\n";
    Assoc(a, l1 + "\n" + p2 + i2, ">");
    Assoc(a, l1 + "\n" + p2, i2);
    Assoc(a, l1 + "\n", p2);
    Assoc(a, l1, "\n");
    Assoc(a, p1 + i1, ">");
    Assoc(a, p1, i1);
  }

  /** `http://schema.org/description` is absolute: its first `:` is followed by `//`. */
  lemma DescriptionIsAbsolute() ensures IsAbsoluteIri("http://schema.org/description") {
    var v := "http://schema.org/description";
    assert v[..7] == "http://";
    assert FirstIndexOf(v, ':') == 4;
  }

  /** The full IRI of `description`, between angle brackets, as the expected query writes it. */
  lemma DescriptionIri() ensures "<" + "http://schema.org/description" + ">" == "<http://schema.org/description>" {}

  /** The IRI `<http://exaplpe.org/1234>` of the first and fifth queries is one well-formed token. */
  lemma ExampleIri() ensures WellFormedToken(Iri("<http://exaplpe.org/1234>")) {}

  // ---------------------------------------------------------------------
  // Reading a query token by token

  /**
   * Token `k` of `ts` is well formed, does not run into the token after
   * it, and is rewritten under `ctx` into token `k` of `out`.
   */
  predicate TokenReads(ts: seq<Token>, out: seq<Token>, ctx: Context, k: nat)
    requires k < |ts| == |out|
  {
    && WellFormedToken(ts[k])
    && (k + 1 == |ts| || ts[k + 1].Raw() == [] || !Continues(ts[k], ts[k + 1].Raw()[0]))
    && RewriteToken(ts[k], ctx) == Ok(out[k])
  }

  /** Tokens `i` to `j` (excluded) all read; one token at a time, so that it unfolds on given tokens. */
  predicate ReadsRange(ts: seq<Token>, out: seq<Token>, ctx: Context, i: nat, j: nat)
    requires i <= j <= |ts| == |out|
    decreases j - i
  {
    i == j || (TokenReads(ts, out, ctx, i) && ReadsRange(ts, out, ctx, i + 1, j))
  }

  lemma {:induction false} ReadsRangeEach(ts: seq<Token>, out: seq<Token>, ctx: Context, i: nat, j: nat)
    requires i <= j <= |ts| == |out|
    ensures ReadsRange(ts, out, ctx, i, j) <==> forall k :: i <= k < j ==> TokenReads(ts, out, ctx, k)
    decreases j - i
  {
    if i < j {
      ReadsRangeEach(ts, out, ctx, i + 1, j);
    }
  }

  /** Every token of `ts` reads, into the matching token of `out`. */
  predicate Reads(ts: seq<Token>, out: seq<Token>, ctx: Context) {
    |ts| == |out| && ReadsRange(ts, out, ctx, 0, |ts|)
  }

  /** Two readings put end to end read, when the first one's last token does not run into the second. */
  lemma ReadsJoin(a: seq<Token>, oa: seq<Token>, b: seq<Token>, ob: seq<Token>, ctx: Context)
    requires Reads(a, oa, ctx) && Reads(b, ob, ctx)
    requires a != [] && b != []
    requires b[0].Raw() == [] || !Continues(a[|a| - 1], b[0].Raw()[0])
    ensures Reads(a + b, oa + ob, ctx)
  {
    ReadsRangeEach(a, oa, ctx, 0, |a|);
    ReadsRangeEach(b, ob, ctx, 0, |b|);
    ReadsRangeEach(a + b, oa + ob, ctx, 0, |a + b|);
    forall k | 0 <= k < |a + b| ensures TokenReads(a + b, oa + ob, ctx, k) {
      if k < |a| {
        assert TokenReads(a, oa, ctx, k);
      } else {
        assert TokenReads(b, ob, ctx, k - |a|);
      }
    }
  }

  lemma {:induction false} ReadsRangeCanonical(ts: seq<Token>, out: seq<Token>, ctx: Context, i: nat)
    requires i <= |ts| == |out| && ReadsRange(ts, out, ctx, i, |ts|)
    ensures Canonical(ts[i..])
    decreases |ts| - i
  {
    if i < |ts| {
      ReadsRangeCanonical(ts, out, ctx, i + 1);
      assert ts[i..][1..] == ts[i + 1..];
    }
  }

  /**
   * A query given by tokens that all read: lexing its text gives the same
   * tokens back, and `rewrite_sparql` answers with the header, a line
   * break and the text of the rewritten tokens.
   */
  lemma ReadsAll(ts: seq<Token>, out: seq<Token>, ctx: Context, prefixes: seq<(string, string)>)
    requires Reads(ts, out, ctx)
    ensures Lex(Render(ts)) == ts
    ensures RewriteSparql(Render(ts), ctx, prefixes) == Ok(Header(prefixes) + "\n" + Render(out))
  {
    ReadsRangeCanonical(ts, out, ctx, 0);
    assert ts[0..] == ts;
    LexRender(ts);
    ReadsRangeEach(ts, out, ctx, 0, |ts|);
    forall k | 0 <= k < |ts| ensures RewriteToken(ts[k], ctx) == Ok(out[k]) {
      assert TokenReads(ts, out, ctx, k);
    }
    RewriteTokensPointwise(ts, ctx);
    assert RewriteTokens(ts, ctx).value == out;
  }

  // ---------------------------------------------------------------------
  // The cases: each query as the tokens of its text, a few at a time, and
  // each expected body as the same tokens with the terms replaced

  /** What the test context turns each term the cases use into. */
  lemma AgentTerm() ensures RewriteToken(Word("agent"), TestContext()) == Ok(Word("prov:agent")) {}
  lemma TypeTerm() ensures RewriteToken(Word("type"), TestContext()) == Ok(Word("rdf:type")) {}
  lemma PersonTerm() ensures RewriteToken(Word("Person"), TestContext()) == Ok(Word("schema:Person")) {}
  lemma AssociationTerm() ensures RewriteToken(Word("Association"), TestContext()) == Ok(Word("prov:Association")) {}
  lemma NameTerm() ensures RewriteToken(Word("name"), TestContext()) == Ok(Word("schema:name")) {}
  lemma DescriptionTerm() ensures RewriteToken(Word("description"), TestContext()) == Ok(Iri("<http://schema.org/description>")) {
    DescriptionIsAbsolute(); DescriptionIri();
  }

  // ---------------------------------------------------------------------
  // Case 1: SELECT ?agent WHERE { <http://exaplpe.org/1234> agent ?agent }
  // is expected to become: SELECT ?agent WHERE { <http://exaplpe.org/1234> prov:agent ?agent }

  function Query1Part0(): seq<Token> { [Word("SELECT"), Space(" ")] }
  function Expected1Part0(): seq<Token> { Query1Part0() }
  function Query1Part1(): seq<Token> { [Variable("?agent"), Space(" ")] }
  function Expected1Part1(): seq<Token> { Query1Part1() }
  function Query1Part2(): seq<Token> { [Word("WHERE"), Space(" ")] }
  function Expected1Part2(): seq<Token> { Query1Part2() }
  function Query1Part3(): seq<Token> { [Punct('{'), Space(" ")] }
  function Expected1Part3(): seq<Token> { Query1Part3() }
  function Query1Part4(): seq<Token> { [Iri("<http://exaplpe.org/1234>"), Space(" ")] }
  function Expected1Part4(): seq<Token> { Query1Part4() }
  function Query1Part5(): seq<Token> { [Word("agent"), Space(" ")] }
  function Expected1Part5(): seq<Token> { [Word("prov:agent"), Space(" ")] }
  function Query1Part6(): seq<Token> { [Variable("?agent"), Space(" ")] }
  function Expected1Part6(): seq<Token> { Query1Part6() }
  function Query1Part7(): seq<Token> { [Punct('}')] }
  function Expected1Part7(): seq<Token> { Query1Part7() }

  function Query1Upto0(): seq<Token> { Query1Part0() }
  function Expected1Upto0(): seq<Token> { Expected1Part0() }
  function Query1Upto1(): seq<Token> { Query1Upto0() + Query1Part1() }
  function Expected1Upto1(): seq<Token> { Expected1Upto0() + Expected1Part1() }
  function Query1Upto2(): seq<Token> { Query1Upto1() + Query1Part2() }
  function Expected1Upto2(): seq<Token> { Expected1Upto1() + Expected1Part2() }
  function Query1Upto3(): seq<Token> { Query1Upto2() + Query1Part3() }
  function Expected1Upto3(): seq<Token> { Expected1Upto2() + Expected1Part3() }
  function Query1Upto4(): seq<Token> { Query1Upto3() + Query1Part4() }
  function Expected1Upto4(): seq<Token> { Expected1Upto3() + Expected1Part4() }
  function Query1Upto5(): seq<Token> { Query1Upto4() + Query1Part5() }
  function Expected1Upto5(): seq<Token> { Expected1Upto4() + Expected1Part5() }
  function Query1Upto6(): seq<Token> { Query1Upto5() + Query1Part6() }
  function Expected1Upto6(): seq<Token> { Expected1Upto5() + Expected1Part6() }
  function Query1Upto7(): seq<Token> { Query1Upto6() + Query1Part7() }
  function Expected1Upto7(): seq<Token> { Expected1Upto6() + Expected1Part7() }
  function Query1(): seq<Token> { Query1Upto7() }
  function Expected1(): seq<Token> { Expected1Upto7() }

  lemma Case1Part0() ensures Reads(Query1Part0(), Expected1Part0(), TestContext()) {
    RewriteKeeps(Space(" "), TestContext());
    assert TokenReads(Query1Part0(), Expected1Part0(), TestContext(), 0);
    assert TokenReads(Query1Part0(), Expected1Part0(), TestContext(), 1);
    assert ReadsRange(Query1Part0(), Expected1Part0(), TestContext(), 0, 2);
  }
  lemma Case1Part1() ensures Reads(Query1Part1(), Expected1Part1(), TestContext()) {
    RewriteKeeps(Variable("?agent"), TestContext()); RewriteKeeps(Space(" "), TestContext());
    assert TokenReads(Query1Part1(), Expected1Part1(), TestContext(), 0);
    assert TokenReads(Query1Part1(), Expected1Part1(), TestContext(), 1);
    assert ReadsRange(Query1Part1(), Expected1Part1(), TestContext(), 0, 2);
  }
  lemma Case1Part2() ensures Reads(Query1Part2(), Expected1Part2(), TestContext()) {
    RewriteKeeps(Space(" "), TestContext());
    assert TokenReads(Query1Part2(), Expected1Part2(), TestContext(), 0);
    assert TokenReads(Query1Part2(), Expected1Part2(), TestContext(), 1);
    assert ReadsRange(Query1Part2(), Expected1Part2(), TestContext(), 0, 2);
  }
  lemma Case1Part3() ensures Reads(Query1Part3(), Expected1Part3(), TestContext()) {
    RewriteKeeps(Punct('{'), TestContext()); RewriteKeeps(Space(" "), TestContext());
    assert TokenReads(Query1Part3(), Expected1Part3(), TestContext(), 0);
    assert TokenReads(Query1Part3(), Expected1Part3(), TestContext(), 1);
    assert ReadsRange(Query1Part3(), Expected1Part3(), TestContext(), 0, 2);
  }
  lemma Case1Part4() ensures Reads(Query1Part4(), Expected1Part4(), TestContext()) {
    RewriteKeeps(Iri("<http://exaplpe.org/1234>"), TestContext()); RewriteKeeps(Space(" "), TestContext()); ExampleIri();
    assert TokenReads(Query1Part4(), Expected1Part4(), TestContext(), 0);
    assert TokenReads(Query1Part4(), Expected1Part4(), TestContext(), 1);
    assert ReadsRange(Query1Part4(), Expected1Part4(), TestContext(), 0, 2);
  }
  lemma Case1Part5() ensures Reads(Query1Part5(), Expected1Part5(), TestContext()) {
    AgentTerm(); RewriteKeeps(Space(" "), TestContext());
    assert TokenReads(Query1Part5(), Expected1Part5(), TestContext(), 0);
    assert TokenReads(Query1Part5(), Expected1Part5(), TestContext(), 1);
    assert ReadsRange(Query1Part5(), Expected1Part5(), TestContext(), 0, 2);
  }
  lemma Case1Part6() ensures Reads(Query1Part6(), Expected1Part6(), TestContext()) {
    RewriteKeeps(Variable("?agent"), TestContext()); RewriteKeeps(Space(" "), TestContext());
    assert TokenReads(Query1Part6(), Expected1Part6(), TestContext(), 0);
    assert TokenReads(Query1Part6(), Expected1Part6(), TestContext(), 1);
    assert ReadsRange(Query1Part6(), Expected1Part6(), TestContext(), 0, 2);
  }
  lemma Case1Part7() ensures Reads(Query1Part7(), Expected1Part7(), TestContext()) {
    RewriteKeeps(Punct('}'), TestContext());
    assert TokenReads(Query1Part7(), Expected1Part7(), TestContext(), 0);
    assert ReadsRange(Query1Part7(), Expected1Part7(), TestContext(), 0, 1);
  }

  lemma Case1Upto0() ensures Reads(Query1Upto0(), Expected1Upto0(), TestContext()) {
    Case1Part0();
  }
  lemma Case1Upto1() ensures Reads(Query1Upto1(), Expected1Upto1(), TestContext()) {
    Case1Upto0(); Case1Part1();
    ReadsJoin(Query1Upto0(), Expected1Upto0(), Query1Part1(), Expected1Part1(), TestContext());
  }
  lemma Case1Upto2() ensures Reads(Query1Upto2(), Expected1Upto2(), TestContext()) {
    Case1Upto1(); Case1Part2();
    ReadsJoin(Query1Upto1(), Expected1Upto1(), Query1Part2(), Expected1Part2(), TestContext());
  }
  lemma Case1Upto3() ensures Reads(Query1Upto3(), Expected1Upto3(), TestContext()) {
    Case1Upto2(); Case1Part3();
    ReadsJoin(Query1Upto2(), Expected1Upto2(), Query1Part3(), Expected1Part3(), TestContext());
  }
  lemma Case1Upto4() ensures Reads(Query1Upto4(), Expected1Upto4(), TestContext()) {
    Case1Upto3(); Case1Part4();
    ReadsJoin(Query1Upto3(), Expected1Upto3(), Query1Part4(), Expected1Part4(), TestContext());
  }
  lemma Case1Upto5() ensures Reads(Query1Upto5(), Expected1Upto5(), TestContext()) {
    Case1Upto4(); Case1Part5();
    ReadsJoin(Query1Upto4(), Expected1Upto4(), Query1Part5(), Expected1Part5(), TestContext());
  }
  lemma Case1Upto6() ensures Reads(Query1Upto6(), Expected1Upto6(), TestContext()) {
    Case1Upto5(); Case1Part6();
    ReadsJoin(Query1Upto5(), Expected1Upto5(), Query1Part6(), Expected1Part6(), TestContext());
  }
  lemma Case1Upto7() ensures Reads(Query1Upto7(), Expected1Upto7(), TestContext()) {
    Case1Upto6(); Case1Part7();
    ReadsJoin(Query1Upto6(), Expected1Upto6(), Query1Part7(), Expected1Part7(), TestContext());
  }

  lemma Query1Part0Text() ensures Render(Query1Part0()) == "SELECT " {}
  lemma Query1Part1Text() ensures Render(Query1Part1()) == "?agent " {}
  lemma Query1Part2Text() ensures Render(Query1Part2()) == "WHERE " {}
  lemma Query1Part3Text() ensures Render(Query1Part3()) == "{ " {}
  lemma Query1Part4Text() ensures Render(Query1Part4()) == "<http://exaplpe.org/1234> " {}
  lemma Query1Part5Text() ensures Render(Query1Part5()) == "agent " {}
  lemma Expected1Part5Text() ensures Render(Expected1Part5()) == "prov:agent " {}
  lemma Query1Part6Text() ensures Render(Query1Part6()) == "?agent " {}
  lemma Query1Part7Text() ensures Render(Query1Part7()) == "}" {}

  lemma Query1Text0() ensures Render(Query1Upto0()) == "SELECT " {
    Query1Part0Text();
  }
  lemma Query1Text1() ensures Render(Query1Upto1()) == "SELECT " + "?agent " {
    Query1Text0(); Query1Part1Text(); RenderAppend(Query1Upto0(), Query1Part1());
  }
  lemma Query1Text2() ensures Render(Query1Upto2()) == "SELECT " + "?agent " + "WHERE " {
    Query1Text1(); Query1Part2Text(); RenderAppend(Query1Upto1(), Query1Part2());
  }
  lemma Query1Text3() ensures Render(Query1Upto3()) == "SELECT " + "?agent " + "WHERE " + "{ " {
    Query1Text2(); Query1Part3Text(); RenderAppend(Query1Upto2(), Query1Part3());
  }
  lemma Query1Text4() ensures Render(Query1Upto4()) == "SELECT " + "?agent " + "WHERE " + "{ " + "<http://exaplpe.org/1234> " {
    Query1Text3(); Query1Part4Text(); RenderAppend(Query1Upto3(), Query1Part4());
  }
  lemma Query1Text5() ensures Render(Query1Upto5()) == "SELECT " + "?agent " + "WHERE " + "{ " + "<http://exaplpe.org/1234> " + "agent " {
    Query1Text4(); Query1Part5Text(); RenderAppend(Query1Upto4(), Query1Part5());
  }
  lemma Query1Text6() ensures Render(Query1Upto6()) == "SELECT " + "?agent " + "WHERE " + "{ " + "<http://exaplpe.org/1234> " + "agent " + "?agent " {
    Query1Text5(); Query1Part6Text(); RenderAppend(Query1Upto5(), Query1Part6());
  }
  lemma Query1Text7() ensures Render(Query1Upto7()) == "SELECT " + "?agent " + "WHERE " + "{ " + "<http://exaplpe.org/1234> " + "agent " + "?agent " + "}" {
    Query1Text6(); Query1Part7Text(); RenderAppend(Query1Upto6(), Query1Part7());
  }

  lemma Expected1Text0() ensures Render(Expected1Upto0()) == "SELECT " {
    Query1Part0Text();
  }
  lemma Expected1Text1() ensures Render(Expected1Upto1()) == "SELECT " + "?agent " {
    Expected1Text0(); Query1Part1Text(); RenderAppend(Expected1Upto0(), Expected1Part1());
  }
  lemma Expected1Text2() ensures Render(Expected1Upto2()) == "SELECT " + "?agent " + "WHERE " {
    Expected1Text1(); Query1Part2Text(); RenderAppend(Expected1Upto1(), Expected1Part2());
  }
  lemma Expected1Text3() ensures Render(Expected1Upto3()) == "SELECT " + "?agent " + "WHERE " + "{ " {
    Expected1Text2(); Query1Part3Text(); RenderAppend(Expected1Upto2(), Expected1Part3());
  }
  lemma Expected1Text4() ensures Render(Expected1Upto4()) == "SELECT " + "?agent " + "WHERE " + "{ " + "<http://exaplpe.org/1234> " {
    Expected1Text3(); Query1Part4Text(); RenderAppend(Expected1Upto3(), Expected1Part4());
  }
  lemma Expected1Text5() ensures Render(Expected1Upto5()) == "SELECT " + "?agent " + "WHERE " + "{ " + "<http://exaplpe.org/1234> " + "prov:agent " {
    Expected1Text4(); Expected1Part5Text(); RenderAppend(Expected1Upto4(), Expected1Part5());
  }
  lemma Expected1Text6() ensures Render(Expected1Upto6()) == "SELECT " + "?agent " + "WHERE " + "{ " + "<http://exaplpe.org/1234> " + "prov:agent " + "?agent " {
    Expected1Text5(); Query1Part6Text(); RenderAppend(Expected1Upto5(), Expected1Part6());
  }
  lemma Expected1Text7() ensures Render(Expected1Upto7()) == "SELECT " + "?agent " + "WHERE " + "{ " + "<http://exaplpe.org/1234> " + "prov:agent " + "?agent " + "}" {
    Expected1Text6(); Query1Part7Text(); RenderAppend(Expected1Upto6(), Expected1Part7());
  }

  /**
   * Case 1: the test's query lexes into its tokens, and its rewrite is
   * `prefixes_string`, a line break and the test's expected text (both
   * strings written a part at a time).
   */
  lemma Case1()
    ensures Lex("SELECT " + "?agent " + "WHERE " + "{ " + "<http://exaplpe.org/1234> " + "agent " + "?agent " + "}") == Query1()
    ensures RewriteSparql("SELECT " + "?agent " + "WHERE " + "{ " + "<http://exaplpe.org/1234> " + "agent " + "?agent " + "}", TestContext(), TestPrefixes())
         == Ok(PrefixesString() + "\n" + ("SELECT " + "?agent " + "WHERE " + "{ " + "<http://exaplpe.org/1234> " + "prov:agent " + "?agent " + "}"))
  {
    Case1Upto7();
    ReadsAll(Query1(), Expected1(), TestContext(), TestPrefixes());
    Query1Text7(); Expected1Text7(); TestHeader();
  }

  // ---------------------------------------------------------------------
  // Case 2: SELECT ?agent WHERE { ?agent type ?v0 FILTER(?v0 != Person) }
  // is expected to become: SELECT ?agent WHERE { ?agent rdf:type ?v0 FILTER(?v0 != schema:Person) }

  function Query2Part0(): seq<Token> { [Word("SELECT"), Space(" ")] }
  function Expected2Part0(): seq<Token> { Query2Part0() }
  function Query2Part1(): seq<Token> { [Variable("?agent"), Space(" ")] }
  function Expected2Part1(): seq<Token> { Query2Part1() }
  function Query2Part2(): seq<Token> { [Word("WHERE"), Space(" ")] }
  function Expected2Part2(): seq<Token> { Query2Part2() }
  function Query2Part3(): seq<Token> { [Punct('{'), Space(" ")] }
  function Expected2Part3(): seq<Token> { Query2Part3() }
  function Query2Part4(): seq<Token> { [Variable("?agent"), Space(" ")] }
  function Expected2Part4(): seq<Token> { Query2Part4() }
  function Query2Part5(): seq<Token> { [Word("type"), Space(" ")] }
  function Expected2Part5(): seq<Token> { [Word("rdf:type"), Space(" ")] }
  function Query2Part6(): seq<Token> { [Variable("?v0"), Space(" ")] }
  function Expected2Part6(): seq<Token> { Query2Part6() }
  function Query2Part7(): seq<Token> { [Word("FILTER"), Punct('(')] }
  function Expected2Part7(): seq<Token> { Query2Part7() }
  function Query2Part8(): seq<Token> { [Variable("?v0"), Space(" ")] }
  function Expected2Part8(): seq<Token> { Query2Part8() }
  function Query2Part9(): seq<Token> { [Punct('!'), Punct('=')] }
  function Expected2Part9(): seq<Token> { Query2Part9() }
  function Query2Part10(): seq<Token> { [Space(" "), Word("Person")] }
  function Expected2Part10(): seq<Token> { [Space(" "), Word("schema:Person")] }
  function Query2Part11(): seq<Token> { [Punct(')'), Space(" ")] }
  function Expected2Part11(): seq<Token> { Query2Part11() }
  function Query2Part12(): seq<Token> { [Punct('}')] }
  function Expected2Part12(): seq<Token> { Query2Part12() }

  function Query2Upto0(): seq<Token> { Query2Part0() }
  function Expected2Upto0(): seq<Token> { Expected2Part0() }
  function Query2Upto1(): seq<Token> { Query2Upto0() + Query2Part1() }
  function Expected2Upto1(): seq<Token> { Expected2Upto0() + Expected2Part1() }
  function Query2Upto2(): seq<Token> { Query2Upto1() + Query2Part2() }
  function Expected2Upto2(): seq<Token> { Expected2Upto1() + Expected2Part2() }
  function Query2Upto3(): seq<Token> { Query2Upto2() + Query2Part3() }
  function Expected2Upto3(): seq<Token> { Expected2Upto2() + Expected2Part3() }
  function Query2Upto4(): seq<Token> { Query2Upto3() + Query2Part4() }
  function Expected2Upto4(): seq<Token> { Expected2Upto3() + Expected2Part4() }
  function Query2Upto5(): seq<Token> { Query2Upto4() + Query2Part5() }
  function Expected2Upto5(): seq<Token> { Expected2Upto4() + Expected2Part5() }
  function Query2Upto6(): seq<Token> { Query2Upto5() + Query2Part6() }
  function Expected2Upto6(): seq<Token> { Expected2Upto5() + Expected2Part6() }
  function Query2Upto7(): seq<Token> { Query2Upto6() + Query2Part7() }
  function Expected2Upto7(): seq<Token> { Expected2Upto6() + Expected2Part7() }
  function Query2Upto8(): seq<Token> { Query2Upto7() + Query2Part8() }
  function Expected2Upto8(): seq<Token> { Expected2Upto7() + Expected2Part8() }
  function Query2Upto9(): seq<Token> { Query2Upto8() + Query2Part9() }
  function Expected2Upto9(): seq<Token> { Expected2Upto8() + Expected2Part9() }
  function Query2Upto10(): seq<Token> { Query2Upto9() + Query2Part10() }
  function Expected2Upto10(): seq<Token> { Expected2Upto9() + Expected2Part10() }
  function Query2Upto11(): seq<Token> { Query2Upto10() + Query2Part11() }
  function Expected2Upto11(): seq<Token> { Expected2Upto10() + Expected2Part11() }
  function Query2Upto12(): seq<Token> { Query2Upto11() + Query2Part12() }
  function Expected2Upto12(): seq<Token> { Expected2Upto11() + Expected2Part12() }
  function Query2(): seq<Token> { Query2Upto12() }
  function Expected2(): seq<Token> { Expected2Upto12() }

  lemma Case2Part0() ensures Reads(Query2Part0(), Expected2Part0(), TestContext()) {
    RewriteKeeps(Space(" "), TestContext());
    assert TokenReads(Query2Part0(), Expected2Part0(), TestContext(), 0);
    assert TokenReads(Query2Part0(), Expected2Part0(), TestContext(), 1);
    assert ReadsRange(Query2Part0(), Expected2Part0(), TestContext(), 0, 2);
  }
  lemma Case2Part1() ensures Reads(Query2Part1(), Expected2Part1(), TestContext()) {
    RewriteKeeps(Variable("?agent"), TestContext()); RewriteKeeps(Space(" "), TestContext());
    assert TokenReads(Query2Part1(), Expected2Part1(), TestContext(), 0);
    assert TokenReads(Query2Part1(), Expected2Part1(), TestContext(), 1);
    assert ReadsRange(Query2Part1(), Expected2Part1(), TestContext(), 0, 2);
  }
  lemma Case2Part2() ensures Reads(Query2Part2(), Expected2Part2(), TestContext()) {
    RewriteKeeps(Space(" "), TestContext());
    assert TokenReads(Query2Part2(), Expected2Part2(), TestContext(), 0);
    assert TokenReads(Query2Part2(), Expected2Part2(), TestContext(), 1);
    assert ReadsRange(Query2Part2(), Expected2Part2(), TestContext(), 0, 2);
  }
  lemma Case2Part3() ensures Reads(Query2Part3(), Expected2Part3(), TestContext()) {
    RewriteKeeps(Punct('{'), TestContext()); RewriteKeeps(Space(" "), TestContext());
    assert TokenReads(Query2Part3(), Expected2Part3(), TestContext(), 0);
    assert TokenReads(Query2Part3(), Expected2Part3(), TestContext(), 1);
    assert ReadsRange(Query2Part3(), Expected2Part3(), TestContext(), 0, 2);
  }
  lemma Case2Part4() ensures Reads(Query2Part4(), Expected2Part4(), TestContext()) {
    RewriteKeeps(Variable("?agent"), TestContext()); RewriteKeeps(Space(" "), TestContext());
    assert TokenReads(Query2Part4(), Expected2Part4(), TestContext(), 0);
    assert TokenReads(Query2Part4(), Expected2Part4(), TestContext(), 1);
    assert ReadsRange(Query2Part4(), Expected2Part4(), TestContext(), 0, 2);
  }
  lemma Case2Part5() ensures Reads(Query2Part5(), Expected2Part5(), TestContext()) {
    TypeTerm(); RewriteKeeps(Space(" "), TestContext());
    assert TokenReads(Query2Part5(), Expected2Part5(), TestContext(), 0);
    assert TokenReads(Query2Part5(), Expected2Part5(), TestContext(), 1);
    assert ReadsRange(Query2Part5(), Expected2Part5(), TestContext(), 0, 2);
  }
  lemma Case2Part6() ensures Reads(Query2Part6(), Expected2Part6(), TestContext()) {
    RewriteKeeps(Variable("?v0"), TestContext()); RewriteKeeps(Space(" "), TestContext());
    assert TokenReads(Query2Part6(), Expected2Part6(), TestContext(), 0);
    assert TokenReads(Query2Part6(), Expected2Part6(), TestContext(), 1);
    assert ReadsRange(Query2Part6(), Expected2Part6(), TestContext(), 0, 2);
  }
  lemma Case2Part7() ensures Reads(Query2Part7(), Expected2Part7(), TestContext()) {
    RewriteKeeps(Punct('('), TestContext());
    assert TokenReads(Query2Part7(), Expected2Part7(), TestContext(), 0);
    assert TokenReads(Query2Part7(), Expected2Part7(), TestContext(), 1);
    assert ReadsRange(Query2Part7(), Expected2Part7(), TestContext(), 0, 2);
  }
  lemma Case2Part8() ensures Reads(Query2Part8(), Expected2Part8(), TestContext()) {
    RewriteKeeps(Variable("?v0"), TestContext()); RewriteKeeps(Space(" "), TestContext());
    assert TokenReads(Query2Part8(), Expected2Part8(), TestContext(), 0);
    assert TokenReads(Query2Part8(), Expected2Part8(), TestContext(), 1);
    assert ReadsRange(Query2Part8(), Expected2Part8(), TestContext(), 0, 2);
  }
  lemma Case2Part9() ensures Reads(Query2Part9(), Expected2Part9(), TestContext()) {
    RewriteKeeps(Punct('!'), TestContext()); RewriteKeeps(Punct('='), TestContext());
    assert TokenReads(Query2Part9(), Expected2Part9(), TestContext(), 0);
    assert TokenReads(Query2Part9(), Expected2Part9(), TestContext(), 1);
    assert ReadsRange(Query2Part9(), Expected2Part9(), TestContext(), 0, 2);
  }
  lemma Case2Part10() ensures Reads(Query2Part10(), Expected2Part10(), TestContext()) {
    PersonTerm(); RewriteKeeps(Space(" "), TestContext());
    assert TokenReads(Query2Part10(), Expected2Part10(), TestContext(), 0);
    assert TokenReads(Query2Part10(), Expected2Part10(), TestContext(), 1);
    assert ReadsRange(Query2Part10(), Expected2Part10(), TestContext(), 0, 2);
  }
  lemma Case2Part11() ensures Reads(Query2Part11(), Expected2Part11(), TestContext()) {
    RewriteKeeps(Punct(')'), TestContext()); RewriteKeeps(Space(" "), TestContext());
    assert TokenReads(Query2Part11(), Expected2Part11(), TestContext(), 0);
    assert TokenReads(Query2Part11(), Expected2Part11(), TestContext(), 1);
    assert ReadsRange(Query2Part11(), Expected2Part11(), TestContext(), 0, 2);
  }
  lemma Case2Part12() ensures Reads(Query2Part12(), Expected2Part12(), TestContext()) {
    RewriteKeeps(Punct('}'), TestContext());
    assert TokenReads(Query2Part12(), Expected2Part12(), TestContext(), 0);
    assert ReadsRange(Query2Part12(), Expected2Part12(), TestContext(), 0, 1);
  }

  lemma Case2Upto0() ensures Reads(Query2Upto0(), Expected2Upto0(), TestContext()) {
    Case2Part0();
  }
  lemma Case2Upto1() ensures Reads(Query2Upto1(), Expected2Upto1(), TestContext()) {
    Case2Upto0(); Case2Part1();
    ReadsJoin(Query2Upto0(), Expected2Upto0(), Query2Part1(), Expected2Part1(), TestContext());
  }
  lemma Case2Upto2() ensures Reads(Query2Upto2(), Expected2Upto2(), TestContext()) {
    Case2Upto1(); Case2Part2();
    ReadsJoin(Query2Upto1(), Expected2Upto1(), Query2Part2(), Expected2Part2(), TestContext());
  }
  lemma Case2Upto3() ensures Reads(Query2Upto3(), Expected2Upto3(), TestContext()) {
    Case2Upto2(); Case2Part3();
    ReadsJoin(Query2Upto2(), Expected2Upto2(), Query2Part3(), Expected2Part3(), TestContext());
  }
  lemma Case2Upto4() ensures Reads(Query2Upto4(), Expected2Upto4(), TestContext()) {
    Case2Upto3(); Case2Part4();
    ReadsJoin(Query2Upto3(), Expected2Upto3(), Query2Part4(), Expected2Part4(), TestContext());
  }
  lemma Case2Upto5() ensures Reads(Query2Upto5(), Expected2Upto5(), TestContext()) {
    Case2Upto4(); Case2Part5();
    ReadsJoin(Query2Upto4(), Expected2Upto4(), Query2Part5(), Expected2Part5(), TestContext());
  }
  lemma Case2Upto6() ensures Reads(Query2Upto6(), Expected2Upto6(), TestContext()) {
    Case2Upto5(); Case2Part6();
    ReadsJoin(Query2Upto5(), Expected2Upto5(), Query2Part6(), Expected2Part6(), TestContext());
  }
  lemma Case2Upto7() ensures Reads(Query2Upto7(), Expected2Upto7(), TestContext()) {
    Case2Upto6(); Case2Part7();
    ReadsJoin(Query2Upto6(), Expected2Upto6(), Query2Part7(), Expected2Part7(), TestContext());
  }
  lemma Case2Upto8() ensures Reads(Query2Upto8(), Expected2Upto8(), TestContext()) {
    Case2Upto7(); Case2Part8();
    ReadsJoin(Query2Upto7(), Expected2Upto7(), Query2Part8(), Expected2Part8(), TestContext());
  }
  lemma Case2Upto9() ensures Reads(Query2Upto9(), Expected2Upto9(), TestContext()) {
    Case2Upto8(); Case2Part9();
    ReadsJoin(Query2Upto8(), Expected2Upto8(), Query2Part9(), Expected2Part9(), TestContext());
  }
  lemma Case2Upto10() ensures Reads(Query2Upto10(), Expected2Upto10(), TestContext()) {
    Case2Upto9(); Case2Part10();
    ReadsJoin(Query2Upto9(), Expected2Upto9(), Query2Part10(), Expected2Part10(), TestContext());
  }
  lemma Case2Upto11() ensures Reads(Query2Upto11(), Expected2Upto11(), TestContext()) {
    Case2Upto10(); Case2Part11();
    ReadsJoin(Query2Upto10(), Expected2Upto10(), Query2Part11(), Expected2Part11(), TestContext());
  }
  lemma Case2Upto12() ensures Reads(Query2Upto12(), Expected2Upto12(), TestContext()) {
    Case2Upto11(); Case2Part12();
    ReadsJoin(Query2Upto11(), Expected2Upto11(), Query2Part12(), Expected2Part12(), TestContext());
  }

  lemma Query2Part0Text() ensures Render(Query2Part0()) == "SELECT " {}
  lemma Query2Part1Text() ensures Render(Query2Part1()) == "?agent " {}
  lemma Query2Part2Text() ensures Render(Query2Part2()) == "WHERE " {}
  lemma Query2Part3Text() ensures Render(Query2Part3()) == "{ " {}
  lemma Query2Part4Text() ensures Render(Query2Part4()) == "?agent " {}
  lemma Query2Part5Text() ensures Render(Query2Part5()) == "type " {}
  lemma Expected2Part5Text() ensures Render(Expected2Part5()) == "rdf:type " {}
  lemma Query2Part6Text() ensures Render(Query2Part6()) == "?v0 " {}
  lemma Query2Part7Text() ensures Render(Query2Part7()) == "FILTER(" {}
  lemma Query2Part8Text() ensures Render(Query2Part8()) == "?v0 " {}
  lemma Query2Part9Text() ensures Render(Query2Part9()) == "!=" {}
  lemma Query2Part10Text() ensures Render(Query2Part10()) == " Person" {}
  lemma Expected2Part10Text() ensures Render(Expected2Part10()) == " schema:Person" {}
  lemma Query2Part11Text() ensures Render(Query2Part11()) == ") " {}
  lemma Query2Part12Text() ensures Render(Query2Part12()) == "}" {}

  lemma Query2Text0() ensures Render(Query2Upto0()) == "SELECT " {
    Query2Part0Text();
  }
  lemma Query2Text1() ensures Render(Query2Upto1()) == "SELECT " + "?agent " {
    Query2Text0(); Query2Part1Text(); RenderAppend(Query2Upto0(), Query2Part1());
  }
  lemma Query2Text2() ensures Render(Query2Upto2()) == "SELECT " + "?agent " + "WHERE " {
    Query2Text1(); Query2Part2Text(); RenderAppend(Query2Upto1(), Query2Part2());
  }
  lemma Query2Text3() ensures Render(Query2Upto3()) == "SELECT " + "?agent " + "WHERE " + "{ " {
    Query2Text2(); Query2Part3Text(); RenderAppend(Query2Upto2(), Query2Part3());
  }
  lemma Query2Text4() ensures Render(Query2Upto4()) == "SELECT " + "?agent " + "WHERE " + "{ " + "?agent " {
    Query2Text3(); Query2Part4Text(); RenderAppend(Query2Upto3(), Query2Part4());
  }
  lemma Query2Text5() ensures Render(Query2Upto5()) == "SELECT " + "?agent " + "WHERE " + "{ " + "?agent " + "type " {
    Query2Text4(); Query2Part5Text(); RenderAppend(Query2Upto4(), Query2Part5());
  }
  lemma Query2Text6() ensures Render(Query2Upto6()) == "SELECT " + "?agent " + "WHERE " + "{ " + "?agent " + "type " + "?v0 " {
    Query2Text5(); Query2Part6Text(); RenderAppend(Query2Upto5(), Query2Part6());
  }
  lemma Query2Text7() ensures Render(Query2Upto7()) == "SELECT " + "?agent " + "WHERE " + "{ " + "?agent " + "type " + "?v0 " + "FILTER(" {
    Query2Text6(); Query2Part7Text(); RenderAppend(Query2Upto6(), Query2Part7());
  }
  lemma Query2Text8() ensures Render(Query2Upto8()) == "SELECT " + "?agent " + "WHERE " + "{ " + "?agent " + "type " + "?v0 " + "FILTER(" + "?v0 " {
    Query2Text7(); Query2Part8Text(); RenderAppend(Query2Upto7(), Query2Part8());
  }
  lemma Query2Text9() ensures Render(Query2Upto9()) == "SELECT " + "?agent " + "WHERE " + "{ " + "?agent " + "type " + "?v0 " + "FILTER(" + "?v0 " + "!=" {
    Query2Text8(); Query2Part9Text(); RenderAppend(Query2Upto8(), Query2Part9());
  }
  lemma Query2Text10() ensures Render(Query2Upto10()) == "SELECT " + "?agent " + "WHERE " + "{ " + "?agent " + "type " + "?v0 " + "FILTER(" + "?v0 " + "!=" + " Person" {
    Query2Text9(); Query2Part10Text(); RenderAppend(Query2Upto9(), Query2Part10());
  }
  lemma Query2Text11() ensures Render(Query2Upto11()) == "SELECT " + "?agent " + "WHERE " + "{ " + "?agent " + "type " + "?v0 " + "FILTER(" + "?v0 " + "!=" + " Person" + ") " {
    Query2Text10(); Query2Part11Text(); RenderAppend(Query2Upto10(), Query2Part11());
  }
  lemma Query2Text12() ensures Render(Query2Upto12()) == "SELECT " + "?agent " + "WHERE " + "{ " + "?agent " + "type " + "?v0 " + "FILTER(" + "?v0 " + "!=" + " Person" + ") " + "}" {
    Query2Text11(); Query2Part12Text(); RenderAppend(Query2Upto11(), Query2Part12());
  }

  lemma Expected2Text0() ensures Render(Expected2Upto0()) == "SELECT " {
    Query2Part0Text();
  }
  lemma Expected2Text1() ensures Render(Expected2Upto1()) == "SELECT " + "?agent " {
    Expected2Text0(); Query2Part1Text(); RenderAppend(Expected2Upto0(), Expected2Part1());
  }
  lemma Expected2Text2() ensures Render(Expected2Upto2()) == "SELECT " + "?agent " + "WHERE " {
    Expected2Text1(); Query2Part2Text(); RenderAppend(Expected2Upto1(), Expected2Part2());
  }
  lemma Expected2Text3() ensures Render(Expected2Upto3()) == "SELECT " + "?agent " + "WHERE " + "{ " {
    Expected2Text2(); Query2Part3Text(); RenderAppend(Expected2Upto2(), Expected2Part3());
  }
  lemma Expected2Text4() ensures Render(Expected2Upto4()) == "SELECT " + "?agent " + "WHERE " + "{ " + "?agent " {
    Expected2Text3(); Query2Part4Text(); RenderAppend(Expected2Upto3(), Expected2Part4());
  }
  lemma Expected2Text5() ensures Render(Expected2Upto5()) == "SELECT " + "?agent " + "WHERE " + "{ " + "?agent " + "rdf:type " {
    Expected2Text4(); Expected2Part5Text(); RenderAppend(Expected2Upto4(), Expected2Part5());
  }
  lemma Expected2Text6() ensures Render(Expected2Upto6()) == "SELECT " + "?agent " + "WHERE " + "{ " + "?agent " + "rdf:type " + "?v0 " {
    Expected2Text5(); Query2Part6Text(); RenderAppend(Expected2Upto5(), Expected2Part6());
  }
  lemma Expected2Text7() ensures Render(Expected2Upto7()) == "SELECT " + "?agent " + "WHERE " + "{ " + "?agent " + "rdf:type " + "?v0 " + "FILTER(" {
    Expected2Text6(); Query2Part7Text(); RenderAppend(Expected2Upto6(), Expected2Part7());
  }
  lemma Expected2Text8() ensures Render(Expected2Upto8()) == "SELECT " + "?agent " + "WHERE " + "{ " + "?agent " + "rdf:type " + "?v0 " + "FILTER(" + "?v0 " {
    Expected2Text7(); Query2Part8Text(); RenderAppend(Expected2Upto7(), Expected2Part8());
  }
  lemma Expected2Text9() ensures Render(Expected2Upto9()) == "SELECT " + "?agent " + "WHERE " + "{ " + "?agent " + "rdf:type " + "?v0 " + "FILTER(" + "?v0 " + "!=" {
    Expected2Text8(); Query2Part9Text(); RenderAppend(Expected2Upto8(), Expected2Part9());
  }
  lemma Expected2Text10() ensures Render(Expected2Upto10()) == "SELECT " + "?agent " + "WHERE " + "{ " + "?agent " + "rdf:type " + "?v0 " + "FILTER(" + "?v0 " + "!=" + " schema:Person" {
    Expected2Text9(); Expected2Part10Text(); RenderAppend(Expected2Upto9(), Expected2Part10());
  }
  lemma Expected2Text11() ensures Render(Expected2Upto11()) == "SELECT " + "?agent " + "WHERE " + "{ " + "?agent " + "rdf:type " + "?v0 " + "FILTER(" + "?v0 " + "!=" + " schema:Person" + ") " {
    Expected2Text10(); Query2Part11Text(); RenderAppend(Expected2Upto10(), Expected2Part11());
  }
  lemma Expected2Text12() ensures Render(Expected2Upto12()) == "SELECT " + "?agent " + "WHERE " + "{ " + "?agent " + "rdf:type " + "?v0 " + "FILTER(" + "?v0 " + "!=" + " schema:Person" + ") " + "}" {
    Expected2Text11(); Query2Part12Text(); RenderAppend(Expected2Upto11(), Expected2Part12());
  }

  /**
   * Case 2: the test's query lexes into its tokens, and its rewrite is
   * `prefixes_string`, a line break and the test's expected text (both
   * strings written a part at a time).
   */
  lemma Case2()
    ensures Lex("SELECT " + "?agent " + "WHERE " + "{ " + "?agent " + "type " + "?v0 " + "FILTER(" + "?v0 " + "!=" + " Person" + ") " + "}") == Query2()
    ensures RewriteSparql("SELECT " + "?agent " + "WHERE " + "{ " + "?agent " + "type " + "?v0 " + "FILTER(" + "?v0 " + "!=" + " Person" + ") " + "}", TestContext(), TestPrefixes())
         == Ok(PrefixesString() + "\n" + ("SELECT " + "?agent " + "WHERE " + "{ " + "?agent " + "rdf:type " + "?v0 " + "FILTER(" + "?v0 " + "!=" + " schema:Person" + ") " + "}"))
  {
    Case2Upto12();
    ReadsAll(Query2(), Expected2(), TestContext(), TestPrefixes());
    Query2Text12(); Expected2Text12(); TestHeader();
  }

  // ---------------------------------------------------------------------
  // Case 3: SELECT ?x ?name WHERE { ?x type Association ; agent/name ?name }
  // is expected to become: SELECT ?x ?name WHERE { ?x rdf:type prov:Association ; prov:agent/schema:name ?name }

  function Query3Part0(): seq<Token> { [Word("SELECT"), Space(" ")] }
  function Expected3Part0(): seq<Token> { Query3Part0() }
  function Query3Part1(): seq<Token> { [Variable("?x"), Space(" ")] }
  function Expected3Part1(): seq<Token> { Query3Part1() }
  function Query3Part2(): seq<Token> { [Variable("?name"), Space(" ")] }
  function Expected3Part2(): seq<Token> { Query3Part2() }
  function Query3Part3(): seq<Token> { [Word("WHERE"), Space(" ")] }
  function Expected3Part3(): seq<Token> { Query3Part3() }
  function Query3Part4(): seq<Token> { [Punct('{'), Space(" ")] }
  function Expected3Part4(): seq<Token> { Query3Part4() }
  function Query3Part5(): seq<Token> { [Variable("?x"), Space(" ")] }
  function Expected3Part5(): seq<Token> { Query3Part5() }
  function Query3Part6(): seq<Token> { [Word("type"), Space(" ")] }
  function Expected3Part6(): seq<Token> { [Word("rdf:type"), Space(" ")] }
  function Query3Part7(): seq<Token> { [Word("Association"), Space(" ")] }
  function Expected3Part7(): seq<Token> { [Word("prov:Association"), Space(" ")] }
  function Query3Part8(): seq<Token> { [Punct(';'), Space(" ")] }
  function Expected3Part8(): seq<Token> { Query3Part8() }
  function Query3Part9(): seq<Token> { [Word("agent"), PathSep] }
  function Expected3Part9(): seq<Token> { [Word("prov:agent"), PathSep] }
  function Query3Part10(): seq<Token> { [Word("name"), Space(" ")] }
  function Expected3Part10(): seq<Token> { [Word("schema:name"), Space(" ")] }
  function Query3Part11(): seq<Token> { [Variable("?name"), Space(" ")] }
  function Expected3Part11(): seq<Token> { Query3Part11() }
  function Query3Part12(): seq<Token> { [Punct('}')] }
  function Expected3Part12(): seq<Token> { Query3Part12() }

  function Query3Upto0(): seq<Token> { Query3Part0() }
  function Expected3Upto0(): seq<Token> { Expected3Part0() }
  function Query3Upto1(): seq<Token> { Query3Upto0() + Query3Part1() }
  function Expected3Upto1(): seq<Token> { Expected3Upto0() + Expected3Part1() }
  function Query3Upto2(): seq<Token> { Query3Upto1() + Query3Part2() }
  function Expected3Upto2(): seq<Token> { Expected3Upto1() + Expected3Part2() }
  function Query3Upto3(): seq<Token> { Query3Upto2() + Query3Part3() }
  function Expected3Upto3(): seq<Token> { Expected3Upto2() + Expected3Part3() }
  function Query3Upto4(): seq<Token> { Query3Upto3() + Query3Part4() }
  function Expected3Upto4(): seq<Token> { Expected3Upto3() + Expected3Part4() }
  function Query3Upto5(): seq<Token> { Query3Upto4() + Query3Part5() }
  function Expected3Upto5(): seq<Token> { Expected3Upto4() + Expected3Part5() }
  function Query3Upto6(): seq<Token> { Query3Upto5() + Query3Part6() }
  function Expected3Upto6(): seq<Token> { Expected3Upto5() + Expected3Part6() }
  function Query3Upto7(): seq<Token> { Query3Upto6() + Query3Part7() }
  function Expected3Upto7(): seq<Token> { Expected3Upto6() + Expected3Part7() }
  function Query3Upto8(): seq<Token> { Query3Upto7() + Query3Part8() }
  function Expected3Upto8(): seq<Token> { Expected3Upto7() + Expected3Part8() }
  function Query3Upto9(): seq<Token> { Query3Upto8() + Query3Part9() }
  function Expected3Upto9(): seq<Token> { Expected3Upto8() + Expected3Part9() }
  function Query3Upto10(): seq<Token> { Query3Upto9() + Query3Part10() }
  function Expected3Upto10(): seq<Token> { Expected3Upto9() + Expected3Part10() }
  function Query3Upto11(): seq<Token> { Query3Upto10() + Query3Part11() }
  function Expected3Upto11(): seq<Token> { Expected3Upto10() + Expected3Part11() }
  function Query3Upto12(): seq<Token> { Query3Upto11() + Query3Part12() }
  function Expected3Upto12(): seq<Token> { Expected3Upto11() + Expected3Part12() }
  function Query3(): seq<Token> { Query3Upto12() }
  function Expected3(): seq<Token> { Expected3Upto12() }

  lemma Case3Part0() ensures Reads(Query3Part0(), Expected3Part0(), TestContext()) {
    RewriteKeeps(Space(" "), TestContext());
    assert TokenReads(Query3Part0(), Expected3Part0(), TestContext(), 0);
    assert TokenReads(Query3Part0(), Expected3Part0(), TestContext(), 1);
    assert ReadsRange(Query3Part0(), Expected3Part0(), TestContext(), 0, 2);
  }
  lemma Case3Part1() ensures Reads(Query3Part1(), Expected3Part1(), TestContext()) {
    RewriteKeeps(Variable("?x"), TestContext()); RewriteKeeps(Space(" "), TestContext());
    assert TokenReads(Query3Part1(), Expected3Part1(), TestContext(), 0);
    assert TokenReads(Query3Part1(), Expected3Part1(), TestContext(), 1);
    assert ReadsRange(Query3Part1(), Expected3Part1(), TestContext(), 0, 2);
  }
  lemma Case3Part2() ensures Reads(Query3Part2(), Expected3Part2(), TestContext()) {
    RewriteKeeps(Variable("?name"), TestContext()); RewriteKeeps(Space(" "), TestContext());
    assert TokenReads(Query3Part2(), Expected3Part2(), TestContext(), 0);
    assert TokenReads(Query3Part2(), Expected3Part2(), TestContext(), 1);
    assert ReadsRange(Query3Part2(), Expected3Part2(), TestContext(), 0, 2);
  }
  lemma Case3Part3() ensures Reads(Query3Part3(), Expected3Part3(), TestContext()) {
    RewriteKeeps(Space(" "), TestContext());
    assert TokenReads(Query3Part3(), Expected3Part3(), TestContext(), 0);
    assert TokenReads(Query3Part3(), Expected3Part3(), TestContext(), 1);
    assert ReadsRange(Query3Part3(), Expected3Part3(), TestContext(), 0, 2);
  }
  lemma Case3Part4() ensures Reads(Query3Part4(), Expected3Part4(), TestContext()) {
    RewriteKeeps(Punct('{'), TestContext()); RewriteKeeps(Space(" "), TestContext());
    assert TokenReads(Query3Part4(), Expected3Part4(), TestContext(), 0);
    assert TokenReads(Query3Part4(), Expected3Part4(), TestContext(), 1);
    assert ReadsRange(Query3Part4(), Expected3Part4(), TestContext(), 0, 2);
  }
  lemma Case3Part5() ensures Reads(Query3Part5(), Expected3Part5(), TestContext()) {
    RewriteKeeps(Variable("?x"), TestContext()); RewriteKeeps(Space(" "), TestContext());
    assert TokenReads(Query3Part5(), Expected3Part5(), TestContext(), 0);
    assert TokenReads(Query3Part5(), Expected3Part5(), TestContext(), 1);
    assert ReadsRange(Query3Part5(), Expected3Part5(), TestContext(), 0, 2);
  }
  lemma Case3Part6() ensures Reads(Query3Part6(), Expected3Part6(), TestContext()) {
    TypeTerm(); RewriteKeeps(Space(" "), TestContext());
    assert TokenReads(Query3Part6(), Expected3Part6(), TestContext(), 0);
    assert TokenReads(Query3Part6(), Expected3Part6(), TestContext(), 1);
    assert ReadsRange(Query3Part6(), Expected3Part6(), TestContext(), 0, 2);
  }
  lemma Case3Part7() ensures Reads(Query3Part7(), Expected3Part7(), TestContext()) {
    AssociationTerm(); RewriteKeeps(Space(" "), TestContext());
    assert TokenReads(Query3Part7(), Expected3Part7(), TestContext(), 0);
    assert TokenReads(Query3Part7(), Expected3Part7(), TestContext(), 1);
    assert ReadsRange(Query3Part7(), Expected3Part7(), TestContext(), 0, 2);
  }
  lemma Case3Part8() ensures Reads(Query3Part8(), Expected3Part8(), TestContext()) {
    RewriteKeeps(Punct(';'), TestContext()); RewriteKeeps(Space(" "), TestContext());
    assert TokenReads(Query3Part8(), Expected3Part8(), TestContext(), 0);
    assert TokenReads(Query3Part8(), Expected3Part8(), TestContext(), 1);
    assert ReadsRange(Query3Part8(), Expected3Part8(), TestContext(), 0, 2);
  }
  lemma Case3Part9() ensures Reads(Query3Part9(), Expected3Part9(), TestContext()) {
    AgentTerm(); RewriteKeeps(PathSep, TestContext());
    assert TokenReads(Query3Part9(), Expected3Part9(), TestContext(), 0);
    assert TokenReads(Query3Part9(), Expected3Part9(), TestContext(), 1);
    assert ReadsRange(Query3Part9(), Expected3Part9(), TestContext(), 0, 2);
  }
  lemma Case3Part10() ensures Reads(Query3Part10(), Expected3Part10(), TestContext()) {
    NameTerm(); RewriteKeeps(Space(" "), TestContext());
    assert TokenReads(Query3Part10(), Expected3Part10(), TestContext(), 0);
    assert TokenReads(Query3Part10(), Expected3Part10(), TestContext(), 1);
    assert ReadsRange(Query3Part10(), Expected3Part10(), TestContext(), 0, 2);
  }
  lemma Case3Part11() ensures Reads(Query3Part11(), Expected3Part11(), TestContext()) {
    RewriteKeeps(Variable("?name"), TestContext()); RewriteKeeps(Space(" "), TestContext());
    assert TokenReads(Query3Part11(), Expected3Part11(), TestContext(), 0);
    assert TokenReads(Query3Part11(), Expected3Part11(), TestContext(), 1);
    assert ReadsRange(Query3Part11(), Expected3Part11(), TestContext(), 0, 2);
  }
  lemma Case3Part12() ensures Reads(Query3Part12(), Expected3Part12(), TestContext()) {
    RewriteKeeps(Punct('}'), TestContext());
    assert TokenReads(Query3Part12(), Expected3Part12(), TestContext(), 0);
    assert ReadsRange(Query3Part12(), Expected3Part12(), TestContext(), 0, 1);
  }

  lemma Case3Upto0() ensures Reads(Query3Upto0(), Expected3Upto0(), TestContext()) {
    Case3Part0();
  }
  lemma Case3Upto1() ensures Reads(Query3Upto1(), Expected3Upto1(), TestContext()) {
    Case3Upto0(); Case3Part1();
    ReadsJoin(Query3Upto0(), Expected3Upto0(), Query3Part1(), Expected3Part1(), TestContext());
  }
  lemma Case3Upto2() ensures Reads(Query3Upto2(), Expected3Upto2(), TestContext()) {
    Case3Upto1(); Case3Part2();
    ReadsJoin(Query3Upto1(), Expected3Upto1(), Query3Part2(), Expected3Part2(), TestContext());
  }
  lemma Case3Upto3() ensures Reads(Query3Upto3(), Expected3Upto3(), TestContext()) {
    Case3Upto2(); Case3Part3();
    ReadsJoin(Query3Upto2(), Expected3Upto2(), Query3Part3(), Expected3Part3(), TestContext());
  }
  lemma Case3Upto4() ensures Reads(Query3Upto4(), Expected3Upto4(), TestContext()) {
    Case3Upto3(); Case3Part4();
    ReadsJoin(Query3Upto3(), Expected3Upto3(), Query3Part4(), Expected3Part4(), TestContext());
  }
  lemma Case3Upto5() ensures Reads(Query3Upto5(), Expected3Upto5(), TestContext()) {
    Case3Upto4(); Case3Part5();
    ReadsJoin(Query3Upto4(), Expected3Upto4(), Query3Part5(), Expected3Part5(), TestContext());
  }
  lemma Case3Upto6() ensures Reads(Query3Upto6(), Expected3Upto6(), TestContext()) {
    Case3Upto5(); Case3Part6();
    ReadsJoin(Query3Upto5(), Expected3Upto5(), Query3Part6(), Expected3Part6(), TestContext());
  }
  lemma Case3Upto7() ensures Reads(Query3Upto7(), Expected3Upto7(), TestContext()) {
    Case3Upto6(); Case3Part7();
    ReadsJoin(Query3Upto6(), Expected3Upto6(), Query3Part7(), Expected3Part7(), TestContext());
  }
  lemma Case3Upto8() ensures Reads(Query3Upto8(), Expected3Upto8(), TestContext()) {
    Case3Upto7(); Case3Part8();
    ReadsJoin(Query3Upto7(), Expected3Upto7(), Query3Part8(), Expected3Part8(), TestContext());
  }
  lemma Case3Upto9() ensures Reads(Query3Upto9(), Expected3Upto9(), TestContext()) {
    Case3Upto8(); Case3Part9();
    ReadsJoin(Query3Upto8(), Expected3Upto8(), Query3Part9(), Expected3Part9(), TestContext());
  }
  lemma Case3Upto10() ensures Reads(Query3Upto10(), Expected3Upto10(), TestContext()) {
    Case3Upto9(); Case3Part10();
    ReadsJoin(Query3Upto9(), Expected3Upto9(), Query3Part10(), Expected3Part10(), TestContext());
  }
  lemma Case3Upto11() ensures Reads(Query3Upto11(), Expected3Upto11(), TestContext()) {
    Case3Upto10(); Case3Part11();
    ReadsJoin(Query3Upto10(), Expected3Upto10(), Query3Part11(), Expected3Part11(), TestContext());
  }
  lemma Case3Upto12() ensures Reads(Query3Upto12(), Expected3Upto12(), TestContext()) {
    Case3Upto11(); Case3Part12();
    ReadsJoin(Query3Upto11(), Expected3Upto11(), Query3Part12(), Expected3Part12(), TestContext());
  }

  lemma Query3Part0Text() ensures Render(Query3Part0()) == "SELECT " {}
  lemma Query3Part1Text() ensures Render(Query3Part1()) == "?x " {}
  lemma Query3Part2Text() ensures Render(Query3Part2()) == "?name " {}
  lemma Query3Part3Text() ensures Render(Query3Part3()) == "WHERE " {}
  lemma Query3Part4Text() ensures Render(Query3Part4()) == "{ " {}
  lemma Query3Part5Text() ensures Render(Query3Part5()) == "?x " {}
  lemma Query3Part6Text() ensures Render(Query3Part6()) == "type " {}
  lemma Expected3Part6Text() ensures Render(Expected3Part6()) == "rdf:type " {}
  lemma Query3Part7Text() ensures Render(Query3Part7()) == "Association " {}
  lemma Expected3Part7Text() ensures Render(Expected3Part7()) == "prov:Association " {}
  lemma Query3Part8Text() ensures Render(Query3Part8()) == "; " {}
  lemma Query3Part9Text() ensures Render(Query3Part9()) == "agent/" {}
  lemma Expected3Part9Text() ensures Render(Expected3Part9()) == "prov:agent/" {}
  lemma Query3Part10Text() ensures Render(Query3Part10()) == "name " {}
  lemma Expected3Part10Text() ensures Render(Expected3Part10()) == "schema:name " {}
  lemma Query3Part11Text() ensures Render(Query3Part11()) == "?name " {}
  lemma Query3Part12Text() ensures Render(Query3Part12()) == "}" {}

  lemma Query3Text0() ensures Render(Query3Upto0()) == "SELECT " {
    Query3Part0Text();
  }
  lemma Query3Text1() ensures Render(Query3Upto1()) == "SELECT " + "?x " {
    Query3Text0(); Query3Part1Text(); RenderAppend(Query3Upto0(), Query3Part1());
  }
  lemma Query3Text2() ensures Render(Query3Upto2()) == "SELECT " + "?x " + "?name " {
    Query3Text1(); Query3Part2Text(); RenderAppend(Query3Upto1(), Query3Part2());
  }
  lemma Query3Text3() ensures Render(Query3Upto3()) == "SELECT " + "?x " + "?name " + "WHERE " {
    Query3Text2(); Query3Part3Text(); RenderAppend(Query3Upto2(), Query3Part3());
  }
  lemma Query3Text4() ensures Render(Query3Upto4()) == "SELECT " + "?x " + "?name " + "WHERE " + "{ " {
    Query3Text3(); Query3Part4Text(); RenderAppend(Query3Upto3(), Query3Part4());
  }
  lemma Query3Text5() ensures Render(Query3Upto5()) == "SELECT " + "?x " + "?name " + "WHERE " + "{ " + "?x " {
    Query3Text4(); Query3Part5Text(); RenderAppend(Query3Upto4(), Query3Part5());
  }
  lemma Query3Text6() ensures Render(Query3Upto6()) == "SELECT " + "?x " + "?name " + "WHERE " + "{ " + "?x " + "type " {
    Query3Text5(); Query3Part6Text(); RenderAppend(Query3Upto5(), Query3Part6());
  }
  lemma Query3Text7() ensures Render(Query3Upto7()) == "SELECT " + "?x " + "?name " + "WHERE " + "{ " + "?x " + "type " + "Association " {
    Query3Text6(); Query3Part7Text(); RenderAppend(Query3Upto6(), Query3Part7());
  }
  lemma Query3Text8() ensures Render(Query3Upto8()) == "SELECT " + "?x " + "?name " + "WHERE " + "{ " + "?x " + "type " + "Association " + "; " {
    Query3Text7(); Query3Part8Text(); RenderAppend(Query3Upto7(), Query3Part8());
  }
  lemma Query3Text9() ensures Render(Query3Upto9()) == "SELECT " + "?x " + "?name " + "WHERE " + "{ " + "?x " + "type " + "Association " + "; " + "agent/" {
    Query3Text8(); Query3Part9Text(); RenderAppend(Query3Upto8(), Query3Part9());
  }
  lemma Query3Text10() ensures Render(Query3Upto10()) == "SELECT " + "?x " + "?name " + "WHERE " + "{ " + "?x " + "type " + "Association " + "; " + "agent/" + "name " {
    Query3Text9(); Query3Part10Text(); RenderAppend(Query3Upto9(), Query3Part10());
  }
  lemma Query3Text11() ensures Render(Query3Upto11()) == "SELECT " + "?x " + "?name " + "WHERE " + "{ " + "?x " + "type " + "Association " + "; " + "agent/" + "name " + "?name " {
    Query3Text10(); Query3Part11Text(); RenderAppend(Query3Upto10(), Query3Part11());
  }
  lemma Query3Text12() ensures Render(Query3Upto12()) == "SELECT " + "?x " + "?name " + "WHERE " + "{ " + "?x " + "type " + "Association " + "; " + "agent/" + "name " + "?name " + "}" {
    Query3Text11(); Query3Part12Text(); RenderAppend(Query3Upto11(), Query3Part12());
  }

  lemma Expected3Text0() ensures Render(Expected3Upto0()) == "SELECT " {
    Query3Part0Text();
  }
  lemma Expected3Text1() ensures Render(Expected3Upto1()) == "SELECT " + "?x " {
    Expected3Text0(); Query3Part1Text(); RenderAppend(Expected3Upto0(), Expected3Part1());
  }
  lemma Expected3Text2() ensures Render(Expected3Upto2()) == "SELECT " + "?x " + "?name " {
    Expected3Text1(); Query3Part2Text(); RenderAppend(Expected3Upto1(), Expected3Part2());
  }
  lemma Expected3Text3() ensures Render(Expected3Upto3()) == "SELECT " + "?x " + "?name " + "WHERE " {
    Expected3Text2(); Query3Part3Text(); RenderAppend(Expected3Upto2(), Expected3Part3());
  }
  lemma Expected3Text4() ensures Render(Expected3Upto4()) == "SELECT " + "?x " + "?name " + "WHERE " + "{ " {
    Expected3Text3(); Query3Part4Text(); RenderAppend(Expected3Upto3(), Expected3Part4());
  }
  lemma Expected3Text5() ensures Render(Expected3Upto5()) == "SELECT " + "?x " + "?name " + "WHERE " + "{ " + "?x " {
    Expected3Text4(); Query3Part5Text(); RenderAppend(Expected3Upto4(), Expected3Part5());
  }
  lemma Expected3Text6() ensures Render(Expected3Upto6()) == "SELECT " + "?x " + "?name " + "WHERE " + "{ " + "?x " + "rdf:type " {
    Expected3Text5(); Expected3Part6Text(); RenderAppend(Expected3Upto5(), Expected3Part6());
  }
  lemma Expected3Text7() ensures Render(Expected3Upto7()) == "SELECT " + "?x " + "?name " + "WHERE " + "{ " + "?x " + "rdf:type " + "prov:Association " {
    Expected3Text6(); Expected3Part7Text(); RenderAppend(Expected3Upto6(), Expected3Part7());
  }
  lemma Expected3Text8() ensures Render(Expected3Upto8()) == "SELECT " + "?x " + "?name " + "WHERE " + "{ " + "?x " + "rdf:type " + "prov:Association " + "; " {
    Expected3Text7(); Query3Part8Text(); RenderAppend(Expected3Upto7(), Expected3Part8());
  }
  lemma Expected3Text9() ensures Render(Expected3Upto9()) == "SELECT " + "?x " + "?name " + "WHERE " + "{ " + "?x " + "rdf:type " + "prov:Association " + "; " + "prov:agent/" {
    Expected3Text8(); Expected3Part9Text(); RenderAppend(Expected3Upto8(), Expected3Part9());
  }
  lemma Expected3Text10() ensures Render(Expected3Upto10()) == "SELECT " + "?x " + "?name " + "WHERE " + "{ " + "?x " + "rdf:type " + "prov:Association " + "; " + "prov:agent/" + "schema:name " {
    Expected3Text9(); Expected3Part10Text(); RenderAppend(Expected3Upto9(), Expected3Part10());
  }
  lemma Expected3Text11() ensures Render(Expected3Upto11()) == "SELECT " + "?x " + "?name " + "WHERE " + "{ " + "?x " + "rdf:type " + "prov:Association " + "; " + "prov:agent/" + "schema:name " + "?name " {
    Expected3Text10(); Query3Part11Text(); RenderAppend(Expected3Upto10(), Expected3Part11());
  }
  lemma Expected3Text12() ensures Render(Expected3Upto12()) == "SELECT " + "?x " + "?name " + "WHERE " + "{ " + "?x " + "rdf:type " + "prov:Association " + "; " + "prov:agent/" + "schema:name " + "?name " + "}" {
    Expected3Text11(); Query3Part12Text(); RenderAppend(Expected3Upto11(), Expected3Part12());
  }

  /**
   * Case 3: the test's query lexes into its tokens, and its rewrite is
   * `prefixes_string`, a line break and the test's expected text (both
   * strings written a part at a time).
   */
  lemma Case3()
    ensures Lex("SELECT " + "?x " + "?name " + "WHERE " + "{ " + "?x " + "type " + "Association " + "; " + "agent/" + "name " + "?name " + "}") == Query3()
    ensures RewriteSparql("SELECT " + "?x " + "?name " + "WHERE " + "{ " + "?x " + "type " + "Association " + "; " + "agent/" + "name " + "?name " + "}", TestContext(), TestPrefixes())
         == Ok(PrefixesString() + "\n" + ("SELECT " + "?x " + "?name " + "WHERE " + "{ " + "?x " + "rdf:type " + "prov:Association " + "; " + "prov:agent/" + "schema:name " + "?name " + "}"))
  {
    Case3Upto12();
    ReadsAll(Query3(), Expected3(), TestContext(), TestPrefixes());
    Query3Text12(); Expected3Text12(); TestHeader();
  }

  // ---------------------------------------------------------------------
  // Case 4: SELECT ?name WHERE { ?x agent/name ?name FILTER regex(?name, "^j", "i") }
  // is expected to become: SELECT ?name WHERE { ?x prov:agent/schema:name ?name FILTER regex(?name, "^j", "i") }

  function Query4Part0(): seq<Token> { [Word("SELECT"), Space(" ")] }
  function Expected4Part0(): seq<Token> { Query4Part0() }
  function Query4Part1(): seq<Token> { [Variable("?name"), Space(" ")] }
  function Expected4Part1(): seq<Token> { Query4Part1() }
  function Query4Part2(): seq<Token> { [Word("WHERE"), Space(" ")] }
  function Expected4Part2(): seq<Token> { Query4Part2() }
  function Query4Part3(): seq<Token> { [Punct('{'), Space(" ")] }
  function Expected4Part3(): seq<Token> { Query4Part3() }
  function Query4Part4(): seq<Token> { [Variable("?x"), Space(" ")] }
  function Expected4Part4(): seq<Token> { Query4Part4() }
  function Query4Part5(): seq<Token> { [Word("agent"), PathSep] }
  function Expected4Part5(): seq<Token> { [Word("prov:agent"), PathSep] }
  function Query4Part6(): seq<Token> { [Word("name"), Space(" ")] }
  function Expected4Part6(): seq<Token> { [Word("schema:name"), Space(" ")] }
  function Query4Part7(): seq<Token> { [Variable("?name"), Space(" ")] }
  function Expected4Part7(): seq<Token> { Query4Part7() }
  function Query4Part8(): seq<Token> { [Word("FILTER"), Space(" ")] }
  function Expected4Part8(): seq<Token> { Query4Part8() }
  function Query4Part9(): seq<Token> { [Word("regex"), Punct('(')] }
  function Expected4Part9(): seq<Token> { Query4Part9() }
  function Query4Part10(): seq<Token> { [Variable("?name"), Punct(',')] }
  function Expected4Part10(): seq<Token> { Query4Part10() }
  function Query4Part11(): seq<Token> { [Space(" "), Literal("\"^j\"")] }
  function Expected4Part11(): seq<Token> { Query4Part11() }
  function Query4Part12(): seq<Token> { [Punct(','), Space(" ")] }
  function Expected4Part12(): seq<Token> { Query4Part12() }
  function Query4Part13(): seq<Token> { [Literal("\"i\""), Punct(')')] }
  function Expected4Part13(): seq<Token> { Query4Part13() }
  function Query4Part14(): seq<Token> { [Space(" "), Punct('}')] }
  function Expected4Part14(): seq<Token> { Query4Part14() }

  function Query4Upto0(): seq<Token> { Query4Part0() }
  function Expected4Upto0(): seq<Token> { Expected4Part0() }
  function Query4Upto1(): seq<Token> { Query4Upto0() + Query4Part1() }
  function Expected4Upto1(): seq<Token> { Expected4Upto0() + Expected4Part1() }
  function Query4Upto2(): seq<Token> { Query4Upto1() + Query4Part2() }
  function Expected4Upto2(): seq<Token> { Expected4Upto1() + Expected4Part2() }
  function Query4Upto3(): seq<Token> { Query4Upto2() + Query4Part3() }
  function Expected4Upto3(): seq<Token> { Expected4Upto2() + Expected4Part3() }
  function Query4Upto4(): seq<Token> { Query4Upto3() + Query4Part4() }
  function Expected4Upto4(): seq<Token> { Expected4Upto3() + Expected4Part4() }
  function Query4Upto5(): seq<Token> { Query4Upto4() + Query4Part5() }
  function Expected4Upto5(): seq<Token> { Expected4Upto4() + Expected4Part5() }
  function Query4Upto6(): seq<Token> { Query4Upto5() + Query4Part6() }
  function Expected4Upto6(): seq<Token> { Expected4Upto5() + Expected4Part6() }
  function Query4Upto7(): seq<Token> { Query4Upto6() + Query4Part7() }
  function Expected4Upto7(): seq<Token> { Expected4Upto6() + Expected4Part7() }
  function Query4Upto8(): seq<Token> { Query4Upto7() + Query4Part8() }
  function Expected4Upto8(): seq<Token> { Expected4Upto7() + Expected4Part8() }
  function Query4Upto9(): seq<Token> { Query4Upto8() + Query4Part9() }
  function Expected4Upto9(): seq<Token> { Expected4Upto8() + Expected4Part9() }
  function Query4Upto10(): seq<Token> { Query4Upto9() + Query4Part10() }
  function Expected4Upto10(): seq<Token> { Expected4Upto9() + Expected4Part10() }
  function Query4Upto11(): seq<Token> { Query4Upto10() + Query4Part11() }
  function Expected4Upto11(): seq<Token> { Expected4Upto10() + Expected4Part11() }
  function Query4Upto12(): seq<Token> { Query4Upto11() + Query4Part12() }
  function Expected4Upto12(): seq<Token> { Expected4Upto11() + Expected4Part12() }
  function Query4Upto13(): seq<Token> { Query4Upto12() + Query4Part13() }
  function Expected4Upto13(): seq<Token> { Expected4Upto12() + Expected4Part13() }
  function Query4Upto14(): seq<Token> { Query4Upto13() + Query4Part14() }
  function Expected4Upto14(): seq<Token> { Expected4Upto13() + Expected4Part14() }
  function Query4(): seq<Token> { Query4Upto14() }
  function Expected4(): seq<Token> { Expected4Upto14() }

  lemma Case4Part0() ensures Reads(Query4Part0(), Expected4Part0(), TestContext()) {
    RewriteKeeps(Space(" "), TestContext());
    assert TokenReads(Query4Part0(), Expected4Part0(), TestContext(), 0);
    assert TokenReads(Query4Part0(), Expected4Part0(), TestContext(), 1);
    assert ReadsRange(Query4Part0(), Expected4Part0(), TestContext(), 0, 2);
  }
  lemma Case4Part1() ensures Reads(Query4Part1(), Expected4Part1(), TestContext()) {
    RewriteKeeps(Variable("?name"), TestContext()); RewriteKeeps(Space(" "), TestContext());
    assert TokenReads(Query4Part1(), Expected4Part1(), TestContext(), 0);
    assert TokenReads(Query4Part1(), Expected4Part1(), TestContext(), 1);
    assert ReadsRange(Query4Part1(), Expected4Part1(), TestContext(), 0, 2);
  }
  lemma Case4Part2() ensures Reads(Query4Part2(), Expected4Part2(), TestContext()) {
    RewriteKeeps(Space(" "), TestContext());
    assert TokenReads(Query4Part2(), Expected4Part2(), TestContext(), 0);
    assert TokenReads(Query4Part2(), Expected4Part2(), TestContext(), 1);
    assert ReadsRange(Query4Part2(), Expected4Part2(), TestContext(), 0, 2);
  }
  lemma Case4Part3() ensures Reads(Query4Part3(), Expected4Part3(), TestContext()) {
    RewriteKeeps(Punct('{'), TestContext()); RewriteKeeps(Space(" "), TestContext());
    assert TokenReads(Query4Part3(), Expected4Part3(), TestContext(), 0);
    assert TokenReads(Query4Part3(), Expected4Part3(), TestContext(), 1);
    assert ReadsRange(Query4Part3(), Expected4Part3(), TestContext(), 0, 2);
  }
  lemma Case4Part4() ensures Reads(Query4Part4(), Expected4Part4(), TestContext()) {
    RewriteKeeps(Variable("?x"), TestContext()); RewriteKeeps(Space(" "), TestContext());
    assert TokenReads(Query4Part4(), Expected4Part4(), TestContext(), 0);
    assert TokenReads(Query4Part4(), Expected4Part4(), TestContext(), 1);
    assert ReadsRange(Query4Part4(), Expected4Part4(), TestContext(), 0, 2);
  }
  lemma Case4Part5() ensures Reads(Query4Part5(), Expected4Part5(), TestContext()) {
    AgentTerm(); RewriteKeeps(PathSep, TestContext());
    assert TokenReads(Query4Part5(), Expected4Part5(), TestContext(), 0);
    assert TokenReads(Query4Part5(), Expected4Part5(), TestContext(), 1);
    assert ReadsRange(Query4Part5(), Expected4Part5(), TestContext(), 0, 2);
  }
  lemma Case4Part6() ensures Reads(Query4Part6(), Expected4Part6(), TestContext()) {
    NameTerm(); RewriteKeeps(Space(" "), TestContext());
    assert TokenReads(Query4Part6(), Expected4Part6(), TestContext(), 0);
    assert TokenReads(Query4Part6(), Expected4Part6(), TestContext(), 1);
    assert ReadsRange(Query4Part6(), Expected4Part6(), TestContext(), 0, 2);
  }
  lemma Case4Part7() ensures Reads(Query4Part7(), Expected4Part7(), TestContext()) {
    RewriteKeeps(Variable("?name"), TestContext()); RewriteKeeps(Space(" "), TestContext());
    assert TokenReads(Query4Part7(), Expected4Part7(), TestContext(), 0);
    assert TokenReads(Query4Part7(), Expected4Part7(), TestContext(), 1);
    assert ReadsRange(Query4Part7(), Expected4Part7(), TestContext(), 0, 2);
  }
  lemma Case4Part8() ensures Reads(Query4Part8(), Expected4Part8(), TestContext()) {
    RewriteKeeps(Space(" "), TestContext());
    assert TokenReads(Query4Part8(), Expected4Part8(), TestContext(), 0);
    assert TokenReads(Query4Part8(), Expected4Part8(), TestContext(), 1);
    assert ReadsRange(Query4Part8(), Expected4Part8(), TestContext(), 0, 2);
  }
  lemma Case4Part9() ensures Reads(Query4Part9(), Expected4Part9(), TestContext()) {
    RewriteKeeps(Punct('('), TestContext());
    assert TokenReads(Query4Part9(), Expected4Part9(), TestContext(), 0);
    assert TokenReads(Query4Part9(), Expected4Part9(), TestContext(), 1);
    assert ReadsRange(Query4Part9(), Expected4Part9(), TestContext(), 0, 2);
  }
  lemma Case4Part10() ensures Reads(Query4Part10(), Expected4Part10(), TestContext()) {
    RewriteKeeps(Variable("?name"), TestContext()); RewriteKeeps(Punct(','), TestContext());
    assert TokenReads(Query4Part10(), Expected4Part10(), TestContext(), 0);
    assert TokenReads(Query4Part10(), Expected4Part10(), TestContext(), 1);
    assert ReadsRange(Query4Part10(), Expected4Part10(), TestContext(), 0, 2);
  }
  lemma Case4Part11() ensures Reads(Query4Part11(), Expected4Part11(), TestContext()) {
    RewriteKeeps(Space(" "), TestContext()); RewriteKeeps(Literal("\"^j\""), TestContext());
    assert TokenReads(Query4Part11(), Expected4Part11(), TestContext(), 0);
    assert TokenReads(Query4Part11(), Expected4Part11(), TestContext(), 1);
    assert ReadsRange(Query4Part11(), Expected4Part11(), TestContext(), 0, 2);
  }
  lemma Case4Part12() ensures Reads(Query4Part12(), Expected4Part12(), TestContext()) {
    RewriteKeeps(Punct(','), TestContext()); RewriteKeeps(Space(" "), TestContext());
    assert TokenReads(Query4Part12(), Expected4Part12(), TestContext(), 0);
    assert TokenReads(Query4Part12(), Expected4Part12(), TestContext(), 1);
    assert ReadsRange(Query4Part12(), Expected4Part12(), TestContext(), 0, 2);
  }
  lemma Case4Part13() ensures Reads(Query4Part13(), Expected4Part13(), TestContext()) {
    RewriteKeeps(Literal("\"i\""), TestContext()); RewriteKeeps(Punct(')'), TestContext());
    assert TokenReads(Query4Part13(), Expected4Part13(), TestContext(), 0);
    assert TokenReads(Query4Part13(), Expected4Part13(), TestContext(), 1);
    assert ReadsRange(Query4Part13(), Expected4Part13(), TestContext(), 0, 2);
  }
  lemma Case4Part14() ensures Reads(Query4Part14(), Expected4Part14(), TestContext()) {
    RewriteKeeps(Space(" "), TestContext()); RewriteKeeps(Punct('}'), TestContext());
    assert TokenReads(Query4Part14(), Expected4Part14(), TestContext(), 0);
    assert TokenReads(Query4Part14(), Expected4Part14(), TestContext(), 1);
    assert ReadsRange(Query4Part14(), Expected4Part14(), TestContext(), 0, 2);
  }

  lemma Case4Upto0() ensures Reads(Query4Upto0(), Expected4Upto0(), TestContext()) {
    Case4Part0();
  }
  lemma Case4Upto1() ensures Reads(Query4Upto1(), Expected4Upto1(), TestContext()) {
    Case4Upto0(); Case4Part1();
    ReadsJoin(Query4Upto0(), Expected4Upto0(), Query4Part1(), Expected4Part1(), TestContext());
  }
  lemma Case4Upto2() ensures Reads(Query4Upto2(), Expected4Upto2(), TestContext()) {
    Case4Upto1(); Case4Part2();
    ReadsJoin(Query4Upto1(), Expected4Upto1(), Query4Part2(), Expected4Part2(), TestContext());
  }
  lemma Case4Upto3() ensures Reads(Query4Upto3(), Expected4Upto3(), TestContext()) {
    Case4Upto2(); Case4Part3();
    ReadsJoin(Query4Upto2(), Expected4Upto2(), Query4Part3(), Expected4Part3(), TestContext());
  }
  lemma Case4Upto4() ensures Reads(Query4Upto4(), Expected4Upto4(), TestContext()) {
    Case4Upto3(); Case4Part4();
    ReadsJoin(Query4Upto3(), Expected4Upto3(), Query4Part4(), Expected4Part4(), TestContext());
  }
  lemma Case4Upto5() ensures Reads(Query4Upto5(), Expected4Upto5(), TestContext()) {
    Case4Upto4(); Case4Part5();
    ReadsJoin(Query4Upto4(), Expected4Upto4(), Query4Part5(), Expected4Part5(), TestContext());
  }
  lemma Case4Upto6() ensures Reads(Query4Upto6(), Expected4Upto6(), TestContext()) {
    Case4Upto5(); Case4Part6();
    ReadsJoin(Query4Upto5(), Expected4Upto5(), Query4Part6(), Expected4Part6(), TestContext());
  }
  lemma Case4Upto7() ensures Reads(Query4Upto7(), Expected4Upto7(), TestContext()) {
    Case4Upto6(); Case4Part7();
    ReadsJoin(Query4Upto6(), Expected4Upto6(), Query4Part7(), Expected4Part7(), TestContext());
  }
  lemma Case4Upto8() ensures Reads(Query4Upto8(), Expected4Upto8(), TestContext()) {
    Case4Upto7(); Case4Part8();
    ReadsJoin(Query4Upto7(), Expected4Upto7(), Query4Part8(), Expected4Part8(), TestContext());
  }
  lemma Case4Upto9() ensures Reads(Query4Upto9(), Expected4Upto9(), TestContext()) {
    Case4Upto8(); Case4Part9();
    ReadsJoin(Query4Upto8(), Expected4Upto8(), Query4Part9(), Expected4Part9(), TestContext());
  }
  lemma Case4Upto10() ensures Reads(Query4Upto10(), Expected4Upto10(), TestContext()) {
    Case4Upto9(); Case4Part10();
    ReadsJoin(Query4Upto9(), Expected4Upto9(), Query4Part10(), Expected4Part10(), TestContext());
  }
  lemma Case4Upto11() ensures Reads(Query4Upto11(), Expected4Upto11(), TestContext()) {
    Case4Upto10(); Case4Part11();
    ReadsJoin(Query4Upto10(), Expected4Upto10(), Query4Part11(), Expected4Part11(), TestContext());
  }
  lemma Case4Upto12() ensures Reads(Query4Upto12(), Expected4Upto12(), TestContext()) {
    Case4Upto11(); Case4Part12();
    ReadsJoin(Query4Upto11(), Expected4Upto11(), Query4Part12(), Expected4Part12(), TestContext());
  }
  lemma Case4Upto13() ensures Reads(Query4Upto13(), Expected4Upto13(), TestContext()) {
    Case4Upto12(); Case4Part13();
    ReadsJoin(Query4Upto12(), Expected4Upto12(), Query4Part13(), Expected4Part13(), TestContext());
  }
  lemma Case4Upto14() ensures Reads(Query4Upto14(), Expected4Upto14(), TestContext()) {
    Case4Upto13(); Case4Part14();
    ReadsJoin(Query4Upto13(), Expected4Upto13(), Query4Part14(), Expected4Part14(), TestContext());
  }

  lemma Query4Part0Text() ensures Render(Query4Part0()) == "SELECT " {}
  lemma Query4Part1Text() ensures Render(Query4Part1()) == "?name " {}
  lemma Query4Part2Text() ensures Render(Query4Part2()) == "WHERE " {}
  lemma Query4Part3Text() ensures Render(Query4Part3()) == "{ " {}
  lemma Query4Part4Text() ensures Render(Query4Part4()) == "?x " {}
  lemma Query4Part5Text() ensures Render(Query4Part5()) == "agent/" {}
  lemma Expected4Part5Text() ensures Render(Expected4Part5()) == "prov:agent/" {}
  lemma Query4Part6Text() ensures Render(Query4Part6()) == "name " {}
  lemma Expected4Part6Text() ensures Render(Expected4Part6()) == "schema:name " {}
  lemma Query4Part7Text() ensures Render(Query4Part7()) == "?name " {}
  lemma Query4Part8Text() ensures Render(Query4Part8()) == "FILTER " {}
  lemma Query4Part9Text() ensures Render(Query4Part9()) == "regex(" {}
  lemma Query4Part10Text() ensures Render(Query4Part10()) == "?name," {}
  lemma Query4Part11Text() ensures Render(Query4Part11()) == " \"^j\"" {}
  lemma Query4Part12Text() ensures Render(Query4Part12()) == ", " {}
  lemma Query4Part13Text() ensures Render(Query4Part13()) == "\"i\")" {}
  lemma Query4Part14Text() ensures Render(Query4Part14()) == " }" {}

  lemma Query4Text0() ensures Render(Query4Upto0()) == "SELECT " {
    Query4Part0Text();
  }
  lemma Query4Text1() ensures Render(Query4Upto1()) == "SELECT " + "?name " {
    Query4Text0(); Query4Part1Text(); RenderAppend(Query4Upto0(), Query4Part1());
  }
  lemma Query4Text2() ensures Render(Query4Upto2()) == "SELECT " + "?name " + "WHERE " {
    Query4Text1(); Query4Part2Text(); RenderAppend(Query4Upto1(), Query4Part2());
  }
  lemma Query4Text3() ensures Render(Query4Upto3()) == "SELECT " + "?name " + "WHERE " + "{ " {
    Query4Text2(); Query4Part3Text(); RenderAppend(Query4Upto2(), Query4Part3());
  }
  lemma Query4Text4() ensures Render(Query4Upto4()) == "SELECT " + "?name " + "WHERE " + "{ " + "?x " {
    Query4Text3(); Query4Part4Text(); RenderAppend(Query4Upto3(), Query4Part4());
  }
  lemma Query4Text5() ensures Render(Query4Upto5()) == "SELECT " + "?name " + "WHERE " + "{ " + "?x " + "agent/" {
    Query4Text4(); Query4Part5Text(); RenderAppend(Query4Upto4(), Query4Part5());
  }
  lemma Query4Text6() ensures Render(Query4Upto6()) == "SELECT " + "?name " + "WHERE " + "{ " + "?x " + "agent/" + "name " {
    Query4Text5(); Query4Part6Text(); RenderAppend(Query4Upto5(), Query4Part6());
  }
  lemma Query4Text7() ensures Render(Query4Upto7()) == "SELECT " + "?name " + "WHERE " + "{ " + "?x " + "agent/" + "name " + "?name " {
    Query4Text6(); Query4Part7Text(); RenderAppend(Query4Upto6(), Query4Part7());
  }
  lemma Query4Text8() ensures Render(Query4Upto8()) == "SELECT " + "?name " + "WHERE " + "{ " + "?x " + "agent/" + "name " + "?name " + "FILTER " {
    Query4Text7(); Query4Part8Text(); RenderAppend(Query4Upto7(), Query4Part8());
  }
  lemma Query4Text9() ensures Render(Query4Upto9()) == "SELECT " + "?name " + "WHERE " + "{ " + "?x " + "agent/" + "name " + "?name " + "FILTER " + "regex(" {
    Query4Text8(); Query4Part9Text(); RenderAppend(Query4Upto8(), Query4Part9());
  }
  lemma Query4Text10() ensures Render(Query4Upto10()) == "SELECT " + "?name " + "WHERE " + "{ " + "?x " + "agent/" + "name " + "?name " + "FILTER " + "regex(" + "?name," {
    Query4Text9(); Query4Part10Text(); RenderAppend(Query4Upto9(), Query4Part10());
  }
  lemma Query4Text11() ensures Render(Query4Upto11()) == "SELECT " + "?name " + "WHERE " + "{ " + "?x " + "agent/" + "name " + "?name " + "FILTER " + "regex(" + "?name," + " \"^j\"" {
    Query4Text10(); Query4Part11Text(); RenderAppend(Query4Upto10(), Query4Part11());
  }
  lemma Query4Text12() ensures Render(Query4Upto12()) == "SELECT " + "?name " + "WHERE " + "{ " + "?x " + "agent/" + "name " + "?name " + "FILTER " + "regex(" + "?name," + " \"^j\"" + ", " {
    Query4Text11(); Query4Part12Text(); RenderAppend(Query4Upto11(), Query4Part12());
  }
  lemma Query4Text13() ensures Render(Query4Upto13()) == "SELECT " + "?name " + "WHERE " + "{ " + "?x " + "agent/" + "name " + "?name " + "FILTER " + "regex(" + "?name," + " \"^j\"" + ", " + "\"i\")" {
    Query4Text12(); Query4Part13Text(); RenderAppend(Query4Upto12(), Query4Part13());
  }
  lemma Query4Text14() ensures Render(Query4Upto14()) == "SELECT " + "?name " + "WHERE " + "{ " + "?x " + "agent/" + "name " + "?name " + "FILTER " + "regex(" + "?name," + " \"^j\"" + ", " + "\"i\")" + " }" {
    Query4Text13(); Query4Part14Text(); RenderAppend(Query4Upto13(), Query4Part14());
  }

  lemma Expected4Text0() ensures Render(Expected4Upto0()) == "SELECT " {
    Query4Part0Text();
  }
  lemma Expected4Text1() ensures Render(Expected4Upto1()) == "SELECT " + "?name " {
    Expected4Text0(); Query4Part1Text(); RenderAppend(Expected4Upto0(), Expected4Part1());
  }
  lemma Expected4Text2() ensures Render(Expected4Upto2()) == "SELECT " + "?name " + "WHERE " {
    Expected4Text1(); Query4Part2Text(); RenderAppend(Expected4Upto1(), Expected4Part2());
  }
  lemma Expected4Text3() ensures Render(Expected4Upto3()) == "SELECT " + "?name " + "WHERE " + "{ " {
    Expected4Text2(); Query4Part3Text(); RenderAppend(Expected4Upto2(), Expected4Part3());
  }
  lemma Expected4Text4() ensures Render(Expected4Upto4()) == "SELECT " + "?name " + "WHERE " + "{ " + "?x " {
    Expected4Text3(); Query4Part4Text(); RenderAppend(Expected4Upto3(), Expected4Part4());
  }
  lemma Expected4Text5() ensures Render(Expected4Upto5()) == "SELECT " + "?name " + "WHERE " + "{ " + "?x " + "prov:agent/" {
    Expected4Text4(); Expected4Part5Text(); RenderAppend(Expected4Upto4(), Expected4Part5());
  }
  lemma Expected4Text6() ensures Render(Expected4Upto6()) == "SELECT " + "?name " + "WHERE " + "{ " + "?x " + "prov:agent/" + "schema:name " {
    Expected4Text5(); Expected4Part6Text(); RenderAppend(Expected4Upto5(), Expected4Part6());
  }
  lemma Expected4Text7() ensures Render(Expected4Upto7()) == "SELECT " + "?name " + "WHERE " + "{ " + "?x " + "prov:agent/" + "schema:name " + "?name " {
    Expected4Text6(); Query4Part7Text(); RenderAppend(Expected4Upto6(), Expected4Part7());
  }
  lemma Expected4Text8() ensures Render(Expected4Upto8()) == "SELECT " + "?name " + "WHERE " + "{ " + "?x " + "prov:agent/" + "schema:name " + "?name " + "FILTER " {
    Expected4Text7(); Query4Part8Text(); RenderAppend(Expected4Upto7(), Expected4Part8());
  }
  lemma Expected4Text9() ensures Render(Expected4Upto9()) == "SELECT " + "?name " + "WHERE " + "{ " + "?x " + "prov:agent/" + "schema:name " + "?name " + "FILTER " + "regex(" {
    Expected4Text8(); Query4Part9Text(); RenderAppend(Expected4Upto8(), Expected4Part9());
  }
  lemma Expected4Text10() ensures Render(Expected4Upto10()) == "SELECT " + "?name " + "WHERE " + "{ " + "?x " + "prov:agent/" + "schema:name " + "?name " + "FILTER " + "regex(" + "?name," {
    Expected4Text9(); Query4Part10Text(); RenderAppend(Expected4Upto9(), Expected4Part10());
  }
  lemma Expected4Text11() ensures Render(Expected4Upto11()) == "SELECT " + "?name " + "WHERE " + "{ " + "?x " + "prov:agent/" + "schema:name " + "?name " + "FILTER " + "regex(" + "?name," + " \"^j\"" {
    Expected4Text10(); Query4Part11Text(); RenderAppend(Expected4Upto10(), Expected4Part11());
  }
  lemma Expected4Text12() ensures Render(Expected4Upto12()) == "SELECT " + "?name " + "WHERE " + "{ " + "?x " + "prov:agent/" + "schema:name " + "?name " + "FILTER " + "regex(" + "?name," + " \"^j\"" + ", " {
    Expected4Text11(); Query4Part12Text(); RenderAppend(Expected4Upto11(), Expected4Part12());
  }
  lemma Expected4Text13() ensures Render(Expected4Upto13()) == "SELECT " + "?name " + "WHERE " + "{ " + "?x " + "prov:agent/" + "schema:name " + "?name " + "FILTER " + "regex(" + "?name," + " \"^j\"" + ", " + "\"i\")" {
    Expected4Text12(); Query4Part13Text(); RenderAppend(Expected4Upto12(), Expected4Part13());
  }
  lemma Expected4Text14() ensures Render(Expected4Upto14()) == "SELECT " + "?name " + "WHERE " + "{ " + "?x " + "prov:agent/" + "schema:name " + "?name " + "FILTER " + "regex(" + "?name," + " \"^j\"" + ", " + "\"i\")" + " }" {
    Expected4Text13(); Query4Part14Text(); RenderAppend(Expected4Upto13(), Expected4Part14());
  }

  /**
   * Case 4: the test's query lexes into its tokens, and its rewrite is
   * `prefixes_string`, a line break and the test's expected text (both
   * strings written a part at a time).
   */
  lemma Case4()
    ensures Lex("SELECT " + "?name " + "WHERE " + "{ " + "?x " + "agent/" + "name " + "?name " + "FILTER " + "regex(" + "?name," + " \"^j\"" + ", " + "\"i\")" + " }") == Query4()
    ensures RewriteSparql("SELECT " + "?name " + "WHERE " + "{ " + "?x " + "agent/" + "name " + "?name " + "FILTER " + "regex(" + "?name," + " \"^j\"" + ", " + "\"i\")" + " }", TestContext(), TestPrefixes())
         == Ok(PrefixesString() + "\n" + ("SELECT " + "?name " + "WHERE " + "{ " + "?x " + "prov:agent/" + "schema:name " + "?name " + "FILTER " + "regex(" + "?name," + " \"^j\"" + ", " + "\"i\")" + " }"))
  {
    Case4Upto14();
    ReadsAll(Query4(), Expected4(), TestContext(), TestPrefixes());
    Query4Text14(); Expected4Text14(); TestHeader();
  }

  // ---------------------------------------------------------------------
  // Case 5: SELECT ?x WHERE { <http://exaplpe.org/1234> description ?x }
  // is expected to become: SELECT ?x WHERE { <http://exaplpe.org/1234> <http://schema.org/description> ?x }

  function Query5Part0(): seq<Token> { [Word("SELECT"), Space(" ")] }
  function Expected5Part0(): seq<Token> { Query5Part0() }
  function Query5Part1(): seq<Token> { [Variable("?x"), Space(" ")] }
  function Expected5Part1(): seq<Token> { Query5Part1() }
  function Query5Part2(): seq<Token> { [Word("WHERE"), Space(" ")] }
  function Expected5Part2(): seq<Token> { Query5Part2() }
  function Query5Part3(): seq<Token> { [Punct('{'), Space(" ")] }
  function Expected5Part3(): seq<Token> { Query5Part3() }
  function Query5Part4(): seq<Token> { [Iri("<http://exaplpe.org/1234>"), Space(" ")] }
  function Expected5Part4(): seq<Token> { Query5Part4() }
  function Query5Part5(): seq<Token> { [Word("description"), Space(" ")] }
  function Expected5Part5(): seq<Token> { [Iri("<http://schema.org/description>"), Space(" ")] }
  function Query5Part6(): seq<Token> { [Variable("?x"), Space(" ")] }
  function Expected5Part6(): seq<Token> { Query5Part6() }
  function Query5Part7(): seq<Token> { [Punct('}')] }
  function Expected5Part7(): seq<Token> { Query5Part7() }

  function Query5Upto0(): seq<Token> { Query5Part0() }
  function Expected5Upto0(): seq<Token> { Expected5Part0() }
  function Query5Upto1(): seq<Token> { Query5Upto0() + Query5Part1() }
  function Expected5Upto1(): seq<Token> { Expected5Upto0() + Expected5Part1() }
  function Query5Upto2(): seq<Token> { Query5Upto1() + Query5Part2() }
  function Expected5Upto2(): seq<Token> { Expected5Upto1() + Expected5Part2() }
  function Query5Upto3(): seq<Token> { Query5Upto2() + Query5Part3() }
  function Expected5Upto3(): seq<Token> { Expected5Upto2() + Expected5Part3() }
  function Query5Upto4(): seq<Token> { Query5Upto3() + Query5Part4() }
  function Expected5Upto4(): seq<Token> { Expected5Upto3() + Expected5Part4() }
  function Query5Upto5(): seq<Token> { Query5Upto4() + Query5Part5() }
  function Expected5Upto5(): seq<Token> { Expected5Upto4() + Expected5Part5() }
  function Query5Upto6(): seq<Token> { Query5Upto5() + Query5Part6() }
  function Expected5Upto6(): seq<Token> { Expected5Upto5() + Expected5Part6() }
  function Query5Upto7(): seq<Token> { Query5Upto6() + Query5Part7() }
  function Expected5Upto7(): seq<Token> { Expected5Upto6() + Expected5Part7() }
  function Query5(): seq<Token> { Query5Upto7() }
  function Expected5(): seq<Token> { Expected5Upto7() }

  lemma Case5Part0() ensures Reads(Query5Part0(), Expected5Part0(), TestContext()) {
    RewriteKeeps(Space(" "), TestContext());
    assert TokenReads(Query5Part0(), Expected5Part0(), TestContext(), 0);
    assert TokenReads(Query5Part0(), Expected5Part0(), TestContext(), 1);
    assert ReadsRange(Query5Part0(), Expected5Part0(), TestContext(), 0, 2);
  }
  lemma Case5Part1() ensures Reads(Query5Part1(), Expected5Part1(), TestContext()) {
    RewriteKeeps(Variable("?x"), TestContext()); RewriteKeeps(Space(" "), TestContext());
    assert TokenReads(Query5Part1(), Expected5Part1(), TestContext(), 0);
    assert TokenReads(Query5Part1(), Expected5Part1(), TestContext(), 1);
    assert ReadsRange(Query5Part1(), Expected5Part1(), TestContext(), 0, 2);
  }
  lemma Case5Part2() ensures Reads(Query5Part2(), Expected5Part2(), TestContext()) {
    RewriteKeeps(Space(" "), TestContext());
    assert TokenReads(Query5Part2(), Expected5Part2(), TestContext(), 0);
    assert TokenReads(Query5Part2(), Expected5Part2(), TestContext(), 1);
    assert ReadsRange(Query5Part2(), Expected5Part2(), TestContext(), 0, 2);
  }
  lemma Case5Part3() ensures Reads(Query5Part3(), Expected5Part3(), TestContext()) {
    RewriteKeeps(Punct('{'), TestContext()); RewriteKeeps(Space(" "), TestContext());
    assert TokenReads(Query5Part3(), Expected5Part3(), TestContext(), 0);
    assert TokenReads(Query5Part3(), Expected5Part3(), TestContext(), 1);
    assert ReadsRange(Query5Part3(), Expected5Part3(), TestContext(), 0, 2);
  }
  lemma Case5Part4() ensures Reads(Query5Part4(), Expected5Part4(), TestContext()) {
    RewriteKeeps(Iri("<http://exaplpe.org/1234>"), TestContext()); RewriteKeeps(Space(" "), TestContext()); ExampleIri();
    assert TokenReads(Query5Part4(), Expected5Part4(), TestContext(), 0);
    assert TokenReads(Query5Part4(), Expected5Part4(), TestContext(), 1);
    assert ReadsRange(Query5Part4(), Expected5Part4(), TestContext(), 0, 2);
  }
  lemma Case5Part5() ensures Reads(Query5Part5(), Expected5Part5(), TestContext()) {
    DescriptionTerm(); RewriteKeeps(Space(" "), TestContext());
    assert TokenReads(Query5Part5(), Expected5Part5(), TestContext(), 0);
    assert TokenReads(Query5Part5(), Expected5Part5(), TestContext(), 1);
    assert ReadsRange(Query5Part5(), Expected5Part5(), TestContext(), 0, 2);
  }
  lemma Case5Part6() ensures Reads(Query5Part6(), Expected5Part6(), TestContext()) {
    RewriteKeeps(Variable("?x"), TestContext()); RewriteKeeps(Space(" "), TestContext());
    assert TokenReads(Query5Part6(), Expected5Part6(), TestContext(), 0);
    assert TokenReads(Query5Part6(), Expected5Part6(), TestContext(), 1);
    assert ReadsRange(Query5Part6(), Expected5Part6(), TestContext(), 0, 2);
  }
  lemma Case5Part7() ensures Reads(Query5Part7(), Expected5Part7(), TestContext()) {
    RewriteKeeps(Punct('}'), TestContext());
    assert TokenReads(Query5Part7(), Expected5Part7(), TestContext(), 0);
    assert ReadsRange(Query5Part7(), Expected5Part7(), TestContext(), 0, 1);
  }

  lemma Case5Upto0() ensures Reads(Query5Upto0(), Expected5Upto0(), TestContext()) {
    Case5Part0();
  }
  lemma Case5Upto1() ensures Reads(Query5Upto1(), Expected5Upto1(), TestContext()) {
    Case5Upto0(); Case5Part1();
    ReadsJoin(Query5Upto0(), Expected5Upto0(), Query5Part1(), Expected5Part1(), TestContext());
  }
  lemma Case5Upto2() ensures Reads(Query5Upto2(), Expected5Upto2(), TestContext()) {
    Case5Upto1(); Case5Part2();
    ReadsJoin(Query5Upto1(), Expected5Upto1(), Query5Part2(), Expected5Part2(), TestContext());
  }
  lemma Case5Upto3() ensures Reads(Query5Upto3(), Expected5Upto3(), TestContext()) {
    Case5Upto2(); Case5Part3();
    ReadsJoin(Query5Upto2(), Expected5Upto2(), Query5Part3(), Expected5Part3(), TestContext());
  }
  lemma Case5Upto4() ensures Reads(Query5Upto4(), Expected5Upto4(), TestContext()) {
    Case5Upto3(); Case5Part4();
    ReadsJoin(Query5Upto3(), Expected5Upto3(), Query5Part4(), Expected5Part4(), TestContext());
  }
  lemma Case5Upto5() ensures Reads(Query5Upto5(), Expected5Upto5(), TestContext()) {
    Case5Upto4(); Case5Part5();
    ReadsJoin(Query5Upto4(), Expected5Upto4(), Query5Part5(), Expected5Part5(), TestContext());
  }
  lemma Case5Upto6() ensures Reads(Query5Upto6(), Expected5Upto6(), TestContext()) {
    Case5Upto5(); Case5Part6();
    ReadsJoin(Query5Upto5(), Expected5Upto5(), Query5Part6(), Expected5Part6(), TestContext());
  }
  lemma Case5Upto7() ensures Reads(Query5Upto7(), Expected5Upto7(), TestContext()) {
    Case5Upto6(); Case5Part7();
    ReadsJoin(Query5Upto6(), Expected5Upto6(), Query5Part7(), Expected5Part7(), TestContext());
  }

  lemma Query5Part0Text() ensures Render(Query5Part0()) == "SELECT " {}
  lemma Query5Part1Text() ensures Render(Query5Part1()) == "?x " {}
  lemma Query5Part2Text() ensures Render(Query5Part2()) == "WHERE " {}
  lemma Query5Part3Text() ensures Render(Query5Part3()) == "{ " {}
  lemma Query5Part4Text() ensures Render(Query5Part4()) == "<http://exaplpe.org/1234> " {}
  lemma Query5Part5Text() ensures Render(Query5Part5()) == "description " {}
  lemma Expected5Part5Text() ensures Render(Expected5Part5()) == "<http://schema.org/description> " {}
  lemma Query5Part6Text() ensures Render(Query5Part6()) == "?x " {}
  lemma Query5Part7Text() ensures Render(Query5Part7()) == "}" {}

  lemma Query5Text0() ensures Render(Query5Upto0()) == "SELECT " {
    Query5Part0Text();
  }
  lemma Query5Text1() ensures Render(Query5Upto1()) == "SELECT " + "?x " {
    Query5Text0(); Query5Part1Text(); RenderAppend(Query5Upto0(), Query5Part1());
  }
  lemma Query5Text2() ensures Render(Query5Upto2()) == "SELECT " + "?x " + "WHERE " {
    Query5Text1(); Query5Part2Text(); RenderAppend(Query5Upto1(), Query5Part2());
  }
  lemma Query5Text3() ensures Render(Query5Upto3()) == "SELECT " + "?x " + "WHERE " + "{ " {
    Query5Text2(); Query5Part3Text(); RenderAppend(Query5Upto2(), Query5Part3());
  }
  lemma Query5Text4() ensures Render(Query5Upto4()) == "SELECT " + "?x " + "WHERE " + "{ " + "<http://exaplpe.org/1234> " {
    Query5Text3(); Query5Part4Text(); RenderAppend(Query5Upto3(), Query5Part4());
  }
  lemma Query5Text5() ensures Render(Query5Upto5()) == "SELECT " + "?x " + "WHERE " + "{ " + "<http://exaplpe.org/1234> " + "description " {
    Query5Text4(); Query5Part5Text(); RenderAppend(Query5Upto4(), Query5Part5());
  }
  lemma Query5Text6() ensures Render(Query5Upto6()) == "SELECT " + "?x " + "WHERE " + "{ " + "<http://exaplpe.org/1234> " + "description " + "?x " {
    Query5Text5(); Query5Part6Text(); RenderAppend(Query5Upto5(), Query5Part6());
  }
  lemma Query5Text7() ensures Render(Query5Upto7()) == "SELECT " + "?x " + "WHERE " + "{ " + "<http://exaplpe.org/1234> " + "description " + "?x " + "}" {
    Query5Text6(); Query5Part7Text(); RenderAppend(Query5Upto6(), Query5Part7());
  }

  lemma Expected5Text0() ensures Render(Expected5Upto0()) == "SELECT " {
    Query5Part0Text();
  }
  lemma Expected5Text1() ensures Render(Expected5Upto1()) == "SELECT " + "?x " {
    Expected5Text0(); Query5Part1Text(); RenderAppend(Expected5Upto0(), Expected5Part1());
  }
  lemma Expected5Text2() ensures Render(Expected5Upto2()) == "SELECT " + "?x " + "WHERE " {
    Expected5Text1(); Query5Part2Text(); RenderAppend(Expected5Upto1(), Expected5Part2());
  }
  lemma Expected5Text3() ensures Render(Expected5Upto3()) == "SELECT " + "?x " + "WHERE " + "{ " {
    Expected5Text2(); Query5Part3Text(); RenderAppend(Expected5Upto2(), Expected5Part3());
  }
  lemma Expected5Text4() ensures Render(Expected5Upto4()) == "SELECT " + "?x " + "WHERE " + "{ " + "<http://exaplpe.org/1234> " {
    Expected5Text3(); Query5Part4Text(); RenderAppend(Expected5Upto3(), Expected5Part4());
  }
  lemma Expected5Text5() ensures Render(Expected5Upto5()) == "SELECT " + "?x " + "WHERE " + "{ " + "<http://exaplpe.org/1234> " + "<http://schema.org/description> " {
    Expected5Text4(); Expected5Part5Text(); RenderAppend(Expected5Upto4(), Expected5Part5());
  }
  lemma Expected5Text6() ensures Render(Expected5Upto6()) == "SELECT " + "?x " + "WHERE " + "{ " + "<http://exaplpe.org/1234> " + "<http://schema.org/description> " + "?x " {
    Expected5Text5(); Query5Part6Text(); RenderAppend(Expected5Upto5(), Expected5Part6());
  }
  lemma Expected5Text7() ensures Render(Expected5Upto7()) == "SELECT " + "?x " + "WHERE " + "{ " + "<http://exaplpe.org/1234> " + "<http://schema.org/description> " + "?x " + "}" {
    Expected5Text6(); Query5Part7Text(); RenderAppend(Expected5Upto6(), Expected5Part7());
  }

  /**
   * Case 5: the test's query lexes into its tokens, and its rewrite is
   * `prefixes_string`, a line break and the test's expected text (both
   * strings written a part at a time).
   */
  lemma Case5()
    ensures Lex("SELECT " + "?x " + "WHERE " + "{ " + "<http://exaplpe.org/1234> " + "description " + "?x " + "}") == Query5()
    ensures RewriteSparql("SELECT " + "?x " + "WHERE " + "{ " + "<http://exaplpe.org/1234> " + "description " + "?x " + "}", TestContext(), TestPrefixes())
         == Ok(PrefixesString() + "\n" + ("SELECT " + "?x " + "WHERE " + "{ " + "<http://exaplpe.org/1234> " + "<http://schema.org/description> " + "?x " + "}"))
  {
    Case5Upto7();
    ReadsAll(Query5(), Expected5(), TestContext(), TestPrefixes());
    Query5Text7(); Expected5Text7(); TestHeader();
  }

}
