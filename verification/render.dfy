/**
 * Rendering of the policy records (generateRego and its text/template). The
 * template is modelled as explicit dispatch on the record kind, in the
 * template's priority: field filter, list filter, overwrite filter, boolean
 * filter, default rule. Each function gives the exact text the template
 * produces once its `{{- … }}` markers have trimmed the surrounding blanks.
 */
module Render {
  import opened Common
  import opened Text
  import opened Schema

  /** The package header, the default decision and the decoded token. */
  function Preamble(packageName: string): string {
    "package " + packageName + "\ndefault allow = false\n\n"
    + "token = {\"payload\": payload} { io.jwt.decode(input.token, [_, payload, _]) }"
  }

  /** The two lines that tie a rule to the request's path and method. */
  function Location(path: string, httpMethod: string): string {
    "\n  input.path = " + path + "\n  input.method = " + httpMethod
  }

  /** One scope check per scope of a field-filter record. */
  function ScopeLines(scopes: seq<string>): string {
    if scopes == [] then ""
    else ScopeLines(scopes[..|scopes| - 1]) + "\n  token.payload.scopes[\"" + scopes[|scopes| - 1] + "\"]"
  }

  /** One body line per compiled expression. */
  function ExpressionLines(es: seq<string>): string {
    if es == [] then "" else ExpressionLines(es[..|es| - 1]) + ("\n  " + es[|es| - 1])
  }

  function FieldText(r: PolicySchema): string {
    "\n\nfilter = " + r.fieldFilter + " {" + Location(r.path, r.httpMethod) + ScopeLines(r.scopes) + "\n}"
  }

  function ListHead(r: PolicySchema, source: string): string {
    "\n\nlist_filter[x] {" + Location(r.path, r.httpMethod) + "\n  x := input." + source + "[_]"
  }

  function ListText(r: PolicySchema, f: ListFilter): string {
    ListHead(r, f.source) + ExpressionLines(f.expressions) + "\n}"
  }

  /** What guards a `response` rule of an overwrite record: the helper rule, or its negation. */
  datatype Guard = Helper | NotHelper

  datatype ResponseRule = ResponseRule(value: string, guard: Guard)

  /** The two `response` rules in template order: the value goes to the one `negated` selects. */
  function ResponseRules(f: OverwriteFilter): seq<ResponseRule> {
    var keep := "input.object." + f.field;
    if f.negated then [ResponseRule(f.value, NotHelper), ResponseRule(keep, Helper)]
    else [ResponseRule(f.value, Helper), ResponseRule(keep, NotHelper)]
  }

  function ResponseRuleText(f: OverwriteFilter, rule: ResponseRule): string {
    var guard := if rule.guard == Helper then f.helperRuleName else "not " + f.helperRuleName;
    "response[\"" + f.field + "\"] = " + rule.value + " {\n    " + guard + "\n}"
  }

  function ResponsePair(f: OverwriteFilter): string {
    var rules := ResponseRules(f);
    "\n" + ResponseRuleText(f, rules[0]) + "\n\n" + ResponseRuleText(f, rules[1])
  }

  function HelperHead(r: PolicySchema, helper: string): string {
    "\n" + helper + " = true {" + Location(r.path, r.httpMethod)
  }

  /** One helper rule per rule of the overwrite definition. */
  function HelperRules(r: PolicySchema, helper: string, rules: seq<seq<string>>): string {
    if rules == [] then ""
    else HelperRules(r, helper, rules[..|rules| - 1]) + (HelperHead(r, helper) + ExpressionLines(rules[|rules| - 1]) + "\n}\n")
  }

  function OverwriteText(r: PolicySchema, f: OverwriteFilter): string {
    "\n" + ResponsePair(f) + "  \n" + HelperRules(r, f.helperRuleName, f.expressions)
  }

  function AllowHead(r: PolicySchema): string {
    "\n\nallow = true {" + Location(r.path, r.httpMethod)
  }

  /** One `allow` rule per rule of the boolean definition. */
  function AllowRules(r: PolicySchema, rules: seq<seq<string>>): string {
    if rules == [] then ""
    else AllowRules(r, rules[..|rules| - 1]) + (AllowHead(r) + ExpressionLines(rules[|rules| - 1]) + "\n}")
  }

  function BooleanText(r: PolicySchema, f: BooleanFilter): string {
    "  \n" + AllowRules(r, f.expressions)
  }

  /** The rule that allows the operation outright. */
  function DefaultText(r: PolicySchema): string {
    AllowHead(r) + "\n}"
  }

  /** The text of one record, chosen in the template's priority. */
  function RecordText(r: PolicySchema): string {
    if r.fieldFilter != "" then FieldText(r)
    else if r.listFilter.Some? then ListText(r, r.listFilter.value)
    else if r.overwriteFilter.Some? then OverwriteText(r, r.overwriteFilter.value)
    else if r.booleanFilter.Some? then BooleanText(r, r.booleanFilter.value)
    else DefaultText(r)
  }

  function RecordsText(rs: seq<PolicySchema>): string {
    if rs == [] then "" else RecordsText(rs[..|rs| - 1]) + RecordText(rs[|rs| - 1])
  }

  /** The whole policy document. */
  function PolicyText(packageName: string, rs: seq<PolicySchema>): string {
    Preamble(packageName) + RecordsText(rs)
  }

  // ------------------------------------------------------------ the output buffer

  /** bytes.Buffer: text that only grows at its end. */
  class Buffer {
    var text: string

    constructor()
      ensures text == ""
    {
      text := "";
    }

    method WriteString(s: string)
      modifies this
      ensures text == old(text) + s
    {
      text := text + s;
    }
  }

  /** Writes `head`, one line per expression, then `tail`. */
  method WriteRule(buf: Buffer, head: string, es: seq<string>, tail: string)
    modifies buf
    ensures buf.text == old(buf.text) + (head + ExpressionLines(es) + tail)
  {
    ghost var start := buf.text;
    buf.WriteString(head);
    for i := 0 to |es|
      invariant buf.text == start + head + ExpressionLines(es[..i])
    {
      assert es[..i + 1][..i] == es[..i];
      ConcatAssoc(start + head, ExpressionLines(es[..i]), "\n  " + es[i]);
      buf.WriteString("\n  " + es[i]);
    }
    assert es[..|es|] == es;
    buf.WriteString(tail);
    ConcatAssoc(start, head, ExpressionLines(es));
    ConcatAssoc(start, head + ExpressionLines(es), tail);
  }

  method WriteField(buf: Buffer, r: PolicySchema)
    requires r.fieldFilter != ""
    modifies buf
    ensures buf.text == old(buf.text) + RecordText(r)
  {
    ghost var start := buf.text;
    var head := "\n\nfilter = " + r.fieldFilter + " {" + Location(r.path, r.httpMethod);
    buf.WriteString(head);
    for i := 0 to |r.scopes|
      invariant buf.text == start + head + ScopeLines(r.scopes[..i])
    {
      var scope := r.scopes[i];
      assert r.scopes[..i + 1][..i] == r.scopes[..i];
      ConcatAssoc(start + head, ScopeLines(r.scopes[..i]), "\n  token.payload.scopes[\"" + scope + "\"]");
      buf.WriteString("\n  token.payload.scopes[\"" + scope + "\"]");
    }
    assert r.scopes[..|r.scopes|] == r.scopes;
    buf.WriteString("\n}");
    ConcatAssoc(start, head, ScopeLines(r.scopes));
    ConcatAssoc(start, head + ScopeLines(r.scopes), "\n}");
  }

  method WriteOverwrite(buf: Buffer, r: PolicySchema, f: OverwriteFilter)
    modifies buf
    ensures buf.text == old(buf.text) + OverwriteText(r, f)
  {
    ghost var start := buf.text;
    var lead := "\n" + ResponsePair(f) + "  \n";
    buf.WriteString(lead);
    for i := 0 to |f.expressions|
      invariant buf.text == start + lead + HelperRules(r, f.helperRuleName, f.expressions[..i])
    {
      assert f.expressions[..i + 1][..i] == f.expressions[..i];
      var rule := HelperHead(r, f.helperRuleName) + ExpressionLines(f.expressions[i]) + "\n}\n";
      ConcatAssoc(start + lead, HelperRules(r, f.helperRuleName, f.expressions[..i]), rule);
      WriteRule(buf, HelperHead(r, f.helperRuleName), f.expressions[i], "\n}\n");
    }
    assert f.expressions[..|f.expressions|] == f.expressions;
    ConcatAssoc(start, lead, HelperRules(r, f.helperRuleName, f.expressions));
  }

  method WriteBoolean(buf: Buffer, r: PolicySchema, f: BooleanFilter)
    modifies buf
    ensures buf.text == old(buf.text) + BooleanText(r, f)
  {
    ghost var start := buf.text;
    buf.WriteString("  \n");
    for i := 0 to |f.expressions|
      invariant buf.text == start + "  \n" + AllowRules(r, f.expressions[..i])
    {
      assert f.expressions[..i + 1][..i] == f.expressions[..i];
      var rule := AllowHead(r) + ExpressionLines(f.expressions[i]) + "\n}";
      ConcatAssoc(start + "  \n", AllowRules(r, f.expressions[..i]), rule);
      WriteRule(buf, AllowHead(r), f.expressions[i], "\n}");
    }
    assert f.expressions[..|f.expressions|] == f.expressions;
    ConcatAssoc(start, "  \n", AllowRules(r, f.expressions));
  }

  /** One pass of the template's range over the records. */
  method WriteRecord(buf: Buffer, r: PolicySchema)
    modifies buf
    ensures buf.text == old(buf.text) + RecordText(r)
  {
    if r.fieldFilter != "" {
      WriteField(buf, r);
    } else if r.listFilter.Some? {
      WriteRule(buf, ListHead(r, r.listFilter.value.source), r.listFilter.value.expressions, "\n}");
    } else if r.overwriteFilter.Some? {
      WriteOverwrite(buf, r, r.overwriteFilter.value);
    } else if r.booleanFilter.Some? {
      WriteBoolean(buf, r, r.booleanFilter.value);
    } else {
      WriteRule(buf, AllowHead(r), [], "\n}");
    }
  }

  /** generateRego: the preamble, then every record in order. */
  method GenerateRego(schemas: seq<PolicySchema>, packageName: string) returns (out: string)
    ensures out == PolicyText(packageName, schemas)
  {
    var buf := new Buffer();
    buf.WriteString(Preamble(packageName));
    for i := 0 to |schemas|
      invariant buf.text == Preamble(packageName) + RecordsText(schemas[..i])
    {
      assert schemas[..i + 1][..i] == schemas[..i];
      ConcatAssoc(Preamble(packageName), RecordsText(schemas[..i]), RecordText(schemas[i]));
      WriteRecord(buf, schemas[i]);
    }
    assert schemas[..|schemas|] == schemas;
    out := buf.text;
  }

  // ------------------------------------------------------------ properties of the rendering

  /** Whether a guard holds when the helper rule evaluates to `helperHolds`. */
  predicate Applies(g: Guard, helperHolds: bool) {
    (g == Helper) == helperHolds
  }

  /**
   * Whatever the helper rule decides, exactly one of the two `response` rules
   * applies, and it writes the overwrite value exactly when the helper's
   * outcome differs from `negated`; otherwise the object's own field is kept.
   */
  lemma OverwriteGuards(f: OverwriteFilter, helperHolds: bool)
    ensures var rules := ResponseRules(f);
      && |rules| == 2
      && Applies(rules[0].guard, helperHolds) != Applies(rules[1].guard, helperHolds)
      && forall k :: 0 <= k < 2 && Applies(rules[k].guard, helperHolds) ==>
           rules[k].value == if helperHolds != f.negated then f.value else "input.object." + f.field
  {
  }

  /** The records render one after the other: rendering distributes over concatenation. */
  lemma {:induction false} RecordsTextAppend(a: seq<PolicySchema>, b: seq<PolicySchema>)
    ensures RecordsText(a + b) == RecordsText(a) + RecordsText(b)
  {
    if b == [] {
      assert a + b == a;
    } else {
      var init := b[..|b| - 1];
      assert (a + b)[..|a + b| - 1] == a + init;
      assert (a + b)[|a + b| - 1] == b[|b| - 1];
      RecordsTextAppend(a, init);
      ConcatAssoc(RecordsText(a), RecordsText(init), RecordText(b[|b| - 1]));
    }
  }
}
