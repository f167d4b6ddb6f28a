/**
 * The record building in Generate: for one OpenAPI operation, the policy
 * records of its field, list, overwrite and boolean filter extensions, in
 * that order, then a default record when the operation has no boolean filter.
 */
module Schema {
  import opened Common
  import opened Text
  import opened PathTemplate
  import opened Security
  import opened Expressions

  // ------------------------------------------------------------ decoded extensions

  /** A field-filter definition: scheme names with the fields they may see, in iteration order. */
  type FieldDefinition = seq<(string, seq<string>)>

  datatype ListDefinition = ListDefinition(source: string, operations: seq<Operation>)

  /** An overwrite definition; its value is already rendered as text, `None` for JSON null. */
  datatype OverwriteDefinition = OverwriteDefinition(field: string, value: Option<string>, negated: bool, rules: seq<Rule>)

  datatype BooleanDefinition = BooleanDefinition(rules: seq<Rule>)

  /** The four vendor extensions of an operation; `None` when the key is absent. */
  datatype Extensions = Extensions(
    fieldFilter: Option<seq<FieldDefinition>>,
    listFilter: Option<seq<ListDefinition>>,
    overwriteFilter: Option<seq<OverwriteDefinition>>,
    booleanFilter: Option<seq<BooleanDefinition>>)

  /** One operation of the document; `security` is `None` when the operation has no Security field. */
  datatype ApiOperation = ApiOperation(path: string, httpMethod: string, security: Option<seq<Requirement>>, extensions: Extensions)

  // ------------------------------------------------------------ policy records

  datatype ListFilter = ListFilter(source: string, expressions: seq<string>)

  datatype OverwriteFilter = OverwriteFilter(
    field: string, value: string, negated: bool, helperRuleName: string, expressions: seq<seq<string>>)

  datatype BooleanFilter = BooleanFilter(expressions: seq<seq<string>>)

  /** PolicySchema: what the template renders for one record. */
  datatype PolicySchema = PolicySchema(
    path: string,
    httpMethod: string,
    scopes: seq<string>,
    fieldFilter: string,
    listFilter: Option<ListFilter>,
    overwriteFilter: Option<OverwriteFilter>,
    booleanFilter: Option<BooleanFilter>)

  /** The kinds of record, in the priority the template tests them. */
  datatype Kind = FieldKind | ListKind | OverwriteKind | BooleanKind | DefaultKind

  function KindOf(r: PolicySchema): Kind {
    if r.fieldFilter != "" then FieldKind
    else if r.listFilter.Some? then ListKind
    else if r.overwriteFilter.Some? then OverwriteKind
    else if r.booleanFilter.Some? then BooleanKind
    else DefaultKind
  }

  /** A record sets at most one filter, so the template's priority never hides one. */
  predicate SingleFilter(r: PolicySchema) {
    (if r.fieldFilter != "" then 1 else 0) + (if r.listFilter.Some? then 1 else 0)
    + (if r.overwriteFilter.Some? then 1 else 0) + (if r.booleanFilter.Some? then 1 else 0) <= 1
  }

  function FieldRecord(path: string, httpMethod: string, scopes: seq<string>, fields: seq<string>): PolicySchema {
    PolicySchema(path, httpMethod, scopes, MaskFieldList(fields), None, None, None)
  }

  function ListRecord(path: string, httpMethod: string, source: string, expressions: seq<string>): PolicySchema {
    PolicySchema(path, httpMethod, [], "", Some(ListFilter(source, expressions)), None, None)
  }

  /** The helper rule of the overwrite definition at `index`: `allow1`, `allow2`, … */
  function HelperName(index: nat): string {
    "allow" + FormatInt(index + 1)
  }

  /** The overwrite value; a missing value becomes `null`. */
  function ValueText(value: Option<string>): string {
    if value.None? then "null" else value.value
  }

  function OverwriteRecord(path: string, httpMethod: string, d: OverwriteDefinition, index: nat, expressions: seq<seq<string>>): PolicySchema {
    PolicySchema(path, httpMethod, [], "", None,
      Some(OverwriteFilter(d.field, ValueText(d.value), d.negated, HelperName(index), expressions)), None)
  }

  function BooleanRecord(path: string, httpMethod: string, expressions: seq<seq<string>>): PolicySchema {
    PolicySchema(path, httpMethod, [], "", None, None, Some(BooleanFilter(expressions)))
  }

  /** The record that allows the operation outright; it checks no scopes. */
  function DefaultRecord(path: string, httpMethod: string): PolicySchema {
    PolicySchema(path, httpMethod, [], "", None, None, None)
  }

  // ------------------------------------------------------------ field filter

  /** The (scheme, fields) pairs of all definitions, one definition after the other. */
  function Pairs(defs: seq<FieldDefinition>): seq<(string, seq<string>)> {
    if defs == [] then [] else defs[0] + Pairs(defs[1..])
  }

  /** One record per pair, carrying the scheme's scopes; an unknown scheme fails. */
  function PairRecords(path: string, httpMethod: string, schemes: map<string, Scopes>, pairs: seq<(string, seq<string>)>)
    : (r: Result<seq<PolicySchema>>)
    ensures r.Ok? <==> forall i :: 0 <= i < |pairs| ==> pairs[i].0 in schemes
    ensures r.Ok? ==> (|r.value| == |pairs| && forall i :: 0 <= i < |pairs| ==>
      pairs[i].0 in schemes && r.value[i] == FieldRecord(path, httpMethod, schemes[pairs[i].0], pairs[i].1))
  {
    if pairs == [] then Ok([])
    else
      var (name, fields) := pairs[0];
      if name !in schemes then Err(UnknownScheme(name))
      else
        assert forall i :: 0 < i < |pairs| ==> pairs[i] == pairs[1..][i - 1];
        Prepend([FieldRecord(path, httpMethod, schemes[name], fields)], PairRecords(path, httpMethod, schemes, pairs[1..]))
  }

  /** The field filter fails at the first pair naming an unknown scheme, and names that scheme. */
  lemma {:induction false} PairRecordsFirstError(path: string, httpMethod: string, schemes: map<string, Scopes>,
                                                 pairs: seq<(string, seq<string>)>, i: nat)
    requires i < |pairs| && pairs[i].0 !in schemes
    requires forall j :: 0 <= j < i ==> pairs[j].0 in schemes
    ensures PairRecords(path, httpMethod, schemes, pairs) == Err(UnknownScheme(pairs[i].0))
  {
    if i > 0 {
      assert pairs[1..][i - 1] == pairs[i];
      assert forall j :: 0 <= j < i - 1 ==> pairs[1..][j] == pairs[j + 1];
      PairRecordsFirstError(path, httpMethod, schemes, pairs[1..], i - 1);
    }
  }

  /** The records of two runs of pairs: the first error wins, else the records concatenate. */
  lemma {:induction false} PairRecordsAppend(path: string, httpMethod: string, schemes: map<string, Scopes>,
                                             a: seq<(string, seq<string>)>, b: seq<(string, seq<string>)>)
    ensures PairRecords(path, httpMethod, schemes, a).Err? ==>
      PairRecords(path, httpMethod, schemes, a + b) == Err(PairRecords(path, httpMethod, schemes, a).error)
    ensures PairRecords(path, httpMethod, schemes, a).Ok? ==>
      PairRecords(path, httpMethod, schemes, a + b) ==
        Prepend(PairRecords(path, httpMethod, schemes, a).value, PairRecords(path, httpMethod, schemes, b))
  {
    if a == [] {
      assert a + b == b;
      PrependNothing(PairRecords(path, httpMethod, schemes, b));
    } else {
      assert (a + b)[0] == a[0];
      assert (a + b)[1..] == a[1..] + b;
      PairRecordsAppend(path, httpMethod, schemes, a[1..], b);
      var rest := PairRecords(path, httpMethod, schemes, a[1..]);
      if a[0].0 in schemes && rest.Ok? {
        var first := FieldRecord(path, httpMethod, schemes[a[0].0], a[0].1);
        PrependPrepend([first], rest.value, PairRecords(path, httpMethod, schemes, b));
      }
    }
  }

  function FieldRecords(path: string, httpMethod: string, schemes: map<string, Scopes>, defs: seq<FieldDefinition>)
    : Result<seq<PolicySchema>>
  {
    PairRecords(path, httpMethod, schemes, Pairs(defs))
  }

  /** The loop over the schemes of one field-filter definition. */
  method DefinitionRecords(path: string, httpMethod: string, schemes: map<string, Scopes>, definition: FieldDefinition)
    returns (r: Result<seq<PolicySchema>>)
    ensures r == PairRecords(path, httpMethod, schemes, definition)
  {
    var schemas: seq<PolicySchema> := [];
    assert definition[0..] == definition;
    PrependNothing(PairRecords(path, httpMethod, schemes, definition));
    for j := 0 to |definition|
      invariant PairRecords(path, httpMethod, schemes, definition) ==
        Prepend(schemas, PairRecords(path, httpMethod, schemes, definition[j..]))
    {
      var (schemeName, maskFields) := definition[j];
      assert definition[j..][1..] == definition[j + 1..];
      if schemeName !in schemes {
        return Err(UnknownScheme(schemeName));
      }
      var scopes := schemes[schemeName];
      var fieldFilter := FormattedMaskFields(maskFields);
      var schema := PolicySchema(path, httpMethod, scopes, fieldFilter, None, None, None);
      PrependPrepend(schemas, [schema], PairRecords(path, httpMethod, schemes, definition[j + 1..]));
      schemas := schemas + [schema];
    }
    assert schemas + [] == schemas;
    r := Ok(schemas);
  }

  /** The loop over the definitions of a field filter. */
  method FieldFilterRecords(path: string, httpMethod: string, schemes: map<string, Scopes>, defs: seq<FieldDefinition>)
    returns (r: Result<seq<PolicySchema>>)
    ensures r == FieldRecords(path, httpMethod, schemes, defs)
  {
    var schemas: seq<PolicySchema> := [];
    assert defs[0..] == defs;
    PrependNothing(FieldRecords(path, httpMethod, schemes, defs));
    for i := 0 to |defs|
      invariant FieldRecords(path, httpMethod, schemes, defs) == Prepend(schemas, FieldRecords(path, httpMethod, schemes, defs[i..]))
    {
      assert defs[i..][1..] == defs[i + 1..];
      assert Pairs(defs[i..]) == defs[i] + Pairs(defs[i + 1..]);
      PairRecordsAppend(path, httpMethod, schemes, defs[i], Pairs(defs[i + 1..]));
      var part := DefinitionRecords(path, httpMethod, schemes, defs[i]);
      if part.Err? {
        return Err(part.error);
      }
      PrependPrepend(schemas, part.value, FieldRecords(path, httpMethod, schemes, defs[i + 1..]));
      schemas := schemas + part.value;
    }
    assert schemas + [] == schemas;
    r := Ok(schemas);
  }

  // ------------------------------------------------------------ list filter

  /** One record per list definition, with the compiled expressions of its operations. */
  function ListRecords(path: string, httpMethod: string, defs: seq<ListDefinition>): (r: Result<seq<PolicySchema>>)
    ensures r.Ok? <==> forall i :: 0 <= i < |defs| ==> OperationsExpressions(ListContext, defs[i].operations).Ok?
    ensures r.Ok? ==> (|r.value| == |defs| && forall i :: 0 <= i < |defs| ==>
      r.value[i] == ListRecord(path, httpMethod, defs[i].source, OperationsExpressions(ListContext, defs[i].operations).value))
  {
    if defs == [] then Ok([])
    else
      var first := OperationsExpressions(ListContext, defs[0].operations);
      if first.Err? then Err(first.error)
      else
        var rest := ListRecords(path, httpMethod, defs[1..]);
        assert forall i :: 0 < i < |defs| ==> defs[i] == defs[1..][i - 1];
        Prepend([ListRecord(path, httpMethod, defs[0].source, first.value)], rest)
  }

  /** The loop over the definitions of a list filter. */
  method ListFilterRecords(path: string, httpMethod: string, defs: seq<ListDefinition>) returns (r: Result<seq<PolicySchema>>)
    ensures r == ListRecords(path, httpMethod, defs)
  {
    var schemas: seq<PolicySchema> := [];
    assert defs[0..] == defs;
    PrependNothing(ListRecords(path, httpMethod, defs));
    for i := 0 to |defs|
      invariant ListRecords(path, httpMethod, defs) == Prepend(schemas, ListRecords(path, httpMethod, defs[i..]))
    {
      var p := defs[i];
      assert defs[i..][1..] == defs[i + 1..];
      var expressions := CompileOperations(ListContext, p.operations);
      if expressions.Err? {
        return Err(expressions.error);
      }
      var schema := PolicySchema(path, httpMethod, [], "", Some(ListFilter(p.source, expressions.value)), None, None);
      PrependPrepend(schemas, [schema], ListRecords(path, httpMethod, defs[i + 1..]));
      schemas := schemas + [schema];
    }
    assert schemas + [] == schemas;
    r := Ok(schemas);
  }

  // ------------------------------------------------------------ overwrite filter

  /** One record per overwrite definition; the definition at `start + i` gets helper `allow{start + i + 1}`. */
  function OverwriteRecords(path: string, httpMethod: string, defs: seq<OverwriteDefinition>, start: nat)
    : Result<seq<PolicySchema>>
  {
    if defs == [] then Ok([])
    else
      var first :- RulesExpressions(OverwriteContext, defs[0].rules);
      Prepend([OverwriteRecord(path, httpMethod, defs[0], start, first)], OverwriteRecords(path, httpMethod, defs[1..], start + 1))
  }

  /** The overwrite records succeed exactly when every definition's rules compile. */
  lemma {:induction false} OverwriteRecordsOk(path: string, httpMethod: string, defs: seq<OverwriteDefinition>, start: nat)
    ensures OverwriteRecords(path, httpMethod, defs, start).Ok? <==>
      forall i :: 0 <= i < |defs| ==> RulesExpressions(OverwriteContext, defs[i].rules).Ok?
  {
    if defs != [] {
      OverwriteRecordsOk(path, httpMethod, defs[1..], start + 1);
      assert forall i :: 0 < i < |defs| ==> defs[i] == defs[1..][i - 1];
    }
  }

  lemma {:induction false} OverwriteRecordsLength(path: string, httpMethod: string, defs: seq<OverwriteDefinition>, start: nat)
    requires OverwriteRecords(path, httpMethod, defs, start).Ok?
    ensures |OverwriteRecords(path, httpMethod, defs, start).value| == |defs|
  {
    if defs != [] {
      OverwriteRecordsLength(path, httpMethod, defs[1..], start + 1);
    }
  }

  /** The successful overwrite record at `i` belongs to the definition at `i` and is numbered `start + i`. */
  lemma {:induction false} OverwriteRecordAt(path: string, httpMethod: string, defs: seq<OverwriteDefinition>, start: nat, i: nat)
    requires OverwriteRecords(path, httpMethod, defs, start).Ok? && i < |defs|
    ensures var r := OverwriteRecords(path, httpMethod, defs, start).value;
      && i < |r| && RulesExpressions(OverwriteContext, defs[i].rules).Ok?
      && r[i] == OverwriteRecord(path, httpMethod, defs[i], start + i, RulesExpressions(OverwriteContext, defs[i].rules).value)
  {
    OverwriteRecordsLength(path, httpMethod, defs, start);
    if i > 0 {
      OverwriteRecordAt(path, httpMethod, defs[1..], start + 1, i - 1);
      assert defs[1..][i - 1] == defs[i];
      assert (start + 1) + (i - 1) == start + i;
    }
  }

  /** Successful overwrite records are one per definition, the one at `i` numbered `start + i`. */
  lemma OverwriteRecordsShape(path: string, httpMethod: string, defs: seq<OverwriteDefinition>, start: nat)
    requires OverwriteRecords(path, httpMethod, defs, start).Ok?
    ensures var r := OverwriteRecords(path, httpMethod, defs, start).value;
      |r| == |defs| && forall i :: 0 <= i < |defs| ==>
        && RulesExpressions(OverwriteContext, defs[i].rules).Ok?
        && r[i] == OverwriteRecord(path, httpMethod, defs[i], start + i, RulesExpressions(OverwriteContext, defs[i].rules).value)
  {
    OverwriteRecordsLength(path, httpMethod, defs, start);
    forall i | 0 <= i < |defs|
      ensures RulesExpressions(OverwriteContext, defs[i].rules).Ok?
      ensures OverwriteRecords(path, httpMethod, defs, start).value[i] ==
        OverwriteRecord(path, httpMethod, defs[i], start + i, RulesExpressions(OverwriteContext, defs[i].rules).value)
    {
      OverwriteRecordAt(path, httpMethod, defs, start, i);
    }
  }

  /** The loop over the definitions of an overwrite filter. */
  method OverwriteFilterRecords(path: string, httpMethod: string, defs: seq<OverwriteDefinition>) returns (r: Result<seq<PolicySchema>>)
    ensures r == OverwriteRecords(path, httpMethod, defs, 0)
  {
    var schemas: seq<PolicySchema> := [];
    assert defs[0..] == defs;
    PrependNothing(OverwriteRecords(path, httpMethod, defs, 0));
    for i := 0 to |defs|
      invariant OverwriteRecords(path, httpMethod, defs, 0) == Prepend(schemas, OverwriteRecords(path, httpMethod, defs[i..], i))
    {
      var p := defs[i];
      assert defs[i..][1..] == defs[i + 1..];
      var ruleExpressions := CompileRules(OverwriteContext, p.rules);
      if ruleExpressions.Err? {
        return Err(ruleExpressions.error);
      }
      var value := if p.value.None? then "null" else p.value.value;
      var helper := "allow" + FormatInt(i + 1);
      var overwriteFilter := OverwriteFilter(p.field, value, p.negated, helper, ruleExpressions.value);
      var schema := PolicySchema(path, httpMethod, [], "", None, Some(overwriteFilter), None);
      PrependPrepend(schemas, [schema], OverwriteRecords(path, httpMethod, defs[i + 1..], i + 1));
      schemas := schemas + [schema];
    }
    assert schemas + [] == schemas;
    r := Ok(schemas);
  }

  // ------------------------------------------------------------ boolean filter

  /** One record per boolean definition, with the compiled expressions of each of its rules. */
  function BooleanRecords(path: string, httpMethod: string, defs: seq<BooleanDefinition>): (r: Result<seq<PolicySchema>>)
    ensures r.Ok? <==> forall i :: 0 <= i < |defs| ==> RulesExpressions(BooleanContext, defs[i].rules).Ok?
    ensures r.Ok? ==> (|r.value| == |defs| && forall i :: 0 <= i < |defs| ==>
      r.value[i] == BooleanRecord(path, httpMethod, RulesExpressions(BooleanContext, defs[i].rules).value))
  {
    if defs == [] then Ok([])
    else
      var first := RulesExpressions(BooleanContext, defs[0].rules);
      if first.Err? then Err(first.error)
      else
        var rest := BooleanRecords(path, httpMethod, defs[1..]);
        assert forall i :: 0 < i < |defs| ==> defs[i] == defs[1..][i - 1];
        Prepend([BooleanRecord(path, httpMethod, first.value)], rest)
  }

  /** The loop over the definitions of a boolean filter. */
  method BooleanFilterRecords(path: string, httpMethod: string, defs: seq<BooleanDefinition>) returns (r: Result<seq<PolicySchema>>)
    ensures r == BooleanRecords(path, httpMethod, defs)
  {
    var schemas: seq<PolicySchema> := [];
    assert defs[0..] == defs;
    PrependNothing(BooleanRecords(path, httpMethod, defs));
    for i := 0 to |defs|
      invariant BooleanRecords(path, httpMethod, defs) == Prepend(schemas, BooleanRecords(path, httpMethod, defs[i..]))
    {
      assert defs[i..][1..] == defs[i + 1..];
      var ruleExpressions := CompileRules(BooleanContext, defs[i].rules);
      if ruleExpressions.Err? {
        return Err(ruleExpressions.error);
      }
      var schema := PolicySchema(path, httpMethod, [], "", None, None, Some(BooleanFilter(ruleExpressions.value)));
      PrependPrepend(schemas, [schema], BooleanRecords(path, httpMethod, defs[i + 1..]));
      schemas := schemas + [schema];
    }
    assert schemas + [] == schemas;
    r := Ok(schemas);
  }

  // ------------------------------------------------------------ one operation

  /** The field-filter records of an operation: they need the operation's security requirements. */
  function FieldPart(o: ApiOperation, path: string, httpMethod: string): Result<seq<PolicySchema>> {
    match o.extensions.fieldFilter
    case None => Ok([])
    case Some(defs) =>
      if o.security.None? then Err(MissingSecurity)
      else FieldRecords(path, httpMethod, Schemes(o.security.value), defs)
  }

  function ListPart(o: ApiOperation, path: string, httpMethod: string): Result<seq<PolicySchema>> {
    match o.extensions.listFilter
    case None => Ok([])
    case Some(defs) => ListRecords(path, httpMethod, defs)
  }

  function OverwritePart(o: ApiOperation, path: string, httpMethod: string): Result<seq<PolicySchema>> {
    match o.extensions.overwriteFilter
    case None => Ok([])
    case Some(defs) => OverwriteRecords(path, httpMethod, defs, 0)
  }

  function BooleanPart(o: ApiOperation, path: string, httpMethod: string): Result<seq<PolicySchema>> {
    match o.extensions.booleanFilter
    case None => Ok([])
    case Some(defs) => BooleanRecords(path, httpMethod, defs)
  }

  function DefaultPart(o: ApiOperation, path: string, httpMethod: string): seq<PolicySchema> {
    if o.extensions.booleanFilter.None? then [DefaultRecord(path, httpMethod)] else []
  }

  /** The records of one operation whose path and method are already converted, the first error aborting. */
  function RecordsFor(o: ApiOperation, path: string, httpMethod: string): Result<seq<PolicySchema>> {
    var fieldPart :- FieldPart(o, path, httpMethod);
    var listPart :- ListPart(o, path, httpMethod);
    var overwritePart :- OverwritePart(o, path, httpMethod);
    var booleanPart :- BooleanPart(o, path, httpMethod);
    Ok(fieldPart + listPart + overwritePart + booleanPart + DefaultPart(o, path, httpMethod))
  }

  /** The records of one operation: its path as a Rego array literal, its method quoted. */
  function OperationRecords(o: ApiOperation): Result<seq<PolicySchema>> {
    RecordsFor(o, PathLiteral(o.path), Quote(o.httpMethod))
  }

  /** The body of the loop over the operations of Generate, for one operation. */
  method OperationSchemas(o: ApiOperation) returns (r: Result<seq<PolicySchema>>)
    ensures r == OperationRecords(o)
  {
    var path := ConvertPath(o.path);
    var httpMethod := Quote(o.httpMethod);
    r := ExtensionSchemas(o, path, httpMethod);
  }

  /** The field-filter extension of one operation: it needs the operation's security requirements. */
  method FieldSchemas(o: ApiOperation, path: string, httpMethod: string) returns (r: Result<seq<PolicySchema>>)
    ensures r == FieldPart(o, path, httpMethod)
  {
    match o.extensions.fieldFilter
    case None =>
      r := Ok([]);
    case Some(defs) =>
      if o.security.None? {
        return Err(MissingSecurity);
      }
      var securitySchemes := SecuritySchemes(o.security.value);
      r := FieldFilterRecords(path, httpMethod, securitySchemes, defs);
  }

  /** The extension checks of one operation, appending each filter's records in turn. */
  method ExtensionSchemas(o: ApiOperation, path: string, httpMethod: string) returns (r: Result<seq<PolicySchema>>)
    ensures r == RecordsFor(o, path, httpMethod)
  {
    var ext := o.extensions;
    var fieldSchemas := FieldSchemas(o, path, httpMethod);
    if fieldSchemas.Err? {
      return Err(fieldSchemas.error);
    }
    var schemas: seq<PolicySchema> := fieldSchemas.value;
    ghost var fieldPart := schemas;
    if ext.listFilter.Some? {
      var part := ListFilterRecords(path, httpMethod, ext.listFilter.value);
      if part.Err? {
        return Err(part.error);
      }
      schemas := schemas + part.value;
    }
    ghost var listPart := ListPart(o, path, httpMethod).value;
    assert schemas == fieldPart + listPart;
    if ext.overwriteFilter.Some? {
      var part := OverwriteFilterRecords(path, httpMethod, ext.overwriteFilter.value);
      if part.Err? {
        return Err(part.error);
      }
      schemas := schemas + part.value;
    }
    ghost var overwritePart := OverwritePart(o, path, httpMethod).value;
    assert schemas == fieldPart + listPart + overwritePart;
    if ext.booleanFilter.Some? {
      var part := BooleanFilterRecords(path, httpMethod, ext.booleanFilter.value);
      if part.Err? {
        return Err(part.error);
      }
      schemas := schemas + part.value;
    }
    ghost var booleanPart := BooleanPart(o, path, httpMethod).value;
    assert schemas == fieldPart + listPart + overwritePart + booleanPart;
    if ext.booleanFilter.None? {
      schemas := schemas + [PolicySchema(path, httpMethod, [], "", None, None, None)];
    }
    assert schemas == fieldPart + listPart + overwritePart + booleanPart + DefaultPart(o, path, httpMethod);
    r := Ok(schemas);
  }

  /** The records of all operations, in order; the first failing operation aborts. */
  function Records(ops: seq<ApiOperation>): (r: Result<seq<PolicySchema>>)
    ensures r.Ok? <==> forall i :: 0 <= i < |ops| ==> OperationRecords(ops[i]).Ok?
  {
    if ops == [] then Ok([])
    else
      var first :- OperationRecords(ops[0]);
      assert forall i :: 0 < i < |ops| ==> ops[i] == ops[1..][i - 1];
      Prepend(first, Records(ops[1..]))
  }

  // ------------------------------------------------------------ properties of the records

  /** A field filter on an operation without security requirements aborts generation. */
  lemma MissingSecurityFails(o: ApiOperation)
    requires o.extensions.fieldFilter.Some? && o.security.None?
    ensures OperationRecords(o) == Err(MissingSecurity)
  {
  }

  /** With security requirements present, the field filter fails exactly when it names an unknown scheme. */
  lemma FieldFilterSchemes(o: ApiOperation, path: string, httpMethod: string)
    requires o.extensions.fieldFilter.Some? && o.security.Some?
    ensures var pairs := Pairs(o.extensions.fieldFilter.value);
      FieldPart(o, path, httpMethod).Ok? <==> forall i :: 0 <= i < |pairs| ==> pairs[i].0 in Schemes(o.security.value)
  {
  }

  /** How many records of a kind a sequence holds. */
  function CountKind(rs: seq<PolicySchema>, k: Kind): nat {
    if rs == [] then 0 else (if KindOf(rs[0]) == k then 1 else 0) + CountKind(rs[1..], k)
  }

  lemma {:induction false} CountKindAppend(a: seq<PolicySchema>, b: seq<PolicySchema>, k: Kind)
    ensures CountKind(a + b, k) == CountKind(a, k) + CountKind(b, k)
  {
    if a == [] {
      assert a + b == b;
    } else {
      assert (a + b)[1..] == a[1..] + b;
      CountKindAppend(a[1..], b, k);
    }
  }

  predicate AllOfKind(rs: seq<PolicySchema>, k: Kind) {
    forall i :: 0 <= i < |rs| ==> KindOf(rs[i]) == k
  }

  predicate AllSingle(rs: seq<PolicySchema>) {
    forall i :: 0 <= i < |rs| ==> SingleFilter(rs[i])
  }

  /** A sequence of one kind counts all its records for that kind and none for any other. */
  lemma {:induction false} CountUniform(rs: seq<PolicySchema>, k: Kind, other: Kind)
    requires AllOfKind(rs, k)
    ensures CountKind(rs, k) == |rs|
    ensures other != k ==> CountKind(rs, other) == 0
  {
    if rs != [] {
      assert AllOfKind(rs[1..], k) by {
        assert forall i :: 0 <= i < |rs| - 1 ==> rs[1..][i] == rs[i + 1];
      }
      CountUniform(rs[1..], k, other);
    }
  }

  function Rank(k: Kind): nat {
    match k
    case FieldKind => 0
    case ListKind => 1
    case OverwriteKind => 2
    case BooleanKind => 3
    case DefaultKind => 4
  }

  /** Records appear grouped by kind, in the order field, list, overwrite, boolean, default. */
  predicate KindsOrdered(rs: seq<PolicySchema>) {
    forall i, j :: 0 <= i < j < |rs| ==> Rank(KindOf(rs[i])) <= Rank(KindOf(rs[j]))
  }

  lemma AppendUniform(a: seq<PolicySchema>, part: seq<PolicySchema>, k: Kind)
    requires KindsOrdered(a) && forall i :: 0 <= i < |a| ==> Rank(KindOf(a[i])) <= Rank(k)
    requires AllOfKind(part, k)
    ensures KindsOrdered(a + part) && forall i :: 0 <= i < |a + part| ==> Rank(KindOf((a + part)[i])) <= Rank(k)
  {
  }

  /** Field-filter records are field records that set only the field filter. */
  lemma FieldPartKinds(o: ApiOperation, path: string, httpMethod: string)
    requires FieldPart(o, path, httpMethod).Ok?
    ensures AllOfKind(FieldPart(o, path, httpMethod).value, FieldKind)
    ensures AllSingle(FieldPart(o, path, httpMethod).value)
  {
    if o.extensions.fieldFilter.Some? {
      var f := FieldPart(o, path, httpMethod).value;
      var pairs := Pairs(o.extensions.fieldFilter.value);
      forall i | 0 <= i < |f| ensures KindOf(f[i]) == FieldKind && SingleFilter(f[i]) {
        MaskFieldsEmpty(pairs[i].1);
      }
    }
  }

  lemma ListPartKinds(o: ApiOperation, path: string, httpMethod: string)
    requires ListPart(o, path, httpMethod).Ok?
    ensures AllOfKind(ListPart(o, path, httpMethod).value, ListKind)
    ensures AllSingle(ListPart(o, path, httpMethod).value)
  {
  }

  lemma OverwritePartKinds(o: ApiOperation, path: string, httpMethod: string)
    requires OverwritePart(o, path, httpMethod).Ok?
    ensures AllOfKind(OverwritePart(o, path, httpMethod).value, OverwriteKind)
    ensures AllSingle(OverwritePart(o, path, httpMethod).value)
  {
    if o.extensions.overwriteFilter.Some? {
      OverwriteRecordsShape(path, httpMethod, o.extensions.overwriteFilter.value, 0);
    }
  }

  lemma BooleanPartKinds(o: ApiOperation, path: string, httpMethod: string)
    requires BooleanPart(o, path, httpMethod).Ok?
    ensures AllOfKind(BooleanPart(o, path, httpMethod).value, BooleanKind)
    ensures AllSingle(BooleanPart(o, path, httpMethod).value)
  {
  }

  /** The records of a successful operation are its five parts, each of its own kind and setting one filter. */
  lemma OperationParts(o: ApiOperation, path: string, httpMethod: string)
    requires RecordsFor(o, path, httpMethod).Ok?
    ensures && FieldPart(o, path, httpMethod).Ok? && ListPart(o, path, httpMethod).Ok?
            && OverwritePart(o, path, httpMethod).Ok? && BooleanPart(o, path, httpMethod).Ok?
    ensures RecordsFor(o, path, httpMethod).value ==
      FieldPart(o, path, httpMethod).value + ListPart(o, path, httpMethod).value
      + OverwritePart(o, path, httpMethod).value + BooleanPart(o, path, httpMethod).value
      + DefaultPart(o, path, httpMethod)
    ensures && AllOfKind(FieldPart(o, path, httpMethod).value, FieldKind)
            && AllOfKind(ListPart(o, path, httpMethod).value, ListKind)
            && AllOfKind(OverwritePart(o, path, httpMethod).value, OverwriteKind)
            && AllOfKind(BooleanPart(o, path, httpMethod).value, BooleanKind)
            && AllOfKind(DefaultPart(o, path, httpMethod), DefaultKind)
    ensures && AllSingle(FieldPart(o, path, httpMethod).value) && AllSingle(ListPart(o, path, httpMethod).value)
            && AllSingle(OverwritePart(o, path, httpMethod).value) && AllSingle(BooleanPart(o, path, httpMethod).value)
            && AllSingle(DefaultPart(o, path, httpMethod))
  {
    FieldPartKinds(o, path, httpMethod);
    ListPartKinds(o, path, httpMethod);
    OverwritePartKinds(o, path, httpMethod);
    BooleanPartKinds(o, path, httpMethod);
  }

  lemma CountParts(f: seq<PolicySchema>, l: seq<PolicySchema>, w: seq<PolicySchema>, b: seq<PolicySchema>, d: seq<PolicySchema>, k: Kind)
    ensures CountKind(f + l + w + b + d, k) ==
      CountKind(f, k) + CountKind(l, k) + CountKind(w, k) + CountKind(b, k) + CountKind(d, k)
  {
    CountKindAppend(f, l, k);
    CountKindAppend(f + l, w, k);
    CountKindAppend(f + l + w, b, k);
    CountKindAppend(f + l + w + b, d, k);
  }

  /** Five parts of one kind each: a kind is counted only in its own part. */
  lemma CountFiveParts(f: seq<PolicySchema>, l: seq<PolicySchema>, w: seq<PolicySchema>, b: seq<PolicySchema>, d: seq<PolicySchema>)
    requires AllOfKind(f, FieldKind) && AllOfKind(l, ListKind) && AllOfKind(w, OverwriteKind)
    requires AllOfKind(b, BooleanKind) && AllOfKind(d, DefaultKind)
    ensures var rs := f + l + w + b + d;
      && CountKind(rs, FieldKind) == |f| && CountKind(rs, ListKind) == |l| && CountKind(rs, OverwriteKind) == |w|
      && CountKind(rs, BooleanKind) == |b| && CountKind(rs, DefaultKind) == |d|
  {
    forall k: Kind ensures CountKind(f + l + w + b + d, k) ==
      (if k == FieldKind then |f| else 0) + (if k == ListKind then |l| else 0) + (if k == OverwriteKind then |w| else 0)
      + (if k == BooleanKind then |b| else 0) + (if k == DefaultKind then |d| else 0)
    {
      CountParts(f, l, w, b, d, k);
      CountUniform(f, FieldKind, k);
      CountUniform(l, ListKind, k);
      CountUniform(w, OverwriteKind, k);
      CountUniform(b, BooleanKind, k);
      CountUniform(d, DefaultKind, k);
    }
  }

  /**
   * A successful operation yields one record per (definition, scheme) pair of
   * its field filter, one per list, overwrite and boolean definition, and the
   * default record exactly when it has no boolean filter.
   */
  lemma OperationRecordCounts(o: ApiOperation, path: string, httpMethod: string)
    requires RecordsFor(o, path, httpMethod).Ok?
    ensures var rs := RecordsFor(o, path, httpMethod).value;
      var ext := o.extensions;
      && CountKind(rs, FieldKind) == (if ext.fieldFilter.Some? then |Pairs(ext.fieldFilter.value)| else 0)
      && CountKind(rs, ListKind) == (if ext.listFilter.Some? then |ext.listFilter.value| else 0)
      && CountKind(rs, OverwriteKind) == (if ext.overwriteFilter.Some? then |ext.overwriteFilter.value| else 0)
      && CountKind(rs, BooleanKind) == (if ext.booleanFilter.Some? then |ext.booleanFilter.value| else 0)
      && CountKind(rs, DefaultKind) == (if ext.booleanFilter.None? then 1 else 0)
  {
    OperationParts(o, path, httpMethod);
    if o.extensions.overwriteFilter.Some? {
      OverwriteRecordsLength(path, httpMethod, o.extensions.overwriteFilter.value, 0);
    }
    CountFiveParts(FieldPart(o, path, httpMethod).value, ListPart(o, path, httpMethod).value,
      OverwritePart(o, path, httpMethod).value, BooleanPart(o, path, httpMethod).value, DefaultPart(o, path, httpMethod));
  }

  lemma AllSingleAppend(a: seq<PolicySchema>, b: seq<PolicySchema>)
    requires AllSingle(a) && AllSingle(b)
    ensures AllSingle(a + b)
  {
  }

  /** Every record of a successful operation sets at most one filter, so the template's priority hides none. */
  lemma OperationRecordsSingle(o: ApiOperation, path: string, httpMethod: string)
    requires RecordsFor(o, path, httpMethod).Ok?
    ensures forall i :: 0 <= i < |RecordsFor(o, path, httpMethod).value| ==> SingleFilter(RecordsFor(o, path, httpMethod).value[i])
  {
    var f, l, w, b, d :=
      FieldPart(o, path, httpMethod).value, ListPart(o, path, httpMethod).value,
      OverwritePart(o, path, httpMethod).value, BooleanPart(o, path, httpMethod).value, DefaultPart(o, path, httpMethod);
    OperationParts(o, path, httpMethod);
    AllSingleAppend(f, l);
    AllSingleAppend(f + l, w);
    AllSingleAppend(f + l + w, b);
    AllSingleAppend(f + l + w + b, d);
    assert AllSingle(RecordsFor(o, path, httpMethod).value);
  }

  /** Five parts, each of one kind and in rank order, make a sequence grouped by kind. */
  lemma OrderedParts(f: seq<PolicySchema>, l: seq<PolicySchema>, w: seq<PolicySchema>, b: seq<PolicySchema>, d: seq<PolicySchema>)
    requires AllOfKind(f, FieldKind) && AllOfKind(l, ListKind) && AllOfKind(w, OverwriteKind)
    requires AllOfKind(b, BooleanKind) && AllOfKind(d, DefaultKind)
    ensures KindsOrdered(f + l + w + b + d)
  {
    AppendUniform([], f, FieldKind);
    assert [] + f == f;
    AppendUniform(f, l, ListKind);
    AppendUniform(f + l, w, OverwriteKind);
    AppendUniform(f + l + w, b, BooleanKind);
    AppendUniform(f + l + w + b, d, DefaultKind);
  }

  /** The records of a successful operation come grouped by kind: field, list, overwrite, boolean, default. */
  lemma OperationRecordsOrdered(o: ApiOperation, path: string, httpMethod: string)
    requires RecordsFor(o, path, httpMethod).Ok?
    ensures KindsOrdered(RecordsFor(o, path, httpMethod).value)
  {
    OperationParts(o, path, httpMethod);
    OrderedParts(FieldPart(o, path, httpMethod).value, ListPart(o, path, httpMethod).value,
      OverwritePart(o, path, httpMethod).value, BooleanPart(o, path, httpMethod).value, DefaultPart(o, path, httpMethod));
  }

  /** Within one operation the overwrite records are `allow1`, `allow2`, … in order, so no two share a helper. */
  lemma HelperNamesDistinct(path: string, httpMethod: string, defs: seq<OverwriteDefinition>, i: nat, j: nat)
    requires OverwriteRecords(path, httpMethod, defs, 0).Ok?
    requires i < j < |defs|
    ensures var rs := OverwriteRecords(path, httpMethod, defs, 0).value;
      && j < |rs| && rs[i].overwriteFilter.Some? && rs[j].overwriteFilter.Some?
      && rs[i].overwriteFilter.value.helperRuleName == "allow" + FormatInt(i + 1) &&
      rs[i].overwriteFilter.value.helperRuleName != rs[j].overwriteFilter.value.helperRuleName
  {
    OverwriteRecordsShape(path, httpMethod, defs, 0);
    if HelperName(i) == HelperName(j) {
      assert HelperName(i)[5..] == FormatInt(i + 1);
      assert HelperName(j)[5..] == FormatInt(j + 1);
      FormatIntInjective(i + 1, j + 1);
    }
  }
}
