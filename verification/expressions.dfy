/**
 * The operand/expression compiler shared by the list, overwrite and boolean
 * filters. Each decoded operation maps an operator name to its operands; every
 * operand is compiled to Rego text (strings are scoped according to the
 * filter's context) and the operands are joined with the operator's symbol.
 */
module Expressions {
  import opened Common
  import opened Text

  /** A decoded JSON operand: the three types the compiler accepts and any other type by name. */
  datatype Operand = Str(s: string) | Bool(b: bool) | Num(n: int) | Other(typeName: string)

  /** Which filter the operand belongs to; each scopes strings differently. */
  datatype Context = ListContext | OverwriteContext | BooleanContext

  /** One entry of a decoded operation: an operator name and its operands. */
  type Entry = (string, seq<Operand>)

  /** A decoded operation map, its entries in iteration order. */
  type Operation = seq<Entry>

  /** A rule of the overwrite and boolean filters: the operations that must all hold. */
  type Rule = seq<Operation>

  const OpNameToSymbol: map<string, string> :=
    map["eq" := " = ", "lt" := " < ", "gte" := " >= ", "membership" := " = ", "negation" := "not "]

  /** The separator for an operator's operands; an unknown operator joins with nothing. */
  function Symbol(op: string): (r: string)
    ensures r == "" <==> op !in OpNameToSymbol
    ensures op in OpNameToSymbol ==> r == OpNameToSymbol[op]
  {
    if op in OpNameToSymbol then OpNameToSymbol[op] else ""
  }

  /** The scoping of a string operand in each context. */
  function ScopeString(ctx: Context, op: string, s: string): string {
    if HasPrefix(s, "$") then TrimLeft(s, {'$'})
    else match ctx
      case ListContext =>
        if !HasPrefix(s, "token") && !HasPrefix(s, "input") then "x." + s
        else if op == "membership" then s + "[_]"
        else s
      case OverwriteContext =>
        if !HasPrefix(s, "token") && !HasPrefix(s, "\"") then "input.object." + s
        else if op == "membership" then s + "[_]"
        else s
      case BooleanContext =>
        if op == "membership" then s + "[_]"
        else if op == "negation" then "not " + s
        else s
  }

  /** The type switch on one operand. */
  function CompileOperand(ctx: Context, op: string, x: Operand): Result<string> {
    match x
    case Str(s) => Ok(ScopeString(ctx, op, s))
    case Bool(b) => Ok(FormatBool(b))
    case Num(n) => Ok(FormatInt(n))
    case Other(t) => Err(IllegalOperand(t))
  }

  /** Compiles the operands in order, stopping at the first one of an illegal type. */
  function CompileOperands(ctx: Context, op: string, xs: seq<Operand>): (r: Result<seq<string>>)
    ensures r.Ok? <==> forall i :: 0 <= i < |xs| ==> !xs[i].Other?
    ensures r.Ok? ==> (|r.value| == |xs| &&
      forall i :: 0 <= i < |xs| ==> Ok(r.value[i]) == CompileOperand(ctx, op, xs[i]))
  {
    if xs == [] then Ok([])
    else
      var first :- CompileOperand(ctx, op, xs[0]);
      assert forall i :: 0 < i < |xs| ==> xs[i] == xs[1..][i - 1];
      Prepend([first], CompileOperands(ctx, op, xs[1..]))
  }

  /** The operands fail at the first one of an illegal type, whose type the error names. */
  lemma {:induction false} CompileOperandsFirstError(ctx: Context, op: string, xs: seq<Operand>, i: nat)
    requires i < |xs| && xs[i].Other?
    requires forall j :: 0 <= j < i ==> !xs[j].Other?
    ensures CompileOperands(ctx, op, xs) == Err(IllegalOperand(xs[i].typeName))
  {
    if i > 0 {
      assert xs[1..][i - 1] == xs[i];
      assert forall j :: 0 <= j < i - 1 ==> xs[1..][j] == xs[j + 1];
      CompileOperandsFirstError(ctx, op, xs[1..], i - 1);
    }
  }

  /** One operator entry: the compiled operands joined with the operator's symbol. */
  function Expression(ctx: Context, op: string, xs: seq<Operand>): Result<string> {
    var parts :- CompileOperands(ctx, op, xs);
    Ok(Join(parts, Symbol(op)))
  }

  /** The compiled operand loop for one operator entry. */
  method CompileExpression(ctx: Context, op: string, operands: seq<Operand>) returns (r: Result<string>)
    ensures r == Expression(ctx, op, operands)
  {
    var expression: seq<string> := [];
    for i := 0 to |operands|
      invariant |expression| == i
      invariant forall k :: 0 <= k < i ==> !operands[k].Other? && Ok(expression[k]) == CompileOperand(ctx, op, operands[k])
    {
      var operand := operands[i];
      match operand
      case Str(s) =>
        expression := expression + [ScopeString(ctx, op, s)];
      case Bool(b) =>
        expression := expression + [FormatBool(b)];
      case Num(n) =>
        expression := expression + [FormatInt(n)];
      case Other(t) =>
        CompileOperandsFirstError(ctx, op, operands, i);
        return Err(IllegalOperand(t));
    }
    var compiled := CompileOperands(ctx, op, operands);
    assert compiled.Ok?;
    assert compiled.value == expression;
    r := Ok(Join(expression, Symbol(op)));
  }

  /** The expressions of a sequence of entries, one per entry, the first error winning. */
  function EntryExpressions(ctx: Context, entries: seq<Entry>): Result<seq<string>> {
    if entries == [] then Ok([])
    else
      var first :- Expression(ctx, entries[0].0, entries[0].1);
      Prepend([first], EntryExpressions(ctx, entries[1..]))
  }

  /** Successful entries give one expression per entry, in order. */
  lemma {:induction false} EntryExpressionsElements(ctx: Context, entries: seq<Entry>)
    requires EntryExpressions(ctx, entries).Ok?
    ensures var r := EntryExpressions(ctx, entries).value;
      |r| == |entries| && forall i :: 0 <= i < |entries| ==> Ok(r[i]) == Expression(ctx, entries[i].0, entries[i].1)
  {
    if entries != [] {
      EntryExpressionsElements(ctx, entries[1..]);
      var r := EntryExpressions(ctx, entries).value;
      var rest := EntryExpressions(ctx, entries[1..]).value;
      assert r == [Expression(ctx, entries[0].0, entries[0].1).value] + rest;
      forall i | 0 < i < |entries| ensures Ok(r[i]) == Expression(ctx, entries[i].0, entries[i].1) {
        assert r[i] == rest[i - 1] && entries[i] == entries[1..][i - 1];
      }
    }
  }

  /** The entries of several operations, one operation after the other. */
  function EntriesOf(ops: seq<Operation>): seq<Entry> {
    if ops == [] then [] else ops[0] + EntriesOf(ops[1..])
  }

  /** The expressions of a list of operations: every entry of every operation, in order. */
  function OperationsExpressions(ctx: Context, ops: seq<Operation>): Result<seq<string>> {
    EntryExpressions(ctx, EntriesOf(ops))
  }

  /** The expressions of each rule of an overwrite or boolean filter. */
  function RulesExpressions(ctx: Context, rules: seq<Rule>): Result<seq<seq<string>>> {
    if rules == [] then Ok([])
    else
      var first :- OperationsExpressions(ctx, rules[0]);
      Prepend([first], RulesExpressions(ctx, rules[1..]))
  }

  /** Successful rules give one list of expressions per rule, in order. */
  lemma {:induction false} RulesExpressionsElements(ctx: Context, rules: seq<Rule>)
    requires RulesExpressions(ctx, rules).Ok?
    ensures var r := RulesExpressions(ctx, rules).value;
      |r| == |rules| && forall i :: 0 <= i < |rules| ==> Ok(r[i]) == OperationsExpressions(ctx, rules[i])
  {
    if rules != [] {
      RulesExpressionsElements(ctx, rules[1..]);
      var r := RulesExpressions(ctx, rules).value;
      var rest := RulesExpressions(ctx, rules[1..]).value;
      assert r == [OperationsExpressions(ctx, rules[0]).value] + rest;
      forall i | 0 < i < |rules| ensures Ok(r[i]) == OperationsExpressions(ctx, rules[i]) {
        assert r[i] == rest[i - 1] && rules[i] == rules[1..][i - 1];
      }
    }
  }

  /** Compiling two runs of entries one after the other: the first error wins, else the results concatenate. */
  lemma {:induction false} EntryExpressionsAppend(ctx: Context, a: seq<Entry>, b: seq<Entry>)
    ensures EntryExpressions(ctx, a).Err? ==>
      EntryExpressions(ctx, a + b) == Err(EntryExpressions(ctx, a).error)
    ensures EntryExpressions(ctx, a).Ok? ==>
      EntryExpressions(ctx, a + b) == Prepend(EntryExpressions(ctx, a).value, EntryExpressions(ctx, b))
  {
    if a == [] {
      assert a + b == b;
      PrependNothing(EntryExpressions(ctx, b));
    } else {
      assert (a + b)[0] == a[0];
      assert (a + b)[1..] == a[1..] + b;
      EntryExpressionsAppend(ctx, a[1..], b);
      var first := Expression(ctx, a[0].0, a[0].1);
      if first.Ok? && EntryExpressions(ctx, a[1..]).Ok? {
        PrependPrepend([first.value], EntryExpressions(ctx, a[1..]).value, EntryExpressions(ctx, b));
      }
    }
  }

  /** The loop over one operation's entries. */
  method CompileOperation(ctx: Context, operation: Operation) returns (r: Result<seq<string>>)
    ensures r == EntryExpressions(ctx, operation)
  {
    var expressions: seq<string> := [];
    assert operation[0..] == operation;
    PrependNothing(EntryExpressions(ctx, operation));
    for j := 0 to |operation|
      invariant EntryExpressions(ctx, operation) == Prepend(expressions, EntryExpressions(ctx, operation[j..]))
    {
      var entry := operation[j];
      assert operation[j..][1..] == operation[j + 1..];
      var expression := CompileExpression(ctx, entry.0, entry.1);
      if expression.Err? {
        return Err(expression.error);
      }
      PrependPrepend(expressions, [expression.value], EntryExpressions(ctx, operation[j + 1..]));
      expressions := expressions + [expression.value];
    }
    assert expressions + [] == expressions;
    r := Ok(expressions);
  }

  /** The loop over the operations of a filter, each contributing its entries' expressions. */
  method CompileOperations(ctx: Context, ops: seq<Operation>) returns (r: Result<seq<string>>)
    ensures r == OperationsExpressions(ctx, ops)
  {
    var expressions: seq<string> := [];
    assert ops[0..] == ops;
    PrependNothing(OperationsExpressions(ctx, ops));
    for i := 0 to |ops|
      invariant OperationsExpressions(ctx, ops) == Prepend(expressions, OperationsExpressions(ctx, ops[i..]))
    {
      assert ops[i..][1..] == ops[i + 1..];
      assert EntriesOf(ops[i..]) == ops[i] + EntriesOf(ops[i + 1..]);
      EntryExpressionsAppend(ctx, ops[i], EntriesOf(ops[i + 1..]));
      var compiled := CompileOperation(ctx, ops[i]);
      if compiled.Err? {
        return Err(compiled.error);
      }
      PrependPrepend(expressions, compiled.value, OperationsExpressions(ctx, ops[i + 1..]));
      expressions := expressions + compiled.value;
    }
    assert expressions + [] == expressions;
    r := Ok(expressions);
  }

  /** The loop over the rules of an overwrite or boolean filter. */
  method CompileRules(ctx: Context, rules: seq<Rule>) returns (r: Result<seq<seq<string>>>)
    ensures r == RulesExpressions(ctx, rules)
  {
    var ruleExpressions: seq<seq<string>> := [];
    assert rules[0..] == rules;
    PrependNothing(RulesExpressions(ctx, rules));
    for i := 0 to |rules|
      invariant RulesExpressions(ctx, rules) == Prepend(ruleExpressions, RulesExpressions(ctx, rules[i..]))
    {
      assert rules[i..][1..] == rules[i + 1..];
      var expressions := CompileOperations(ctx, rules[i]);
      if expressions.Err? {
        return Err(expressions.error);
      }
      PrependPrepend(ruleExpressions, [expressions.value], RulesExpressions(ctx, rules[i + 1..]));
      ruleExpressions := ruleExpressions + [expressions.value];
    }
    assert ruleExpressions + [] == ruleExpressions;
    r := Ok(ruleExpressions);
  }

  // ------------------------------------------------------------ properties of the compiler

  /** A path-template reference loses all its leading `$` in every context. */
  lemma ScopeDollar(ctx: Context, op: string, s: string)
    requires HasPrefix(s, "$")
    ensures var r := ScopeString(ctx, op, s);
      && |r| < |s| && r == s[|s| - |r|..] && !HasPrefix(r, "$")
      && forall i :: 0 <= i < |s| - |r| ==> s[i] == '$'
  {
    var r := TrimLeft(s, {'$'});
    assert ScopeString(ctx, op, s) == r;
    forall i | 0 <= i < |s| - |r| ensures s[i] == '$' {
      assert s[i] in {'$'};
    }
  }

  /** In a list filter a string names a field of the element `x` unless it is a token or input reference. */
  lemma ListScope(op: string, s: string)
    requires !HasPrefix(s, "$")
    ensures var r := ScopeString(ListContext, op, s);
      && (HasPrefix(r, "x.") <==> !HasPrefix(s, "token") && !HasPrefix(s, "input"))
      && (HasPrefix(r, "x.") ==> r == "x." + s)
      && (!HasPrefix(r, "x.") ==> r == if op == "membership" then s + "[_]" else s)
  {
    var r := ScopeString(ListContext, op, s);
    if HasPrefix(s, "token") || HasPrefix(s, "input") {
      assert r[0] == s[0];
    }
  }

  /**
   * In an overwrite filter a string names a field of `input.object` unless it is
   * a token reference or a quoted literal; an `input…` string is prefixed too.
   */
  lemma OverwriteScope(op: string, s: string)
    requires !HasPrefix(s, "$")
    ensures var r := ScopeString(OverwriteContext, op, s);
      && (HasPrefix(r, "input.object.") <==> !HasPrefix(s, "token") && !HasPrefix(s, "\""))
      && (HasPrefix(r, "input.object.") ==> r == "input.object." + s)
      && (!HasPrefix(r, "input.object.") ==> r == if op == "membership" then s + "[_]" else s)
  {
    var r := ScopeString(OverwriteContext, op, s);
    if HasPrefix(s, "token") || HasPrefix(s, "\"") {
      assert r[0] == s[0];
    }
  }

  /** In a boolean filter only the operator decorates a string: `[_]` for membership, `not ` for negation. */
  lemma BooleanScope(op: string, s: string)
    requires !HasPrefix(s, "$")
    ensures var r := ScopeString(BooleanContext, op, s);
      && (op == "membership" ==> r == s + "[_]")
      && (op == "negation" ==> r == "not " + s)
      && (op != "membership" && op != "negation" ==> r == s)
  {
  }

  /** Distinct string operands without `$` stay distinct after scoping, in every context. */
  lemma ScopeInjective(ctx: Context, op: string, s1: string, s2: string)
    requires !HasPrefix(s1, "$") && !HasPrefix(s2, "$")
    requires ScopeString(ctx, op, s1) == ScopeString(ctx, op, s2)
    ensures s1 == s2
  {
    var r := ScopeString(ctx, op, s1);
    match ctx
    case ListContext =>
      ListScope(op, s1);
      ListScope(op, s2);
      if HasPrefix(r, "x.") {
        assert r[2..] == s1 == s2;
      } else if op == "membership" {
        assert r[..|r| - 3] == s1 == s2;
      }
    case OverwriteContext =>
      OverwriteScope(op, s1);
      OverwriteScope(op, s2);
      if HasPrefix(r, "input.object.") {
        assert r[13..] == s1 == s2;
      } else if op == "membership" {
        assert r[..|r| - 3] == s1 == s2;
      }
    case BooleanContext =>
      if op == "membership" {
        assert r[..|r| - 3] == s1 == s2;
      } else if op == "negation" {
        assert r[4..] == s1 == s2;
      }
  }

  /** A number operand compiles to text that reads back as the same integer. */
  lemma NumberOperand(ctx: Context, op: string, n: int)
    ensures CompileOperand(ctx, op, Num(n)).Ok?
    ensures ParseInt(CompileOperand(ctx, op, Num(n)).value) == n
  {
    ParseFormatInt(n);
  }

  /** An operator with two legal operands compiles to `left symbol right`. */
  lemma BinaryExpression(ctx: Context, op: string, a: Operand, b: Operand)
    requires !a.Other? && !b.Other?
    ensures Expression(ctx, op, [a, b]) ==
      Ok(CompileOperand(ctx, op, a).value + Symbol(op) + CompileOperand(ctx, op, b).value)
  {
    var compiled := CompileOperands(ctx, op, [a, b]);
    assert compiled.Ok?;
    var parts := compiled.value;
    assert Ok(parts[0]) == CompileOperand(ctx, op, a) && Ok(parts[1]) == CompileOperand(ctx, op, b);
    assert parts[1..] == [parts[1]];
    assert Join(parts, Symbol(op)) == parts[0] + Symbol(op) + parts[1];
  }

  /** One operand of an illegal type fails the whole expression, naming the first such type. */
  lemma IllegalOperandFails(ctx: Context, op: string, xs: seq<Operand>, i: nat)
    requires i < |xs| && xs[i].Other?
    requires forall j :: 0 <= j < i ==> !xs[j].Other?
    ensures Expression(ctx, op, xs) == Err(IllegalOperand(xs[i].typeName))
  {
    CompileOperandsFirstError(ctx, op, xs, i);
  }
}
