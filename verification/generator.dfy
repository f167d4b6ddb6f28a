/**
 * Generate: every operation of the document in iteration order, its records
 * built and appended, then the policy text rendered from all records. The
 * first error aborts generation and no policy text is produced.
 */
module Generator {
  import opened Common
  import opened Text
  import opened Schema
  import opened Render

  /** The generated policy, or the first error. */
  function Policy(ops: seq<ApiOperation>, packageName: string): Result<string> {
    var rs :- Records(ops);
    Ok(PolicyText(packageName, rs))
  }

  /** Generate: the policy text and no error, or no text and the error's message. */
  method Generate(ops: seq<ApiOperation>, packageName: string) returns (policy: string, err: Option<string>)
    ensures Policy(ops, packageName).Ok? ==> policy == Policy(ops, packageName).value && err == None
    ensures Policy(ops, packageName).Err? ==> policy == "" && err == Some(Message(Policy(ops, packageName).error))
  {
    var schemas: seq<PolicySchema> := [];
    assert ops[0..] == ops;
    PrependNothing(Records(ops));
    for i := 0 to |ops|
      invariant Records(ops) == Prepend(schemas, Records(ops[i..]))
    {
      assert ops[i..][1..] == ops[i + 1..];
      var part := OperationSchemas(ops[i]);
      if part.Err? {
        return "", Some(Message(part.error));
      }
      PrependPrepend(schemas, part.value, Records(ops[i + 1..]));
      schemas := schemas + part.value;
    }
    assert schemas + [] == schemas;
    policy := GenerateRego(schemas, packageName);
    err := None;
  }

  /** The rendered records of each operation, one operation after the other. */
  function OperationsText(ops: seq<ApiOperation>): string
    requires forall i :: 0 <= i < |ops| ==> OperationRecords(ops[i]).Ok?
  {
    if ops == [] then "" else RecordsText(OperationRecords(ops[0]).value) + OperationsText(ops[1..])
  }

  /** A successful policy is the preamble followed by each operation's rules, in operation order. */
  lemma {:induction false} RecordsTextOperations(ops: seq<ApiOperation>)
    requires forall i :: 0 <= i < |ops| ==> OperationRecords(ops[i]).Ok?
    ensures Records(ops).Ok? && RecordsText(Records(ops).value) == OperationsText(ops)
  {
    if ops != [] {
      var first := OperationRecords(ops[0]).value;
      RecordsTextOperations(ops[1..]);
      var rest := Records(ops[1..]).value;
      assert Records(ops).value == first + rest;
      RecordsTextAppend(first, rest);
    }
  }

  lemma PolicyOperations(ops: seq<ApiOperation>, packageName: string)
    requires forall i :: 0 <= i < |ops| ==> OperationRecords(ops[i]).Ok?
    ensures Policy(ops, packageName) == Ok(Preamble(packageName) + OperationsText(ops))
  {
    RecordsTextOperations(ops);
    PolicyOfRecords(ops, packageName);
  }

  lemma PolicyOfRecords(ops: seq<ApiOperation>, packageName: string)
    ensures Records(ops).Ok? ==> Policy(ops, packageName) == Ok(Preamble(packageName) + RecordsText(Records(ops).value))
  {
  }

  /** The first operation that fails decides the error. */
  lemma {:induction false} FirstFailure(ops: seq<ApiOperation>, packageName: string, i: nat)
    requires i < |ops| && OperationRecords(ops[i]).Err?
    requires forall j :: 0 <= j < i ==> OperationRecords(ops[j]).Ok?
    ensures Policy(ops, packageName) == Err(OperationRecords(ops[i]).error)
    decreases i
  {
    if i > 0 {
      assert ops[1..][i - 1] == ops[i];
      FirstFailure(ops[1..], packageName, i - 1);
    }
  }

  /** A field filter on an operation without security requirements aborts the whole generation. */
  lemma MissingSecurityAborts(ops: seq<ApiOperation>, packageName: string, i: nat)
    requires i < |ops| && ops[i].extensions.fieldFilter.Some? && ops[i].security.None?
    requires forall j :: 0 <= j < i ==> OperationRecords(ops[j]).Ok?
    ensures Policy(ops, packageName) == Err(MissingSecurity)
  {
    MissingSecurityFails(ops[i]);
    FirstFailure(ops, packageName, i);
  }
}
