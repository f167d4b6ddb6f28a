/** Failure-compatible wrappers and the generator's error kinds. */
module Common {

  datatype Option<+T> = None | Some(value: T)

  /** The hard errors that abort a whole generation run. */
  datatype GenError =
    | MissingSecurity              // a field-filter extension on an operation without security requirements
    | UnknownScheme(name: string)  // a field-filter names a scheme the operation does not require
    | IllegalOperand(typeName: string)  // an operand that is not a string, bool or number

  lemma StripAffixes(p: string, x: string, y: string, q: string)
    requires p + x + q == p + y + q
    ensures x == y
  {
    assert |x| == |y|;
    assert (p + x + q)[|p|..|p| + |x|] == x;
    assert (p + y + q)[|p|..|p| + |y|] == y;
  }

  function Initial(e: GenError): char {
    match e
    case MissingSecurity => 'O'
    case UnknownScheme(_) => 'U'
    case IllegalOperand(_) => 'i'
  }

  lemma MessageInitial(e: GenError)
    ensures |Message(e)| > 0 && Message(e)[0] == Initial(e)
  {
    match e
    case MissingSecurity =>
      assert "OpenAPI spec does not "[0] == 'O';
    case UnknownScheme(n) =>
      var p := "Unknown security scheme ";
      assert Message(e) == p + (n + " in OpenAPI extension");
      assert p[0] == 'U';
    case IllegalOperand(t) =>
      var p := "illegal type for operand: ";
      assert Message(e) == p + t;
      assert p[0] == 'i';
  }

  /** Each error has its own message: the message tells which error it was. */
  lemma MessageInjective(e1: GenError, e2: GenError)
    requires Message(e1) == Message(e2)
    ensures e1 == e2
  {
    if e1.UnknownScheme? && e2.UnknownScheme? {
      StripAffixes("Unknown security scheme ", e1.name, e2.name, " in OpenAPI extension");
    } else if e1.IllegalOperand? && e2.IllegalOperand? {
      assert Message(e1) == "illegal type for operand: " + e1.typeName + "";
      assert Message(e2) == "illegal type for operand: " + e2.typeName + "";
      StripAffixes("illegal type for operand: ", e1.typeName, e2.typeName, "");
    } else {
      MessageInitial(e1);
      MessageInitial(e2);
    }
  }

  datatype Result<+T> = Ok(value: T) | Err(error: GenError) {
    predicate IsFailure() { Err? }

    function PropagateFailure<U>(): Result<U>
      requires Err?
    {
      Err(error)
    }

    function Extract(): T
      requires Ok?
    {
      value
    }
  }

  /** The text of the error returned to the caller of Generate. */
  function Message(e: GenError): string {
    match e
    case MissingSecurity => "OpenAPI spec does not " + "specify a Security Requirement Object"
    case UnknownScheme(name) => "Unknown security scheme " + name + " in OpenAPI extension"
    case IllegalOperand(typeName) => "illegal type for operand: " + typeName
  }

  /** A finished prefix of results in front of the outcome of the rest: the first error wins. */
  function Prepend<T>(done: seq<T>, rest: Result<seq<T>>): Result<seq<T>> {
    match rest
    case Ok(more) => Ok(done + more)
    case Err(e) => Err(e)
  }

  lemma PrependNothing<T>(rest: Result<seq<T>>)
    ensures Prepend([], rest) == rest
  {
    if rest.Ok? {
      assert [] + rest.value == rest.value;
    }
  }

  lemma PrependPrepend<T>(a: seq<T>, b: seq<T>, rest: Result<seq<T>>)
    ensures Prepend(a, Prepend(b, rest)) == Prepend(a + b, rest)
  {
    if rest.Ok? {
      assert a + (b + rest.value) == (a + b) + rest.value;
    }
  }
}
