/** `basic_calculator`, the MCP server's demonstration tool: it cleans the
    input text, decodes it, looks the operation up in a fixed table of
    thirteen operators and reports the result, or an error, as fixed text.
    Operands are integers (a JSON boolean is an integer to Python). */
module Calculator {
  import opened Common
  import opened Text
  import opened Json

  /** What the tool hands back: one string, a pair of strings (the error
      tuples), an exception escaping the tool, or a case this model does not
      follow (a floating-point result or a non-integer operand). */
  datatype Output = Text(text: string) | Pair(first: string, second: string) | Raised(message: string) | Unmodelled

  const InvalidInput := "Invalid input format. Please provide a valid JSON string."
  const ExecutionError := "\n\nError during operation execution."
  const Unsupported := "\n\nUnsupported" + " operation. Please provide a valid operation."
  const AnswerPrefix := "\n\nThe answer is: "
  const AnswerSuffix := ".\nCalculated with basic_calculator."

  /** The success text around the rendered result. */
  function Answer(result: string): string {
    AnswerPrefix + result + AnswerSuffix
  }

  /** The rendered result sits between the fixed prefix and suffix, so it
      can be read back from the text. */
  lemma AnswerReadsBack(result: string)
    ensures StartsWith(Answer(result), AnswerPrefix)
    ensures Answer(result)[|AnswerPrefix|..|Answer(result)| - |AnswerSuffix|] == result
  {
    var a := Answer(result);
    assert a[..|AnswerPrefix|] == AnswerPrefix;
    assert a[|AnswerPrefix|..|a| - |AnswerSuffix|] == result;
  }

  /** No answer is mistaken for the unsupported-operation text. */
  lemma AnswerIsNotUnsupported(result: string)
    ensures Answer(result) != Unsupported
  {
    assert Answer(result)[2] == AnswerPrefix[2] == 'T';
    assert Unsupported[2] == 'U';
  }

  // ---------------------------------------------------------------------
  // Cleaning the input
  // ---------------------------------------------------------------------

  predicate IsDoubleQuote(c: char) {
    c == '"'
  }

  /** `input_str.replace("'", "\"").strip().strip("\"")`. */
  function Clean(input: string): (r: string)
    ensures '\'' !in r
    ensures |r| > 0 ==> r[0] != '"' && r[|r| - 1] != '"'
  {
    var swapped := Replace(input, '\'', '"');
    assert '\'' !in swapped;
    TrimAvoids(swapped, IsSpace, '\'');
    TrimAvoids(Strip(swapped), IsDoubleQuote, '\'');
    Trim(Strip(swapped), IsDoubleQuote)
  }

  /** Text that is already clean passes through unchanged: no single quote,
      and neither whitespace nor a double quote at either end. */
  lemma CleanKeepsCleanText(s: string)
    requires '\'' !in s
    requires |s| > 0 ==> !IsSpace(s[0]) && !IsSpace(s[|s| - 1]) && s[0] != '"' && s[|s| - 1] != '"'
    ensures Clean(s) == s
  {
    var swapped := Replace(s, '\'', '"');
    assert swapped == s;
    TrimUnchanged(s, IsSpace);
    TrimUnchanged(s, IsDoubleQuote);
  }

  /** Trimming text whose ends are kept changes nothing. */
  lemma TrimUnchanged(s: string, drop: char -> bool)
    requires |s| > 0 ==> !drop(s[0]) && !drop(s[|s| - 1])
    ensures Trim(s, drop) == s
  {
    assert TrimLeft(s, drop) == s;
  }

  // ---------------------------------------------------------------------
  // The operation table
  // ---------------------------------------------------------------------

  datatype Op = Add | Subtract | Multiply | Divide | FloorDivide | Modulus | Power | Lt | Le | Eq | Ne | Ge | Gt

  /** The key of each operator in the `operations` table. */
  function Name(op: Op): string {
    match op
    case Add => "add"
    case Subtract => "subtract"
    case Multiply => "multiply"
    case Divide => "divide"
    case FloorDivide => "floor_divide"
    case Modulus => "modulus"
    case Power => "power"
    case Lt => "lt"
    case Le => "le"
    case Eq => "eq"
    case Ne => "ne"
    case Ge => "ge"
    case Gt => "gt"
  }

  /** `operations.get(name)`. */
  function Operation(name: string): Option<Op> {
    if name == "add" then Some(Add)
    else if name == "subtract" then Some(Subtract)
    else if name == "multiply" then Some(Multiply)
    else if name == "divide" then Some(Divide)
    else if name == "floor_divide" then Some(FloorDivide)
    else if name == "modulus" then Some(Modulus)
    else if name == "power" then Some(Power)
    else if name == "lt" then Some(Lt)
    else if name == "le" then Some(Le)
    else if name == "eq" then Some(Eq)
    else if name == "ne" then Some(Ne)
    else if name == "ge" then Some(Ge)
    else if name == "gt" then Some(Gt)
    else None
  }

  /** The table holds exactly one key per operator: looking a name up finds
      the operator with that name, and nothing else is found. */
  lemma OperationByName(name: string, op: Op)
    ensures Operation(name) == Some(op) <==> Name(op) == name
  {
    if Operation(name) == Some(op) {
      assert Name(op) == name;
    }
    if Name(op) == name {
      match op
      case Add =>
      case Subtract =>
      case Multiply =>
      case Divide =>
      case FloorDivide =>
      case Modulus =>
      case Power =>
      case Lt =>
      case Le =>
      case Eq =>
      case Ne =>
      case Ge =>
      case Gt =>
    }
  }

  /** The table has thirteen keys. */
  lemma TableKeys(name: string)
    ensures Operation(name).Some? <==>
              name in {"add", "subtract", "multiply", "divide", "floor_divide", "modulus", "power",
                       "lt", "le", "eq", "ne", "ge", "gt"}
  {
  }

  // ---------------------------------------------------------------------
  // Python integer arithmetic
  // ---------------------------------------------------------------------

  /** Python's `a // b`: the quotient rounded toward negative infinity
      (Dafny's `/` is Euclidean and differs when `b` is negative). */
  function FloorDiv(a: int, b: int): int
    requires b != 0
  {
    if b > 0 then a / b else (-a) / (-b)
  }

  /** Python's `a % b`: the remainder takes the sign of the divisor. */
  function FloorMod(a: int, b: int): int
    requires b != 0
  {
    a - b * FloorDiv(a, b)
  }

  /** Floor division and modulus agree with each other and with Python's
      promise: `a == (a // b) * b + a % b`, with the remainder between zero
      and the divisor. */
  lemma FloorDivMod(a: int, b: int)
    requires b != 0
    ensures a == FloorDiv(a, b) * b + FloorMod(a, b)
    ensures b > 0 ==> 0 <= FloorMod(a, b) < b
    ensures b < 0 ==> b < FloorMod(a, b) <= 0
  {
    if b < 0 {
      var q := (-a) / (-b);
      var m := (-a) % (-b);
      assert -a == (-b) * q + m && 0 <= m < -b;
      assert FloorMod(a, b) == a - b * q == -m;
    }
  }

  /** `a ** n` for a non-negative exponent. */
  function Pow(a: int, n: nat): int {
    if n == 0 then 1 else a * Pow(a, n - 1)
  }

  /** The `ValueError` text of rendering an integer over the digit limit. */
  const DigitLimit := "Exceeds the limit (4300 digits) for integer string conversion; use sys.set_int_max_str_digits() to increase the limit"

  /** What applying an operator gives: an integer, a boolean, a raised
      exception's text, or a float (not modelled). */
  datatype Value = IntValue(i: int) | BoolValue(b: bool) | Failed(message: string) | FloatValue

  /** `operations[op](a, b)` on integers, with CPython's messages for
      division by zero. */
  function Apply(op: Op, a: int, b: int): (v: Value)
    ensures v.Failed? <==> (b == 0 && op in {Divide, FloorDivide, Modulus}) || (op == Power && a == 0 && b < 0)
    ensures v.FloatValue? <==> (op == Divide && b != 0) || (op == Power && b < 0 && a != 0)
  {
    match op
    case Add => IntValue(a + b)
    case Subtract => IntValue(a - b)
    case Multiply => IntValue(a * b)
    case Divide => if b == 0 then Failed("division by zero") else FloatValue
    case FloorDivide => if b == 0 then Failed("integer division or modulo by zero") else IntValue(FloorDiv(a, b))
    case Modulus => if b == 0 then Failed("integer modulo by zero") else IntValue(FloorMod(a, b))
    case Power =>
      if b >= 0 then IntValue(Pow(a, b))
      else if a == 0 then Failed("0.0 cannot be raised to a negative power")
      else FloatValue
    case Lt => BoolValue(a < b)
    case Le => BoolValue(a <= b)
    case Eq => BoolValue(a == b)
    case Ne => BoolValue(a != b)
    case Ge => BoolValue(a >= b)
    case Gt => BoolValue(a > b)
  }

  /** An operand as Python's arithmetic sees it: an integer or a boolean. */
  function Operand(j: Json): Option<int> {
    match j
    case JInt(i) => Some(i)
    case JBool(b) => Some(if b then 1 else 0)
    case _ => None
  }

  /** The `try` around the operation and the f-string. */
  function Report(v: Value): (r: Output)
    ensures r.Pair? <==> v.Failed? || (v.IntValue? && DigitCount(v.i) > MaxStrDigits)
  {
    match v
    case IntValue(i) =>
      if DigitCount(i) > MaxStrDigits then Pair(DigitLimit, ExecutionError) else Text(Answer(IntToString(i)))
    case BoolValue(b) => Text(Answer(if b then "True" else "False"))
    case Failed(m) => Pair(m, ExecutionError)
    case FloatValue => Unmodelled
  }

  lemma ReportIsNotUnsupported(v: Value)
    ensures Report(v) != Text(Unsupported)
  {
    match v
    case IntValue(i) => AnswerIsNotUnsupported(IntToString(i));
    case BoolValue(b) => AnswerIsNotUnsupported(if b then "True" else "False");
    case _ =>
  }

  // ---------------------------------------------------------------------
  // The tool
  // ---------------------------------------------------------------------

  /** The `TypeError` of subscripting a decoded value that is not an
      object with a string. */
  function SubscriptError(j: Json): string {
    match j
    case JString(_) => "string indices must be integers, not 'str'"
    case JArray(_) => "list indices must be integers or slices, not str"
    case _ => "'" + TypeName(j) + "' object is not subscriptable"
  }

  /** The first of the three keys the decoded object lacks, in the order
      the code reads them. Its `KeyError` prints as the key in single
      quotes, which is `repr` of each of the three. */
  function MissingKey(d: Json): (k: Option<string>)
    ensures k.None? <==> HasKey(d, "num1") && HasKey(d, "num2") && HasKey(d, "operation")
  {
    if !HasKey(d, "num1") then Some("num1")
    else if !HasKey(d, "num2") then Some("num2")
    else if !HasKey(d, "operation") then Some("operation")
    else None
  }

  /** The operation on a decoded object holding all three keys: an
      unhashable operation raises in the `in` test, a name outside the table
      is unsupported, and otherwise the operator is applied. */
  function Evaluate(num1: Json, num2: Json, operation: Json): (r: Output)
    ensures (operation.JArray? || operation.JObject?) <==> r.Raised?
    ensures r == Text(Unsupported) <==> !(operation.JArray? || operation.JObject?) && (!operation.JString? || Operation(operation.s).None?)
  {
    if operation.JArray? || operation.JObject? then Raised("TypeError: unhashable type: '" + TypeName(operation) + "'")
    else if !operation.JString? || Operation(operation.s).None? then Text(Unsupported)
    else if Operand(num1).None? || Operand(num2).None? then Unmodelled
    else
      var v := Apply(Operation(operation.s).value, Operand(num1).value, Operand(num2).value);
      ReportIsNotUnsupported(v);
      Report(v)
  }

  /** Everything after `json.loads`: subscripting, the missing-key check
      and the operation. */
  function Respond(decoded: Decoded): (r: Output)
    ensures decoded.DecodeError? ==> r == Pair(decoded.message, InvalidInput)
    ensures decoded.Parsed? && !decoded.value.JObject? ==> r.Raised?
  {
    match decoded
    case DecodeError(e) => Pair(e, InvalidInput)
    case Parsed(d) =>
      if !d.JObject? then Raised("TypeError: " + SubscriptError(d))
      else
        match MissingKey(d)
        case Some(k) => Pair("'" + k + "'", InvalidInput)
        case None => Evaluate(Get(d, "num1").value, Get(d, "num2").value, Get(d, "operation").value)
  }

  /** `basic_calculator(input_str)`: clean, decode, respond. */
  function Calculate(loads: Loads, input: string): Output {
    Respond(loads(Clean(input)))
  }

  /** A decoded object with its three keys, in the order the examples
      write them. */
  function Request(num1: Json, num2: Json, operation: Json): Json {
    JObject([("num1", num1), ("num2", num2), ("operation", operation)])
  }

  /** `get` on a request reads its three fields. */
  lemma RequestGets(num1: Json, num2: Json, operation: Json)
    ensures Get(Request(num1, num2, operation), "num1") == Some(num1)
    ensures Get(Request(num1, num2, operation), "num2") == Some(num2)
    ensures Get(Request(num1, num2, operation), "operation") == Some(operation)
  {
    var fs := Request(num1, num2, operation).fields;
    assert Lookup(fs, "num1") == Some(num1);
    assert fs[1..][0] == ("num2", num2);
    assert Lookup(fs, "num2") == Lookup(fs[1..], "num2") == Some(num2);
    assert fs[1..][1..] == [("operation", operation)];
    assert Lookup(fs[1..], "operation") == Lookup(fs[1..][1..], "operation") == Some(operation);
  }

  /** A decoded object lacking a key is answered with the tuple of the
      `KeyError` text, the key in quotes, and the invalid-input message;
      `num1` is checked first, then `num2`, then `operation`. */
  lemma MissingKeyReported(d: Json, k: string)
    requires d.JObject? && MissingKey(d) == Some(k)
    ensures Respond(Parsed(d)) == Pair("'" + k + "'", InvalidInput)
    ensures k == "num1" <==> !HasKey(d, "num1")
    ensures k == "num2" <==> HasKey(d, "num1") && !HasKey(d, "num2")
    ensures k == "operation" <==> HasKey(d, "num1") && HasKey(d, "num2") && !HasKey(d, "operation")
  {
  }

  /** `d` is a decoded object whose `num1` and `num2` are the operands `a`
      and `b` (integers, or booleans as 1 and 0) and whose `operation` is
      the table name of `op`, whatever other keys it holds and in whatever
      order. */
  predicate Asks(d: Json, a: int, b: int, op: Op) {
    && d.JObject?
    && Get(d, "num1").Some? && Operand(Get(d, "num1").value) == Some(a)
    && Get(d, "num2").Some? && Operand(Get(d, "num2").value) == Some(b)
    && Get(d, "operation") == Some(JString(Name(op)))
  }

  /** The example layout asks what it spells out. */
  lemma RequestAsks(a: int, b: int, op: Op)
    ensures Asks(Request(JInt(a), JInt(b), JString(Name(op))), a, b, op)
  {
    RequestGets(JInt(a), JInt(b), JString(Name(op)));
  }

  /** An object holding the three keys whose operation is hashable but not
      a table name gives exactly the unsupported text, whatever the
      operands are: no arithmetic is attempted. */
  lemma UnsupportedIgnoresOperands(d: Json)
    requires d.JObject? && HasKey(d, "num1") && HasKey(d, "num2") && HasKey(d, "operation")
    requires var o := Get(d, "operation").value;
             !(o.JArray? || o.JObject?) && (!o.JString? || Operation(o.s).None?)
    ensures Respond(Parsed(d)) == Text(Unsupported)
  {
  }

  /** A table name with two operands applies that operation to them. */
  lemma EvaluateNamed(num1: Json, num2: Json, a: int, b: int, op: Op)
    requires Operand(num1) == Some(a) && Operand(num2) == Some(b)
    ensures Evaluate(num1, num2, JString(Name(op))) == Report(Apply(op, a, b))
  {
    OperationByName(Name(op), op);
  }

  /** A decoded object that asks for a table operation on two operands is
      answered by applying that operator to them. */
  lemma RequestAnswers(d: Json, a: int, b: int, op: Op)
    requires Asks(d, a, b, op)
    ensures Respond(Parsed(d)) == Report(Apply(op, a, b))
  {
    EvaluateNamed(Get(d, "num1").value, Get(d, "num2").value, a, b, op);
  }

  /** End to end: an input that cleans and decodes to such an object is
      answered the same way. */
  lemma RequestApplies(loads: Loads, input: string, d: Json, a: int, b: int, op: Op)
    requires Asks(d, a, b, op)
    ensures loads(Clean(input)) == Parsed(d) ==> Calculate(loads, input) == Report(Apply(op, a, b))
  {
    RequestAnswers(d, a, b, op);
  }

  /** Sums, differences and products are answered with the answer text
      around the decimal result, or with the digit-limit error when `str()`
      refuses the result. */
  lemma ArithmeticAnswer(d: Json, a: int, b: int, op: Op)
    requires Asks(d, a, b, op) && (op == Add || op == Subtract || op == Multiply)
    ensures var v := if op == Add then a + b else if op == Subtract then a - b else a * b;
            Respond(Parsed(d))
              == if DigitCount(v) <= MaxStrDigits then Text(Answer(IntToString(v))) else Pair(DigitLimit, ExecutionError)
  {
    RequestAnswers(d, a, b, op);
    var v := if op == Add then a + b else if op == Subtract then a - b else a * b;
    assert Apply(op, a, b) == IntValue(v);
  }

  /** A zero divisor for `divide`, `floor_divide` or `modulus` is caught and
      reported as the exception's text with the execution-error text. */
  lemma ZeroDivisorReported(d: Json, a: int, op: Op)
    requires Asks(d, a, 0, op) && (op == Divide || op == FloorDivide || op == Modulus)
    ensures var message := match op
              case Divide => "division by zero"
              case FloorDivide => "integer division or modulo by zero"
              case _ => "integer modulo by zero";
            Respond(Parsed(d)) == Pair(message, ExecutionError)
  {
    RequestAnswers(d, a, 0, op);
  }

  /** `power` answers `a ** b` for a non-negative exponent (subject to the
      digit limit), reports CPython's zero-division text for zero to a
      negative power, and otherwise gives a float. */
  lemma PowerAnswer(d: Json, a: int, b: int)
    requires Asks(d, a, b, Power)
    ensures b >= 0 ==>
              Respond(Parsed(d))
                == if DigitCount(Pow(a, b)) <= MaxStrDigits then Text(Answer(IntToString(Pow(a, b))))
                   else Pair(DigitLimit, ExecutionError)
    ensures b < 0 && a == 0 ==> Respond(Parsed(d)) == Pair("0.0 cannot be raised to a negative power", ExecutionError)
    ensures b < 0 && a != 0 ==> Respond(Parsed(d)) == Unmodelled
  {
    RequestAnswers(d, a, b, Power);
  }

  /** Comparisons are answered `True` or `False`, as Python compares the
      two operands. */
  lemma ComparisonAnswer(d: Json, a: int, b: int, op: Op)
    requires Asks(d, a, b, op) && (op == Lt || op == Le || op == Eq || op == Ne || op == Ge || op == Gt)
    ensures var holds := match op
              case Lt => a < b
              case Le => a <= b
              case Eq => a == b
              case Ne => a != b
              case Ge => a >= b
              case _ => a > b;
            Respond(Parsed(d)) == Text(Answer(if holds then "True" else "False"))
  {
    RequestAnswers(d, a, b, op);
  }
}
