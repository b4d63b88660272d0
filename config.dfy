/** Construction of the ApplyOrographicEnhancement plugin: the operation it
    applies, the minimum precipitation rate it enforces, and its string
    form. */
module Config {

  /** How the enhancement is combined with the precipitation rate. */
  datatype Operation = Add | Subtract

  /** The minimum precipitation rate in mm/hr. Its exact value is fixed in
      the plugin's own module; all the behaviour relies on is that a rate of
      0 mm/hr lies below it and a rate of 1 mm/hr does not. */
  type MinRate = r: real | 0.0 < r < 1.0 witness 0.5

  /** The plugin: an operation and the minimum rate, fixed at construction. */
  datatype Plugin = Plugin(operation: Operation, minPrecipRateMmh: MinRate)

  /** A configuration error: the requested operation is not supported. */
  datatype ConfigError = UnsupportedOperation(requested: string)

  datatype Result<T> = Ok(value: T) | Err(error: ConfigError)

  /** The name under which an operation is requested and stored. */
  function OperationName(op: Operation): string {
    match op
    case Add => "add"
    case Subtract => "subtract"
  }

  /** Reads an operation name: "add" and "subtract" are accepted, any other
      name is rejected with an error that names it. */
  function ParseOperation(name: string): (r: Result<Operation>)
    ensures r.Ok? <==> name == "add" || name == "subtract"
    ensures r.Ok? ==> OperationName(r.value) == name
    ensures r.Err? ==> r.error == UnsupportedOperation(name)
  {
    if name == "add" then Ok(Add)
    else if name == "subtract" then Ok(Subtract)
    else Err(UnsupportedOperation(name))
  }

  /** Every operation's name reads back as that operation. */
  lemma ParseOperationName(op: Operation)
    ensures ParseOperation(OperationName(op)) == Ok(op)
  {
    match op
    case Add =>
    case Subtract =>
  }

  /** Constructs the plugin for the requested operation. */
  function NewPlugin(operation: string, minRate: MinRate): (r: Result<Plugin>)
    ensures r.Ok? <==> operation == "add" || operation == "subtract"
    ensures r.Ok? ==> OperationName(r.value.operation) == operation && r.value.minPrecipRateMmh == minRate
    ensures r.Err? ==> r.error == UnsupportedOperation(operation)
  {
    match ParseOperation(operation)
    case Ok(op) => Ok(Plugin(op, minRate))
    case Err(e) => Err(e)
  }

  const ErrorPrefix: string := "Operation '"
  const ErrorSuffix: string := "' not supported for"

  /** The text of the error raised for an unsupported operation, as far as
      it is known: it names the requested operation between quotes. */
  function ErrorMessage(e: ConfigError): (msg: string)
    ensures ErrorPrefix <= msg
    ensures |msg| == |ErrorPrefix| + |e.requested| + |ErrorSuffix|
    ensures msg[|ErrorPrefix|..|ErrorPrefix| + |e.requested|] == e.requested
    ensures msg[|ErrorPrefix| + |e.requested|..] == ErrorSuffix
  {
    ErrorPrefix + e.requested + ErrorSuffix
  }

  /** The plugin's string form. */
  function Repr(p: Plugin): string {
    "<ApplyOrographicEnhancement: operation: " + OperationName(p.operation) + ">"
  }

  /** Constructing with "add" stores that operation and prints as
      `<ApplyOrographicEnhancement: operation: add>`. */
  lemma ConstructAdd(minRate: MinRate)
    ensures NewPlugin("add", minRate) == Ok(Plugin(Add, minRate))
    ensures OperationName(NewPlugin("add", minRate).value.operation) == "add"
    ensures Repr(NewPlugin("add", minRate).value) == "<ApplyOrographicEnhancement: operation: add>"
  {
  }

  /** Constructing with "multiply" fails, with a message that starts
      "Operation 'multiply' not supported for". */
  lemma ConstructMultiplyFails(minRate: MinRate)
    ensures NewPlugin("multiply", minRate).Err?
    ensures "Operation 'multiply' not supported for" <= ErrorMessage(NewPlugin("multiply", minRate).error)
  {
    assert ErrorPrefix + "multiply" + ErrorSuffix == "Operation 'multiply' not supported for";
  }
}
