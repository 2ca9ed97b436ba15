/** The fragment of JavaScript's value semantics the plugin's constructor and hooks
    depend on: values read from the service configuration, truthiness as used by
    `&&`, property reads, `String.prototype.endsWith`, and the rejection reasons a
    hook can carry. */
module JsValues {

  /** A JavaScript value as produced by the host's configuration parser.
      Numbers are modelled as integers. */
  datatype Value =
    | Undefined
    | Null
    | Bool(b: bool)
    | Num(n: int)
    | Str(s: string)
    | Arr(elems: seq<Value>)
    | Obj(props: map<string, Value>)
    | Fn(name: string)     // a function object supplied by the host, such as `serverless.classes.Error`

  /** The reason a promise is rejected with (or an exception is thrown with). */
  datatype Reason =
    | ServerlessError(message: string)   // an instance of the host's `serverless.classes.Error`
    | TypeError(message: string)         // raised by the JavaScript engine
    | Thrown(value: Value)               // any other value a capability operation rejects with

  /** JavaScript truthiness: `undefined`, `null`, `false`, `0` and `""` are falsy. */
  predicate Truthy(v: Value) {
    match v
    case Undefined => false
    case Null => false
    case Bool(b) => b
    case Num(n) => n != 0
    case Str(s) => s != ""
    case Arr(_) => true
    case Obj(_) => true
    case Fn(_) => true
  }

  /** The property read `v.key` on a value that is neither `undefined` nor `null`,
      for a key that no built-in prototype defines (such as `custom` or `webpack`):
      an own property of an object, and `undefined` otherwise. */
  function Get(v: Value, key: string): Value {
    if v.Obj? && key in v.props then v.props[key] else Undefined
  }

  /** The host object offers an error class at `classes.Error`. */
  predicate HasErrorClass(serverless: Value) {
    serverless.Obj? && "classes" in serverless.props
    && serverless.props["classes"].Obj? && "Error" in serverless.props["classes"].props
    && serverless.props["classes"].props["Error"].Fn?
  }

  /** What `new serverless.classes.Error(message)` produces when it is evaluated:
      an instance of the host's error class, or the TypeError the engine raises
      when a link of `serverless.classes.Error` is missing. */
  function NewServerlessError(serverless: Value, message: string): (r: Reason)
    ensures r == ServerlessError(message) <==> HasErrorClass(serverless)
    ensures !HasErrorClass(serverless) ==> r.TypeError?
  {
    if serverless.Undefined? then TypeError("Cannot read properties of undefined (reading 'classes')")
    else if serverless.Null? then TypeError("Cannot read properties of null (reading 'classes')")
    else
      var classes := Get(serverless, "classes");
      if classes.Undefined? then TypeError("Cannot read properties of undefined (reading 'Error')")
      else if classes.Null? then TypeError("Cannot read properties of null (reading 'Error')")
      else if Get(classes, "Error").Fn? then ServerlessError(message)
      else TypeError("this.serverless.classes.Error is not a constructor")
  }

  /** `s.endsWith(suffix)`: true exactly when `s` is some string followed by `suffix`. */
  function EndsWith(s: string, suffix: string): (b: bool)
    ensures b ==> |suffix| <= |s| && s == s[..|s| - |suffix|] + suffix
    ensures forall p :: p + suffix == s ==> b
  {
    if |suffix| <= |s| then
      assert forall p :: p + suffix == s ==> s[|s| - |suffix|..] == suffix by {
        forall p | p + suffix == s ensures s[|s| - |suffix|..] == suffix {
          assert |p| == |s| - |suffix|;
          assert (p + suffix)[|p|..] == suffix;
        }
      }
      s[|s| - |suffix|..] == suffix
    else
      false
  }
}
