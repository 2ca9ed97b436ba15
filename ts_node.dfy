/** The conditional extension check made at the start of construction: the
    TypeScript loader `ts-node/register` is required when the service's
    `custom.webpack` setting names a `.ts` file. */
module TsNode {
  import opened Wrappers
  import opened JsValues

  const TsSuffix: string := ".ts"

  /** The message of the TypeError the engine raises when `endsWith` is called on
      a truthy `custom.webpack` setting that is not a string. */
  const NotAStringMessage: string := "this.serverless.service.custom.webpack.endsWith is not a function"

  /** `service.custom.webpack` exists as an object property chain. */
  predicate HasWebpackSetting(service: Value) {
    service.Obj? && "custom" in service.props
    && service.props["custom"].Obj? && "webpack" in service.props["custom"].props
  }

  function WebpackSetting(service: Value): Value
    requires HasWebpackSetting(service)
  {
    service.props["custom"].props["webpack"]
  }

  /** The guard of the constructor evaluated on `serverless.service`: whether
      `ts-node/register` is required, or the exception the evaluation throws.
      Each `&&` operand is read only when the previous one was truthy. */
  function TsNodeCheck(service: Value): (r: Result<bool, Reason>)
    // registration happens exactly when the whole chain exists and the setting is a `.ts` path
    ensures r == Success(true) <==>
      HasWebpackSetting(service) && WebpackSetting(service).Str?
      && exists p :: p + TsSuffix == WebpackSetting(service).s
    // a missing link is not an error: nothing is required
    ensures !HasWebpackSetting(service) ==> r == Success(false)
    // the only failure: a truthy setting that is not a string has no `endsWith`
    ensures r.Failure? <==>
      HasWebpackSetting(service) && Truthy(WebpackSetting(service)) && !WebpackSetting(service).Str?
    ensures r.Failure? ==> r.error == TypeError(NotAStringMessage)
  {
    if !Truthy(service) then Success(false)
    else
      var custom := Get(service, "custom");
      if !Truthy(custom) then Success(false)
      else
        var webpack := Get(custom, "webpack");
        if !Truthy(webpack) then Success(false)
        else if webpack.Str? then Success(EndsWith(webpack.s, TsSuffix))
        else Failure(TypeError(NotAStringMessage))
  }

  /** The ts-node step of construction: the check, then `require('ts-node/register')`
      when the check holds. `load` is what that require does: `None` when the
      module loads, `Some(e)` when it throws `e`. The result is whether ts-node
      was required, or the exception construction fails with. */
  function LoadTsNode(service: Value, load: Option<Reason>): (r: Result<bool, Reason>)
    ensures r == Success(true) <==> TsNodeCheck(service) == Success(true) && load.None?
    ensures r == Success(false) <==> TsNodeCheck(service) == Success(false)
    // the exception is the check's TypeError, or the one the require threw
    ensures r.Failure? ==>
      (TsNodeCheck(service).Failure? && r.error == TsNodeCheck(service).error)
      || (TsNodeCheck(service) == Success(true) && load == Some(r.error))
  {
    match TsNodeCheck(service)
    case Failure(e) => Failure(e)
    case Success(required) =>
      if required && load.Some? then Failure(load.value) else Success(required)
  }
}
