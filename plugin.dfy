/** The plugin class `ServerlessWebpack`: construction (the ts-node check and
    load, the composition of the capability modules, the command tree and the
    hook table) and the host firing one of its hooks. */
module Plugin {
  import opened Wrappers
  import opened JsValues
  import opened Capabilities
  import opened Pipeline
  import opened Hooks
  import TsNode
  import Commands

  class ServerlessWebpack {
    var serverless: Value
    var options: Value
    /** Whether this construction required `ts-node/register`. */
    var tsNodeRegistered: bool
    var commands: map<string, Commands.Command>
    var hooks: map<string, seq<Stage>>
    /** Every other property of the instance: the operations mixed in by
        `Object.assign` and the working fields the operations attach. */
    var members: Exports

    /** The state shared by every hook. */
    function Context(): Ctx
      reads this
    {
      Ctx(serverless, options, members)
    }

    /** The instance as construction leaves it, and as hooks keep it. */
    ghost predicate Valid()
      reads this
    {
      commands == Commands.Tree && hooks == HookTable
    }

    /** `new ServerlessWebpack(serverless, options)` when neither the ts-node
        check nor the ts-node load throws; `Instantiate` covers the cases where
        one does. `tsNodeLoad` is what `require('ts-node/register')` does. */
    constructor (serverless: Value, options: Value, modules: Modules, tsNodeLoad: Option<Reason>)
      requires serverless.Obj?
      requires TsNode.LoadTsNode(Get(serverless, "service"), tsNodeLoad).Success?
      ensures Valid()
      ensures this.serverless == serverless && this.options == options
      ensures tsNodeRegistered == TsNode.LoadTsNode(Get(serverless, "service"), tsNodeLoad).value
      ensures members == Compose(modules)
    {
      this.serverless := serverless;
      this.options := options;
      tsNodeRegistered := TsNode.LoadTsNode(Get(serverless, "service"), tsNodeLoad).value;
      members := Compose(modules);
      commands := Commands.Tree;
      hooks := HookTable;
    }

    /** The host firing lifecycle event `event`: nothing happens when the plugin
        has no hook for it; otherwise the hook resolves its methods on the
        instance as it is, its chain runs over the shared state, and the state it
        leaves (fulfilled or rejected) is the instance's new state. */
    method RunHook(event: string, exec: Executor) returns (r: Option<Execution>)
      requires Valid()
      modifies this`serverless, this`options, this`members
      ensures Valid()
      ensures event !in hooks ==> r == None && Context() == old(Context())
      ensures event in hooks ==>
        r == Some(RunChain(Resolve(old(members), hooks[event]), exec, old(Context()), Undefined))
        && Context() == r.value.outcome.State()
    {
      if event !in hooks {
        return None;
      }
      var e := Execute(Resolve(members, hooks[event]), exec, Context());
      var s := e.outcome.State();
      serverless, options, members := s.serverless, s.options, s.members;
      r := Some(e);
    }
  }

  /** `new ServerlessWebpack(serverless, options)` for the host's `serverless`
      object, where `tsNodeLoad` is what `require('ts-node/register')` does: the
      exception of the ts-node check or of the load propagates, otherwise a
      fresh instance. */
  method Instantiate(serverless: Value, options: Value, modules: Modules, tsNodeLoad: Option<Reason>)
    returns (r: Result<ServerlessWebpack, Reason>)
    requires serverless.Obj?
    ensures TsNode.LoadTsNode(Get(serverless, "service"), tsNodeLoad).Failure? <==> r.Failure?
    ensures r.Failure? ==> r.error == TsNode.LoadTsNode(Get(serverless, "service"), tsNodeLoad).error
    ensures r.Success? ==>
      && fresh(r.value) && r.value.Valid()
      && r.value.serverless == serverless && r.value.options == options
      && r.value.tsNodeRegistered == TsNode.LoadTsNode(Get(serverless, "service"), tsNodeLoad).value
      && r.value.members == Compose(modules)
  {
    var loaded := TsNode.LoadTsNode(Get(serverless, "service"), tsNodeLoad);
    if loaded.Failure? {
      return Failure(loaded.error);
    }
    var p := new ServerlessWebpack(serverless, options, modules, tsNodeLoad);
    r := Success(p);
  }

  /** Construction without any `custom.webpack` setting, for a host that offers
      its error class: nothing is required, the tables are in place,
      `webpack:invoke:invoke` rejects with the redirect message, and a second hook
      starts from the state the first left. */
  method ConstructWithoutSetting(modules: Modules, exec: Executor)
  {
    var serverless := Obj(map["service" := Obj(map[]), "classes" := Obj(map["Error" := Fn("ServerlessError")])]);
    var r := Instantiate(serverless, Obj(map[]), modules, None);
    assert !TsNode.HasWebpackSetting(Obj(map[]));
    var p := r.value;
    assert !p.tsNodeRegistered;
    assert "webpack:invoke:invoke" in p.hooks;
    var ctx := p.Context();
    assert HasErrorClass(ctx.serverless);
    var first := p.RunHook("webpack:invoke:invoke", exec);
    InvokeAlwaysRejects(ctx.members, exec, ctx, Undefined);
    assert first == Some(Execution([], Rejected(ctx, ServerlessError(InvokeLocalMessage))));
    assert p.Context() == ctx;
    var second := p.RunHook("webpack:validate", exec);
    assert second.Some? && second.value == RunChain(Resolve(ctx.members, HookTable["webpack:validate"]), exec, ctx, Undefined);
  }
}
