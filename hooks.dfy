/** The hook table the plugin registers as `this.hooks`: for each lifecycle event,
    the chain of instance methods the hook runs. */
module Hooks {
  import opened Wrappers
  import opened JsValues
  import opened Capabilities
  import opened Pipeline
  import Commands

  /** One `.then` of a hook as the source writes it. */
  datatype Stage =
    | Method(name: string)     // `.then(this.<name>)`
    | InvokeRedirect           // `.then(() => BbPromise.reject(new this.serverless.classes.Error(…)))`

  const HookTable: map<string, seq<Stage>> := map[
    "before:deploy:createDeploymentArtifacts" := [Method("validate"), Method("compile"), Method("packExternalModules")],
    "after:deploy:createDeploymentArtifacts" := [Method("cleanup")],
    "before:invoke:local:invoke" := [Method("validate"), Method("compile"), Method("makePathOptionAbsolute")],
    "webpack:validate" := [Method("validate")],
    "webpack:compile" := [Method("compile"), Method("packExternalModules")],
    "webpack:invoke:invoke" := [InvokeRedirect],
    "webpack:watch:watch" := [Method("validate"), Method("makePathOptionAbsolute"), Method("watch")],
    "webpack:serve:serve" := [Method("validate"), Method("serve")],
    "before:offline:start" := [Method("validate"), Method("wpwatch")],
    "before:offline:start:init" := [Method("validate"), Method("wpwatch")]]

  /** The handlers a hook builds when it is called: each `this.<name>` is read
      from the instance's members as they are then, before any step runs. */
  function Resolve(members: Exports, stages: seq<Stage>): (hs: seq<Handler>)
    ensures |hs| == |stages|
    // a named method becomes a call of the instance's operation of that name, or is
    // ignored when the instance has no function under that name
    ensures forall i :: 0 <= i < |stages| && stages[i].Method? ==>
      hs[i] == if stages[i].name in members && members[stages[i].name].Operation?
               then Call(members[stages[i].name].impl) else PassThrough
    // the redirect stage becomes the handler that builds and rejects with the host error
    ensures forall i :: 0 <= i < |stages| && stages[i].InvokeRedirect? ==> hs[i] == RedirectToInvokeLocal
    decreases |stages|
  {
    if stages == [] then []
    else
      var h := match stages[0]
        case Method(n) => if n in members && members[n].Operation? then Call(members[n].impl) else PassThrough
        case InvokeRedirect => RedirectToInvokeLocal;
      [h] + Resolve(members, stages[1..])
  }

  /** The table has exactly the ten event names the plugin hooks into. */
  lemma HookTableKeys()
    ensures HookTable.Keys == {
      "before:deploy:createDeploymentArtifacts", "after:deploy:createDeploymentArtifacts",
      "before:invoke:local:invoke", "webpack:validate", "webpack:compile", "webpack:invoke:invoke",
      "webpack:watch:watch", "webpack:serve:serve", "before:offline:start", "before:offline:start:init"}
  {
  }

  /** The two offline hooks bind the same chain. */
  lemma OfflineHooksIdentical()
    ensures HookTable["before:offline:start"] == HookTable["before:offline:start:init"]
  {
  }

  /** Every lifecycle event the command tree raises has a hook. */
  lemma CommandEventsHooked(name: string)
    requires Commands.RaisesHook("webpack", Commands.Webpack, name)
    ensures name in HookTable
  {
    Commands.TreeHookNames(name);
  }

  /** `webpack:invoke:invoke` always rejects, whatever the members and the state,
      without invoking any operation and without changing the state. The reason is
      `new this.serverless.classes.Error(…)` evaluated on the current state: the
      host error redirecting to `serverless invoke local` when the host offers its
      error class, and the engine's TypeError otherwise. */
  lemma InvokeAlwaysRejects(members: Exports, exec: Executor, ctx: Ctx, v: Value)
    ensures RunChain(Resolve(members, HookTable["webpack:invoke:invoke"]), exec, ctx, v)
      == Execution([], Rejected(ctx, NewServerlessError(ctx.serverless, InvokeLocalMessage)))
    ensures HasErrorClass(ctx.serverless) ==>
      RunChain(Resolve(members, HookTable["webpack:invoke:invoke"]), exec, ctx, v).outcome.reason
      == ServerlessError(InvokeLocalMessage)
  {
  }

  /** The deploy hook invokes validate, then compile, then packExternalModules:
      compile only after validate fulfilled and packExternalModules only after
      compile fulfilled; a rejection is the hook's result unchanged. */
  lemma {:induction false} DeployHookOrder(ops: Exports, exec: Executor, ctx: Ctx)
    requires "validate" in ops && ops["validate"].Operation?
    requires "compile" in ops && ops["compile"].Operation?
    requires "packExternalModules" in ops && ops["packExternalModules"].Operation?
    ensures
      var r := RunChain(Resolve(ops, HookTable["before:deploy:createDeploymentArtifacts"]), exec, ctx, Undefined);
      var s1 := exec(ops["validate"].impl, ctx, Undefined);
      && (s1.Rejected? ==> r == Execution([ops["validate"].impl], s1))
      && (s1.Fulfilled? ==>
            var s2 := exec(ops["compile"].impl, s1.ctx, s1.value);
            && (s2.Rejected? ==> r == Execution([ops["validate"].impl, ops["compile"].impl], s2))
            && (s2.Fulfilled? ==>
                  r == Execution([ops["validate"].impl, ops["compile"].impl, ops["packExternalModules"].impl],
                                 exec(ops["packExternalModules"].impl, s2.ctx, s2.value))))
  {
    var stages := [Method("validate"), Method("compile"), Method("packExternalModules")];
    var hs := Resolve(ops, stages);
    assert stages[1..] == [Method("compile"), Method("packExternalModules")];
    assert stages[1..][1..] == [Method("packExternalModules")];
    assert stages[1..][1..][1..] == [];
    assert hs == [Call(ops["validate"].impl), Call(ops["compile"].impl), Call(ops["packExternalModules"].impl)];
    assert hs[1..] == [Call(ops["compile"].impl), Call(ops["packExternalModules"].impl)];
    assert hs[1..][1..] == [Call(ops["packExternalModules"].impl)];
    assert hs[1..][1..][1..] == [];
    var s1 := exec(ops["validate"].impl, ctx, Undefined);
    if s1.Fulfilled? {
      var s2 := exec(ops["compile"].impl, s1.ctx, s1.value);
      assert RunChain(hs, exec, ctx, Undefined)
        == Execution([ops["validate"].impl] + RunChain(hs[1..], exec, s1.ctx, s1.value).calls,
                     RunChain(hs[1..], exec, s1.ctx, s1.value).outcome);
      if s2.Fulfilled? {
        var s3 := exec(ops["packExternalModules"].impl, s2.ctx, s2.value);
        assert RunChain(hs[1..], exec, s1.ctx, s1.value)
          == Execution([ops["compile"].impl] + RunChain(hs[1..][1..], exec, s2.ctx, s2.value).calls,
                       RunChain(hs[1..][1..], exec, s2.ctx, s2.value).outcome);
        assert RunChain(hs[1..][1..], exec, s2.ctx, s2.value) == Execution([ops["packExternalModules"].impl], s3);
      }
    }
  }

  /** For a chain of named methods that the instance all has as operations, the
      operations the chain invokes when every handler runs are those methods, one
      per stage, in the declared order. */
  lemma {:induction false} ResolvedCalls(ops: Exports, stages: seq<Stage>)
    requires forall i :: 0 <= i < |stages| ==> stages[i].Method? && stages[i].name in ops && ops[stages[i].name].Operation?
    ensures Calls(Resolve(ops, stages)) == seq(|stages|, i requires 0 <= i < |stages| => ops[stages[i].name].impl)
    decreases |stages|
  {
    if stages != [] {
      ResolvedCalls(ops, stages[1..]);
    }
  }
}
