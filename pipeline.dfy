/** The runner behind every hook: `BbPromise.bind(this).then(h1).then(h2)…`.
    The chain starts resolved with `undefined`; each handler runs only after the
    previous one fulfilled, receives its value, and the first rejection skips
    every later handler and becomes the chain's own rejection, unchanged. */
module Pipeline {
  import opened JsValues
  import opened Capabilities

  /** The plugin instance as capability operations see it: the host's
      `serverless` object, the parsed `options`, and every other property of the
      instance (the operations mixed in at construction and the working fields
      the operations attach), in one namespace the operations may read and
      change. It persists from one hook to the next. */
  datatype Ctx = Ctx(serverless: Value, options: Value, members: map<string, Member>)

  /** How a promise settles, with the state it leaves behind. */
  datatype Settled =
    | Fulfilled(ctx: Ctx, value: Value)
    | Rejected(ctx: Ctx, reason: Reason)
  {
    function State(): Ctx {
      match this
      case Fulfilled(c, _) => c
      case Rejected(c, _) => c
    }
  }

  /** The effect of running one capability operation bound to the instance on the
      value of the previous step. The operations are external; the host's world
      (file system, network) is folded into this function and the state. */
  type Executor = (Impl, Ctx, Value) -> Settled

  const InvokeLocalMessage: string := "Use \"serverless invoke local\" instead."

  /** The argument of one `.then`. */
  datatype Handler =
    | Call(impl: Impl)            // `this.<name>` holds a capability operation
    | PassThrough                 // `this.<name>` is not a function: Bluebird ignores it
    | RedirectToInvokeLocal       // `() => BbPromise.reject(new this.serverless.classes.Error(…))`

  /** How one handler settles. The redirect handler builds its error from the
      instance's `serverless` object as it is when the handler runs. */
  function Step(h: Handler, exec: Executor, ctx: Ctx, v: Value): Settled {
    match h
    case Call(impl) => exec(impl, ctx, v)
    case PassThrough => Fulfilled(ctx, v)
    case RedirectToInvokeLocal => Rejected(ctx, NewServerlessError(ctx.serverless, InvokeLocalMessage))
  }

  /** The operations one handler invokes. */
  function Invoked(h: Handler): seq<Impl> {
    if h.Call? then [h.impl] else []
  }

  /** The operations a chain invokes when every handler runs. */
  function Calls(hs: seq<Handler>): seq<Impl>
    decreases |hs|
  {
    if hs == [] then [] else Invoked(hs[0]) + Calls(hs[1..])
  }

  /** A run of a chain: the operations invoked, in order, and how the chain settled. */
  datatype Execution = Execution(calls: seq<Impl>, outcome: Settled)

  /** The reference semantics of a chain started with value `v`. */
  function RunChain(hs: seq<Handler>, exec: Executor, ctx: Ctx, v: Value): Execution
    decreases |hs|
  {
    if hs == [] then Execution([], Fulfilled(ctx, v))
    else
      var s := Step(hs[0], exec, ctx, v);
      match s
      case Rejected(_, _) => Execution(Invoked(hs[0]), s)
      case Fulfilled(c, w) =>
        var rest := RunChain(hs[1..], exec, c, w);
        Execution(Invoked(hs[0]) + rest.calls, rest.outcome)
  }

  /** Runs a hook's chain from `ctx`, one handler after another, stopping at the
      first rejection. */
  method Execute(hs: seq<Handler>, exec: Executor, ctx: Ctx) returns (e: Execution)
    ensures e == RunChain(hs, exec, ctx, Undefined)
  {
    var calls: seq<Impl> := [];
    var c, v := ctx, Undefined;
    var i := 0;
    while i < |hs|
      invariant 0 <= i <= |hs|
      invariant RunChain(hs, exec, ctx, Undefined)
        == Execution(calls + RunChain(hs[i..], exec, c, v).calls, RunChain(hs[i..], exec, c, v).outcome)
    {
      assert hs[i..][1..] == hs[i + 1..];
      var s := Step(hs[i], exec, c, v);
      calls := calls + Invoked(hs[i]);
      if s.Rejected? {
        return Execution(calls, s);
      }
      c, v := s.ctx, s.value;
      i := i + 1;
    }
    e := Execution(calls, Fulfilled(c, v));
  }

  /** Appending chains: the second part starts only when the first fulfilled,
      and starts from the state and value the first left. */
  lemma {:induction false} RunAppend(a: seq<Handler>, b: seq<Handler>, exec: Executor, ctx: Ctx, v: Value)
    ensures RunChain(a + b, exec, ctx, v) ==
      var ra := RunChain(a, exec, ctx, v);
      if ra.outcome.Rejected? then ra
      else
        var rb := RunChain(b, exec, ra.outcome.ctx, ra.outcome.value);
        Execution(ra.calls + rb.calls, rb.outcome)
    decreases |a|
  {
    if a == [] {
      assert a + b == b;
    } else {
      assert (a + b)[0] == a[0];
      assert (a + b)[1..] == a[1..] + b;
      var s := Step(a[0], exec, ctx, v);
      if s.Fulfilled? {
        RunAppend(a[1..], b, exec, s.ctx, s.value);
      }
    }
  }

  /** The operations a run invokes are a prefix of the chain's operations, in the
      declared order; a run that fulfils has invoked all of them. */
  lemma {:induction false} RunCallsInOrder(hs: seq<Handler>, exec: Executor, ctx: Ctx, v: Value)
    ensures RunChain(hs, exec, ctx, v).calls <= Calls(hs)
    ensures RunChain(hs, exec, ctx, v).outcome.Fulfilled? ==> RunChain(hs, exec, ctx, v).calls == Calls(hs)
    decreases |hs|
  {
    if hs != [] {
      var s := Step(hs[0], exec, ctx, v);
      if s.Fulfilled? {
        RunCallsInOrder(hs[1..], exec, s.ctx, s.value);
      }
    }
  }

  /** A rejected run stopped at some handler `j`: every handler before it
      fulfilled, handler `j` rejected with exactly the chain's reason and state,
      and no operation after it was invoked. */
  lemma {:induction false} RunRejectedAt(hs: seq<Handler>, exec: Executor, ctx: Ctx, v: Value) returns (j: nat)
    requires RunChain(hs, exec, ctx, v).outcome.Rejected?
    ensures j < |hs|
    ensures RunChain(hs[..j], exec, ctx, v).outcome.Fulfilled?
    ensures
      var before := RunChain(hs[..j], exec, ctx, v).outcome;
      Step(hs[j], exec, before.ctx, before.value) == RunChain(hs, exec, ctx, v).outcome
    ensures RunChain(hs, exec, ctx, v).calls == Calls(hs[..j + 1])
    decreases |hs|
  {
    var s := Step(hs[0], exec, ctx, v);
    if s.Rejected? {
      j := 0;
      assert hs[..1] == [hs[0]];
      assert hs[..1][1..] == [];
    } else {
      var k := RunRejectedAt(hs[1..], exec, s.ctx, s.value);
      j := k + 1;
      assert hs[..j][0] == hs[0] && hs[..j][1..] == hs[1..][..k];
      assert hs[..j + 1][0] == hs[0] && hs[..j + 1][1..] == hs[1..][..k + 1];
      assert hs[j] == hs[1..][k];
    }
  }

  /** A chain whose first handler rejects invokes no operation after it and
      rejects with that handler's reason, whatever follows. */
  lemma FirstRejectionWins(h: Handler, rest: seq<Handler>, exec: Executor, ctx: Ctx, v: Value)
    requires Step(h, exec, ctx, v).Rejected?
    ensures RunChain([h] + rest, exec, ctx, v) == Execution(Invoked(h), Step(h, exec, ctx, v))
  {
    assert ([h] + rest)[0] == h;
  }
}
