/** The capability modules required at the top of the plugin's entry file and
    their composition into the plugin instance by `Object.assign`. The operations
    themselves are external; a module is modelled by the map of the names it
    exports to what it exports under them. */
module Capabilities {
  import opened JsValues

  /** The eight modules under `lib/` that the plugin composes. */
  datatype Capability =
    | Validate | Compile | WpWatch | Cleanup | Run | Serve | PackExternalModules | MakePathOptionAbsolute

  /** The identity of a function the instance can call: the module that supplies
      it and the name it has there (for a function an operation attaches later,
      the module of that operation). Two equal `Impl`s are the same implementation. */
  datatype Impl = Impl(origin: Capability, name: string)

  /** A JavaScript value that is not itself a function (its properties may hold functions). */
  type PlainValue = v: Value | !v.Fn? witness Undefined

  /** A property of a module object or of the plugin instance: a function, which
      `.then` calls as an operation, or a value that is not a function, which
      `.then` ignores. A function-valued property is always an `Operation`. */
  datatype Member = Data(value: PlainValue) | Operation(impl: Impl)

  /** The enumerable own properties of an object. */
  type Exports = map<string, Member>

  /** The value of each `require('./lib/…')`. */
  datatype Modules = Modules(
    validate: Exports,
    compile: Exports,
    wpwatch: Exports,
    cleanup: Exports,
    run: Exports,
    serve: Exports,
    packExternalModules: Exports,
    makePathOptionAbsolute: Exports)

  /** The order in which the constructor passes the modules to `Object.assign`. */
  function AssignOrder(m: Modules): seq<Exports> {
    [m.validate, m.compile, m.wpwatch, m.cleanup, m.run, m.serve, m.packExternalModules, m.makePathOptionAbsolute]
  }

  /** `Object.assign(target, sources[0], sources[1], …)`: each source, in order,
      copies its properties onto the target, overwriting what is there. */
  function Assign(target: Exports, sources: seq<Exports>): Exports
    decreases |sources|
  {
    if sources == [] then target else Assign(target + sources[0], sources[1..])
  }

  /** The properties the constructor mixes into the instance. */
  function Compose(m: Modules): Exports {
    Assign(map[], AssignOrder(m))
  }

  /** The merged key set is the target's keys together with every source's keys. */
  lemma {:induction false} AssignKeys(target: Exports, sources: seq<Exports>, k: string)
    ensures k in Assign(target, sources) <==> k in target || exists i :: 0 <= i < |sources| && k in sources[i]
    decreases |sources|
  {
    if sources != [] {
      AssignKeys(target + sources[0], sources[1..], k);
      if exists i :: 0 <= i < |sources| && k in sources[i] {
        var i :| 0 <= i < |sources| && k in sources[i];
        if i > 0 { assert k in sources[1..][i - 1]; }
      }
      if exists i :: 0 <= i < |sources[1..]| && k in sources[1..][i] {
        var i :| 0 <= i < |sources[1..]| && k in sources[1..][i];
        assert k in sources[i + 1];
      }
    }
  }

  /** A key that no source has keeps the target's value. */
  lemma {:induction false} AssignKeepsTarget(target: Exports, sources: seq<Exports>, k: string)
    requires k in target
    requires forall i :: 0 <= i < |sources| ==> k !in sources[i]
    ensures k in Assign(target, sources) && Assign(target, sources)[k] == target[k]
    decreases |sources|
  {
    if sources != [] {
      forall i | 0 <= i < |sources[1..]| ensures k !in sources[1..][i] {
        assert sources[1..][i] == sources[i + 1];
      }
      AssignKeepsTarget(target + sources[0], sources[1..], k);
    }
  }

  /** Last write wins: for a key several sources have, the last of them supplies the value. */
  lemma {:induction false} AssignLastWins(target: Exports, sources: seq<Exports>, k: string, i: nat)
    requires i < |sources| && k in sources[i]
    requires forall j :: i < j < |sources| ==> k !in sources[j]
    ensures k in Assign(target, sources) && Assign(target, sources)[k] == sources[i][k]
    decreases |sources|
  {
    if i == 0 {
      forall j | 0 <= j < |sources[1..]| ensures k !in sources[1..][j] {
        assert sources[1..][j] == sources[j + 1];
      }
      AssignKeepsTarget(target + sources[0], sources[1..], k);
    } else {
      forall j | i - 1 < j < |sources[1..]| ensures k !in sources[1..][j] {
        assert sources[1..][j] == sources[j + 1];
      }
      AssignLastWins(target + sources[0], sources[1..], k, i - 1);
    }
  }

  /** The composed instance has exactly the properties some module exports. */
  lemma ComposeKeys(m: Modules, k: string)
    ensures k in Compose(m) <==> exists i :: 0 <= i < 8 && k in AssignOrder(m)[i]
  {
    AssignKeys(map[], AssignOrder(m), k);
  }

  /** Each property of the composed instance comes from the last module, in assignment
      order, that exports its name. */
  lemma ComposeLastWins(m: Modules, k: string, i: nat)
    requires i < 8 && k in AssignOrder(m)[i]
    requires forall j :: i < j < 8 ==> k !in AssignOrder(m)[j]
    ensures k in Compose(m) && Compose(m)[k] == AssignOrder(m)[i][k]
  {
    AssignLastWins(map[], AssignOrder(m), k, i);
  }

  /** Composing A = {op: a} and then B = {op: b} leaves B's `op`. */
  lemma CollisionExample(a: Member, b: Member)
    ensures Assign(map[], [map["op" := a], map["op" := b]]) == map["op" := b]
  {
    var A, B := map["op" := a], map["op" := b];
    assert [A, B][1..] == [B];
    assert [B][1..] == [];
    assert map[] + A == A;
    assert Assign(map[], [A, B]) == Assign(A, [B]) == Assign(A + B, []);
    assert A + B == B;
  }
}
