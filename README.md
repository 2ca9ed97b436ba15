# serverless-webpack: the `ServerlessWebpack` plugin class in Dafny

This project models the entry point of the serverless-webpack plugin, the class
`ServerlessWebpack` in `index.js`, and proves properties of that model. When the
Serverless host constructs the plugin, the constructor does four things:

- it requires the TypeScript loader `ts-node/register` when the service's
  `custom.webpack` setting names a `.ts` file;
- it mixes the operations of its eight capability modules (`lib/validate`,
  `lib/compile`, `lib/wpwatch`, `lib/cleanup`, `lib/run`, `lib/serve`,
  `lib/packExternalModules`, `lib/makePathOptionAbsolute`) into the instance
  with `Object.assign`;
- it declares the `webpack` command tree;
- it registers ten lifecycle hooks. Each hook is a Bluebird promise chain of
  instance methods.

The capability operations themselves are external. The model treats them as
opaque steps: an `Executor` function from an operation's identity, the shared
instance state and the previous step's value to a settled promise.

Modules, one per component of the constructor:

- `Wrappers`: `Option` and `Result`.
- `JsValues`: JavaScript values as read from the service configuration,
  truthiness, property reads, `String.prototype.endsWith`, rejection reasons,
  and how `new serverless.classes.Error(message)` evaluates.
- `TsNode`: the guarded `serverless.service.custom.webpack.endsWith('.ts')`
  check, and the `require('ts-node/register')` that follows it.
- `Capabilities`: the modules, and `Object.assign` as an ordered fold of finite
  maps.
- `Commands`: the command tree as a datatype and a constant.
- `Pipeline`: the promise-chain runner. `RunChain` is the reference semantics
  and `Execute` is the loop that implements it.
- `Hooks`: the event-name to stage-sequence table, and how stages resolve to
  handlers when a hook is called.
- `Plugin`: the class, with the fields the constructor assigns. `RunHook` is the
  host firing a hook over the state that persists between hooks.
  `Instantiate` is `new`, which can throw.

Behaviours of the code the model keeps:

- `require('ts-node/register')` runs on every construction whose setting ends
  in `.ts`. Repeated requires are harmless only because of Node's module
  cache, which is not part of this code. The model records one registration
  per construction (`tsNodeRegistered`).
- A truthy `custom.webpack` setting that is not a string (an object, a number,
  `true`, an array) has no `endsWith`. Then `new` throws a TypeError, which the
  constructor does not catch. A `require('ts-node/register')` that throws also
  makes `new` throw. `TsNode.LoadTsNode` and `Plugin.Instantiate` model both.
- `.then(this.name)` where the instance has no function under `name` is ignored
  by Bluebird, and the previous value passes through unchanged. The model
  resolves such a stage to `PassThrough`. A member that holds a function is
  always an `Operation`, because a `Data` member holds a `PlainValue`, a value
  that is not a function; so every function `.then` would call is resolved to
  a call. Operations that store new members obey the same type.
- Every `this.name` of a chain is read from the instance when the hook is
  called, before any step runs. Operations change the instance's state, and
  that includes the properties later hooks resolve. The capability operations
  and the working fields share one namespace of instance members.
- The `webpack:invoke:invoke` handler evaluates
  `new this.serverless.classes.Error(…)` when it runs. When the host object does
  not offer that class, the hook rejects with the engine's TypeError instead.

## Model

| member | source | states |
|---|---|---|
| `JsValues.EndsWith` | index.js:23 | true exactly when the string is some prefix followed by the suffix (both directions) |
| `TsNode.LoadTsNode` | index.js:19-26 | ts-node is required exactly when the check holds and its load succeeds; a setting without `.ts` requires nothing; failure is the check's TypeError or the exception the require threw |
| `JsValues.NewServerlessError` | index.js:119 | `new serverless.classes.Error(message)` gives the host error with that message exactly when the host object offers `classes.Error`, and a TypeError otherwise |
| `TsNode.TsNodeCheck` | index.js:19-26 | ts-node is required iff `service.custom.webpack` exists and is a string ending in `.ts`; any missing link gives no registration and no error; the only failure is the TypeError for a truthy non-string setting |
| `Plugin.Instantiate` | index.js:15-26 | construction fails exactly when the ts-node check or the ts-node load throws, with that exception; otherwise a fresh instance with the given `serverless` and `options`, the registration flag equal to whether ts-node was required, the composed members, the command tree and the hook table |
| `Plugin.ServerlessWebpack.constructor` | index.js:15-139 | for the host's `serverless` object, assigns `serverless`, `options`, the registration flag, `Compose(modules)` as the instance members, `commands` and `hooks` |
| `Capabilities.AssignKeys` | index.js:28-38 | the key set after `Object.assign` is the target's keys together with every source's keys |
| `Capabilities.AssignKeepsTarget` | index.js:28-38 | a key no source has keeps the target's value |
| `Capabilities.AssignLastWins` | index.js:28-38 | for a key several sources have, the last source in order supplies the value |
| `Capabilities.ComposeKeys` | index.js:28-38 | the instance has exactly the property names some module exports |
| `Capabilities.ComposeLastWins` | index.js:28-38 | each instance property comes from the last module exporting that name, in the order validate, compile, wpwatch, cleanup, run, serve, packExternalModules, makePathOptionAbsolute |
| `Capabilities.CollisionExample` | index.js:28-38 | composing A = {op: a} and then B = {op: b} gives {op: b} |
| `Commands.TreeShape` | index.js:40-95 | `this.commands` has the one key `webpack`, whose sub-commands are exactly `invoke`, `watch` and `serve`; `webpack` raises [validate, compile] and has only `out` (`o`, not required); `invoke` raises [invoke] and has no options; `watch` raises [watch] and has `function` (`f`, required), `path` (`p`), `data` (`d`); `serve` raises [serve] and has `port` (`p`); there is no third level |
| `Commands.TreeHookNames` | index.js:43-85 | the tree raises exactly the hooks webpack:validate, webpack:compile, webpack:invoke:invoke, webpack:watch:watch and webpack:serve:serve |
| `Commands.OnlyRequiredOption` | index.js:47-91 | `watch.function` is the one required option in the tree |
| `Commands.TreeShortcutsDistinct` | index.js:47-91 | no two options of one command share a shortcut |
| `Hooks.HookTableKeys` | index.js:97-138 | the hook table's keys are exactly the ten event names |
| `Hooks.OfflineHooksIdentical` | index.js:130-136 | `before:offline:start` and `before:offline:start:init` bind the same chain |
| `Hooks.CommandEventsHooked` | index.js:43-128 | every hook name the command tree raises is a key of the hook table |
| `Hooks.Resolve` | index.js:98-136 | one handler per stage: `this.name` becomes a call of the operation the instance holds under that name when the hook is called, or is ignored when the instance has no function there; the invoke stage becomes the redirect handler |
| `Hooks.InvokeAlwaysRejects` | index.js:118-119 | `webpack:invoke:invoke` rejects for every set of members, state and input value, invokes no operation and leaves the state unchanged; the reason is `new this.serverless.classes.Error(…)` on that state, which is a `serverless.classes.Error` with message `Use "serverless invoke local" instead.` whenever the host offers its error class |
| `Hooks.DeployHookOrder` | index.js:98-101 | the deploy hook runs validate, then compile only if validate fulfilled, then packExternalModules only if compile fulfilled; the first rejection is the hook's result, and the later operations are not invoked |
| `Hooks.ResolvedCalls` | index.js:98-136 | for a chain whose named methods the instance all holds as operations, the operations invoked when every handler runs are those methods, one per stage, in declared order |
| `Pipeline.Execute` | index.js:98-136 | the loop runs the handlers in order, stops at the first rejection, and returns exactly the reference semantics `RunChain` started with `undefined` |
| `Pipeline.RunAppend` | index.js:98-101 | a chain `a + b` runs `b` only when `a` fulfilled, starting from the state and value `a` left; otherwise it is `a`'s run |
| `Pipeline.RunCallsInOrder` | index.js:98-136 | the operations a run invokes are a prefix of the chain's operations in declared order; a fulfilled run invoked all of them |
| `Pipeline.RunRejectedAt` | index.js:98-136 | a rejected run stopped at some handler j: all earlier handlers fulfilled, handler j produced exactly the chain's rejection (reason and state, unwrapped), and nothing after j was invoked |
| `Pipeline.FirstRejectionWins` | index.js:98-99 | a chain whose first handler rejects ends with that rejection, whatever handlers follow |
| `Plugin.ServerlessWebpack.RunHook` | index.js:97-138 | an event without a hook does nothing; otherwise the hook resolves its methods on the members the instance has then, its chain runs over the state the previous hooks left, and the state it ends with, members included, becomes the instance's state, whether it fulfilled or rejected |

## Left out

- The bodies of the capability operations (`lib/*.js`) are not part of this model. Each is an opaque `Executor` step over the instance state. `Plugin.ServerlessWebpack.RunHook` takes the executor per call, so the outside world may differ between hooks. The host's `serverless` object is shared by reference with the host and with other plugins, but the instance state holds it as a value. So a change the host or another plugin makes to it between hooks is not seen, and the redirect handler reads the plugin's own copy.
- The modules' exports are parameters, so no assumption is made about which module exports which name. `index.js` does not show, for example, which module supplies `watch`. The model covers any export maps in which every function-valued property is an operation; the type `Capabilities.Member` enforces that.
- The global effect of `require('ts-node/register')` is modelled only as the flag `tsNodeRegistered`, and its outcome is a parameter (`tsNodeLoad`). Once-per-process behaviour from Node's module cache is not claimed.
- Bluebird's asynchronous scheduling, `this` binding and promise adoption are not modelled. Each chain is a sequential run over settled values.
- Hooks fired concurrently by the host are not modelled, because the code has no locking and does not define that behaviour.
- The host's CLI dispatch is not modelled. An instance of its `serverless.classes.Error` class is the constructor `ServerlessError(message)`.
- Plugin.ServerlessWebpack.RunHook: the instance properties `serverless`, `options`, `commands` and `hooks` are kept apart from the other members. So the model does not capture a member under one of those four names shadowing them. It also does not capture an operation that replaces `this.hooks` or `this.commands`: the hook table is taken as fixed after construction.
- Plugin.ServerlessWebpack.constructor: the modules are composed onto an empty map, not onto the instance's own `serverless` and `options` properties. It is assumed that no module exports a property named `serverless`, `options`, `commands` or `hooks`. Such an export would overwrite those fields in JavaScript, or be overwritten by them.
- Commands.TreeShape: the options and sub-commands are finite maps, so the declaration order of JavaScript object properties is not kept. An absent `options`, `commands` or `required` property is written as an empty map or `false`. Usage texts are carried but no property is stated about them.
- Hooks.HookTableKeys: states the key set rather than the number 10. The ten names are distinct literals.
- TsNode.TsNodeCheck: numbers are integers, so NaN is not modelled. The property read `x.custom` on a non-object gives `undefined`, which holds for the keys read here. Objects carrying their own `endsWith` function are not modelled.
- JsValues.NewServerlessError: any function object at `classes.Error` is taken to be the host's error class and to construct normally. The TypeError message texts follow the V8 engine.
- Plugin.Instantiate: requires the host's `serverless` argument to be an object, as the host always passes its Serverless instance. For `undefined` the property read `.service` would throw.
