/** The command tree the plugin exposes to the host CLI as `this.commands`. */
module Commands {

  /** One entry of a command's `options`. An absent `required` property is falsy
      and appears here as `false`. */
  datatype OptionSpec = OptionSpec(usage: string, shortcut: string, required: bool)

  /** A command: its usage text, the lifecycle events it raises in order, its
      options and its sub-commands. An absent `options` or `commands` property
      appears here as the empty map. */
  datatype Command = Command(
    usage: string,
    lifecycleEvents: seq<string>,
    options: map<string, OptionSpec>,
    commands: map<string, Command>)

  const Invoke: Command := Command(
    "Run a function locally from the webpack output bundle",
    ["invoke"], map[], map[])

  const Watch: Command := Command(
    "Run a function from the webpack output bundle every time the source is changed",
    ["watch"],
    map[
      "function" := OptionSpec("Name of the function", "f", true),
      "path" := OptionSpec("Path to JSON or YAML file holding input data", "p", false),
      "data" := OptionSpec("input data", "d", false)],
    map[])

  const Serve: Command := Command(
    "Simulate the API Gateway and serves lambdas locally",
    ["serve"],
    map["port" := OptionSpec("The local server port", "p", false)],
    map[])

  const Webpack: Command := Command(
    "Bundle with Webpack",
    ["validate", "compile"],
    map["out" := OptionSpec("Path to output directory", "o", false)],
    map["invoke" := Invoke, "watch" := Watch, "serve" := Serve])

  /** `this.commands`. */
  const Tree: map<string, Command> := map["webpack" := Webpack]

  /** Whether a command tree raises hook `name`: the host names a hook by the
      command path joined with `:`, followed by `:` and the lifecycle event. */
  predicate RaisesHook(path: string, c: Command, name: string)
    decreases c
  {
    (exists e :: e in c.lifecycleEvents && name == path + ":" + e)
    || (exists k :: k in c.commands && RaisesHook(path + ":" + k, c.commands[k], name))
  }

  /** Whether option `option` of the command at `command` is marked required. */
  predicate RequiresOption(path: string, c: Command, command: string, option: string)
    decreases c
  {
    (command == path && option in c.options && c.options[option].required)
    || (exists k :: k in c.commands && RequiresOption(path + ":" + k, c.commands[k], command, option))
  }

  /** No two options of one command share a shortcut, anywhere in the tree. */
  predicate ShortcutsDistinct(c: Command)
    decreases c
  {
    (forall o1, o2 :: o1 in c.options && o2 in c.options && o1 != o2 ==>
       c.options[o1].shortcut != c.options[o2].shortcut)
    && (forall k :: k in c.commands ==> ShortcutsDistinct(c.commands[k]))
  }

  /** The shape of the tree: `webpack` raises validate then compile and has one
      optional option `out` with shortcut `o`; `invoke` raises invoke and has no
      options; `watch` raises watch with `function` (required, `f`), `path` (`p`)
      and `data` (`d`); `serve` raises serve with `port` (`p`). */
  lemma TreeShape()
    ensures Tree.Keys == {"webpack"} && Tree["webpack"] == Webpack
    ensures Webpack.commands == map["invoke" := Invoke, "watch" := Watch, "serve" := Serve]
    ensures Webpack.lifecycleEvents == ["validate", "compile"]
    ensures Webpack.options.Keys == {"out"} && Webpack.options["out"].shortcut == "o" && !Webpack.options["out"].required
    ensures Webpack.commands.Keys == {"invoke", "watch", "serve"}
    ensures Invoke.lifecycleEvents == ["invoke"] && Invoke.options == map[]
    ensures Watch.lifecycleEvents == ["watch"]
    ensures Watch.options.Keys == {"function", "path", "data"}
    ensures Watch.options["function"].shortcut == "f" && Watch.options["function"].required
    ensures Watch.options["path"].shortcut == "p"
    ensures Watch.options["data"].shortcut == "d"
    ensures Serve.lifecycleEvents == ["serve"]
    ensures Serve.options.Keys == {"port"} && Serve.options["port"].shortcut == "p"
    ensures forall k :: k in Webpack.commands ==> Webpack.commands[k].commands == map[]
  {
  }

  /** A command with one lifecycle event and no sub-commands raises one hook. */
  lemma LeafRaises(path: string, c: Command, e: string, name: string)
    requires c.lifecycleEvents == [e] && c.commands == map[]
    ensures RaisesHook(path, c, name) <==> name == path + ":" + e
  {
    assert forall x :: x in c.lifecycleEvents <==> x == e;
  }

  /** A command with no required option and no sub-commands requires nothing. */
  lemma LeafRequiresNothing(path: string, c: Command, command: string, option: string)
    requires c.commands == map[]
    requires forall o :: o in c.options ==> !c.options[o].required
    ensures !RequiresOption(path, c, command, option)
  {
  }

  /** The tree raises exactly five hooks. */
  lemma {:induction false} TreeHookNames(name: string)
    ensures RaisesHook("webpack", Webpack, name) <==>
      name in {"webpack:validate", "webpack:compile", "webpack:invoke:invoke", "webpack:watch:watch", "webpack:serve:serve"}
  {
    assert "webpack" + ":" + "validate" == "webpack:validate";
    assert "webpack" + ":" + "compile" == "webpack:compile";
    assert "webpack" + ":" + "invoke" + ":" + "invoke" == "webpack:invoke:invoke";
    assert "webpack" + ":" + "watch" + ":" + "watch" == "webpack:watch:watch";
    assert "webpack" + ":" + "serve" + ":" + "serve" == "webpack:serve:serve";
    assert forall e :: e in Webpack.lifecycleEvents <==> e == "validate" || e == "compile";
    assert forall k :: k in Webpack.commands <==> k == "invoke" || k == "watch" || k == "serve";
    assert Webpack.commands["invoke"] == Invoke && Webpack.commands["watch"] == Watch && Webpack.commands["serve"] == Serve;
    LeafRaises("webpack" + ":" + "invoke", Invoke, "invoke", name);
    LeafRaises("webpack" + ":" + "watch", Watch, "watch", name);
    LeafRaises("webpack" + ":" + "serve", Serve, "serve", name);
  }

  /** `watch.function` is the only required option in the tree. */
  lemma {:induction false} OnlyRequiredOption(command: string, option: string)
    ensures RequiresOption("webpack", Webpack, command, option) <==> command == "webpack:watch" && option == "function"
  {
    assert "webpack" + ":" + "watch" == "webpack:watch";
    assert forall k :: k in Webpack.commands <==> k == "invoke" || k == "watch" || k == "serve";
    assert Webpack.commands["invoke"] == Invoke && Webpack.commands["watch"] == Watch && Webpack.commands["serve"] == Serve;
    LeafRequiresNothing("webpack" + ":" + "invoke", Invoke, command, option);
    LeafRequiresNothing("webpack" + ":" + "serve", Serve, command, option);
    assert RequiresOption("webpack:watch", Watch, command, option) <==> command == "webpack:watch" && option == "function" by {
      assert forall o :: o in Watch.options && Watch.options[o].required <==> o == "function";
    }
  }

  /** Shortcuts never clash within one command (`watch.path` and `serve.port`
      share `p` but belong to different commands). */
  lemma TreeShortcutsDistinct()
    ensures ShortcutsDistinct(Webpack)
  {
  }
}
