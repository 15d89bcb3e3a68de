/** The `commands` package: importing it registers `GreetCommand`, and
    `load_handlers` gives the dispatcher one handler instance per registered
    class. The dispatcher is the library's; only its handler list (group 0, the
    one `add_handler` uses by default) is modelled. */
module Commands {
  import opened Wrappers
  import opened Command

  /** The handler list of a `telegram.ext.Dispatcher`. */
  class Dispatcher {
    var handlers: seq<LibraryHandler>

    constructor ()
      ensures handlers == []
    {
      handlers := [];
    }

    /** `add_handler(handler)`: appends to group 0. */
    method AddHandler(handler: LibraryHandler)
      modifies this
      ensures handlers == old(handlers) + [handler]
    {
      handlers := handlers + [handler];
    }
  }

  /** The handlers `load_handlers` adds before it stops, and how it ends. */
  datatype Loading = Loading(added: seq<LibraryHandler>, outcome: Outcome)

  /** `load_handlers` over the registry `classes`: each class is instantiated in
      turn; the first instantiation that raises ends the loop. */
  function Loaded(classes: seq<HandlerClass>): (l: Loading)
  {
    if classes == [] then Loading([], Pass)
    else
      var before := Loaded(classes[..|classes| - 1]);
      if before.outcome.Raise? then before
      else match Instantiate(classes[|classes| - 1])
        case Success(h) => Loading(before.added + [h], Pass)
        case Failure(e) => Loading(before.added, Raise(e))
  }

  /** `load_handlers(dispatcher)`: adds `handler()` for each registered class, in
      registry order; the registry itself is left as it is. */
  method LoadHandlers(dispatcher: Dispatcher, registry: Registry) returns (outcome: Outcome)
    modifies dispatcher
    ensures registry.handlers == old(registry.handlers)
    ensures dispatcher.handlers == old(dispatcher.handlers) + Loaded(registry.handlers).added
    ensures outcome == Loaded(registry.handlers).outcome
  {
    var classes := registry.handlers;
    ghost var added: seq<LibraryHandler> := [];
    var i := 0;
    while i < |classes|
      invariant 0 <= i <= |classes|
      invariant Loaded(classes[..i]) == Loading(added, Pass)
      invariant dispatcher.handlers == old(dispatcher.handlers) + added
    {
      assert classes[..i + 1][..i] == classes[..i];
      var handler := Instantiate(classes[i]);
      if handler.Failure? {
        assert classes[..i + 1] == classes[..i] + [classes[i]];
        LoadedStopped(classes, i + 1);
        return Raise(handler.error);
      }
      dispatcher.AddHandler(handler.value);
      added := added + [handler.value];
      i := i + 1;
    }
    assert classes[..i] == classes;
    outcome := Pass;
  }

  /** Once loading has raised, later classes change nothing. */
  lemma {:induction false} LoadedStopped(classes: seq<HandlerClass>, k: nat)
    requires k <= |classes|
    requires Loaded(classes[..k]).outcome.Raise?
    ensures Loaded(classes) == Loaded(classes[..k])
    decreases |classes| - k
  {
    if k < |classes| {
      assert classes[..k + 1][..k] == classes[..k];
      LoadedStopped(classes, k + 1);
    } else {
      assert classes[..k] == classes;
    }
  }

  /** What loading adds is the instances of a prefix of the registry, in registry
      order; it ends normally exactly when every class could be instantiated, and
      otherwise with the error of the first class that could not. */
  lemma {:induction false} LoadedPrefix(classes: seq<HandlerClass>)
    ensures var l := Loaded(classes);
      |l.added| <= |classes| &&
      (forall i :: 0 <= i < |l.added| ==> Instantiate(classes[i]) == Success(l.added[i])) &&
      (l.outcome.Pass? <==> forall i :: 0 <= i < |classes| ==> Instantiate(classes[i]).Success?) &&
      (l.outcome.Pass? ==> |l.added| == |classes|) &&
      (l.outcome.Raise? ==> |l.added| < |classes| && Instantiate(classes[|l.added|]) == Failure(l.outcome.error))
  {
    if classes != [] {
      var init := classes[..|classes| - 1];
      LoadedPrefix(init);
      assert forall i :: 0 <= i < |init| ==> init[i] == classes[i];
    }
  }

  /** With every registered class instantiable, the dispatcher gets exactly one
      handler per registry entry, in registry order; an empty registry adds none. */
  lemma LoadedAll(classes: seq<HandlerClass>)
    requires forall i :: 0 <= i < |classes| ==> Instantiate(classes[i]).Success?
    ensures Loaded(classes).outcome == Pass
    ensures |Loaded(classes).added| == |classes|
    ensures forall i :: 0 <= i < |classes| ==> Loaded(classes).added[i] == Instantiate(classes[i]).value
  {
    LoadedPrefix(classes);
  }

  // ---------------------------------------------------------------------------
  //   Importing the package
  // ---------------------------------------------------------------------------

  /** The body of `GreetCommand`: the command "greet" and its own callback. */
  const GreetNamespace: Namespace := map[
    "command" := Str("greet"),
    "callback" := Function("GreetCommand.callback", false)
  ]

  const GreetClass: HandlerClass := HandlerClass("GreetCommand", Some(BaseClass), GreetNamespace)

  /** The body of `StockCommand`: the command "stock", `run_spider` and its callback. */
  const StockNamespace: Namespace := map[
    "command" := Str("stock"),
    "run_spider" := Function("StockCommand.run_spider", false),
    "callback" := Function("StockCommand.callback", false)
  ]

  const StockClass: HandlerClass := HandlerClass("StockCommand", Some(BaseClass), StockNamespace)

  /** Importing `commands`: `commands.command`, then `commands.greet`, whose class
      statement registers `GreetCommand`. `commands.stock` is not imported here. */
  method ImportCommandsPackage() returns (registry: Registry)
    ensures fresh(registry)
    ensures registry.handlers == [GreetClass]
  {
    var base;
    registry, base := ImportCommandModule();
    var greet := CreateClass("GreetCommand", Some(base), GreetNamespace, registry);
  }

  /** Importing `commands.stock` from elsewhere registers `StockCommand` after
      whatever is registered already. */
  method ImportStockModule(registry: Registry)
    modifies registry
    ensures registry.handlers == old(registry.handlers) + [StockClass]
  {
    var stock := CreateClass("StockCommand", Some(BaseClass), StockNamespace, registry);
  }

  /** Loading the package's registry gives the dispatcher one handler: the greet
      command with its callback, no filter and `run_async` off. */
  lemma PackageHandlers()
    ensures Loaded([GreetClass]) ==
      Loading([LibraryHandler(Str("greet"), Function("GreetCommand.callback", false), NoneValue, false)], Pass)
  {
    assert [GreetClass][..0] == [];
    assert LookUp(GreetClass, "filters") == Some(NoneValue);
  }
}
