/** Command handler classes and their registration. Every class created with
    `CommandHandlerMetaclass` (`CommandHandler` and its subclasses) passes through
    the metaclass, which appends it to the module-level list `REGISTERED_HANDLERS`
    when its own class body binds a truthy `command`. A class is modelled by its
    name, its base and its class-body namespace; single inheritance only. */
module Command {
  import opened Wrappers

  /** The Python values a handler class body binds that matter here. */
  datatype Value =
    | NoneValue
    | Str(s: string)
    | Function(qualname: string, isAbstract: bool)
    | Object(name: string)  // any other object, e.g. a message filter

  /** Python truthiness of those values. */
  predicate Truthy(v: Value)
  {
    match v
    case NoneValue => false
    case Str(s) => s != ""
    case _ => true
  }

  /** The `dct` the metaclass receives: the names the class body binds. */
  type Namespace = map<string, Value>

  /** A class created through the metaclass. `base` is None for `CommandHandler`
      itself, whose bases are the library's. */
  datatype HandlerClass = HandlerClass(name: string, base: Option<HandlerClass>, dct: Namespace)

  /** `'command' in dct and dct['command']`. */
  predicate Registers(dct: Namespace)
  {
    "command" in dct && Truthy(dct["command"])
  }

  /** The registry after the metaclass has seen `cls`. */
  function Register(handlers: seq<HandlerClass>, cls: HandlerClass): seq<HandlerClass>
  {
    handlers + (if Registers(cls.dct) then [cls] else [])
  }

  /** The registry after the metaclass has seen each of `classes`, in order. */
  function RegisterAll(handlers: seq<HandlerClass>, classes: seq<HandlerClass>): seq<HandlerClass>
    decreases classes
  {
    if classes == [] then handlers
    else RegisterAll(Register(handlers, classes[0]), classes[1..])
  }

  /** Attribute look-up on a class: its own body first, then its base. */
  function LookUp(cls: HandlerClass, attr: string): Option<Value>
  {
    if attr in cls.dct then Some(cls.dct[attr])
    else match cls.base
      case None => None
      case Some(b) => LookUp(b, attr)
  }

  /** The body of `CommandHandler`: `command = None`, `filters = None` and the
      abstract `callback`. */
  const BaseNamespace: Namespace := map[
    "command" := NoneValue,
    "filters" := NoneValue,
    "callback" := Function("CommandHandler.callback", true)
  ]

  const BaseClass: HandlerClass := HandlerClass("CommandHandler", None, BaseNamespace)

  /** `CommandHandler` or a class derived from it. */
  predicate Subclass(cls: HandlerClass)
  {
    if cls.base.None? then cls == BaseClass else Subclass(cls.base.value)
  }

  /** `REGISTERED_HANDLERS`. */
  class Registry {
    var handlers: seq<HandlerClass>

    constructor ()
      ensures handlers == []
    {
      handlers := [];
    }
  }

  const UnboundRegistry: PyException := PyException("NameError", "name 'REGISTERED_HANDLERS' is not defined")

  /** `CommandHandlerMetaclass.__new__`: creates the class, appends it to the
      registry when its own body binds a truthy `command`, and returns it either way.
      `registry` is null while the module-level name is not bound yet: the class
      statement of `CommandHandler` runs before `REGISTERED_HANDLERS = []`, and only
      a class that has to be appended then fails. */
  method CreateClass(name: string, base: Option<HandlerClass>, dct: Namespace, registry: Registry?)
    returns (created: Result<HandlerClass>)
    modifies registry
    ensures registry == null && Registers(dct) ==> created == Failure(UnboundRegistry)
    ensures registry != null || !Registers(dct) ==> created == Success(HandlerClass(name, base, dct))
    ensures registry != null ==> registry.handlers == Register(old(registry.handlers), HandlerClass(name, base, dct))
  {
    var newcls := HandlerClass(name, base, dct);
    if "command" in dct && Truthy(dct["command"]) {
      if registry == null {
        return Failure(UnboundRegistry);
      }
      registry.handlers := registry.handlers + [newcls];
    }
    created := Success(newcls);
  }

  /** What `CommandHandler.__init__` passes to the library's `CommandHandler`:
      `self.command`, the bound `self.callback`, `filters=self.filters` and
      `run_async=False`. */
  datatype LibraryHandler = LibraryHandler(command: Value, callback: Value, filters: Value, runAsync: bool)

  function MissingAttribute(cls: HandlerClass, attr: string): PyException
  {
    PyException("AttributeError", "'" + cls.name + "' object has no attribute '" + attr + "'")
  }

  /** The Python type name of a value, as error messages print it; `self.callback`
      and any other function read through an instance is a bound `method`. */
  function TypeName(v: Value): string
  {
    match v
    case NoneValue => "NoneType"
    case Str(_) => "str"
    case Function(_, _) => "method"
    case Object(name) => name
  }

  /** `cls()`. The metaclass creates classes with `type.__new__`, so `ABCMeta` never
      computes the abstract methods and the abstract `callback` is not enforced.
      `__init__` reads `command`, `callback` and `filters` through the class, and the
      library's `CommandHandler` iterates a `command` that is not a string, which
      raises `TypeError` for every other value here. */
  function Instantiate(cls: HandlerClass): (r: Result<LibraryHandler>)
  {
    if LookUp(cls, "command").None? then Failure(MissingAttribute(cls, "command"))
    else if LookUp(cls, "callback").None? then Failure(MissingAttribute(cls, "callback"))
    else if LookUp(cls, "filters").None? then Failure(MissingAttribute(cls, "filters"))
    else if !LookUp(cls, "command").value.Str? then
      Failure(PyException("TypeError", "'" + TypeName(LookUp(cls, "command").value) + "' object is not iterable"))
    else Success(LibraryHandler(LookUp(cls, "command").value, LookUp(cls, "callback").value,
                                LookUp(cls, "filters").value, false))
  }

  // ---------------------------------------------------------------------------
  //   Properties
  // ---------------------------------------------------------------------------

  /** Every class derived from `CommandHandler` finds `command`, `callback` and
      `filters`, in its own body or in a base. */
  lemma {:induction false} SubclassAttributes(cls: HandlerClass)
    requires Subclass(cls)
    ensures LookUp(cls, "command").Some? && LookUp(cls, "callback").Some? && LookUp(cls, "filters").Some?
  {
    if cls.base.Some? {
      SubclassAttributes(cls.base.value);
    }
  }

  /** A class derived from `CommandHandler` can be instantiated exactly when the
      `command` it finds is a string, and the library handler then gets the class's
      (own or inherited) `command`, `callback` and `filters`, with `run_async` off. */
  lemma InstantiateSubclass(cls: HandlerClass)
    requires Subclass(cls)
    ensures Instantiate(cls).Success? <==> LookUp(cls, "command").Some? && LookUp(cls, "command").value.Str?
    ensures Instantiate(cls).Success? ==>
      Some(Instantiate(cls).value.command) == LookUp(cls, "command") &&
      Some(Instantiate(cls).value.callback) == LookUp(cls, "callback") &&
      Some(Instantiate(cls).value.filters) == LookUp(cls, "filters") &&
      !Instantiate(cls).value.runAsync
  {
    SubclassAttributes(cls);
  }

  /** `CommandHandler` itself is never registered, and cannot be instantiated: the
      library refuses its `command = None`. */
  lemma BaseClassNotRegistered()
    ensures !Registers(BaseClass.dct)
    ensures Instantiate(BaseClass) == Failure(PyException("TypeError", "'NoneType' object is not iterable"))
  {
  }

  /** The abstract `callback` is not enforced: a subclass that binds a command and
      keeps the stub is instantiated, and the library handler gets the stub. */
  lemma AbstractCallbackNotEnforced(name: string, command: string)
    ensures Instantiate(HandlerClass(name, Some(BaseClass), map["command" := Str(command)])) ==
      Success(LibraryHandler(Str(command), Function("CommandHandler.callback", true), NoneValue, false))
  {
    var cls := HandlerClass(name, Some(BaseClass), map["command" := Str(command)]);
    assert LookUp(cls, "callback") == Some(Function("CommandHandler.callback", true));
    assert LookUp(cls, "filters") == Some(NoneValue);
  }

  /** A subclass that only inherits `command` is not registered, although its
      instances answer to the inherited command. */
  lemma InheritedCommandNotRegistered(name: string, base: HandlerClass, dct: Namespace)
    requires "command" !in dct
    ensures !Registers(dct)
    ensures LookUp(HandlerClass(name, Some(base), dct), "command") == LookUp(base, "command")
  {
  }

  /** Registration only appends: the earlier registry is a prefix of the later one,
      and a class is in the registry exactly when it was there before or is one
      of the new classes whose own body binds a truthy `command`. */
  lemma {:induction false} RegisterAllAppends(handlers: seq<HandlerClass>, classes: seq<HandlerClass>)
    ensures |handlers| <= |RegisterAll(handlers, classes)|
    ensures RegisterAll(handlers, classes)[..|handlers|] == handlers
    ensures forall c :: c in RegisterAll(handlers, classes) <==>
      c in handlers || (c in classes && Registers(c.dct))
    decreases classes
  {
    if classes != [] {
      var next := Register(handlers, classes[0]);
      RegisterAllAppends(next, classes[1..]);
      assert RegisterAll(handlers, classes)[..|handlers|] == next[..|next|][..|handlers|];
      assert classes == [classes[0]] + classes[1..];
    }
  }

  /** The registry lists the registered classes in the order they were created. */
  lemma {:induction false} RegisterAllOrder(handlers: seq<HandlerClass>, a: seq<HandlerClass>, b: seq<HandlerClass>)
    ensures RegisterAll(handlers, a + b) == RegisterAll(RegisterAll(handlers, a), b)
    decreases a
  {
    if a != [] {
      assert (a + b)[0] == a[0];
      assert (a + b)[1..] == a[1..] + b;
      RegisterAllOrder(Register(handlers, a[0]), a[1..], b);
    } else {
      assert a + b == b;
    }
  }

  /** Triggers are not checked for duplicates: two classes whose bodies bind the
      same command are both registered, in creation order. */
  lemma DuplicateTriggersBothRegistered(c1: HandlerClass, c2: HandlerClass)
    requires c1 != c2
    requires "command" in c1.dct && "command" in c2.dct && c1.dct["command"] == c2.dct["command"]
    requires Truthy(c1.dct["command"])
    ensures RegisterAll([], [c1, c2]) == [c1, c2]
  {
    assert Registers(c1.dct) && Registers(c2.dct);
    assert [c1, c2][1..] == [c2];
    assert Register([], c1) == [c1];
    assert RegisterAll([], [c1, c2]) == RegisterAll(Register([], [c1, c2][0]), [c1, c2][1..]);
    assert [c2][1..] == [];
    assert Register([c1], c2) == [c1, c2];
    assert RegisterAll([c1], [c2]) == RegisterAll(Register([c1], c2), []);
  }

  // ---------------------------------------------------------------------------
  //   Module execution
  // ---------------------------------------------------------------------------

  /** Importing `commands.command`: the class statement of `CommandHandler` runs
      through the metaclass before the registry exists, then the empty registry
      is bound. */
  method ImportCommandModule() returns (registry: Registry, base: HandlerClass)
    ensures fresh(registry) && registry.handlers == []
    ensures base == BaseClass
  {
    var created := CreateClass("CommandHandler", None, BaseNamespace, null);
    base := created.value;
    registry := new Registry();
  }
}
