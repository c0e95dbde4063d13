/**
 * `main.py`: every class defined in a module of the resources package is
 * instantiated with the shared sub-command parser, and every handler that claims
 * the resource verb is called with the parsed arguments.
 */
module Cli {
  import opened Wrappers
  import opened Aws
  import opened Args
  import Ec2
  import Rds
  import Vpc

  datatype HandlerKind = EC2 | RDS | VPC

  /** A class found by `inspect.getmembers(module, inspect.isclass)`. */
  datatype ClassKind = Handler(kind: HandlerKind) | ResourceBase | ClientBase

  /** A class as seen from a module: its name there, its `__module__`, and what it is. */
  datatype ClassInfo = ClassInfo(name: string, moduleName: string, role: ClassKind)

  /** A module of the resources package and the classes it holds, defined or imported, in `getmembers` order. */
  datatype ModuleInfo = ModuleInfo(name: string, classes: seq<ClassInfo>)

  /** `if handler.__module__ == module.__name__`: the classes the module defines itself. */
  function OwnClasses(m: ModuleInfo): (r: seq<ClassInfo>)
    ensures forall c :: c in r <==> c in m.classes && c.moduleName == m.name
    ensures |r| <= |m.classes|
  {
    DefinedIn(m.name, m.classes)
  }

  function DefinedIn(name: string, classes: seq<ClassInfo>): (r: seq<ClassInfo>)
    ensures forall c :: c in r <==> c in classes && c.moduleName == name
    ensures |r| <= |classes|
  {
    if classes == [] then []
    else
      var rest := DefinedIn(name, classes[1..]);
      if classes[0].moduleName == name then [classes[0]] + rest else rest
  }

  /** Filtering keeps `getmembers` order: the own classes of two runs of classes are each run's, in turn. */
  lemma {:induction false} DefinedInAppend(name: string, a: seq<ClassInfo>, b: seq<ClassInfo>)
    ensures DefinedIn(name, a + b) == DefinedIn(name, a) + DefinedIn(name, b)
  {
    if a != [] {
      assert (a + b)[0] == a[0];
      assert (a + b)[1..] == a[1..] + b;
      DefinedInAppend(name, a[1..], b);
    } else {
      assert a + b == b;
    }
  }

  /** One class is kept, once, exactly when the module defines it. */
  lemma DefinedInOne(name: string, c: ClassInfo)
    ensures DefinedIn(name, [c]) == if c.moduleName == name then [c] else []
  {
    assert [c][1..] == [];
  }

  /** The classes the comprehension instantiates, module by module. */
  function Discovered(modules: seq<ModuleInfo>): seq<ClassInfo> {
    if modules == [] then [] else OwnClasses(modules[0]) + Discovered(modules[1..])
  }

  /** The discovered classes are handlers; their constructors take the parser. */
  predicate Instantiable(classes: seq<ClassInfo>) {
    forall i :: 0 <= i < |classes| ==> classes[i].role.Handler?
  }

  function Kinds(classes: seq<ClassInfo>): (r: seq<HandlerKind>)
    requires Instantiable(classes)
    ensures |r| == |classes|
    ensures forall i :: 0 <= i < |r| ==> r[i] == classes[i].role.kind
  {
    seq(|classes|, i requires 0 <= i < |classes| => classes[i].role.kind)
  }

  /** What a handler's constructor adds to the shared parser. */
  function RegistrationOf(kind: HandlerKind): Registration {
    match kind
    case EC2 => Registration(Ec2.Command, Ec2.Operations)
    case RDS => Registration(Rds.Command, Rds.Operations)
    case VPC => Registration(Vpc.Command, Vpc.Operations)
  }

  function Registrations(kinds: seq<HandlerKind>): (r: seq<Registration>)
    ensures |r| == |kinds|
    ensures forall i :: 0 <= i < |r| ==> r[i] == RegistrationOf(kinds[i])
  {
    seq(|kinds|, i requires 0 <= i < |kinds| => RegistrationOf(kinds[i]))
  }

  /** `handler(resource_parser)`: the constructor registers its commands with the shared parser. */
  method Instantiate(kind: HandlerKind, parser: SubParsers) returns (h: HandlerKind)
    modifies parser
    ensures h == kind
    ensures parser.registered == old(parser.registered) + [RegistrationOf(kind)]
  {
    parser.AddParser(RegistrationOf(kind));
    h := kind;
  }

  /**
   * Builds `handlers`: each class a module defines is instantiated once, in module
   * order and then member order; imported classes are skipped.
   */
  method Discover(modules: seq<ModuleInfo>, parser: SubParsers) returns (handlers: seq<HandlerKind>)
    requires Instantiable(Discovered(modules))
    modifies parser
    ensures handlers == Kinds(Discovered(modules))
    ensures parser.registered == old(parser.registered) + Registrations(handlers)
  {
    var classes := Discovered(modules);
    handlers := [];
    for i := 0 to |classes|
      invariant handlers == Kinds(classes[..i])
      invariant parser.registered == old(parser.registered) + Registrations(handlers)
    {
      var h := Instantiate(classes[i].role.kind, parser);
      handlers := handlers + [h];
    }
    assert classes[..|classes|] == classes;
  }

  // ----- dispatch -----

  /** `handler.can_parse(command)`. */
  predicate Claims(kind: HandlerKind, command: string) {
    match kind
    case EC2 => Ec2.CanParse(command)
    case RDS => Rds.CanParse(command)
    case VPC => Vpc.CanParse(command)
  }

  /** `handler(args)`: the handler's `__call__` with the arguments as parsed. */
  function InvokeRun(kind: HandlerKind, args: Namespace, cloud: Cloud): Run {
    match kind
    case EC2 => Ec2.CallRun(args, cloud)
    case RDS => Rds.CallRun(args, cloud)
    case VPC => Vpc.CallRun(args, cloud)
  }

  /**
   * The loop over `handlers`. A missing resource verb is `None`, whose `lower()`
   * raises at the first handler asked.
   */
  function DispatchRun(handlers: seq<HandlerKind>, args: Namespace, cloud: Cloud): (r: Run)
    ensures handlers == [] ==> r == Run([], None)
    ensures handlers != [] && args.command.None? ==> r == Run([], Some(NoResource))
    ensures r.failure.Some? && args.command.Some? ==> exists h :: h in handlers && Claims(h, args.command.value)
  {
    if handlers == [] then Run([], None)
    else if args.command.None? then Run([], Some(NoResource))
    else if Claims(handlers[0], args.command.value) then
      Then(InvokeRun(handlers[0], args, cloud), DispatchRun(handlers[1..], args, cloud))
    else DispatchRun(handlers[1..], args, cloud)
  }

  /** The handlers that claim `command`, in discovery order. */
  function Claimants(handlers: seq<HandlerKind>, command: string): (r: seq<HandlerKind>)
    ensures |r| <= |handlers|
    ensures forall h :: h in r <==> h in handlers && Claims(h, command)
  {
    if handlers == [] then []
    else if Claims(handlers[0], command) then [handlers[0]] + Claimants(handlers[1..], command)
    else Claimants(handlers[1..], command)
  }

  /** Filtering keeps discovery order: the claimants of two runs of handlers are each run's, in turn. */
  lemma {:induction false} ClaimantsAppend(a: seq<HandlerKind>, b: seq<HandlerKind>, command: string)
    ensures Claimants(a + b, command) == Claimants(a, command) + Claimants(b, command)
  {
    if a != [] {
      assert (a + b)[0] == a[0];
      assert (a + b)[1..] == a[1..] + b;
      ClaimantsAppend(a[1..], b, command);
    } else {
      assert a + b == b;
    }
  }

  /** One handler is a claimant, once, exactly when it claims the verb. */
  lemma ClaimantsOne(h: HandlerKind, command: string)
    ensures Claimants([h], command) == if Claims(h, command) then [h] else []
  {
    assert [h][1..] == [];
  }

  /** Each of `kinds` called in turn with the same arguments, until one raises. */
  function InvokeAll(kinds: seq<HandlerKind>, args: Namespace, cloud: Cloud): Run {
    if kinds == [] then Run([], None)
    else Then(InvokeRun(kinds[0], args, cloud), InvokeAll(kinds[1..], args, cloud))
  }

  /** Calling two runs of handlers is calling the first run, then, unless it raised, the second. */
  lemma {:induction false} InvokeAllAppend(a: seq<HandlerKind>, b: seq<HandlerKind>, args: Namespace, cloud: Cloud)
    ensures InvokeAll(a + b, args, cloud) == Then(InvokeAll(a, args, cloud), InvokeAll(b, args, cloud))
  {
    if a != [] {
      assert (a + b)[0] == a[0];
      assert (a + b)[1..] == a[1..] + b;
      InvokeAllAppend(a[1..], b, args, cloud);
      ThenAssoc(InvokeRun(a[0], args, cloud), InvokeAll(a[1..], args, cloud), InvokeAll(b, args, cloud));
    } else {
      assert a + b == b;
    }
  }

  /**
   * Dispatch calls exactly the claiming handlers, in discovery order, each once and
   * with the arguments unchanged (`ClaimantsAppend` and `ClaimantsOne` fix that
   * list; `InvokeAllAppend` runs it in turn).
   */
  lemma {:induction false} DispatchCallsClaimants(handlers: seq<HandlerKind>, args: Namespace, cloud: Cloud)
    requires args.command.Some?
    ensures DispatchRun(handlers, args, cloud) == InvokeAll(Claimants(handlers, args.command.value), args, cloud)
  {
    if handlers != [] {
      DispatchCallsClaimants(handlers[1..], args, cloud);
    }
  }

  /** When no handler claims the verb nothing runs, and nothing is raised. */
  lemma {:induction false} NoClaimantNoRun(handlers: seq<HandlerKind>, args: Namespace, cloud: Cloud)
    requires args.command.Some?
    requires forall h :: h in handlers ==> !Claims(h, args.command.value)
    ensures DispatchRun(handlers, args, cloud) == Run([], None)
  {
    if handlers != [] {
      assert !Claims(handlers[0], args.command.value);
      NoClaimantNoRun(handlers[1..], args, cloud);
    }
  }

  /** One step of the dispatch loop: the first handler is called when it claims the verb. */
  lemma DispatchStep(handlers: seq<HandlerKind>, args: Namespace, cloud: Cloud)
    requires handlers != [] && args.command.Some?
    ensures DispatchRun(handlers, args, cloud) ==
      if Claims(handlers[0], args.command.value)
      then Then(InvokeRun(handlers[0], args, cloud), DispatchRun(handlers[1..], args, cloud))
      else DispatchRun(handlers[1..], args, cloud)
  {
  }

  /** The dispatch loop of the entry point. */
  method Dispatch(handlers: seq<HandlerKind>, args: Namespace, cloud: Cloud) returns (run: Run)
    ensures run == DispatchRun(handlers, args, cloud)
  {
    var effects: seq<Effect> := [];
    var i := 0;
    while i < |handlers|
      invariant 0 <= i <= |handlers|
      invariant DispatchRun(handlers, args, cloud) == Then(Run(effects, None), DispatchRun(handlers[i..], args, cloud))
    {
      if args.command.None? {
        assert effects + [] == effects;
        return Run(effects, Some(NoResource));
      }
      DispatchStep(handlers[i..], args, cloud);
      assert handlers[i..][0] == handlers[i] && handlers[i..][1..] == handlers[i + 1..];
      if Claims(handlers[i], args.command.value) {
        var r := Invoke(handlers[i], args, cloud);
        ThenAssoc(Run(effects, None), r, DispatchRun(handlers[i + 1..], args, cloud));
        if r.failure.Some? {
          return Run(effects + r.effects, r.failure);
        }
        effects := effects + r.effects;
      }
      i := i + 1;
    }
    run := Run(effects, None);
  }

  method Invoke(kind: HandlerKind, args: Namespace, cloud: Cloud) returns (run: Run)
    ensures run == InvokeRun(kind, args, cloud)
  {
    match kind
    case EC2 => run := Ec2.Call(args, cloud);
    case RDS => run := Rds.Call(args, cloud);
    case VPC => run := Vpc.Call(args, cloud);
  }

  /** The whole program after argument parsing: discovery, then dispatch. */
  method Program(modules: seq<ModuleInfo>, args: Namespace, cloud: Cloud)
    returns (parser: SubParsers, handlers: seq<HandlerKind>, run: Run)
    requires Instantiable(Discovered(modules))
    ensures handlers == Kinds(Discovered(modules))
    ensures parser.registered == Registrations(handlers)
    ensures run == DispatchRun(handlers, args, cloud)
  {
    parser := new SubParsers();
    handlers := Discover(modules, parser);
    run := Dispatch(handlers, args, cloud);
  }

  // ----- the repository's own resources package -----

  /** The package's modules in `iter_modules` order, each with its classes in `getmembers` (name) order. */
  function PackageModules(): seq<ModuleInfo> {
    [ ModuleInfo("resources.ec2", [ClassInfo("EC2", "resources.ec2", Handler(EC2)),
                                   ClassInfo("Resource", "service_base", ResourceBase)]),
      ModuleInfo("resources.rds", [ClassInfo("Client", "service_base", ClientBase),
                                   ClassInfo("RDS", "resources.rds", Handler(RDS))]),
      ModuleInfo("resources.vpc", [ClassInfo("Resource", "service_base", ResourceBase),
                                   ClassInfo("VPC", "resources.vpc", Handler(VPC))]) ]
  }

  /** The package yields one handler per module; the imported base classes are excluded. */
  lemma PackageHandlers()
    ensures Instantiable(Discovered(PackageModules()))
    ensures Kinds(Discovered(PackageModules())) == [EC2, RDS, VPC]
  {
    var ms := PackageModules();
    var ec2 := ClassInfo("EC2", "resources.ec2", Handler(EC2));
    var rds := ClassInfo("RDS", "resources.rds", Handler(RDS));
    var vpc := ClassInfo("VPC", "resources.vpc", Handler(VPC));
    assert OwnClasses(ms[0]) == [ec2];
    assert OwnClasses(ms[1]) == [rds];
    assert OwnClasses(ms[2]) == [vpc];
    assert Discovered(ms[3..]) == [];
    assert Discovered(ms[2..]) == [vpc];
    assert Discovered(ms[1..]) == [rds, vpc];
    assert Discovered(ms) == [ec2, rds, vpc];
  }

  /**
   * `subnet` is claimed by none of the package's handlers, so the dispatch loop
   * calls nothing for it. (No `subnet` sub-command is ever registered, so on the
   * command line argument parsing already rejects the verb before dispatch.)
   */
  lemma SubnetNeverDispatched(args: Namespace, cloud: Cloud)
    requires args.command == Some("subnet")
    ensures DispatchRun([EC2, RDS, VPC], args, cloud) == Run([], None)
  {
    Ec2.CanParseIff("subnet");
    Rds.CanParseIff("subnet");
    Vpc.CanParseIff("subnet");
    NoClaimantNoRun([EC2, RDS, VPC], args, cloud);
  }

  /** Each verb of the package is claimed by exactly one of its handlers. */
  lemma OneClaimantPerVerb(command: string)
    ensures Claims(EC2, command) ==> !Claims(RDS, command) && !Claims(VPC, command)
    ensures Claims(RDS, command) ==> !Claims(VPC, command)
  {
  }
}
