/**
 * Capability discovery: at start-up the drive subsystem probes an ordered list
 * of locations for a vendor-generated drivetrain class and another for an
 * autonomous-command builder. Importing a location and looking a symbol up
 * are replaced by closed outcomes, one per candidate location.
 */
module Discovery {
  import opened Results

  /** A vendor-generated drivetrain object, described by the optional
      operations it exposes as callables: `drive(x, y, rotation, fieldOriented)`
      and `get_autonomous_command()`. */
  datatype Drivetrain = Drivetrain(hasDrive: bool, hasAutonomousGetter: bool)

  /** A discovered autonomous-command builder, identified by where it was found. */
  datatype Factory = Factory(moduleName: string, functionName: string)

  /** What importing one candidate location and looking up its symbol yields. */
  datatype Lookup<S> = ModuleMissing | SymbolMissing | Resolved(symbol: S)

  /** What calling a resolved drivetrain symbol with no arguments does. Calling
      a symbol that is not callable raises a `TypeError` naming the symbol's
      type, like a failing constructor. */
  datatype DrivetrainClass = NotCallable(typeName: string) | Constructs(drivetrain: Drivetrain) | ConstructFails(reason: string)

  /** Whether a resolved builder symbol is callable. */
  datatype FactorySymbol = Uncallable | Callable

  /** Where a generated drivetrain class may live, in the order they are tried. */
  const DrivetrainCandidates: seq<(string, string)> := [
    ("generated.command_swerve_drivetrain", "CommandSwerveDrivetrain"),
    ("subsystems.command_swerve_drivetrain", "CommandSwerveDrivetrain"),
    ("command_swerve_drivetrain", "CommandSwerveDrivetrain")
  ]

  /** Where an autonomous-command builder may live, in the order they are tried. */
  const FactoryCandidates: seq<(string, string)> := [
    ("subsystems.tuner_autonomous", "build_autonomous_command"),
    ("generated.tuner_autonomous", "build_autonomous_command"),
    ("tuner_autonomous", "build_autonomous_command")
  ]

  /** The first candidate whose symbol resolves, or |lookups| when none does. */
  function FirstResolved<S>(lookups: seq<Lookup<S>>, from: nat := 0): (k: nat)
    requires from <= |lookups|
    ensures from <= k <= |lookups|
    ensures forall j :: from <= j < k ==> !lookups[j].Resolved?
    ensures k < |lookups| ==> lookups[k].Resolved?
    decreases |lookups| - from
  {
    if from == |lookups| then from
    else if lookups[from].Resolved? then from
    else FirstResolved(lookups, from + 1)
  }

  /** The first candidate that resolves to a callable builder, or |lookups|. */
  function FirstCallable(lookups: seq<Lookup<FactorySymbol>>, from: nat := 0): (k: nat)
    requires from <= |lookups|
    ensures from <= k <= |lookups|
    ensures forall j :: from <= j < k ==> lookups[j] != Resolved(Callable)
    ensures k < |lookups| ==> lookups[k] == Resolved(Callable)
    decreases |lookups| - from
  {
    if from == |lookups| then from
    else if lookups[from] == Resolved(Callable) then from
    else FirstCallable(lookups, from + 1)
  }

  /** The message of the `TypeError` raised by calling an object of the given type. */
  function NotCallableMessage(typeName: string): string
  {
    "'" + typeName + "' object is not callable"
  }

  /** Why constructing a resolved drivetrain symbol failed. */
  function FailureReason(c: DrivetrainClass): string
    requires !c.Constructs?
  {
    if c.NotCallable? then NotCallableMessage(c.typeName) else c.reason
  }

  /** Candidate k is the first whose symbol resolves. */
  predicate FirstResolvedAt<S>(lookups: seq<Lookup<S>>, k: int)
  {
    0 <= k < |lookups| && lookups[k].Resolved? && forall j :: 0 <= j < k ==> !lookups[j].Resolved?
  }

  /** Candidate k is the first that resolves to a callable builder. */
  predicate FirstCallableAt(lookups: seq<Lookup<FactorySymbol>>, k: int)
  {
    0 <= k < |lookups| && lookups[k] == Resolved(Callable) && forall j :: 0 <= j < k ==> lookups[j] != Resolved(Callable)
  }

  /** The warning reported when the symbol of candidate k resolved but could not be constructed. */
  function ConstructionWarning(k: nat, reason: string): string
    requires k < |DrivetrainCandidates|
  {
    "Found " + DrivetrainCandidates[k].0 + "." + DrivetrainCandidates[k].1
    + " but failed to construct it: " + reason
  }

  /** What drivetrain discovery yields: the first candidate that resolves is
      the only one constructed; a construction failure ends the search with a
      warning and no drivetrain; no resolving candidate means no drivetrain. */
  function DrivetrainDiscovery(lookups: seq<Lookup<DrivetrainClass>>): (r: (Option<Drivetrain>, Option<string>))
    requires |lookups| == |DrivetrainCandidates|
    ensures r.0.Some? ==> r.1 == None
    ensures r.0.Some? <==> exists k :: FirstResolvedAt(lookups, k) && lookups[k].symbol.Constructs?
    ensures r.0.Some? ==> exists k :: FirstResolvedAt(lookups, k) && lookups[k].symbol == Constructs(r.0.value)
    ensures r.1.Some? <==> exists k :: FirstResolvedAt(lookups, k) && !lookups[k].symbol.Constructs?
    ensures r.1.Some? ==> exists k :: FirstResolvedAt(lookups, k) && !lookups[k].symbol.Constructs?
                                      && r.1.value == ConstructionWarning(k, FailureReason(lookups[k].symbol))
    ensures (forall k :: 0 <= k < |lookups| ==> !lookups[k].Resolved?) ==> r == (None, None)
  {
    var k := FirstResolved(lookups);
    assert k < |lookups| ==> FirstResolvedAt(lookups, k);
    if k == |lookups| then (None, None)
    else match lookups[k].symbol
      case Constructs(d) => (Some(d), None)
      case NotCallable(typeName) => (None, Some(ConstructionWarning(k, NotCallableMessage(typeName))))
      case ConstructFails(reason) => (None, Some(ConstructionWarning(k, reason)))
  }

  /** What builder discovery yields: the first candidate that resolves to a
      callable, identified by its location. */
  function FactoryDiscovery(lookups: seq<Lookup<FactorySymbol>>): (factory: Option<Factory>)
    requires |lookups| == |FactoryCandidates|
    ensures factory.Some? <==> exists k :: 0 <= k < |lookups| && lookups[k] == Resolved(Callable)
    ensures factory.Some? ==> exists k :: FirstCallableAt(lookups, k)
                                         && factory.value == Factory(FactoryCandidates[k].0, FactoryCandidates[k].1)
    ensures factory.Some? ==> factory.value.functionName == "build_autonomous_command"
  {
    var k := FirstCallable(lookups);
    assert k < |lookups| ==> FirstCallableAt(lookups, k);
    if k == |lookups| then None
    else Some(Factory(FactoryCandidates[k].0, FactoryCandidates[k].1))
  }

  /** Probes the drivetrain candidates in order, stopping at the first one
      whose symbol resolves. */
  method TryCreateTunerDrivetrain(lookups: seq<Lookup<DrivetrainClass>>)
    returns (found: Option<Drivetrain>, warning: Option<string>)
    requires |lookups| == |DrivetrainCandidates|
    ensures (found, warning) == DrivetrainDiscovery(lookups)
  {
    var i := 0;
    while i < |lookups|
      invariant 0 <= i <= |lookups|
      invariant forall j :: 0 <= j < i ==> !lookups[j].Resolved?
    {
      match lookups[i] {
        case ModuleMissing =>
        case SymbolMissing =>
        case Resolved(cls) =>
          match cls {
            case Constructs(d) =>
              return Some(d), None;
            case NotCallable(typeName) =>
              return None, Some(ConstructionWarning(i, NotCallableMessage(typeName)));
            case ConstructFails(r) =>
              return None, Some(ConstructionWarning(i, r));
          }
      }
      i := i + 1;
    }
    return None, None;
  }

  /** Probes the builder candidates in order: missing locations, missing
      symbols and symbols that are not callable are skipped silently. */
  method TryCreateTunerAutoFactory(lookups: seq<Lookup<FactorySymbol>>)
    returns (factory: Option<Factory>)
    requires |lookups| == |FactoryCandidates|
    ensures factory == FactoryDiscovery(lookups)
  {
    var i := 0;
    while i < |lookups|
      invariant 0 <= i <= |lookups|
      invariant forall j :: 0 <= j < i ==> lookups[j] != Resolved(Callable)
    {
      if lookups[i] == Resolved(Callable) {
        return Some(Factory(FactoryCandidates[i].0, FactoryCandidates[i].1));
      }
      i := i + 1;
    }
    return None;
  }

  /** First match wins: once a candidate resolves, what lies after it is never
      consulted, even when constructing that candidate fails. */
  lemma {:induction false} LaterCandidatesIgnored<S>(lookups: seq<Lookup<S>>, other: seq<Lookup<S>>, from: nat)
    requires from <= |lookups| == |other|
    requires FirstResolved(lookups, from) < |lookups|
    requires forall j :: from <= j <= FirstResolved(lookups, from) ==> other[j] == lookups[j]
    ensures FirstResolved(other, from) == FirstResolved(lookups, from)
    decreases |lookups| - from
  {
    if !lookups[from].Resolved? {
      LaterCandidatesIgnored(lookups, other, from + 1);
    }
  }

  /** First match wins for builders too: candidates after the first callable
      one are never consulted. */
  lemma {:induction false} LaterFactoryCandidatesIgnored(lookups: seq<Lookup<FactorySymbol>>, other: seq<Lookup<FactorySymbol>>, from: nat)
    requires from <= |lookups| == |other|
    requires FirstCallable(lookups, from) < |lookups|
    requires forall j :: from <= j <= FirstCallable(lookups, from) ==> other[j] == lookups[j]
    ensures FirstCallable(other, from) == FirstCallable(lookups, from)
    decreases |lookups| - from
  {
    if lookups[from] != Resolved(Callable) {
      LaterFactoryCandidatesIgnored(lookups, other, from + 1);
    }
  }

  /** A construction failure is final: whatever the later candidates would
      have yielded, discovery reports the failure and finds no drivetrain. */
  lemma ConstructionFailureStopsSearch(lookups: seq<Lookup<DrivetrainClass>>, other: seq<Lookup<DrivetrainClass>>, k: nat)
    requires |lookups| == |other| == |DrivetrainCandidates|
    requires k < |lookups| && lookups[k].Resolved? && !lookups[k].symbol.Constructs?
    requires forall j :: 0 <= j < k ==> !lookups[j].Resolved?
    requires forall j :: 0 <= j <= k ==> other[j] == lookups[j]
    ensures DrivetrainDiscovery(other) == DrivetrainDiscovery(lookups)
            == (None, Some(ConstructionWarning(k, FailureReason(lookups[k].symbol))))
  {
    LaterCandidatesIgnored(lookups, other, 0);
  }

  /** First match wins: a drivetrain class that constructs at the first
      location is the drivetrain found; nothing resolving anywhere means no
      drivetrain and no warning; a symbol that is not callable at the second
      location ends the search with a warning, although the third constructs. */
  lemma FirstLocationWins(d: Drivetrain, rest: seq<Lookup<DrivetrainClass>>)
    requires |rest| == |DrivetrainCandidates| - 1
    ensures DrivetrainDiscovery([Resolved(Constructs(d))] + rest) == (Some(d), None)
    ensures DrivetrainDiscovery([ModuleMissing, SymbolMissing, ModuleMissing]) == (None, None)
    ensures DrivetrainDiscovery([SymbolMissing, Resolved(NotCallable("module")), Resolved(Constructs(d))])
            == (None, Some(ConstructionWarning(1, NotCallableMessage("module"))))
  {
    var l := [SymbolMissing, Resolved(NotCallable("module")), Resolved(Constructs(d))];
    assert FirstResolved(l) == 1 by {
      assert !l[0].Resolved? && l[1].Resolved?;
    }
  }

  /** The stub builder of the repository resolves at the first location, so
      it is the one found whatever the other locations hold. */
  lemma StubBuilderFoundFirst(lookups: seq<Lookup<FactorySymbol>>)
    requires |lookups| == |FactoryCandidates| && lookups[0] == Resolved(Callable)
    ensures FactoryDiscovery(lookups) == Some(Factory("subsystems.tuner_autonomous", "build_autonomous_command"))
  {
  }
}
