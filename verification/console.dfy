/** The console reconciler: five resources created or updated in a fixed order, and their clean-up. */
module Console {
  import opened Options

  datatype Kind = ConfigMap | Deployment | Service | ConsolePlugin | NetworkPolicy

  /** The parts of a resource the reconciler may set, and others such as an assigned cluster address. */
  datatype Part =
    Labels | Annotations | Data | Spec | SpecPorts | SpecSelector | SpecType | Owners | Other(name: string)

  type Resource = map<Part, string>

  /** The plugin's resources in the cluster, by kind: each has one fixed name. */
  type Store = map<Kind, Resource>

  /** What the reconciler wants, computed from its image, its namespace and the owner reference. */
  datatype Wanted = Wanted(labels: string, config: string, deploymentSpec: string, serviceAnnotations: string,
                           ports: string, selector: string, serviceType: string, pluginSpec: string, policySpec: string,
                           owner: string)

  const ORDER: seq<Kind> := [ConfigMap, Deployment, Service, ConsolePlugin, NetworkPolicy]

  /** The parts each mutator sets; the cluster-scoped plugin gets no owner. */
  function Desired(kind: Kind, w: Wanted): Resource {
    match kind
    case ConfigMap => map[Labels := w.labels, Data := w.config, Owners := w.owner]
    case Deployment => map[Labels := w.labels, Spec := w.deploymentSpec, Owners := w.owner]
    case Service => map[Labels := w.labels, Annotations := w.serviceAnnotations, SpecPorts := w.ports,
                        SpecSelector := w.selector, SpecType := w.serviceType, Owners := w.owner]
    case ConsolePlugin => map[Labels := w.labels, Spec := w.pluginSpec]
    case NetworkPolicy => map[Labels := w.labels, Spec := w.policySpec, Owners := w.owner]
  }

  // ---- What a step means ------------------------------------------------------------------

  /** A resource after its mutator: what was there, or nothing, overridden by what is wanted. */
  function Mutated(store: Store, kind: Kind, w: Wanted): Resource {
    (if kind in store then store[kind] else map[]) + Desired(kind, w)
  }

  function Ensured(store: Store, kind: Kind, w: Wanted): Store { store[kind := Mutated(store, kind, w)] }

  function EnsuredFirst(store: Store, w: Wanted, n: nat): Store
    requires n <= |ORDER|
  {
    if n == 0 then store else Ensured(EnsuredFirst(store, w, n - 1), ORDER[n - 1], w)
  }

  function EnsuredAll(store: Store, w: Wanted): Store { EnsuredFirst(store, w, |ORDER|) }

  // ---- The reconciler ---------------------------------------------------------------------

  /** What the API server answers to the read and to the write of one resource. */
  datatype Attempt = Attempt(readFails: bool, writeFails: bool)

  predicate Succeeds(a: Attempt) { !a.readFails && !a.writeFails }

  /** How many resources are written before the first attempt that fails. */
  function Reached(attempts: seq<Attempt>): (n: nat)
    ensures n <= |attempts|
  {
    if attempts != [] && Succeeds(attempts[0]) then 1 + Reached(attempts[1..]) else 0
  }

  datatype ClusterServiceVersion = ClusterServiceVersion(name: string, deleting: bool)

  const CSV_PREFIX := "camel-monitor-operator."

  class Reconciler {
    var store: Store

    constructor (store: Store)
      ensures this.store == store
    {
      this.store := store;
    }

    /** createOrUpdate: the fetched or the new object is mutated and written back. */
    method CreateOrUpdate(kind: Kind, desired: Resource, a: Attempt) returns (ok: bool)
      modifies this
      ensures ok <==> Succeeds(a)
      ensures store
           == if ok then old(store)[kind := (if kind in old(store) then old(store)[kind] else map[]) + desired]
              else old(store)
    {
      if a.readFails {
        return false;
      }
      var obj: Resource := map[];
      if kind in store {
        obj := store[kind];
      }
      obj := obj + desired;
      if a.writeFails {
        return false;
      }
      store := store[kind := obj];
      return true;
    }

    /** ensureAllResources: one resource after the other, stopping at the first error. */
    method EnsureAllResources(w: Wanted, attempts: seq<Attempt>) returns (ok: bool)
      requires |attempts| == |ORDER|
      modifies this
      ensures store == EnsuredFirst(old(store), w, Reached(attempts))
      ensures ok <==> Reached(attempts) == |ORDER|
    {
      for i := 0 to |ORDER|
        invariant store == EnsuredFirst(old(store), w, i)
        invariant Reached(attempts) == i + Reached(attempts[i..])
      {
        assert attempts[i..][1..] == attempts[i + 1..];
        var done := CreateOrUpdate(ORDER[i], Desired(ORDER[i], w), attempts[i]);
        if !done {
          return false;
        }
      }
      return true;
    }

    /** isUninstalling. */
    method IsUninstalling(listed: Option<seq<ClusterServiceVersion>>) returns (b: bool)
      ensures b <==> Uninstalling(listed)
    {
      if listed == None {
        return false;
      }
      var found := false;
      for i := 0 to |listed.value|
        invariant found <==> exists j :: 0 <= j < i && CSV_PREFIX <= listed.value[j].name
        invariant forall j :: 0 <= j < i && CSV_PREFIX <= listed.value[j].name ==> listed.value[j].deleting
      {
        if CSV_PREFIX <= listed.value[i].name {
          found := true;
          if !listed.value[i].deleting {
            assert listed.value[i] in listed.value;
            return false;
          }
        }
      }
      return found;
    }

    /** handleUninstall: only the cluster-scoped plugin has to be deleted by hand. */
    method HandleUninstall(fails: bool) returns (ok: bool)
      modifies this
      ensures ok <==> !fails
      ensures store == if fails then old(store) else old(store) - {ConsolePlugin}
    {
      if fails {
        return false;
      }
      store := store - {ConsolePlugin};
      return true;
    }

    /** Reconcile: clean up while the operator is being uninstalled, else ensure everything, owned by the operator's own
        Deployment, which must be readable. */
    method Reconcile(listed: Option<seq<ClusterServiceVersion>>, operatorReadable: bool, w: Wanted,
                     deleteFails: bool, attempts: seq<Attempt>) returns (ok: bool)
      requires |attempts| == |ORDER|
      modifies this
      ensures store == if Uninstalling(listed) then (if deleteFails then old(store) else old(store) - {ConsolePlugin})
                       else if operatorReadable then EnsuredFirst(old(store), w, Reached(attempts))
                       else old(store)
      ensures ok <==> if Uninstalling(listed) then !deleteFails else operatorReadable && Reached(attempts) == |ORDER|
    {
      var uninstalling := IsUninstalling(listed);
      if uninstalling {
        ok := HandleUninstall(deleteFails);
        return;
      }
      if !operatorReadable {
        return false;
      }
      ok := EnsureAllResources(w, attempts);
    }
  }

  /** There is a version of the operator, and every one is being deleted; a failed listing says no. */
  predicate Uninstalling(listed: Option<seq<ClusterServiceVersion>>) {
    && listed.Some?
    && (exists v :: v in listed.value && "camel-monitor-operator." <= v.name)
    && (forall v :: v in listed.value && "camel-monitor-operator." <= v.name ==> v.deleting)
  }

  // ---- Convergence ------------------------------------------------------------------------

  /** The position of a kind in the order of the reconciler. */
  function Rank(kind: Kind): (i: nat)
    ensures i < |ORDER| && ORDER[i] == kind
    ensures forall j :: 0 <= j < |ORDER| && ORDER[j] == kind ==> j == i
  {
    match kind
    case ConfigMap => 0
    case Deployment => 1
    case Service => 2
    case ConsolePlugin => 3
    case NetworkPolicy => 4
  }

  /** After the first n resources, those n hold what is wanted over what they held, and no other resource is touched. */
  lemma {:induction false} EnsuredFirstAt(store: Store, w: Wanted, n: nat, kind: Kind)
    requires n <= |ORDER|
    ensures kind in EnsuredFirst(store, w, n) <==> kind in store || Rank(kind) < n
    ensures Rank(kind) < n ==> EnsuredFirst(store, w, n)[kind] == Mutated(store, kind, w)
    ensures Rank(kind) >= n && kind in store ==> EnsuredFirst(store, w, n)[kind] == store[kind]
  {
    if n > 0 {
      EnsuredFirstAt(store, w, n - 1, kind);
    }
  }

  /** Every mutator sets the same parts whatever is wanted. */
  lemma SameParts(kind: Kind, v: Wanted, w: Wanted)
    ensures Desired(kind, v).Keys == Desired(kind, w).Keys
  {
  }

  /** One complete run makes up for any run before it that stopped after n resources, even when that run wanted
      something else: the store is the same as if only the complete run had happened. */
  lemma CompleteRunConverges(store: Store, earlier: Wanted, n: nat, w: Wanted)
    requires n <= |ORDER|
    ensures EnsuredAll(EnsuredFirst(store, earlier, n), w) == EnsuredAll(store, w)
  {
    hide EnsuredFirst;
    forall kind: Kind
      ensures kind in EnsuredAll(EnsuredFirst(store, earlier, n), w) && kind in EnsuredAll(store, w)
      ensures EnsuredAll(EnsuredFirst(store, earlier, n), w)[kind] == EnsuredAll(store, w)[kind]
    {
      CompleteRunAt(store, earlier, n, w, kind);
    }
  }

  lemma CompleteRunAt(store: Store, earlier: Wanted, n: nat, w: Wanted, kind: Kind)
    requires n <= |ORDER|
    ensures var again, once := EnsuredAll(EnsuredFirst(store, earlier, n), w), EnsuredAll(store, w);
            kind in again && kind in once && again[kind] == once[kind]
  {
    hide EnsuredFirst, Desired;
    var stopped := EnsuredFirst(store, earlier, n);
    EnsuredFirstAt(store, earlier, n, kind);
    EnsuredFirstAt(stopped, w, |ORDER|, kind);
    EnsuredFirstAt(store, w, |ORDER|, kind);
    SameParts(kind, earlier, w);
  }

  /** A reconciliation: one that got as far as the first n resources, or a clean-up that went through. */
  datatype Run = Ensuring(wanted: Wanted, reached: nat) | CleanedUp

  predicate IsRun(r: Run) { r.Ensuring? ==> r.reached <= |ORDER| }

  function AfterRun(store: Store, r: Run): Store
    requires IsRun(r)
  {
    match r
    case Ensuring(w, n) => EnsuredFirst(store, w, n)
    case CleanedUp => store - {ConsolePlugin}
  }

  function AfterRuns(store: Store, runs: seq<Run>): Store
    requires forall r :: r in runs ==> IsRun(r)
  {
    if runs == [] then store else AfterRun(AfterRuns(store, runs[..|runs| - 1]), runs[|runs| - 1])
  }

  /** What of the store outlives these runs: all of it, or all but the plugin. */
  function Surviving(store: Store, runs: seq<Run>): Store {
    if CleanedUp in runs then store - {ConsolePlugin} else store
  }

  /** Stores that a complete run does not tell apart stay so when the plugin is deleted. */
  lemma CleanUpKeepsAgreement(s: Store, t: Store, w: Wanted)
    requires EnsuredAll(s, w) == EnsuredAll(t, w)
    ensures EnsuredAll(s - {ConsolePlugin}, w) == EnsuredAll(t - {ConsolePlugin}, w)
  {
    hide EnsuredFirst;
    forall kind: Kind
      ensures kind in EnsuredAll(s - {ConsolePlugin}, w) && kind in EnsuredAll(t - {ConsolePlugin}, w)
      ensures EnsuredAll(s - {ConsolePlugin}, w)[kind] == EnsuredAll(t - {ConsolePlugin}, w)[kind]
    {
      EnsuredAt(s, w, kind);
      EnsuredAt(t, w, kind);
      EnsuredAt(s - {ConsolePlugin}, w, kind);
      EnsuredAt(t - {ConsolePlugin}, w, kind);
    }
  }

  lemma EnsuredAt(store: Store, w: Wanted, kind: Kind)
    ensures kind in EnsuredAll(store, w) && EnsuredAll(store, w)[kind] == Mutated(store, kind, w)
  {
    EnsuredFirstAt(store, w, |ORDER|, kind);
  }

  /** Convergence: after any sequence of interrupted reconciliations and clean-ups, one complete run gives what it
      alone would have given, over a store without the plugin if there was a clean-up. In particular a second complete
      run changes nothing, and the plugin made after a clean-up holds what is wanted and nothing else. */
  lemma {:induction false} AnyRunsConverge(store: Store, runs: seq<Run>, w: Wanted)
    requires forall r :: r in runs ==> IsRun(r)
    ensures EnsuredAll(AfterRuns(store, runs), w) == EnsuredAll(Surviving(store, runs), w)
    ensures CleanedUp in runs ==>
              var after := EnsuredAll(AfterRuns(store, runs), w);
              ConsolePlugin in after && after[ConsolePlugin] == Desired(ConsolePlugin, w)
  {
    hide EnsuredFirst, Desired;
    if runs != [] {
      var front, last := runs[..|runs| - 1], runs[|runs| - 1];
      assert runs == front + [last] && IsRun(last);
      AnyRunsConverge(store, front, w);
      match last {
        case Ensuring(earlier, n) => CompleteRunConverges(AfterRuns(store, front), earlier, n, w);
        case CleanedUp =>
          CleanUpKeepsAgreement(AfterRuns(store, front), Surviving(store, front), w);
          assert Surviving(store, front) - {ConsolePlugin} == store - {ConsolePlugin};
      }
    }
    EnsuredAt(store - {ConsolePlugin}, w, ConsolePlugin);
    assert map[] + Desired(ConsolePlugin, w) == Desired(ConsolePlugin, w);
  }

  /** A complete run leaves every resource with exactly the wanted values in the parts its mutator sets, and with its
      old values, present or absent, in all others. */
  lemma CompleteRunSets(store: Store, w: Wanted, kind: Kind, part: Part)
    ensures kind in EnsuredAll(store, w)
    ensures var now := EnsuredAll(store, w)[kind];
            if part in Desired(kind, w) then part in now && now[part] == Desired(kind, w)[part]
            else (part in now <==> kind in store && part in store[kind])
                 && (part in now ==> now[part] == store[kind][part])
  {
    EnsuredFirstAt(store, w, |ORDER|, kind);
  }

  predicate Has(r: Resource, part: Part, value: string) { part in r && r[part] == value }

  /** Every resource carries the labels, all but the plugin, which belongs to no namespace, their owner, and each its
      own contents. */
  predicate HoldsWanted(kind: Kind, r: Resource, w: Wanted) {
    && Has(r, Labels, w.labels) && (kind != ConsolePlugin ==> Has(r, Owners, w.owner))
    && match kind
       case ConfigMap => Has(r, Data, w.config)
       case Deployment => Has(r, Spec, w.deploymentSpec)
       case Service => Has(r, Annotations, w.serviceAnnotations) && Has(r, SpecPorts, w.ports)
                       && Has(r, SpecSelector, w.selector) && Has(r, SpecType, w.serviceType)
       case ConsolePlugin => Has(r, Spec, w.pluginSpec)
       case NetworkPolicy => Has(r, Spec, w.policySpec)
  }

  /** A complete run leaves all that in the store. */
  lemma CompleteRunWants(store: Store, w: Wanted, kind: Kind)
    ensures kind in EnsuredAll(store, w) && HoldsWanted(kind, EnsuredAll(store, w)[kind], w)
  {
    hide EnsuredFirst;
    EnsuredAt(store, w, kind);
    DesiredHolds(if kind in store then store[kind] else map[], kind, w);
  }

  lemma DesiredHolds(was: Resource, kind: Kind, w: Wanted)
    ensures HoldsWanted(kind, was + Desired(kind, w), w)
  {
  }

  /** And what it does not touch: the owner of the plugin, and of every resource all parts that are not wanted of it. */
  lemma CompleteRunSpares(store: Store, w: Wanted, kind: Kind, part: Part)
    requires match part
             case Labels => false
             case Owners => kind == ConsolePlugin
             case Data => kind != ConfigMap
             case Spec => kind == ConfigMap || kind == Service
             case Other(_) => true
             case _ => kind != Service
    ensures kind in EnsuredAll(store, w)
    ensures part in EnsuredAll(store, w)[kind] <==> kind in store && part in store[kind]
    ensures part in EnsuredAll(store, w)[kind] ==> EnsuredAll(store, w)[kind][part] == store[kind][part]
  {
    hide EnsuredFirst;
    EnsuredAt(store, w, kind);
  }

  /** A run that gets to the first n resources writes them in this order and leaves the others alone. */
  lemma ReachedInOrder(store: Store, w: Wanted, n: nat, kind: Kind)
    requires n <= 5
    ensures var s := EnsuredFirst(store, w, n);
            var place := match kind
                         case ConfigMap => 0
                         case Deployment => 1
                         case Service => 2
                         case ConsolePlugin => 3
                         case NetworkPolicy => 4;
            if place < n then kind in s && HoldsWanted(kind, s[kind], w)
            else (kind in s <==> kind in store) && (kind in store ==> s[kind] == store[kind])
  {
    hide EnsuredFirst, HoldsWanted;
    EnsuredFirstAt(store, w, n, kind);
    DesiredHolds(if kind in store then store[kind] else map[], kind, w);
  }
}
