/** The synthetic monitors: one CamelMonitor per labelled Deployment or CronJob, created and deleted by events. */
module Registry {
  import opened Options
  import opened Api

  datatype Kind = Deployment | CronJob | OtherKind

  /** A cluster object as the informers report it; appName is the value of the monitor label. */
  datatype Object = Object(namespace: string, name: string, appName: string, kind: Kind, annotations: Annotations)

  datatype Key = Key(namespace: string, name: string)

  /** What the store keeps of a monitor: its annotations, which say what it was imported from. */
  datatype Record = Record(annotations: Annotations)

  type Store = map<Key, Record>

  function ImportedName(r: Record): string { Lookup(r.annotations, IMPORTED_NAME) }

  /** The adapter's CamelMonitor: a Deployment's camel annotations are copied over the two import annotations. */
  function MonitorOf(o: Object): Record {
    match o.kind
    case Deployment => Record(Imported(map[IMPORTED_NAME := o.name, IMPORTED_KIND := "Deployment"], o.annotations))
    case _ => Record(map[IMPORTED_NAME := o.name, IMPORTED_KIND := "CronJob"])
  }

  function LabelKey(o: Object): Key { Key(o.namespace, o.appName) }
  function SuffixedKey(o: Object): Key { Key(o.namespace, o.appName + "-" + o.name) }

  // ---- Transitions ------------------------------------------------------------------------

  /** Creating fails, and changes nothing, when the name is taken or empty. */
  function Created(store: Store, key: Key, r: Record): Store {
    if key in store || key.name == "" then store else store[key := r]
  }

  function AfterCreate(store: Store, o: Object, suffix: string): Store {
    if o.kind == OtherKind then store else Created(store, Key(o.namespace, o.appName + suffix), MonitorOf(o))
  }

  function AfterAdd(store: Store, o: Object): Store {
    if o.appName == "" then store
    else if LabelKey(o) !in store then AfterCreate(store, o, "")
    else if ImportedName(store[LabelKey(o)]) != o.name then AfterCreate(store, o, "-" + o.name)
    else store
  }

  function AfterDelete(store: Store, o: Object): Store { store - {LabelKey(o)} }

  // ---- The event handlers -----------------------------------------------------------------

  class Monitors {
    var store: Store

    constructor ()
      ensures store == map[]
    {
      store := map[];
    }

    method Get(key: Key) returns (r: Option<Record>)
      ensures r == if key in store then Some(store[key]) else None
    {
      if key in store {
        return Some(store[key]);
      }
      return None;
    }

    /** The API server's create: false when the name is taken or empty. */
    method Create(key: Key, r: Record) returns (ok: bool)
      modifies this
      ensures store == Created(old(store), key, r)
      ensures ok <==> key !in old(store) && key.name != ""
    {
      if key in store || key.name == "" {
        return false;
      }
      store := store[key := r];
      return true;
    }

    method CreateSynthetic(namespace: string, appName: string, r: Record, suffix: string) returns (ok: bool)
      modifies this
      ensures store == Created(old(store), Key(namespace, appName + suffix), r)
    {
      var name := appName;
      if suffix != "" {
        name := name + suffix;
      }
      assert name == appName + suffix;
      ok := Create(Key(namespace, name), r);
    }

    method CreateMonitor(o: Object, suffix: string)
      modifies this
      ensures store == AfterCreate(old(store), o, suffix)
    {
      if o.kind == OtherKind {
        return;
      }
      var _ := CreateSynthetic(o.namespace, o.appName, MonitorOf(o), suffix);
    }

    method OnAdd(o: Object)
      modifies this
      ensures store == AfterAdd(old(store), o)
    {
      if o.appName == "" {
        return; // the API server refuses to look up an empty name
      }
      var existing := Get(LabelKey(o));
      assert o.appName + "" == o.appName;
      if existing == None {
        CreateMonitor(o, "");
      } else if ImportedName(existing.value) != o.name {
        CreateMonitor(o, "-" + o.name);
      }
    }

    method OnDelete(o: Object)
      modifies this
      ensures store == AfterDelete(old(store), o)
    {
      store := store - {LabelKey(o)};
    }
  }

  function AddAll(store: Store, objects: seq<Object>): Store {
    if objects == [] then store else AfterAdd(AddAll(store, objects[..|objects| - 1]), objects[|objects| - 1])
  }

  // ---- What names must satisfy ------------------------------------------------------------

  /** The object can be imported, and its annotations do not claim that it was imported from something else. */
  predicate Importable(o: Object) { o.kind != OtherKind && o.appName != "" && KeepsName(o) }

  predicate KeepsName(o: Object) {
    o.kind == Deployment && IMPORTED_NAME in o.annotations ==> o.annotations[IMPORTED_NAME] == o.name
  }

  lemma KeepsNameIff(o: Object)
    ensures KeepsName(o) <==> ImportedName(MonitorOf(o)) == o.name
  {
    assert CAMEL_PREFIX <= IMPORTED_NAME;
    assert IMPORTED_NAME != IMPORTED_KIND by {
      assert IMPORTED_NAME[31] != IMPORTED_KIND[31];
    }
  }

  predicate SameName(o: Object, p: Object) { o.namespace == p.namespace && o.name == p.name }

  /** The suffixed name of one object is the label of the other. */
  predicate Clash(o: Object, p: Object) { SuffixedKey(o) == LabelKey(p) }

  predicate SameSuffixed(o: Object, p: Object) { SuffixedKey(o) == SuffixedKey(p) }

  /** Names are unique in a namespace, and no suffixed name collides with a label or another suffixed name. */
  ghost predicate NamesUnambiguous(objects: set<Object>) {
    && (forall o :: o in objects ==> Importable(o))
    && (forall o, p {:trigger SameName(o, p)} :: o in objects && p in objects && SameName(o, p) ==> o == p)
    && (forall o, p {:trigger Clash(o, p)} :: o in objects && p in objects ==> !Clash(o, p))
    && (forall o, p {:trigger SameSuffixed(o, p)} :: o in objects && p in objects && SameSuffixed(o, p) ==> o == p)
  }

  // ---- The invariant of add runs ----------------------------------------------------------

  predicate Imports(store: Store, key: Key, o: Object) {
    key in store && key.namespace == o.namespace && ImportedName(store[key]) == o.name
  }

  /** The record at this key is the object's: under its label, or suffixed because another object holds the label. */
  predicate HoldsAt(store: Store, key: Key, o: Object) {
    && key in store && store[key] == MonitorOf(o)
    && (key == LabelKey(o) || (key == SuffixedKey(o) && LabelKey(o) in store && !Imports(store, LabelKey(o), o)))
  }

  /** The object has a monitor, and its label is taken. */
  predicate IsHeld(store: Store, o: Object) {
    LabelKey(o) in store && (HoldsAt(store, LabelKey(o), o) || HoldsAt(store, SuffixedKey(o), o))
  }

  ghost predicate HasHolder(store: Store, objects: set<Object>, key: Key) {
    exists o {:trigger HoldsAt(store, key, o)} :: o in objects && HoldsAt(store, key, o)
  }

  /** Every object has its monitor, and every monitor its object. */
  ghost predicate Represents(store: Store, objects: set<Object>) {
    && (forall o {:trigger IsHeld(store, o)} :: o in objects ==> IsHeld(store, o))
    && (forall key {:trigger HasHolder(store, objects, key)} :: key in store ==> HasHolder(store, objects, key))
  }

  lemma HolderOf(store: Store, objects: set<Object>, key: Key) returns (o: Object)
    requires Represents(store, objects) && key in store
    ensures o in objects && HoldsAt(store, key, o)
  {
    assert HasHolder(store, objects, key);
    o :| o in objects && HoldsAt(store, key, o);
  }

  /** Whoever holds a key that imports this object is the object itself. */
  lemma HolderIsImported(store: Store, objects: set<Object>, key: Key, o: Object, p: Object)
    requires NamesUnambiguous(objects) && o in objects && p in objects
    requires HoldsAt(store, key, p) && Imports(store, key, o)
    ensures p == o
  {
    KeepsNameIff(p);
    assert SameName(o, p);
  }

  lemma HeldIsImported(store: Store, key: Key, o: Object)
    requires Importable(o) && HoldsAt(store, key, o)
    ensures Imports(store, key, o)
  {
    KeepsNameIff(o);
  }

  /** What an add does to a store that represents other objects: nothing, or one new monitor that is the object's. */
  lemma AddHolds(store: Store, objects: set<Object>, o: Object)
    requires NamesUnambiguous(objects + {o}) && Represents(store, objects)
    ensures IsHeld(AfterAdd(store, o), o)
    ensures forall key :: key in store ==> key in AfterAdd(store, o) && AfterAdd(store, o)[key] == store[key]
    ensures forall key :: key in AfterAdd(store, o) && key !in store ==> HoldsAt(AfterAdd(store, o), key, o)
  {
    var all, after := objects + {o}, AfterAdd(store, o);
    assert o.appName + "" == o.appName && o.appName + ("-" + o.name) == o.appName + "-" + o.name;
    assert o in all && Importable(o);
    if LabelKey(o) !in store {
      assert after == store[LabelKey(o) := MonitorOf(o)];
    } else {
      var holder := HolderOf(store, objects, LabelKey(o));
      if Imports(store, LabelKey(o), o) {
        HolderIsImported(store, all, LabelKey(o), o, holder);
      } else if SuffixedKey(o) in store {
        var p := HolderOf(store, objects, SuffixedKey(o));
        assert !Clash(o, p) && SameSuffixed(o, p);
      } else {
        assert after == store[SuffixedKey(o) := MonitorOf(o)];
      }
    }
  }

  /** An add keeps every monitor as it was and makes the store represent one object more. */
  lemma AddRepresents(store: Store, objects: set<Object>, o: Object)
    requires NamesUnambiguous(objects + {o}) && Represents(store, objects)
    ensures Represents(AfterAdd(store, o), objects + {o})
    ensures forall key :: key in store ==> key in AfterAdd(store, o) && AfterAdd(store, o)[key] == store[key]
  {
    AddHolds(store, objects, o);
    KeptRepresents(store, AfterAdd(store, o), objects, o);
  }

  /** Extending the store by at most the object's own key keeps what was represented. */
  lemma KeptRepresents(store: Store, after: Store, objects: set<Object>, o: Object)
    requires Represents(store, objects)
    requires forall key :: key in store ==> key in after && after[key] == store[key]
    requires forall key :: key in after && key !in store ==> HoldsAt(after, key, o)
    requires IsHeld(after, o)
    ensures Represents(after, objects + {o})
  {
    forall p | p in objects + {o} ensures IsHeld(after, p) {
      if p in objects {
        assert IsHeld(store, p);
      }
    }
    forall key | key in after ensures HasHolder(after, objects + {o}, key) {
      if key in store {
        var p := HolderOf(store, objects, key);
        assert p in objects + {o} && HoldsAt(after, key, p);
      } else {
        assert o in objects + {o} && HoldsAt(after, key, o);
      }
    }
  }

  function Members(objects: seq<Object>): set<Object> { set o | o in objects }

  lemma {:induction false} AddsRepresent(objects: seq<Object>)
    requires NamesUnambiguous(Members(objects))
    ensures Represents(AddAll(map[], objects), Members(objects))
  {
    if objects != [] {
      var front, o := objects[..|objects| - 1], objects[|objects| - 1];
      assert objects == front + [o];
      assert Members(objects) == Members(front) + {o};
      AddsRepresent(front);
      AddRepresents(AddAll(map[], front), Members(front), o);
    }
  }

  /** This monitor, and no other, imports the object. */
  ghost predicate OnlyAt(store: Store, key: Key, o: Object) {
    Imports(store, key, o) && forall other :: Imports(store, other, o) ==> other == key
  }

  ghost predicate IsImported(store: Store, o: Object) { exists key :: Imports(store, key, o) }

  /** Add runs: from an empty store, after any sequence of adds with repeats, every added object is imported by exactly
      one monitor of its namespace. */
  lemma EveryObjectImportedOnce(objects: seq<Object>, o: Object) returns (key: Key)
    requires NamesUnambiguous(Members(objects)) && o in objects
    ensures OnlyAt(AddAll(map[], objects), key, o)
  {
    AddsRepresent(objects);
    var store := AddAll(map[], objects);
    key := ImportedOnce(store, Members(objects), o);
  }

  /** And every monitor is the import of an added object, exactly as the adapter makes it. */
  lemma EveryMonitorIsAnImport(objects: seq<Object>, key: Key) returns (o: Object)
    requires NamesUnambiguous(Members(objects)) && key in AddAll(map[], objects)
    ensures o in objects && AddAll(map[], objects)[key] == MonitorOf(o) && Imports(AddAll(map[], objects), key, o)
  {
    AddsRepresent(objects);
    o := HolderOf(AddAll(map[], objects), Members(objects), key);
    HeldIsImported(AddAll(map[], objects), key, o);
  }

  lemma ImportedOnce(store: Store, objects: set<Object>, o: Object) returns (key: Key)
    requires NamesUnambiguous(objects) && Represents(store, objects) && o in objects
    ensures OnlyAt(store, key, o) && HoldsAt(store, key, o)
  {
    assert IsHeld(store, o);
    key := if HoldsAt(store, LabelKey(o), o) then LabelKey(o) else SuffixedKey(o);
    HeldIsImported(store, key, o);
    forall other | Imports(store, other, o)
      ensures other == key
    {
      var p := HolderOf(store, objects, other);
      HolderIsImported(store, objects, other, o, p);
      HeldIsImported(store, key, o);
    }
  }

  /** The first object added with a label gets the monitor of that name, and keeps it whatever is added later. */
  lemma {:induction false} FirstComerHoldsTheLabel(objects: seq<Object>, i: nat)
    requires NamesUnambiguous(Members(objects)) && i < |objects|
    requires forall j :: 0 <= j < i ==> LabelKey(objects[j]) != LabelKey(objects[i])
    ensures LabelKey(objects[i]) in AddAll(map[], objects)
    ensures AddAll(map[], objects)[LabelKey(objects[i])] == MonitorOf(objects[i])
  {
    var front, last := objects[..|objects| - 1], objects[|objects| - 1];
    assert objects == front + [last];
    assert Members(objects) == Members(front) + {last};
    AddsRepresent(front);
    AddRepresents(AddAll(map[], front), Members(front), last);
    if i < |front| {
      FirstComerHoldsTheLabel(front, i);
    } else {
      var store := AddAll(map[], front);
      assert LabelKey(last) !in store by {
        forall p | p in Members(front) ensures !HoldsAt(store, LabelKey(last), p) {
          assert p in Members(objects) && last in Members(objects) && !Clash(p, last);
          var j :| 0 <= j < |front| && front[j] == p;
          assert LabelKey(objects[j]) != LabelKey(last);
        }
        assert !HasHolder(store, Members(front), LabelKey(last));
      }
      assert last.appName + "" == last.appName;
    }
  }

  // ---- Replays ----------------------------------------------------------------------------

  lemma ReplayOne(store: Store, objects: set<Object>, o: Object)
    requires NamesUnambiguous(objects) && Represents(store, objects) && o in objects
    ensures AfterAdd(store, o) == store
  {
    assert o.appName + ("-" + o.name) == o.appName + "-" + o.name;
    assert IsHeld(store, o);
    if HoldsAt(store, LabelKey(o), o) {
      HeldIsImported(store, LabelKey(o), o);
    }
  }

  /** A restart of the operator is a no-op: once every object of a set has been added, adding any of them again, in any
      order and any number of times, changes nothing; the suffixed ones meet their own record. */
  lemma {:induction false} ReplayIsNoOp(objects: seq<Object>, again: seq<Object>)
    requires NamesUnambiguous(Members(objects))
    requires forall o :: o in again ==> o in objects
    ensures AddAll(AddAll(map[], objects), again) == AddAll(map[], objects)
  {
    if again != [] {
      ReplayIsNoOp(objects, again[..|again| - 1]);
      AddsRepresent(objects);
      ReplayOne(AddAll(map[], objects), Members(objects), again[|again| - 1]);
    }
  }

  /** The annotation precondition is needed: in any store, adding an object again right away is a no-op exactly when its
      annotations do not name another object as its import, or its label or its suffixed name was taken before. */
  lemma AddTwiceIff(store: Store, o: Object)
    requires o.kind != OtherKind && o.appName != ""
    ensures AfterAdd(AfterAdd(store, o), o) == AfterAdd(store, o)
            <==> KeepsName(o) || LabelKey(o) in store || SuffixedKey(o) in store
  {
    KeepsNameIff(o);
    assert o.appName + "" == o.appName && o.appName + ("-" + o.name) == o.appName + "-" + o.name;
    assert |o.appName + "-" + o.name| > |o.appName|;
    var once := AfterAdd(store, o);
    if LabelKey(o) !in store {
      assert once == store[LabelKey(o) := MonitorOf(o)];
      if !KeepsName(o) && SuffixedKey(o) !in store {
        assert SuffixedKey(o) !in once && SuffixedKey(o) in AfterAdd(once, o);
      }
    }
  }

  /** A Deployment whose annotations claim that it was imported from something else. */
  const CLAIMING := Object("ns", "x", "a", Deployment, map[IMPORTED_NAME := "y"])

  /** Its second add creates a second monitor. */
  lemma ClaimingIsAddedTwice()
    ensures AfterAdd(map[], CLAIMING).Keys == {Key("ns", "a")}
    ensures AfterAdd(AfterAdd(map[], CLAIMING), CLAIMING).Keys == {Key("ns", "a"), Key("ns", "a-x")}
  {
    KeepsNameIff(CLAIMING);
    assert "x"[0] != "y"[0] && |"a"| != |"a-x"|;
    assert "a" + "" == "a" && "a" + ("-" + "x") == "a-x";
    var once := AfterAdd(map[], CLAIMING);
    assert once == map[Key("ns", "a") := MonitorOf(CLAIMING)];
    assert AfterAdd(once, CLAIMING) == once[Key("ns", "a-x") := MonitorOf(CLAIMING)];
  }

  /** And then it stops: whatever the store and the object, a third add changes nothing any more. */
  lemma ThirdAddIsNoOp(store: Store, o: Object)
    ensures AfterAdd(AfterAdd(AfterAdd(store, o), o), o) == AfterAdd(AfterAdd(store, o), o)
  {
    assert o.appName + "" == o.appName && o.appName + ("-" + o.name) == o.appName + "-" + o.name;
    assert |o.appName + "-" + o.name| > |o.appName|;
  }

  // ---- Lost imports -----------------------------------------------------------------------

  /** One of the two names an add may give to the monitor of the object is free. */
  predicate HasRoom(store: Store, o: Object) { LabelKey(o) !in store || SuffixedKey(o) !in store }

  /** What an add changes for the import of any object p: the added object's own monitor, if one is created. */
  lemma AddedImports(store: Store, o: Object, p: Object)
    requires Importable(o)
    ensures forall key :: Imports(AfterAdd(store, o), key, p)
                          <==> Imports(store, key, p) || (SameName(o, p) && CreatedKey(store, o) == Some(key))
  {
    assert o.appName + "" == o.appName && o.appName + ("-" + o.name) == o.appName + "-" + o.name;
    KeepsNameIff(o);
  }

  /** The monitor that an add creates. */
  function CreatedKey(store: Store, o: Object): Option<Key> {
    if LabelKey(o) !in store then Some(LabelKey(o))
    else if !Imports(store, LabelKey(o), o) && SuffixedKey(o) !in store then Some(SuffixedKey(o))
    else None
  }

  lemma LastAddImports(store: Store, last: Object, o: Object)
    requires Importable(last)
    ensures IsImported(AfterAdd(store, last), o)
            <==> IsImported(store, o) || (SameName(last, o) && HasRoom(store, last))
  {
    AddedImports(store, last, o);
    if CreatedKey(store, last).Some? && SameName(last, o) {
      assert Imports(AfterAdd(store, last), CreatedKey(store, last).value, o);
    }
    if IsImported(store, o) {
      var key :| Imports(store, key, o);
      assert Imports(AfterAdd(store, last), key, o);
    }
    if IsImported(AfterAdd(store, last), o) {
      var key :| Imports(AfterAdd(store, last), key, o);
    }
    if SameName(last, o) && LabelKey(last) in store && Imports(store, LabelKey(last), last) {
      assert Imports(store, LabelKey(last), o);
    }
  }

  /** Adding an object makes it imported, in any store, exactly when it was already or one of the two names is free. */
  lemma AddImportsIff(store: Store, o: Object)
    requires Importable(o)
    ensures IsImported(AfterAdd(store, o), o) <==> IsImported(store, o) || HasRoom(store, o)
  {
    LastAddImports(store, o, o);
  }

  /** The i-th add of a run finds room for the object. */
  predicate AddedWithRoom(objects: seq<Object>, i: nat, o: Object)
    requires i < |objects|
  {
    SameName(objects[i], o) && HasRoom(AddAll(map[], objects[..i]), objects[i])
  }

  /** In any add run from an empty store an object ends up imported exactly when one of its adds met a free name;
      otherwise no monitor imports it. No names are assumed to be distinct. */
  lemma {:induction false} RunImportsIff(objects: seq<Object>, o: Object)
    requires forall p :: p in objects ==> Importable(p)
    ensures IsImported(AddAll(map[], objects), o) <==> exists i :: 0 <= i < |objects| && AddedWithRoom(objects, i, o)
  {
    if objects != [] {
      var n := |objects| - 1;
      var front, last := objects[..n], objects[n];
      RunImportsIff(front, o);
      forall i | 0 <= i < n ensures AddedWithRoom(objects, i, o) == AddedWithRoom(front, i, o) {
        assert objects[..i] == front[..i];
      }
      LastAddImports(AddAll(map[], front), last, o);
      if IsImported(AddAll(map[], front), o) {
        var i :| 0 <= i < n && AddedWithRoom(front, i, o);
        assert AddedWithRoom(objects, i, o);
      } else if SameName(last, o) && HasRoom(AddAll(map[], front), last) {
        assert AddedWithRoom(objects, n, o);
      }
    }
  }

  /** Such a run: the suffixed name of the second object with a label is the label of another object. */
  lemma AmbiguousNamesLoseAnImport()
    ensures var x := Object("ns", "x", "a", CronJob, map[]);
            var y := Object("ns", "b", "a", CronJob, map[]);
            var z := Object("ns", "z", "a-b", CronJob, map[]);
            forall key :: !Imports(AddAll(map[], [z, x, y]), key, y)
  {
    var x := Object("ns", "x", "a", CronJob, map[]);
    var y := Object("ns", "b", "a", CronJob, map[]);
    var z := Object("ns", "z", "a-b", CronJob, map[]);
    assert "a" + "" == "a" && "a-b" + "" == "a-b" && "a" + "-" + "b" == "a-b" && "a" + ("-" + "b") == "a-b";
    KeepsNameIff(x);
    KeepsNameIff(y);
    KeepsNameIff(z);
    var one := AfterAdd(map[], z);
    assert one == map[Key("ns", "a-b") := MonitorOf(z)];
    var two := AfterAdd(one, x);
    assert Key("ns", "a") != Key("ns", "a-b") by { assert |"a"| != |"a-b"|; }
    assert two == one[Key("ns", "a") := MonitorOf(x)];
    assert AfterAdd(two, y) == two by { assert "x" != "b"; }
    assert [z, x, y][..2] == [z, x] && [z, x][..1] == [z] && [z][..0] == [];
    assert AddAll(map[], [z]) == one;
    assert AddAll(map[], [z, x]) == two;
    assert AddAll(map[], [z, x, y]) == two;
    assert "z" != "b" && "x" != "b";
  }

  // ---- Adds and deletes -------------------------------------------------------------------

  datatype Event = Added(subject: Object) | Deleted(subject: Object)

  function AfterEvent(store: Store, e: Event): Store {
    match e
    case Added(o) => AfterAdd(store, o)
    case Deleted(o) => AfterDelete(store, o)
  }

  function AfterEvents(store: Store, events: seq<Event>): Store {
    if events == [] then store else AfterEvent(AfterEvents(store, events[..|events| - 1]), events[|events| - 1])
  }

  function LiveAfter(events: seq<Event>): set<Object> {
    if events == [] then {}
    else
      var live := LiveAfter(events[..|events| - 1]);
      match events[|events| - 1]
      case Added(o) => live + {o}
      case Deleted(o) => live - {o}
  }

  /** No two objects that are live at the same time share a label, and only live objects are deleted. */
  ghost predicate LabelsDistinct(events: seq<Event>) {
    events == [] ||
    (var front, live := events[..|events| - 1], LiveAfter(events[..|events| - 1]);
     LabelsDistinct(front) &&
     match events[|events| - 1]
     case Added(o) => Importable(o) && forall p :: p in live && LabelKey(p) == LabelKey(o) ==> p == o
     case Deleted(o) => o in live)
  }

  /** The store's names are exactly the live labels, and each record imports its live object. */
  ghost predicate Mirrors(store: Store, live: set<Object>) {
    && (forall o :: o in live ==> LabelKey(o) in store && store[LabelKey(o)] == MonitorOf(o))
    && (forall key :: key in store ==> exists o :: o in live && LabelKey(o) == key)
  }

  /** The store mirrors the live objects throughout every run of adds and deletes with distinct live labels. */
  lemma {:induction false} StoreMirrorsLive(events: seq<Event>)
    requires LabelsDistinct(events)
    ensures Mirrors(AfterEvents(map[], events), LiveAfter(events))
    ensures forall o, p :: o in LiveAfter(events) && p in LiveAfter(events) && LabelKey(o) == LabelKey(p) ==> o == p
  {
    if events != [] {
      var front, store, live :=
        events[..|events| - 1], AfterEvents(map[], events[..|events| - 1]), LiveAfter(events[..|events| - 1]);
      StoreMirrorsLive(front);
      match events[|events| - 1] {
        case Added(o) => AddMirrors(store, live, o);
        case Deleted(o) => DeleteMirrors(store, live, o);
      }
    }
  }

  lemma AddMirrors(store: Store, live: set<Object>, o: Object)
    requires Mirrors(store, live) && Importable(o)
    requires forall p :: p in live && LabelKey(p) == LabelKey(o) ==> p == o
    ensures Mirrors(AfterAdd(store, o), live + {o})
  {
    var after, all := AfterAdd(store, o), live + {o};
    assert o.appName + "" == o.appName;
    KeepsNameIff(o);
    if LabelKey(o) in store {
      var p :| p in live && LabelKey(p) == LabelKey(o);
      assert after == store && all == live;
    } else {
      assert after == store[LabelKey(o) := MonitorOf(o)];
      forall key | key in after ensures exists p :: p in all && LabelKey(p) == key {
        if key in store {
          var p :| p in live && LabelKey(p) == key;
          assert p in all;
        } else {
          assert o in all;
        }
      }
    }
  }

  lemma DeleteMirrors(store: Store, live: set<Object>, o: Object)
    requires Mirrors(store, live) && o in live
    requires forall p, q :: p in live && q in live && LabelKey(p) == LabelKey(q) ==> p == q
    ensures Mirrors(AfterDelete(store, o), live - {o})
  {
    var after, rest := AfterDelete(store, o), live - {o};
    forall key | key in after ensures exists p :: p in rest && LabelKey(p) == key {
      var p :| p in live && LabelKey(p) == key;
      assert p in rest;
    }
  }

  /** Adding an object with a free label and deleting it again restores the store. */
  lemma AddDeleteRestores(store: Store, o: Object)
    requires LabelKey(o) !in store
    ensures AfterDelete(AfterAdd(store, o), o) == store
  {
    assert o.appName + "" == o.appName;
  }

  /** The delete ends the import of this object and of no other. */
  ghost predicate EndsOnly(store: Store, o: Object) {
    forall p {:trigger SameName(p, o)} :: IsImported(AfterDelete(store, o), p)
        <==> IsImported(store, p) && !SameName(p, o)
  }

  /** No monitor but the one under its label imports the object. */
  ghost predicate OnlyUnderLabel(store: Store, o: Object) {
    forall key :: Imports(store, key, o) ==> key == LabelKey(o)
  }

  /** Another monitor of the namespace imports what the monitor at this key imports. */
  ghost predicate HasTwin(store: Store, key: Key)
    requires key in store
  {
    exists other :: other != key && other in store && other.namespace == key.namespace
                    && ImportedName(store[other]) == ImportedName(store[key])
  }

  /** With shared labels a delete can hit the wrong monitor. In any store it ends exactly the import of the deleted
      object, and of no other, if and only if that object is imported at most under its label, and what the label's
      monitor imports, if that is something else, is imported once more. */
  lemma DeleteHitsItsOwnIff(store: Store, o: Object)
    ensures EndsOnly(store, o)
            <==> && OnlyUnderLabel(store, o)
                 && (LabelKey(o) in store ==> Imports(store, LabelKey(o), o) || HasTwin(store, LabelKey(o)))
  {
    forall p ensures SameName(p, o) && OnlyUnderLabel(store, o) ==> !IsImported(AfterDelete(store, o), p) {
      if SameName(p, o) && OnlyUnderLabel(store, o) && IsImported(AfterDelete(store, o), p) {
        var key :| Imports(AfterDelete(store, o), key, p);
        assert Imports(store, key, o);
      }
    }
    if EndsOnly(store, o) {
      EndingOnlyNeeds(store, o);
    } else if OnlyUnderLabel(store, o) {
      var p :| !(IsImported(AfterDelete(store, o), p) <==> IsImported(store, p) && !SameName(p, o));
      HitIsLabels(store, o, p);
    }
  }

  /** An import of something else that a delete ends was held by the label's monitor alone. */
  lemma HitIsLabels(store: Store, o: Object, p: Object)
    requires !SameName(p, o) && (IsImported(AfterDelete(store, o), p) != IsImported(store, p))
    ensures LabelKey(o) in store && !Imports(store, LabelKey(o), o) && !HasTwin(store, LabelKey(o))
  {
    var after := AfterDelete(store, o);
    assert forall key :: Imports(after, key, p) ==> Imports(store, key, p);
    var key :| Imports(store, key, p);
    assert key == LabelKey(o) by { assert !Imports(after, key, p); }
    if HasTwin(store, key) {
      var other :| other != key && other in store && other.namespace == key.namespace
                   && ImportedName(store[other]) == ImportedName(store[key]);
      assert Imports(after, other, p);
    }
  }

  lemma EndingOnlyNeeds(store: Store, o: Object)
    requires EndsOnly(store, o)
    ensures OnlyUnderLabel(store, o)
    ensures LabelKey(o) in store ==> Imports(store, LabelKey(o), o) || HasTwin(store, LabelKey(o))
  {
    var after := AfterDelete(store, o);
    assert SameName(o, o);
    forall key | Imports(store, key, o) ensures key == LabelKey(o) {
      assert key != LabelKey(o) ==> Imports(after, key, o);
    }
    if LabelKey(o) in store && !Imports(store, LabelKey(o), o) {
      var p := Object(o.namespace, ImportedName(store[LabelKey(o)]), "", OtherKind, map[]);
      assert !SameName(p, o) && Imports(store, LabelKey(o), p);
      var other :| Imports(after, other, p);
      assert other in store;
    }
  }

  /** On the stores of add runs this comes down to who holds the un-suffixed name. */
  lemma DeleteAfterAddsIff(store: Store, objects: set<Object>, o: Object)
    requires NamesUnambiguous(objects) && Represents(store, objects) && o in objects
    ensures (forall p :: p in objects ==> (IsImported(AfterDelete(store, o), p) <==> p != o))
            <==> Imports(store, LabelKey(o), o)
  {
    var after := AfterDelete(store, o);
    assert IsHeld(store, o);
    var holder := HolderOf(store, objects, LabelKey(o));
    HeldIsImported(store, LabelKey(o), holder);
    forall p | p in objects
      ensures IsImported(after, p) <==> p != holder
    {
      var key := ImportedOnce(store, objects, p);
      if p == holder {
        assert key == LabelKey(o);
        forall other ensures !Imports(after, other, p) {
          assert Imports(after, other, p) ==> Imports(store, other, p);
        }
      } else {
        if key == LabelKey(o) {
          HolderIsImported(store, objects, key, p, holder);
        }
        assert Imports(after, key, p);
      }
    }
    assert Imports(store, LabelKey(o), o) ==> holder == o by {
      if Imports(store, LabelKey(o), o) {
        HolderIsImported(store, objects, LabelKey(o), o, holder);
      }
    }
  }

  /** Two objects that share a label, and the store after both were added. */
  const SHARED_FIRST := Object("ns", "x", "a", CronJob, map[])
  const SHARED_SECOND := Object("ns", "y", "a", CronJob, map[])
  const SHARED_STORE: Store :=
      map[Key("ns", "a") := MonitorOf(SHARED_FIRST), Key("ns", "a-y") := MonitorOf(SHARED_SECOND)]

  lemma SharedStoreReached()
    ensures AfterAdd(AfterAdd(map[], SHARED_FIRST), SHARED_SECOND) == SHARED_STORE
  {
    var x, y := SHARED_FIRST, SHARED_SECOND;
    assert "a" + "" == "a" && "a" + ("-" + "y") == "a-y" && |"a"| != |"a-y"|;
    KeepsNameIff(x);
    var one := AfterAdd(map[], x);
    assert one == map[Key("ns", "a") := MonitorOf(x)];
    assert AfterAdd(one, y) == SHARED_STORE by { assert "x"[0] != "y"[0]; }
  }

  /** Deleting the second object takes the monitor of the first and leaves its own behind. */
  lemma DeleteHitsTheOther()
    ensures var after := AfterDelete(AfterAdd(AfterAdd(map[], SHARED_FIRST), SHARED_SECOND), SHARED_SECOND);
            !IsImported(after, SHARED_FIRST) && IsImported(after, SHARED_SECOND)
  {
    SharedStoreReached();
    var after := AfterDelete(SHARED_STORE, SHARED_SECOND);
    assert |"a"| != |"a-y"|;
    KeepsNameIff(SHARED_SECOND);
    assert after == map[Key("ns", "a-y") := MonitorOf(SHARED_SECOND)];
    assert Imports(after, Key("ns", "a-y"), SHARED_SECOND);
    assert "x"[0] != "y"[0];
  }

  // ---- Double imports ---------------------------------------------------------------------

  /** Two monitors import the object. */
  ghost predicate ImportedTwice(store: Store, o: Object) {
    exists key, other :: key != other && Imports(store, key, o) && Imports(store, other, o)
  }

  /** The object is imported under another name than its label, and an add would find a free name for it. */
  ghost predicate AddsAgain(store: Store, o: Object) {
    IsImported(store, o) && !Imports(store, LabelKey(o), o) && HasRoom(store, o)
  }

  /** After the first k events the object is imported twice. */
  ghost predicate TwiceAt(events: seq<Event>, k: nat, o: Object)
    requires k <= |events|
  {
    ImportedTwice(AfterEvents(map[], events[..k]), o)
  }

  /** The k-th event adds an object of that name where an add imports it again. */
  ghost predicate DoublesAt(events: seq<Event>, k: nat, o: Object)
    requires k < |events|
  {
    && events[k].Added? && SameName(events[k].subject, o)
    && AddsAgain(AfterEvents(map[], events[..k]), events[k].subject)
  }

  lemma SameBefore(events: seq<Event>, n: nat, k: nat, o: Object)
    requires k <= n <= |events|
    ensures TwiceAt(events, k, o) == TwiceAt(events[..n], k, o)
    ensures k < n ==> DoublesAt(events, k, o) == DoublesAt(events[..n], k, o)
  {
    assert events[..k] == events[..n][..k];
  }

  lemma EventDoublesIff(store: Store, e: Event, o: Object)
    requires e.Added? ==> Importable(e.subject)
    requires !ImportedTwice(store, o)
    ensures ImportedTwice(AfterEvent(store, e), o)
            <==> e.Added? && SameName(e.subject, o) && AddsAgain(store, e.subject)
  {
    match e {
      case Deleted(p) =>
        forall key | Imports(AfterEvent(store, e), key, o) ensures Imports(store, key, o) {
        }
      case Added(p) =>
        AddedImports(store, p, o);
        if SameName(p, o) && AddsAgain(store, p) {
          var key :| Imports(store, key, p);
          assert Imports(AfterAdd(store, p), key, o) && Imports(AfterAdd(store, p), CreatedKey(store, p).value, o);
        }
        if ImportedTwice(AfterAdd(store, p), o) {
          var key, other :| key != other && Imports(AfterAdd(store, p), key, o)
              && Imports(AfterAdd(store, p), other, o);
          assert Imports(store, key, p) || Imports(store, other, p);
        }
    }
  }

  lemma LastDoublesIff(events: seq<Event>, o: Object)
    requires events != [] && (events[|events| - 1].Added? ==> Importable(events[|events| - 1].subject))
    requires !TwiceAt(events, |events| - 1, o)
    ensures TwiceAt(events, |events|, o) <==> DoublesAt(events, |events| - 1, o)
  {
    assert events[..|events|] == events;
    EventDoublesIff(AfterEvents(map[], events[..|events| - 1]), events[|events| - 1], o);
  }

  /** Over every run of adds and deletes an object is at no time imported twice if and only if none of its adds finds
      it imported under another name than its label, with a name free: after its label was given up by an earlier
      holder, say. */
  lemma {:induction false} NeverTwiceIff(events: seq<Event>, o: Object)
    requires forall e :: e in events && e.Added? ==> Importable(e.subject)
    ensures (forall k :: 0 <= k <= |events| ==> !TwiceAt(events, k, o))
            <==> (forall k :: 0 <= k < |events| ==> !DoublesAt(events, k, o))
  {
    hide TwiceAt, DoublesAt;
    if events == [] {
      NothingAtFirst(o);
    } else {
      var n := |events| - 1;
      var front := events[..n];
      NeverTwiceIff(front, o);
      forall k | 0 <= k <= n
        ensures TwiceAt(events, k, o) == TwiceAt(front, k, o)
        ensures k < n ==> DoublesAt(events, k, o) == DoublesAt(front, k, o)
      {
        SameBefore(events, n, k, o);
      }
      if !TwiceAt(events, n, o) {
        LastDoublesIff(events, o);
      }
    }
  }

  lemma NothingAtFirst(o: Object)
    ensures !TwiceAt([], 0, o)
  {
  }

  /** Such a run: add both, delete the first, and the second is added again, as after a restart. */
  lemma SharedLabelDoubles()
    ensures var events := [Added(SHARED_FIRST), Added(SHARED_SECOND), Deleted(SHARED_FIRST), Added(SHARED_SECOND)];
            && DoublesAt(events, 3, SHARED_SECOND) && ImportedTwice(AfterEvents(map[], events), SHARED_SECOND)
            && Imports(AfterEvents(map[], events), Key("ns", "a"), SHARED_SECOND)
            && Imports(AfterEvents(map[], events), Key("ns", "a-y"), SHARED_SECOND)
  {
    var x, y := SHARED_FIRST, SHARED_SECOND;
    var events := [Added(x), Added(y), Deleted(x), Added(y)];
    SharedStoreReached();
    var one, two := [Added(x)], [Added(x), Added(y)];
    assert one[..0] == [] && two[..1] == one;
    assert AfterEvents(map[], one) == AfterAdd(map[], x);
    assert AfterEvents(map[], two) == SHARED_STORE;
    var three := events[..3];
    assert three == [Added(x), Added(y), Deleted(x)] && three[..2] == two;
    var store := AfterDelete(SHARED_STORE, x);
    assert AfterEvents(map[], events[..3]) == store;
    KeepsNameIff(y);
    assert |"a"| != |"a-y"|;
    assert Imports(store, Key("ns", "a-y"), y) && LabelKey(y) !in store;
    AddedImports(store, y, y);
    assert Imports(AfterAdd(store, y), Key("ns", "a-y"), y) && Imports(AfterAdd(store, y), Key("ns", "a"), y);
    assert AfterEvents(map[], events) == AfterAdd(store, y);
  }

  /** Deleting the second object of that run leaves its suffixed monitor behind, although it holds its label by then. */
  lemma DoubledOutlivesDelete()
    ensures var events := [Added(SHARED_FIRST), Added(SHARED_SECOND), Deleted(SHARED_FIRST), Added(SHARED_SECOND)];
            var store := AfterEvents(map[], events);
            && Imports(store, LabelKey(SHARED_SECOND), SHARED_SECOND)
            && IsImported(AfterDelete(store, SHARED_SECOND), SHARED_SECOND)
  {
    var events := [Added(SHARED_FIRST), Added(SHARED_SECOND), Deleted(SHARED_FIRST), Added(SHARED_SECOND)];
    var store := AfterEvents(map[], events);
    SharedLabelDoubles();
    assert Imports(AfterDelete(store, SHARED_SECOND), Key("ns", "a-y"), SHARED_SECOND) by { assert |"a"| != |"a-y"|; }
  }

  // ---- What a monitor carries -------------------------------------------------------------

  /** The annotations of the monitor of this object: its name and kind, and for a Deployment its own camel
      annotations, which win. */
  ghost predicate CarriesImport(annotations: Annotations, o: Object) {
    match o.kind
    case Deployment =>
      && (forall k :: k in annotations
                      <==> || k == "camel.apache.org/imported-from-name" || k == "camel.apache.org/imported-from-kind"
                           || (k in o.annotations && "camel.apache.org" <= k))
      && (forall k :: k in annotations && k in o.annotations ==> annotations[k] == o.annotations[k])
      && ("camel.apache.org/imported-from-name" !in o.annotations
          ==> annotations["camel.apache.org/imported-from-name"] == o.name)
      && ("camel.apache.org/imported-from-kind" !in o.annotations
          ==> annotations["camel.apache.org/imported-from-kind"] == "Deployment")
    case _ =>
      annotations
      == map["camel.apache.org/imported-from-name" := o.name, "camel.apache.org/imported-from-kind" := "CronJob"]
  }

  lemma ImportKeys()
    ensures IMPORTED_NAME == "camel.apache.org/imported-from-name"
    ensures IMPORTED_KIND == "camel.apache.org/imported-from-kind"
    ensures IMPORTED_NAME != IMPORTED_KIND && CAMEL_PREFIX <= IMPORTED_NAME && CAMEL_PREFIX <= IMPORTED_KIND
  {
    assert "camel.apache.org/imported-from-name"[31] == 'n' && "camel.apache.org/imported-from-kind"[31] == 'k';
  }

  lemma MonitorCarries(o: Object)
    ensures CarriesImport(MonitorOf(o).annotations, o)
  {
    ImportKeys();
    if o.kind == Deployment {
      var own: Annotations := map[IMPORTED_NAME := o.name, IMPORTED_KIND := "Deployment"];
      DeploymentCarries(own, o);
    }
  }

  lemma DeploymentCarries(own: Annotations, o: Object)
    requires o.kind == Deployment && IMPORTED_NAME != IMPORTED_KIND
    requires own == map[IMPORTED_NAME := o.name, IMPORTED_KIND := "Deployment"]
    ensures CarriesImport(Imported(own, o.annotations), o)
  {
    ImportKeys();
    assert own.Keys == {IMPORTED_NAME, IMPORTED_KIND};
    assert own[IMPORTED_NAME] == o.name && own[IMPORTED_KIND] == "Deployment";
    var r := Imported(own, o.annotations);
    assert forall k :: k in r && k in o.annotations ==> CAMEL_PREFIX <= k;
  }

  /** A record that an event put into the store is the monitor of the object it added. */
  lemma EventCreates(store: Store, e: Event, key: Key)
    requires key in AfterEvent(store, e) && (key !in store || AfterEvent(store, e)[key] != store[key])
    ensures e.Added? && e.subject.kind != OtherKind && AfterEvent(store, e)[key] == MonitorOf(e.subject)
    ensures var o := e.subject;
            key == Key(o.namespace, o.appName) || key == Key(o.namespace, o.appName + "-" + o.name)
  {
    hide MonitorOf;
    if e.Added? {
      var o := e.subject;
      assert o.appName + "" == o.appName && o.appName + ("-" + o.name) == o.appName + "-" + o.name;
    }
  }

  /** Over every run of adds and deletes each monitor comes from an object that was added: it stands under the label of
      that object or under the label with its name as suffix, and carries its import. */
  lemma {:induction false} EveryMonitorCarries(events: seq<Event>, key: Key) returns (o: Object)
    requires key in AfterEvents(map[], events)
    ensures Added(o) in events && o.kind != OtherKind
    ensures key == Key(o.namespace, o.appName) || key == Key(o.namespace, o.appName + "-" + o.name)
    ensures CarriesImport(AfterEvents(map[], events)[key].annotations, o)
  {
    hide CarriesImport, AfterEvent, MonitorOf;
    var front, last := events[..|events| - 1], events[|events| - 1];
    assert events == front + [last];
    var store := AfterEvents(map[], front);
    if key in store && AfterEvent(store, last)[key] == store[key] {
      o := EveryMonitorCarries(front, key);
    } else {
      EventCreates(store, last, key);
      o := last.subject;
      MonitorCarries(o);
    }
  }

  /** So a monitor names the kind of its object, as long as nobody annotates objects with another one. */
  lemma KindIsCarried(annotations: Annotations, o: Object)
    requires CarriesImport(annotations, o) && "camel.apache.org/imported-from-kind" !in o.annotations
    ensures Lookup(annotations, "camel.apache.org/imported-from-kind") == "Deployment" <==> o.kind == Deployment
    ensures Lookup(annotations, "camel.apache.org/imported-from-kind") == "CronJob" <==> o.kind != Deployment
  {
    assert "Deployment"[0] != "CronJob"[0];
  }

  lemma NameIsCarried(annotations: Annotations, o: Object)
    requires CarriesImport(annotations, o) && "camel.apache.org/imported-from-name" !in o.annotations
    ensures Lookup(annotations, "camel.apache.org/imported-from-name") == o.name
  {
    assert "camel.apache.org/imported-from-name"[31] == 'n' && "camel.apache.org/imported-from-kind"[31] == 'k';
  }
}
