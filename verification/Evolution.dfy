/** What every step of the operator keeps, whatever the others do and whichever calls fail. */
module Evolution {
  import opened Kube
  import opened Cloud
  import opened Selection
  import opened Tags
  import opened Worlds
  import opened Calls

  /** The others never strip the service finalizer. */
  predicate Guarded(w: World) {
    w.rules.services.finalizer == Some(ServiceFinalizer)
  }

  /** How far a step reaches: the services it may write and those whose finalizer it may drop,
      the load balancers it may write, the owners it creates for, and whether it deletes. */
  datatype Scope = Scope(keys: set<Key>, lost: set<Key>, lbs: set<Key>, owners: set<Owner>, deletes: bool)

  type Services = map<Key, Service>

  /** Outside `lost`, an object that carries the service finalizer stays and keeps carrying it. */
  ghost predicate KeepsFinalizers(a: Services, b: Services, lost: set<Key>) {
    forall k :: k in a && k !in lost && ServiceFinalizer in a[k].finalizers ==>
      && k in b && b[k].uid == a[k].uid && ServiceFinalizer in b[k].finalizers
      && (a[k].terminating ==> b[k].terminating)
  }

  /** An object that is there after the step was there before it, or is new. */
  ghost predicate SameOrNew<S, T>(a: Store<S, T>, b: Store<S, T>) {
    && a.clock <= b.clock
    && (forall k :: k in b.objects ==>
          b.objects[k].uid > a.clock || (k in a.objects && a.objects[k].uid == b.objects[k].uid))
  }

  /** Outside `keys`, what an object records about its resources stays. */
  ghost predicate KeepsRecords(a: Services, b: Services, keys: set<Key>) {
    forall k :: k in a && k in b && k !in keys && a[k].uid == b[k].uid ==>
      && Annotation(a[k], PortID) == Annotation(b[k], PortID)
      && Annotation(a[k], FloatingIPID) == Annotation(b[k], FloatingIPID)
  }

  ghost predicate KeepsStatus(a: map<Key, LoadBalancer>, b: map<Key, LoadBalancer>, lbs: set<Key>) {
    forall k :: k in a && k in b && k !in lbs && a[k].uid == b[k].uid ==> a[k].status == b[k].status
  }

  /** Nothing is added, and outside `keys` nothing changes. */
  ghost predicate SameOutside<S, T>(a: Store<S, T>, b: Store<S, T>, keys: set<Key>) {
    && a.names == b.names
    && b.objects.Keys <= a.objects.Keys
    && (forall k :: k !in keys ==> Current(a, k) == Current(b, k))
  }

  /** History only grows; what is newly made is made for one of the given owners, and only their
      strays and mishaps change. */
  ghost predicate LogGrows(a: Log, b: Log, owners: set<Owner>) {
    && (forall id :: id in a.made ==> id in b.made && b.made[id] == a.made[id])
    && (forall id :: id in b.made && id !in a.made ==> b.made[id] in owners)
    && (forall id :: id in a.madeOn ==> id in b.madeOn && b.madeOn[id] == a.madeOn[id])
    && a.faults <= b.faults && a.misses <= b.misses && a.patchFaults <= b.patchFaults && a.asked <= b.asked
    && (forall o :: o !in owners ==> StraysOf(b, o) == StraysOf(a, o) && MishapsOf(b, o) == MishapsOf(a, o))
  }

  /** Ids are never handed out twice, nothing gone comes back, and nobody rewrites the text of a
      resource. */
  ghost predicate Ages(a: Neutron, b: Neutron) {
    && a.used <= b.used
    && (forall id :: id in a.used && id in b.ports ==>
          id in a.ports && b.ports[id].name == a.ports[id].name && b.ports[id].description == a.ports[id].description)
    && (forall id :: id in a.used && id in b.fips ==>
          id in a.fips && b.fips[id].description == a.fips[id].description && b.fips[id].address == a.fips[id].address)
  }

  /** Floating IPs are at most unbound. */
  ghost predicate Unbinds(a: Neutron, b: Neutron) {
    forall id :: id in a.fips && id in b.fips ==>
      b.fips[id].portID == a.fips[id].portID || b.fips[id].portID == ""
  }

  ghost predicate KeepsLive(a: Neutron, b: Neutron) {
    && (forall id :: id in a.ports ==> id in b.ports)
    && (forall id :: id in a.fips ==> id in b.fips)
  }

  ghost predicate StoresEvolve(a: World, b: World, sc: Scope) {
    && SameOrNew(a.services, b.services)
    && SameOrNew(a.lbs, b.lbs)
    && (Guarded(a) ==> KeepsFinalizers(a.services.objects, b.services.objects, sc.lost))
    && (a.rules.services.annotations ==> KeepsRecords(a.services.objects, b.services.objects, sc.keys))
    && (a.rules.lbs.status ==> KeepsStatus(a.lbs.objects, b.lbs.objects, sc.lbs))
    && (Quiet(a.script) ==> SameOutside(a.services, b.services, sc.keys) && SameOutside(a.lbs, b.lbs, sc.lbs))
  }

  ghost predicate CloudEvolves(a: World, b: World, sc: Scope) {
    && LogGrows(a.log, b.log, sc.owners)
    && Ages(a.cloud, b.cloud)
    && (forall id :: id in b.log.made && id !in a.log.made ==> id !in a.cloud.used)
    && (a.rules.binds || Unbinds(a.cloud, b.cloud))
    && (Quiet(a.script) && !sc.deletes ==> KeepsLive(a.cloud, b.cloud))
    && (Quiet(a.script) ==> a.cloud.subnets == b.cloud.subnets)
  }

  ghost predicate Advances(a: World, b: World, sc: Scope) {
    WF(b) && Flow(a, b) && StoresEvolve(a, b, sc) && CloudEvolves(a, b, sc)
  }

  /** Whatever somebody else made and did not mark with the ownership tag is left as it is. */
  ghost predicate SparesForeign(a: Neutron, b: Neutron, made: map<string, Owner>) {
    && (forall id :: id in a.ports && id !in made && !OwnedByOperator(a.ports[id].tags) ==>
          id in b.ports && b.ports[id] == a.ports[id])
    && (forall id :: id in a.fips && id !in made && !OwnedByOperator(a.fips[id].tags) ==>
          id in b.fips && b.fips[id] == a.fips[id])
  }

  ghost predicate Spares(a: World, b: World) {
    a.log.seized == b.log.seized && (Quiet(a.script) ==> SparesForeign(a.cloud, b.cloud, a.log.made))
  }

  /** What a step within a scope leaves true. */
  ghost predicate Evolves(a: World, b: World, sc: Scope) {
    Advances(a, b, sc) && (TagsReadable(a.script) ==> Spares(a, b))
  }

  lemma AgesTransitive(a: Neutron, b: Neutron, c: Neutron)
    requires Ages(a, b) && Ages(b, c)
    ensures Ages(a, c)
  {
    assert forall id :: id in a.used ==> id in b.used;
  }

  lemma EvolvesReflexive(w: World, sc: Scope)
    requires WF(w)
    ensures Evolves(w, w, sc)
  {
    hide Fresh, Quiet, TagsReadable, Valid, ValidCloud, Marked, OneBound;
  }

  lemma StoresTransitive(a: World, b: World, c: World, sc: Scope)
    requires WF(a) && Flow(a, b) && StoresEvolve(a, b, sc) && StoresEvolve(b, c, sc)
    ensures StoresEvolve(a, c, sc)
  {
    hide Fresh, Quiet, TagsReadable, ValidCloud, Marked, OneBound, Valid, SameOrNew, SameOutside;
    hide KeepsFinalizers, KeepsRecords, KeepsStatus;
    SameOrNewTransitive(a.services, b.services, c.services, sc.keys);
    SameOrNewTransitive(a.lbs, b.lbs, c.lbs, sc.lbs);
    RecordsTransitive(a.services, b.services, c.services, sc);
    StatusTransitive(a.lbs, b.lbs, c.lbs, sc.lbs);
  }

  lemma SameOrNewTransitive<S, T>(a: Store<S, T>, b: Store<S, T>, c: Store<S, T>, keys: set<Key>)
    requires SameOrNew(a, b) && SameOrNew(b, c)
    ensures SameOrNew(a, c)
    ensures SameOutside(a, b, keys) && SameOutside(b, c, keys) ==> SameOutside(a, c, keys)
  {
  }

  lemma RecordsTransitive(a: Store<ServiceSpec, ServiceStatus>, b: Store<ServiceSpec, ServiceStatus>,
                          c: Store<ServiceSpec, ServiceStatus>, sc: Scope)
    requires Valid(a) && SameOrNew(a, b) && SameOrNew(b, c)
    ensures KeepsFinalizers(a.objects, b.objects, sc.lost) && KeepsFinalizers(b.objects, c.objects, sc.lost) ==>
      KeepsFinalizers(a.objects, c.objects, sc.lost)
    ensures KeepsRecords(a.objects, b.objects, sc.keys) && KeepsRecords(b.objects, c.objects, sc.keys) ==>
      KeepsRecords(a.objects, c.objects, sc.keys)
  {
    assert forall k :: k in a.objects ==> a.objects[k].uid <= a.clock;
    hide Valid;
  }

  lemma StatusTransitive(a: Store<LBSpec, LBStatus>, b: Store<LBSpec, LBStatus>, c: Store<LBSpec, LBStatus>,
                         lbs: set<Key>)
    requires Valid(a) && SameOrNew(a, b) && SameOrNew(b, c)
    ensures KeepsStatus(a.objects, b.objects, lbs) && KeepsStatus(b.objects, c.objects, lbs) ==>
      KeepsStatus(a.objects, c.objects, lbs)
  {
    assert forall k :: k in a.objects ==> a.objects[k].uid <= a.clock;
    hide Valid;
  }

  lemma UnbindsTransitive(a: Neutron, b: Neutron, c: Neutron)
    requires ValidCloud(a) && Ages(a, b) && Ages(b, c) && Unbinds(a, b) && Unbinds(b, c)
    ensures Unbinds(a, c)
  {
    assert forall id :: id in a.used ==> id in b.used;
  }

  lemma CloudTransitive(a: World, b: World, c: World, sc: Scope)
    requires ValidCloud(a.cloud) && Flow(a, b) && CloudEvolves(a, b, sc) && CloudEvolves(b, c, sc)
    ensures CloudEvolves(a, c, sc)
  {
    assert forall id :: id in a.cloud.used ==> id in b.cloud.used;
    hide Ages, Fresh, Quiet, TagsReadable, Unbinds, ValidCloud;
    AgesTransitive(a.cloud, b.cloud, c.cloud);
    if !a.rules.binds {
      UnbindsTransitive(a.cloud, b.cloud, c.cloud);
    }
  }

  lemma AdvancesTransitive(a: World, b: World, c: World, sc: Scope)
    requires WF(a) && Advances(a, b, sc) && Advances(b, c, sc)
    ensures Advances(a, c, sc)
  {
    hide StoresEvolve, CloudEvolves, Fresh, Quiet, TagsReadable, Valid, ValidCloud, Marked, OneBound;
    StoresTransitive(a, b, c, sc);
    CloudTransitive(a, b, c, sc);
  }

  lemma SparesTransitive(a: World, b: World, c: World, sc: Scope)
    requires ValidCloud(a.cloud) && CloudEvolves(a, b, sc) && (Quiet(a.script) ==> Quiet(b.script))
    requires Spares(a, b) && Spares(b, c)
    ensures Spares(a, c)
  {
    hide Quiet, Ages, LogGrows, KeepsLive, Unbinds, OwnedByOperator;
  }

  lemma EvolvesTransitive(a: World, b: World, c: World, sc: Scope)
    requires WF(a) && Evolves(a, b, sc) && Evolves(b, c, sc)
    ensures Evolves(a, c, sc)
  {
    hide StoresEvolve, CloudEvolves, Valid, ValidCloud, Marked, OneBound, Fresh, Quiet, TagsReadable, Spares;
    AdvancesTransitive(a, b, c, sc);
    if TagsReadable(a.script) {
      SparesTransitive(a, b, c, sc);
    }
  }

  lemma OthersStores(a: World, b: World, sc: Scope)
    requires Others(a, b)
    ensures StoresEvolve(a, b, sc)
  {
    hide Fresh, Quiet, TagsReadable, Drifts;
  }

  lemma OthersCloud(a: World, b: World, sc: Scope)
    requires ValidCloud(a.cloud) && Others(a, b)
    ensures CloudEvolves(a, b, sc) && Spares(a, b)
  {
    hide Fresh, Quiet, TagsReadable, Moves, StraysOf, MishapsOf, OwnedByOperator;
  }

  lemma OthersEvolve(a: World, b: World, sc: Scope)
    requires WF(a) && WF(b) && Others(a, b)
    ensures Evolves(a, b, sc)
  {
    hide Fresh, Quiet, TagsReadable, Marked, Valid, ValidCloud, OneBound, Moves, Drifts, StoresEvolve, CloudEvolves;
    hide Spares;
    OthersStores(a, b, sc);
    OthersCloud(a, b, sc);
  }

  // ----- Single calls -----

  lemma TickEvolves(w: World, sc: Scope)
    requires WF(w)
    ensures Others(w, Tick(w)) && Evolves(w, Tick(w), sc)
  {
    hide WF, Others, Evolves, Tick;
    TickOthers(w);
    OthersEvolve(w, Tick(w), sc);
  }

  /** A change of the log that grows it, leaving everything else alone. */
  lemma LogEvolves(t: World, log: Log, sc: Scope)
    requires WF(t) && log.made == t.log.made && log.madeOn == t.log.madeOn && log.seized == t.log.seized
    requires t.log.faults <= log.faults && t.log.misses <= log.misses && t.log.patchFaults <= log.patchFaults
    requires t.log.asked <= log.asked
    requires forall o :: o !in sc.owners ==>
      StraysOf(log, o) == StraysOf(t.log, o) && MishapsOf(log, o) == MishapsOf(t.log, o)
    ensures Evolves(t, t.(log := log), sc)
  {
    hide Fresh, Quiet, TagsReadable, Marked, Valid, ValidCloud, OneBound;
  }

  /** The object is a version the store has held. */
  ghost predicate Known<S, T>(s: Store<S, T>, o: Object<S, T>) {
    o.version in s.history && s.history[o.version] == o
  }

  lemma ReadKnown<S, T>(s: Store<S, T>, k: Key, view: View)
    requires Valid(s)
    ensures Read(s, k, view).Some? ==> Known(s, Read(s, k, view).value) && Read(s, k, view).value.key == k
    ensures view == map[] ==> Read(s, k, view) == Current(s, k)
  {
  }

  lemma ReplaceOutside<S, T>(s: Store<S, T>, o: Object<S, T>, keys: set<Key>)
    requires Valid(s) && o.key in s.objects && o.uid == s.objects[o.key].uid && o.key in keys
    ensures var t := Replace(s, o); Valid(t) && SameOrNew(s, t) && SameOutside(s, t, keys)
    ensures forall k :: k != o.key ==> Current(s, k) == Current(Replace(s, o), k)
    ensures o.key in Replace(s, o).objects ==>
              Replace(s, o).objects[o.key] == o.(version := Replace(s, o).objects[o.key].version)
    ensures o.key !in Replace(s, o).objects <==> o.terminating && o.finalizers == []
  {
    ReplaceValid(s, o);
    assert o.key in s.names;
  }

  lemma ServicesStores(t: World, o: Service, sc: Scope)
    requires WF(t) && o.key in t.services.objects && o.uid == t.services.objects[o.key].uid && o.key in sc.keys
    requires o.key in sc.lost || ServiceFinalizer in o.finalizers
      || ServiceFinalizer !in t.services.objects[o.key].finalizers
    requires t.services.objects[o.key].terminating ==> o.terminating
    ensures var v := t.(services := Replace(t.services, o)); Valid(v.services) && StoresEvolve(t, v, sc)
  {
    hide Valid, Replace, Quiet, Marked, ValidCloud, OneBound, SameOrNew;
    var v := t.(services := Replace(t.services, o));
    ReplaceOutside(t.services, o, sc.keys);
    hide SameOutside;
    assert forall k :: k in t.services.objects && k != o.key ==> Current(t.services, k) == Current(v.services, k);
    assert SameOrNew(t.lbs, t.lbs) && SameOutside(t.lbs, t.lbs, sc.lbs) by {
      SameStore(t.lbs, sc.lbs);
    }
  }

  lemma SameStore<S, T>(s: Store<S, T>, keys: set<Key>)
    requires Valid(s)
    ensures SameOrNew(s, s) && SameOutside(s, s, keys)
  {
    hide Valid;
  }

  lemma ServicesEvolve(t: World, o: Service, sc: Scope)
    requires WF(t) && o.key in t.services.objects && o.uid == t.services.objects[o.key].uid && o.key in sc.keys
    requires o.key in sc.lost || ServiceFinalizer in o.finalizers
      || ServiceFinalizer !in t.services.objects[o.key].finalizers
    requires t.services.objects[o.key].terminating ==> o.terminating
    ensures Evolves(t, t.(services := Replace(t.services, o)), sc)
  {
    hide Valid, Replace, Fresh, Quiet, TagsReadable, Marked, ValidCloud, OneBound, StoresEvolve, StraysOf, MishapsOf;
    ServicesStores(t, o, sc);
  }

  lemma OthersKnow(a: World, b: World, o: Service)
    requires Others(a, b) && Known(a.services, o)
    ensures Known(b.services, o)
  {
  }

  /** A full update loses the finalizer of its object at most; and not even that when the copy
      written carries the finalizer or has the finalizer list of the version it claims to be. */
  lemma UpdateServiceEvolves(w: World, o: Service, base: Service, sc: Scope)
    requires WF(w) && o.key in sc.keys
    requires o.key in sc.lost || ServiceFinalizer in o.finalizers
          || (Known(w.services, base) && base.version == o.version && base.finalizers == o.finalizers)
    ensures Evolves(w, UpdateService(w, o).w, sc)
  {
    hide Tick, Others, Marked, ValidCloud, OneBound, Replace, Flow, StoresEvolve, CloudEvolves;
    TickEvolves(w, sc);
    var t := Tick(w);
    var r := UpdateService(w, o);
    if r.v == Written {
      var n := Merge(t.services.objects[o.key], o);
      if Known(w.services, base) {
        OthersKnow(w, t, base);
      }
      ServicesEvolve(t, n, sc);
      EvolvesTransitive(w, t, r.w, sc);
    }
  }

  lemma PatchServiceEvolves(w: World, k: Key, sc: Scope)
    requires WF(w) && k in sc.keys && k in sc.lost
    ensures Evolves(w, PatchService(w, k).w, sc)
  {
    hide Tick, Others, Marked, ValidCloud, OneBound, Replace, Flow, StoresEvolve, CloudEvolves;
    TickEvolves(w, sc);
    var t := Tick(w);
    var r := PatchService(w, k);
    if r.v {
      ServicesEvolve(t, t.services.objects[k].(finalizers := []), sc);
    } else {
      LogEvolves(t, t.log.(patchFaults := t.log.patchFaults + 1), sc);
    }
    EvolvesTransitive(w, t, r.w, sc);
  }

  lemma LBsEvolve(t: World, o: LoadBalancer, sc: Scope)
    requires WF(t) && o.key in t.lbs.objects && o.uid == t.lbs.objects[o.key].uid && o.key in sc.lbs
    ensures Evolves(t, t.(lbs := Replace(t.lbs, o)), sc)
  {
    hide Valid, Replace, Fresh, Quiet, TagsReadable, Marked, ValidCloud, OneBound, SameOrNew;
    var v := t.(lbs := Replace(t.lbs, o));
    ReplaceOutside(t.lbs, o, sc.lbs);
    assert forall k :: k in t.lbs.objects && k != o.key ==> Current(t.lbs, k) == Current(v.lbs, k);
    assert SameOrNew(t.services, t.services) by { EvolvesReflexive(t, sc); }
  }

  lemma UpdateLBEvolves(w: World, o: LoadBalancer, sc: Scope)
    requires WF(w) && o.key in sc.lbs
    ensures Evolves(w, UpdateLB(w, o).w, sc)
    ensures Evolves(w, UpdateLBStatus(w, o).w, sc)
  {
    hide Tick, Others, Marked, ValidCloud, OneBound, Replace, Flow, StoresEvolve, CloudEvolves;
    TickEvolves(w, sc);
    var t := Tick(w);
    if UpdateLB(w, o).v == Written {
      LBsEvolve(t, Merge(t.lbs.objects[o.key], o), sc);
      EvolvesTransitive(w, t, UpdateLB(w, o).w, sc);
    }
    if UpdateLBStatus(w, o).v == Written {
      LBsEvolve(t, t.lbs.objects[o.key].(status := o.status), sc);
      EvolvesTransitive(w, t, UpdateLBStatus(w, o).w, sc);
    }
  }

  /** Notes in the log about a call. */
  lemma NotesEvolve(w: World, owner: Owner, id: string, sc: Scope)
    requires WF(w)
    ensures Evolves(w, Fault(w), sc)
    ensures owner in sc.owners ==> Evolves(w, Mishap(w, owner), sc)
    ensures owner in sc.owners ==> Evolves(w, Recorded(w, owner, id), sc)
    ensures Evolves(w, w.(log := w.log.(misses := w.log.misses + 1)), sc)
  {
    hide WF, Evolves;
    LogEvolves(w, Fault(w).log, sc);
    if owner in sc.owners {
      LogEvolves(w, Mishap(w, owner).log, sc);
      LogEvolves(w, Recorded(w, owner, id).log, sc);
    }
    LogEvolves(w, w.log.(misses := w.log.misses + 1), sc);
  }

  lemma FaultEvolves(w: World, sc: Scope)
    requires WF(w)
    ensures Others(w, Tick(w)) && Evolves(w, Tick(w), sc)
    ensures Evolves(w, Fault(Tick(w)), sc)
    ensures Evolves(w, Tick(w).(log := Tick(w).log.(misses := Tick(w).log.misses + 1)), sc)
  {
    hide WF, Tick, Others, Flow, StoresEvolve, CloudEvolves, Fault;
    var t := Tick(w);
    TickEvolves(w, sc);
    NotesEvolve(t, Owner(Key("", ""), 0), "", sc);
    EvolvesTransitive(w, t, Fault(t), sc);
    EvolvesTransitive(w, t, t.(log := t.log.(misses := t.log.misses + 1)), sc);
  }

  lemma NewClientEvolves(w: World, secret: SecretRef, sc: Scope)
    requires WF(w)
    ensures Evolves(w, NewClient(w, secret).w, sc)
  {
    hide WF, Tick, Others, Evolves;
    TickEvolves(w, sc);
    var t := Tick(w);
    var tried := t.log.(asked := t.log.asked + [secret]);
    assert WF(t) by {
      TickOthers(w);
    }
    LogEvolves(t, tried, sc);
    LogEvolves(t, tried.(misses := tried.misses + 1), sc);
    EvolvesTransitive(w, t, NewClient(w, secret).w, sc);
  }

  // ----- Creation -----

  lemma DriftsAge(binds: bool, a: Neutron, b: Neutron)
    requires Drifts(binds, a, b)
    ensures Ages(a, b)
  {
  }

  lemma MarkedExtends(c: Neutron, made: map<string, Owner>, id: string, owner: Owner)
    requires Marked(c, made) && id in c.used
    requires id in c.ports ==>
      c.ports[id].name == PortName(owner.key) && c.ports[id].description == PortDescription(owner.key)
    requires id in c.fips ==> c.fips[id].description == FloatingIPDescription(owner.key)
    ensures Marked(c, made[id := owner])
  {
    hide PortName, PortDescription, FloatingIPDescription;
  }

  lemma PlacePortCloud(c: Neutron, made: map<string, Owner>, p: Port, owner: Owner)
    requires ValidCloud(c) && Marked(c, made) && p.id != "" && p.id !in c.used
    requires p.name == PortName(owner.key) && p.description == PortDescription(owner.key)
    ensures var d := AddPort(c, p);
      ValidCloud(d) && Marked(d, made[p.id := owner]) && Ages(c, d) && KeepsLive(c, d)
      && p.id !in made && (OneBound(c, made) ==> OneBound(d, made[p.id := owner]))
  {
    assert p.id !in c.fips && p.id !in made;
    hide Ages, Marked, ValidCloud, Drifts, PortName, PortDescription, FloatingIPDescription;
    var d := AddPort(c, p);
    AddPortDrifts(true, c, p);
    DriftsAge(true, c, d);
    DriftsMarked(true, c, d, made);
    MarkedExtends(d, made, p.id, owner);
  }

  lemma PlaceSpares(c: Neutron, made: map<string, Owner>, p: Port, f: FloatingIP)
    requires ValidCloud(c) && p.id !in c.used && f.id !in c.used
    ensures Unbinds(c, AddPort(c, p)) && SparesForeign(c, AddPort(c, p), made)
    ensures Unbinds(c, AddFloatingIP(c, f)) && SparesForeign(c, AddFloatingIP(c, f), made)
  {
    assert p.id !in c.ports && f.id !in c.fips;
    hide OwnedByOperator, ValidCloud;
  }

  lemma PlacePortEvolves(t: World, id: string, owner: Owner, networkID: string, subnetID: string, ip: string, sc: Scope)
    requires WF(t) && id != "" && id !in t.cloud.used && owner in sc.owners
    ensures Evolves(t, PlacePort(t, id, owner, networkID, subnetID, ip), sc)
  {
    hide Valid, Fresh, Quiet, TagsReadable, PortName, PortDescription, FloatingIPDescription;
    hide Ages, Marked, ValidCloud, OneBound, AddPort, SameOrNew, StoresEvolve, Unbinds, SparesForeign, KeepsLive;
    var v := PlacePort(t, id, owner, networkID, subnetID, ip);
    PlacePortCloud(t.cloud, t.log.made,
      Port(id, PortName(owner.key), PortDescription(owner.key), [], networkID, subnetID, ip), owner);
    PlaceSpares(t.cloud, t.log.made,
      Port(id, PortName(owner.key), PortDescription(owner.key), [], networkID, subnetID, ip),
        FloatingIP(id, "", "", "", []));
    assert v.cloud.subnets == t.cloud.subnets by { AddPortSubnets(t, id, owner, networkID, subnetID, ip); }
    assert StoresEvolve(t, v, sc) by { SameStores(t, v, sc); }
  }

  lemma AddPortSubnets(t: World, id: string, owner: Owner, networkID: string, subnetID: string, ip: string)
    ensures PlacePort(t, id, owner, networkID, subnetID, ip).cloud.subnets == t.cloud.subnets
  {
  }

  lemma PlacedIsMade(t: World, id: string, owner: Owner, networkID: string, subnetID: string, ip: string)
    ensures id in PlacePort(t, id, owner, networkID, subnetID, ip).log.made
    ensures forall address, portID {:trigger PlaceFloatingIP(t, id, address, owner, portID)} ::
              id in PlaceFloatingIP(t, id, address, owner, portID).log.made
  {
    hide PortName, PortDescription, FloatingIPDescription;
  }

  lemma SameStores(a: World, b: World, sc: Scope)
    requires WF(a) && a.services == b.services && a.lbs == b.lbs && a.rules == b.rules && a.script == b.script
    ensures StoresEvolve(a, b, sc)
  {
    hide Valid, Fresh, Quiet, TagsReadable, Marked, ValidCloud, OneBound;
  }

  /** No floating IP made by the operator is bound to the port. */
  ghost predicate Unbound(w: World, portID: string) {
    forall f :: f in w.cloud.fips && f in w.log.made ==> w.cloud.fips[f].portID != portID
  }

  lemma PlaceFloatingIPCloud(c: Neutron, made: map<string, Owner>, f: FloatingIP, owner: Owner)
    requires ValidCloud(c) && Marked(c, made) && f.id != "" && f.id !in c.used
    requires f.description == FloatingIPDescription(owner.key)
    ensures var d := AddFloatingIP(c, f);
      ValidCloud(d) && Marked(d, made[f.id := owner]) && Ages(c, d) && KeepsLive(c, d) && f.id !in made
  {
    assert f.id !in c.ports && f.id !in made;
    hide Ages, Marked, ValidCloud, Drifts, PortName, PortDescription, FloatingIPDescription;
    var d := AddFloatingIP(c, f);
    AddFloatingIPDrifts(true, c, f);
    DriftsAge(true, c, d);
    DriftsMarked(true, c, d, made);
    MarkedExtends(d, made, f.id, owner);
  }

  lemma PlaceFloatingIPBound(t: World, id: string, address: string, owner: Owner, portID: string)
    requires OneBound(t.cloud, t.log.made) && Unbound(t, portID)
    ensures var v := PlaceFloatingIP(t, id, address, owner, portID); OneBound(v.cloud, v.log.made)
  {
    hide FloatingIPDescription;
  }

  lemma PlaceFloatingIPEvolves(t: World, id: string, address: string, owner: Owner, portID: string, sc: Scope)
    requires WF(t) && id != "" && id !in t.cloud.used && owner in sc.owners
    requires t.rules.binds || Unbound(t, portID)
    ensures Evolves(t, PlaceFloatingIP(t, id, address, owner, portID), sc)
  {
    hide Valid, Fresh, Quiet, TagsReadable, PortName, PortDescription, FloatingIPDescription;
    hide Ages, Marked, ValidCloud, OneBound, SameOrNew, StoresEvolve, KeepsLive, Unbound, Unbinds, SparesForeign;
    var v := PlaceFloatingIP(t, id, address, owner, portID);
    PlaceFloatingIPCloud(t.cloud, t.log.made,
      FloatingIP(id, address, portID, FloatingIPDescription(owner.key), []), owner);
    PlaceSpares(t.cloud, t.log.made, Port(id, "", "", [], "", "", ""),
      FloatingIP(id, address, portID, FloatingIPDescription(owner.key), []));
    if !t.rules.binds {
      PlaceFloatingIPBound(t, id, address, owner, portID);
    }
    assert StoresEvolve(t, v, sc) by { SameStores(t, v, sc); }
  }

  lemma SetTagsValid(c: Neutron, kind: Kind, id: string, tags: seq<string>)
    requires ValidCloud(c)
    ensures var d := SetTags(c, kind, id, tags);
      ValidCloud(d) && Ages(c, d) && KeepsLive(c, d) && d.subnets == c.subnets
  {
  }

  lemma SetTagsSpares(c: Neutron, made: map<string, Owner>, kind: Kind, id: string, tags: seq<string>)
    requires id in made
    ensures var d := SetTags(c, kind, id, tags);
      Unbinds(c, d) && SparesForeign(c, d, made) && (OneBound(c, made) ==> OneBound(d, made))
  {
    hide OwnedByOperator;
  }

  lemma SetTagsMarked(c: Neutron, made: map<string, Owner>, kind: Kind, id: string, tags: seq<string>)
    requires Marked(c, made)
    ensures Marked(SetTags(c, kind, id, tags), made)
  {
    hide PortName, PortDescription, FloatingIPDescription;
  }

  lemma SetTagsEvolves(t: World, kind: Kind, id: string, tags: seq<string>, sc: Scope)
    requires WF(t) && id in t.log.made
    ensures Evolves(t, t.(cloud := SetTags(t.cloud, kind, id, tags)), sc)
  {
    hide Valid, Fresh, Quiet, TagsReadable, Marked, ValidCloud, OneBound, Ages, KeepsLive, SetTags, StoresEvolve;
    hide Unbinds, SparesForeign;
    var v := t.(cloud := SetTags(t.cloud, kind, id, tags));
    SetTagsValid(t.cloud, kind, id, tags);
    SetTagsSpares(t.cloud, t.log.made, kind, id, tags);
    SetTagsMarked(t.cloud, t.log.made, kind, id, tags);
    SameStores(t, v, sc);
  }

  lemma TagResourceEvolves(w: World, kind: Kind, id: string, tags: seq<string>, sc: Scope)
    requires WF(w) && id in w.log.made
    ensures Evolves(w, TagResource(w, kind, id, tags), sc)
  {
    hide WF, Tick, Moves, Drifts, Flow, StoresEvolve, CloudEvolves, SetTags;
    var t := Tick(w);
    TickEvolves(w, sc);
    SetTagsEvolves(t, kind, id, tags, sc);
    EvolvesTransitive(w, t, t.(cloud := SetTags(t.cloud, kind, id, tags)), sc);
  }

  lemma CreatePortEvolves(w: World, owner: Owner, networkID: string, subnetID: string, ip: string, sc: Scope)
    requires WF(w) && owner in sc.owners
    ensures Evolves(w, CreatePort(w, owner, networkID, subnetID, ip).w, sc)
  {
    hide WF, Tick, Others, Flow, StoresEvolve, CloudEvolves, PlacePort, TagResource, Fault, Mishap, NewID, TagList;
    var t := Tick(w);
    TickEvolves(w, sc);
    var id := NewID(t.cloud, Next(w).id);
    var p := PlacePort(t, id, owner, networkID, subnetID, ip);
    PlacePortEvolves(t, id, owner, networkID, subnetID, ip, sc);
    EvolvesTransitive(w, t, p, sc);
    match Next(w).fate {
      case Fails =>
        NotesEvolve(t, owner, id, sc);
        NotesEvolve(Fault(t), owner, id, sc);
        EvolvesTransitive(w, t, Fault(t), sc);
        EvolvesTransitive(w, Fault(t), Mishap(Fault(t), owner), sc);
      case FailsAfter =>
        NotesEvolve(p, owner, id, sc);
        NotesEvolve(Fault(p), owner, id, sc);
        EvolvesTransitive(w, p, Fault(p), sc);
        EvolvesTransitive(w, Fault(p), Mishap(Fault(p), owner), sc);
      case Succeeds =>
        var tags := TagList(owner, "ports", w.cluster);
        assert id in p.log.made by { PlacedIsMade(t, id, owner, networkID, subnetID, ip); }
        TagResourceEvolves(p, PortKind, id, tags, sc);
        EvolvesTransitive(w, p, TagResource(p, PortKind, id, tags), sc);
    }
  }

  lemma OthersUnbound(a: World, b: World, portID: string)
    requires WF(a) && Others(a, b) && !a.rules.binds && portID != "" && Unbound(a, portID)
    ensures Unbound(b, portID)
  {
    hide Valid, OneBound, ValidCloud, Moves, PortName, PortDescription, FloatingIPDescription, Flow;
  }

  lemma CreateFloatingIPEvolves(w: World, owner: Owner, portID: string, sc: Scope)
    requires WF(w) && owner in sc.owners && portID != ""
    requires w.rules.binds || Unbound(w, portID)
    ensures Evolves(w, CreateFloatingIP(w, owner, portID).w, sc)
  {
    hide WF, Tick, Flow, StoresEvolve, CloudEvolves, PlaceFloatingIP, TagResource, Fault, NewID, TagList, Unbound;
    var t := Tick(w);
    TickEvolves(w, sc);
    if !w.rules.binds {
      OthersUnbound(w, t, portID);
    }
    assert t.rules == w.rules by { FlowRules(w, t); }
    hide Others;
    var id := NewID(t.cloud, Next(w).id);
    var address := if Next(w).text == "" then id else Next(w).text;
    var f := PlaceFloatingIP(t, id, address, owner, portID);
    PlaceFloatingIPEvolves(t, id, address, owner, portID, sc);
    EvolvesTransitive(w, t, f, sc);
    match Next(w).fate {
      case Fails =>
        NotesEvolve(t, owner, id, sc);
        EvolvesTransitive(w, t, Fault(t), sc);
      case FailsAfter =>
        NotesEvolve(f, owner, id, sc);
        EvolvesTransitive(w, f, Fault(f), sc);
      case Succeeds =>
        var tags := TagList(owner, "floatingips", w.cluster);
        assert id in f.log.made by { PlacedIsMade(t, id, owner, "", "", ""); }
        TagResourceEvolves(f, FloatingIPKind, id, tags, sc);
        EvolvesTransitive(w, f, TagResource(f, FloatingIPKind, id, tags), sc);
    }
  }

  lemma FlowRules(a: World, b: World)
    requires Flow(a, b)
    ensures a.rules == b.rules && a.texts == b.texts && (a.script == [] ==> b.script == [])
    ensures (Quiet(a.script) ==> Quiet(b.script)) && (Fresh(a.script) ==> Fresh(b.script))
    ensures TagsReadable(a.script) ==> TagsReadable(b.script)
  {
    hide Quiet, Fresh, TagsReadable;
  }

  // ----- Deletion -----

  /** Taking a resource changes the cloud and what is noted about deletions. */
  lemma TakeNotes(t: World, kind: Kind, id: string)
    ensures var v := Take(t, kind, id);
      && v == t.(cloud := v.cloud, log := t.log.(taken := v.log.taken, seized := v.log.seized))
      && !Live(v.cloud, kind, id) && (v.cloud == t.cloud || v.cloud == Remove(t.cloud, kind, id))
  {
    hide OwnedByOperator;
  }

  lemma TakeSpares(t: World, kind: Kind, id: string)
    requires Live(t.cloud, kind, id) ==> OwnedByOperator(TagsOf(t.cloud, kind, id))
    ensures Spares(t, Take(t, kind, id))
  {
    hide OwnedByOperator, Quiet;
  }

  lemma TakeAdvances(t: World, kind: Kind, id: string, sc: Scope)
    requires WF(t) && sc.deletes
    ensures Advances(t, Take(t, kind, id), sc)
    ensures (Live(t.cloud, kind, id) ==> OwnedByOperator(TagsOf(t.cloud, kind, id))) ==>
              Spares(t, Take(t, kind, id))
  {
    hide Valid, Fresh, Quiet, TagsReadable, OwnedByOperator, Ages, Marked, ValidCloud, OneBound, Drifts, StoresEvolve;
    hide Spares, Unbinds, KeepsLive, Take, Remove;
    TakeNotes(t, kind, id);
    RemoveSubnets(t.cloud, kind, id);
    var d := Remove(t.cloud, kind, id);
    RemoveDrifts(true, t.cloud, kind, id);
    RemoveDrifts(false, t.cloud, kind, id);
    DriftsAge(true, t.cloud, d);
    DriftsMarked(true, t.cloud, d, t.log.made);
    if !t.rules.binds {
      DriftsOneBound(t.cloud, d, t.log.made);
    }
    EvolvesReflexive(t, sc);
    SameStores(t, Take(t, kind, id), sc);
    RemoveUnbinds(t.cloud, kind, id);
    assert (Live(t.cloud, kind, id) ==> OwnedByOperator(TagsOf(t.cloud, kind, id))) ==>
      Spares(t, Take(t, kind, id)) by {
      if Live(t.cloud, kind, id) ==> OwnedByOperator(TagsOf(t.cloud, kind, id)) {
        TakeSpares(t, kind, id);
      }
    }
  }

  lemma RemoveSubnets(c: Neutron, kind: Kind, id: string)
    ensures Remove(c, kind, id).subnets == c.subnets
  {
  }

  lemma RemoveUnbinds(c: Neutron, kind: Kind, id: string)
    ensures Unbinds(c, Remove(c, kind, id))
  {
  }

  lemma OthersTags(a: World, b: World, kind: Kind, id: string)
    requires Others(a, b) && id in a.cloud.used
    ensures Live(b.cloud, kind, id) ==>
      Live(a.cloud, kind, id) && TagsOf(b.cloud, kind, id) == TagsOf(a.cloud, kind, id)
    ensures a.log == b.log && (Quiet(a.script) ==> a.cloud == b.cloud)
  {
    hide Moves, Flow, Quiet;
  }

  lemma DeleteCallAdvances(w: World, kind: Kind, id: string, sc: Scope)
    requires WF(w) && sc.deletes && id in w.cloud.used
    ensures Advances(w, DeleteCall(w, kind, id).w, sc)
    ensures (Live(w.cloud, kind, id) ==> OwnedByOperator(TagsOf(w.cloud, kind, id))) ==>
              Spares(w, DeleteCall(w, kind, id).w)
  {
    hide WF, Tick, Flow, StoresEvolve, CloudEvolves, Take, OwnedByOperator, Moves, Quiet, TagsReadable;
    var t := Tick(w);
    FaultEvolves(w, sc);
    OthersTags(w, t, kind, id);
    FlowRules(w, t);
    hide Others;
    TakeAdvances(t, kind, id, sc);
    var d := Take(t, kind, id);
    AdvancesTransitive(w, t, d, sc);
    NotesEvolve(d, Owner(Key("", ""), 0), "", sc);
    AdvancesTransitive(w, d, Fault(d), sc);
  }

  lemma DeleteResourceEvolves(w: World, kind: Kind, id: string, sc: Scope)
    requires WF(w) && sc.deletes
    ensures Evolves(w, DeleteResource(w, kind, id).w, sc)
  {
    hide Tick, Others, Flow, StoresEvolve, CloudEvolves, DeleteCall, OwnedByOperator, Spares;
    hide Valid, Marked, OneBound, Ages, TagsReadable, Quiet, Fresh;
    FaultEvolves(w, sc);
    var g := GetResource(w, kind, id);
    if g.v.Some? && g.v.value {
      var t := Tick(g.w);
      FaultEvolves(g.w, sc);
      UsedGrows(g.w, t, sc);
      EvolvesTransitive(w, g.w, t, sc);
      EvolvesTransitive(w, g.w, Fault(t), sc);
      DeleteCallAdvances(t, kind, id, sc);
      var d := DeleteCall(t, kind, id);
      AdvancesTransitive(w, t, d.w, sc);
      FlowRules(w, g.w);
      FlowRules(w, t);
      NextReadable(g.w);
      if TagsReadable(w.script) && (Live(t.cloud, kind, id) ==> OwnedByOperator(TagsOf(t.cloud, kind, id))) {
        SparesTransitive(w, t, d.w, sc);
      }
    }
  }

  lemma UsedGrows(a: World, b: World, sc: Scope)
    requires Advances(a, b, sc)
    ensures forall id :: id in a.cloud.used ==> id in b.cloud.used
  {
    hide Flow, StoresEvolve, WF, LogGrows, KeepsLive;
  }

  lemma NextReadable(w: World)
    ensures TagsReadable(w.script) ==> Next(w).tagsReadable
    ensures Fresh(w.script) ==> Next(w).view == map[]
  {
  }
}
