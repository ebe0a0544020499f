/** Deleting a load balancer converges: when every call succeeds, records name live resources,
    what is selected is owned, and no service's selection reaches another's recorded resources, two
    passes take the finalizer off. */
module Dismantling {
  import opened Kube
  import opened Cloud
  import opened Selection
  import opened Tags
  import opened Worlds
  import opened Calls
  import opened Retry
  import opened Requests
  import opened Operator
  import opened Evolution
  import opened Passes
  import opened Teardown
  import opened Orphans
  import opened Runs
  import opened Refinement
  import opened Undisturbed
  import opened Progress
  import opened Truthful
  import opened Deletion

  // ----- Deletions -----

  /** The second cloud is the first without those resources of one kind, among the given ids, that carry
      the ownership tag. */
  ghost predicate Without(a: Neutron, b: Neutron, kind: Kind, ids: seq<string>) {
    && b.used == a.used && b.subnets == a.subnets
    && (forall id :: id in b.ports <==>
           id in a.ports && !(kind == PortKind && id in ids && OwnedByOperator(a.ports[id].tags)))
    && (forall id :: id in b.ports ==> b.ports[id] == a.ports[id])
    && (forall id :: id in b.fips <==>
           id in a.fips && !(kind == FloatingIPKind && id in ids && OwnedByOperator(a.fips[id].tags)))
    && (forall id :: id in b.fips ==> b.fips[id] == a.fips[id])
  }

  /** Deleting the resource is not refused. */
  predicate Deletable(c: Neutron, kind: Kind, id: string) {
    Live(c, kind, id) ==> OwnedByOperator(TagsOf(c, kind, id))
  }

  /** A calm deletion succeeds unless the resource is there without the tag, and then it is left. */
  lemma CalmDelete(w: World, kind: Kind, id: string)
    requires Still(w) && w.script == []
    ensures var d := DeleteResource(w, kind, id);
      && (d.v <==> Deletable(w.cloud, kind, id))
      && Follows(w, d.w) && d.w.services == w.services && d.w.lbs == w.lbs && Without(w.cloud, d.w.cloud, kind, [id])
  {
    hide WF, Quiet, Fresh, Tick, OwnedByOperator, StoresEvolve, CloudEvolves, Spares, TagsReadable;
    var sc := Scope({}, {}, {}, {}, true);
    DeleteResourceEvolves(w, kind, id, sc);
    EvolvesStill(w, DeleteResource(w, kind, id).w, sc);
    TickStill(w);
    TickStill(Tick(w));
    TickStill(Tick(Tick(w)));
  }

  ghost predicate AllDeletable(c: Neutron, kind: Kind, ids: seq<string>) {
    forall id :: id in ids ==> Deletable(c, kind, id)
  }

  lemma {:induction false} CalmDeleteAll(w: World, kind: Kind, ids: seq<string>, watched: string)
    requires Still(w) && w.script == []
    ensures var d := DeleteAll(w, kind, ids, watched);
      && (d.v.failed <==> !AllDeletable(w.cloud, kind, ids))
      && (d.v.hit <==> watched in ids && Deletable(w.cloud, kind, watched))
      && Follows(w, d.w) && d.w.services == w.services && d.w.lbs == w.lbs && Without(w.cloud, d.w.cloud, kind, ids)
    decreases |ids|
  {
    hide Still, Deletable, DeleteResource;
    if ids != [] {
      hide AllDeletable;
      var d := DeleteResource(w, kind, ids[0]);
      CalmDelete(w, kind, ids[0]);
      DeletableStill(w.cloud, d.w.cloud, kind, ids);
      DeletableFirst(w.cloud, kind, ids);
      CalmDeleteAll(d.w, kind, ids[1..], watched);
      var r := DeleteAll(d.w, kind, ids[1..], watched);
      WithoutMore(w.cloud, d.w.cloud, r.w.cloud, kind, ids);
      hide Without;
    }
  }

  /** What a deletion leaves is as deletable as before. */
  lemma DeletableStill(a: Neutron, b: Neutron, kind: Kind, ids: seq<string>)
    requires ids != [] && Without(a, b, kind, [ids[0]])
    ensures forall id :: Deletable(a, kind, id) <==> Deletable(b, kind, id)
    ensures AllDeletable(a, kind, ids[1..]) <==> AllDeletable(b, kind, ids[1..])
  {
    hide OwnedByOperator;
    forall id ensures Deletable(a, kind, id) <==> Deletable(b, kind, id) {
    }
  }

  lemma DeletableFirst(c: Neutron, kind: Kind, ids: seq<string>)
    requires ids != []
    ensures AllDeletable(c, kind, ids) <==> Deletable(c, kind, ids[0]) && AllDeletable(c, kind, ids[1..])
  {
    hide Deletable;
    assert forall id :: id in ids <==> id == ids[0] || id in ids[1..];
  }

  lemma WithoutMore(a: Neutron, b: Neutron, c: Neutron, kind: Kind, ids: seq<string>)
    requires ids != [] && Without(a, b, kind, [ids[0]]) && Without(b, c, kind, ids[1..])
    ensures Without(a, c, kind, ids)
  {
    hide OwnedByOperator;
    assert forall id :: id in ids <==> id in [ids[0]] || id in ids[1..];
  }

  // ----- Cleanup -----

  predicate PicksPort(svc: Service, c: Neutron, id: string) {
    id in c.ports && SelectsPort(c.ports[id], svc.key, Annotation(svc, PortID))
  }

  predicate PicksFloatingIP(svc: Service, c: Neutron, id: string) {
    id in c.fips && SelectsFloatingIP(c.fips[id], svc.key, Annotation(svc, PortID), Annotation(svc, FloatingIPID))
  }

  /** Every resource selected for the service carries the ownership tag. */
  ghost predicate SelectedOwned(svc: Service, c: Neutron) {
    && (forall id :: PicksPort(svc, c, id) ==> OwnedByOperator(c.ports[id].tags))
    && (forall id :: PicksFloatingIP(svc, c, id) ==> OwnedByOperator(c.fips[id].tags))
  }

  /** The second cloud is the first without some resources selected for the service. */
  ghost predicate Trimmed(a: Neutron, b: Neutron, svc: Service) {
    && b.used == a.used
    && (forall id :: id in b.ports ==> id in a.ports && b.ports[id] == a.ports[id])
    && (forall id :: id in b.fips ==> id in a.fips && b.fips[id] == a.fips[id])
    && (forall id :: id in a.ports && id !in b.ports ==> PicksPort(svc, a, id))
    && (forall id :: id in a.fips && id !in b.fips ==> PicksFloatingIP(svc, a, id))
  }

  /** Of what is selected, a cleanup takes what carries the tag. */
  predicate TakesPort(svc: Service, c: Neutron, id: string) {
    PicksPort(svc, c, id) && OwnedByOperator(c.ports[id].tags)
  }

  predicate TakesFloatingIP(svc: Service, c: Neutron, id: string) {
    PicksFloatingIP(svc, c, id) && OwnedByOperator(c.fips[id].tags)
  }

  /** The second cloud is the first without all that a cleanup for the service takes. */
  ghost predicate Cut(a: Neutron, b: Neutron, svc: Service) {
    && b.used == a.used && b.subnets == a.subnets
    && (forall id :: id in b.ports <==> id in a.ports && !TakesPort(svc, a, id))
    && (forall id :: id in b.ports ==> b.ports[id] == a.ports[id])
    && (forall id :: id in b.fips <==> id in a.fips && !TakesFloatingIP(svc, a, id))
    && (forall id :: id in b.fips ==> b.fips[id] == a.fips[id])
  }

  lemma CutTrims(a: Neutron, b: Neutron, svc: Service)
    requires Cut(a, b, svc)
    ensures Trimmed(a, b, svc)
  {
    hide PicksPort, PicksFloatingIP, OwnedByOperator;
  }

  /** What the service records is live. */
  predicate RecordsLive(svc: Service, c: Neutron) {
    && (HasAnnotation(svc, PortID) ==> Annotation(svc, PortID) in c.ports)
    && (HasAnnotation(svc, FloatingIPID) ==> Annotation(svc, FloatingIPID) in c.fips)
  }

  lemma SelectedPicks(c: Neutron, svc: Service, fips: seq<FloatingIP>, ports: seq<Port>)
    requires ListsFloatingIPs(c, fips) && ListsPorts(c, ports) && ValidCloud(c)
    ensures forall id :: id in SelectedPorts(svc, ports) <==> PicksPort(svc, c, id)
    ensures forall id :: id in SelectedFloatingIPs(svc, fips) <==> PicksFloatingIP(svc, c, id)
  {
    hide SelectsPort, SelectsFloatingIP, PortsFor, FloatingIPsFor, PortIDs, FloatingIPIDs, Annotation;
    SelectedIDs(fips, ports, svc.key, Annotation(svc, PortID), Annotation(svc, FloatingIPID));
    forall id | PicksPort(svc, c, id) ensures id in SelectedPorts(svc, ports) {
      assert c.ports[id] in ports && c.ports[id].id == id;
    }
    forall id | PicksFloatingIP(svc, c, id) ensures id in SelectedFloatingIPs(svc, fips) {
      assert c.fips[id] in fips && c.fips[id].id == id;
    }
  }

  /** The deletions of a calm cleanup take exactly what is selected and owned, and fail exactly when
      something selected is not owned. */
  lemma CalmSweeps(w: World, svc: Service, fips: seq<FloatingIP>, ports: seq<Port>)
    requires Still(w) && w.script == []
    requires ListsFloatingIPs(w.cloud, fips) && ListsPorts(w.cloud, ports)
    ensures var s := Sweeps(w, svc, fips, ports);
      && (s.v.0.failed || s.v.1.failed <==> !SelectedOwned(svc, w.cloud))
      && Follows(w, s.w) && s.w.services == w.services && s.w.lbs == w.lbs
      && Cut(w.cloud, s.w.cloud, svc)
      && (s.v.0.hit <==> TakesFloatingIP(svc, w.cloud, Annotation(svc, FloatingIPID)))
      && (s.v.1.hit <==> TakesPort(svc, w.cloud, Annotation(svc, PortID)))
  {
    hide Still, OwnedByOperator, DeleteAll, SelectsPort, SelectsFloatingIP, PortsFor, FloatingIPsFor, PortIDs;
    hide FloatingIPIDs;
    hide ListsFloatingIPs, ListsPorts, Annotation, AllDeletable, SelectedOwned, Cut, Without;
    assert ValidCloud(w.cloud) by { StillWF(w); hide ValidCloud, Valid, Marked, OneBound; }
    SelectedPicks(w.cloud, svc, fips, ports);
    hide ValidCloud;
    var fs, ps := SelectedFloatingIPs(svc, fips), SelectedPorts(svc, ports);
    CalmDeleteAll(w, FloatingIPKind, fs, Annotation(svc, FloatingIPID));
    var f := DeleteAll(w, FloatingIPKind, fs, Annotation(svc, FloatingIPID));
    CalmDeleteAll(f.w, PortKind, ps, Annotation(svc, PortID));
    var p := DeleteAll(f.w, PortKind, ps, Annotation(svc, PortID));
    SweepsCut(w.cloud, f.w.cloud, p.w.cloud, svc, fs, ps);
  }

  lemma SweepsCut(a: Neutron, b: Neutron, c: Neutron, svc: Service, fs: seq<string>, ps: seq<string>)
    requires Without(a, b, FloatingIPKind, fs) && Without(b, c, PortKind, ps)
    requires forall id :: id in ps <==> PicksPort(svc, a, id)
    requires forall id :: id in fs <==> PicksFloatingIP(svc, a, id)
    ensures Cut(a, c, svc)
    ensures !AllDeletable(a, FloatingIPKind, fs) || !AllDeletable(b, PortKind, ps) <==> !SelectedOwned(svc, a)
    ensures forall id :: Deletable(b, PortKind, id) <==> Deletable(a, PortKind, id)
  {
    hide OwnedByOperator, PicksPort, PicksFloatingIP, SelectedOwned, AllDeletable, Deletable;
    assert b.ports == a.ports;
    SamePorts(a, b, ps);
    hide Without, Cut;
    DeletableSelected(a, svc, fs, ps);
  }

  lemma SamePorts(a: Neutron, b: Neutron, ps: seq<string>)
    requires a.ports == b.ports
    ensures AllDeletable(a, PortKind, ps) <==> AllDeletable(b, PortKind, ps)
    ensures forall id :: Deletable(b, PortKind, id) <==> Deletable(a, PortKind, id)
  {
    hide OwnedByOperator;
    assert forall id :: Deletable(b, PortKind, id) <==> Deletable(a, PortKind, id);
  }

  lemma DeletableSelected(a: Neutron, svc: Service, fs: seq<string>, ps: seq<string>)
    requires forall id :: id in ps <==> PicksPort(svc, a, id)
    requires forall id :: id in fs <==> PicksFloatingIP(svc, a, id)
    ensures AllDeletable(a, FloatingIPKind, fs) && AllDeletable(a, PortKind, ps) <==> SelectedOwned(svc, a)
  {
    hide OwnedByOperator, SelectsPort, SelectsFloatingIP, Annotation;
    assert SelectedOwned(svc, a) ==> AllDeletable(a, FloatingIPKind, fs) && AllDeletable(a, PortKind, ps);
    if AllDeletable(a, FloatingIPKind, fs) && AllDeletable(a, PortKind, ps) {
      forall id | PicksPort(svc, a, id) ensures OwnedByOperator(a.ports[id].tags) {
        assert Deletable(a, PortKind, id);
      }
      forall id | PicksFloatingIP(svc, a, id) ensures OwnedByOperator(a.fips[id].tags) {
        assert Deletable(a, FloatingIPKind, id);
      }
    }
  }

  /** A calm cleanup, whatever is selected: it takes what carries the tag and leaves the rest, blanks
      exactly the records of what it took, and asks for another pass exactly when the service has a
      record or something selected was refused. */
  lemma CalmCleanup(w: World, svc: Service)
    requires Still(w) && w.script == [] && svc.key in w.services.objects && w.services.objects[svc.key] == svc
    ensures var c := Cleanup(w, svc);
      && c.v == Verdict(HasResources(svc) || !SelectedOwned(svc, w.cloud), false)
      && Follows(w, c.w) && c.w.lbs == w.lbs && Cut(w.cloud, c.w.cloud, svc)
      && exists fip, port {:trigger Blanks(fip, port)} ::
           && (fip <==> TakesFloatingIP(svc, w.cloud, Annotation(svc, FloatingIPID)))
           && (port <==> TakesPort(svc, w.cloud, Annotation(svc, PortID)))
           && c.w.services == Replace(w.services, Annotated(svc, Blanks(fip, port)))
  {
    hide Still, Tick, OwnedByOperator, Sweeps, EditAnnotations, Blanks, Replace, Listed, HasResources;
    hide ListsFloatingIPs, ListsPorts, TakesFloatingIP, TakesPort, SelectedOwned, Cut, FloatingIPList, PortList;
    hide Evolves;
    var none := Scope({}, {}, {}, {}, true);
    StillWF(w);
    TickStill(w);
    var fips := ListFloatingIPs(w);
    ListFloatingIPsFacts(w, none);
    StillWF(fips.w);
    TickStill(fips.w);
    var ports := ListPorts(fips.w);
    ListFloatingIPsFacts(fips.w, none);
    CalmSweeps(ports.w, svc, fips.v.value, ports.v.value);
    var s := Sweeps(ports.w, svc, fips.v.value, ports.v.value);
    var edits := Blanks(s.v.0.hit, s.v.1.hit);
    if edits == map[] {
      assert Annotated(svc, edits) == svc by { assert svc.annotations + edits == svc.annotations; }
      RewriteNothing(s.w.services, svc);
    } else {
      EditStill(s.w, svc.key, edits, STEPS);
      CalmUpdates(s.w, svc.key, edits, "", STEPS);
    }
  }

  lemma RewriteNothing(s: Store<ServiceSpec, ServiceStatus>, o: Service)
    requires o.key in s.objects && s.objects[o.key] == o
    ensures Replace(s, o) == s
  {
  }

  /** With live records and a service that is not terminating, a calm cleanup blanks both. */
  lemma CalmCleanupBlanks(w: World, svc: Service)
    requires Still(w) && w.script == [] && svc.key in w.services.objects && w.services.objects[svc.key] == svc
    requires SelectedOwned(svc, w.cloud) && RecordsLive(svc, w.cloud) && !svc.terminating
    ensures var s := Cleanup(w, svc).w.services;
      svc.key in s.objects && !s.objects[svc.key].terminating && !HasResources(s.objects[svc.key])
        && s.objects[svc.key].key == svc.key
  {
    hide Still, OwnedByOperator, Cleanup, Replace, Cut, DescribedFor, PortTextFor, PicksPort, PicksFloatingIP;
    CalmCleanup(w, svc);
    var fip, port :|
      && (fip <==> TakesFloatingIP(svc, w.cloud, Annotation(svc, FloatingIPID)))
      && (port <==> TakesPort(svc, w.cloud, Annotation(svc, PortID)))
      && Cleanup(w, svc).w.services == Replace(w.services, Annotated(svc, Blanks(fip, port)));
    assert Valid(w.services) by { StillWF(w); hide Valid; }
    ReplaceStores(w.services, Annotated(svc, Blanks(fip, port)));
    RecordsPicked(w, svc);
    Blanked(svc, fip, port);
    hide Annotated, Annotation, Blanks, HasAnnotation;
  }

  lemma Blanked(svc: Service, fip: bool, port: bool)
    requires (HasAnnotation(svc, PortID) ==> port) && (HasAnnotation(svc, FloatingIPID) ==> fip)
    ensures forall v :: !HasResources(Annotated(svc, Blanks(fip, port)).(version := v))
    ensures Annotated(svc, Blanks(fip, port)).key == svc.key
    ensures Annotated(svc, Blanks(fip, port)).terminating == svc.terminating
  {
    assert PortID in Blanks(fip, port) <==> port;
    assert FloatingIPID in Blanks(fip, port) <==> fip;
  }

  lemma RecordsPicked(w: World, svc: Service)
    requires Still(w) && RecordsLive(svc, w.cloud)
    ensures HasAnnotation(svc, PortID) ==> PicksPort(svc, w.cloud, Annotation(svc, PortID))
    ensures HasAnnotation(svc, FloatingIPID) ==> PicksFloatingIP(svc, w.cloud, Annotation(svc, FloatingIPID))
  {
    hide Quiet, Fresh, Valid, Marked, OneBound, DescribedFor;
  }

  // ----- Finalization -----

  /** The service is let go of: it is not held, or records a resource, or nothing is refused. */
  ghost predicate Releasable(svc: Service, c: Neutron) {
    ServiceFinalizer !in svc.finalizers || HasResources(svc) || SelectedOwned(svc, c)
  }

  /** A calm finalization of a terminating service lets go of it, except when it is held, records
      nothing, and something selected for it does not carry the tag: then it stays as it is, and another
      pass is asked for.  In any case what is selected and carries the tag is gone. */
  lemma CalmFinalize(w: World, svc: Service)
    requires Still(w) && w.script == [] && svc.key in w.services.objects && w.services.objects[svc.key] == svc
    requires svc.terminating
    ensures var r := Finalize(w, svc);
      && r.v == (if Releasable(svc, w.cloud) then DONE else Verdict(true, false))
      && Follows(w, r.w) && r.w.lbs == w.lbs && Trimmed(w.cloud, r.w.cloud, svc)
      && (ServiceFinalizer in svc.finalizers ==> Cut(w.cloud, r.w.cloud, svc))
      && (if Releasable(svc, w.cloud)
          then svc.key in r.w.services.objects ==>
            r.w.services.objects[svc.key].terminating && ServiceFinalizer !in r.w.services.objects[svc.key].finalizers
          else Current(r.w.services, svc.key) == Some(svc))
  {
    hide Still, Cleanup, Forced, DropFinalizer, SelectedOwned, PicksPort, PicksFloatingIP, OwnedByOperator;
    hide HasAnnotation;
    if ServiceFinalizer in svc.finalizers {
      hide Trimmed, Cut;
      CalmCleanup(w, svc);
      var c := Cleanup(w, svc);
      CutTrims(w.cloud, c.w.cloud, svc);
      var fip, port :| c.w.services == Replace(w.services, Annotated(svc, Blanks(fip, port)));
      CleanupStores(w.services, svc, fip, port);
      if HasResources(svc) {
        CalmForce(c.w, svc);
      } else {
        StillWF(w);
        DoneWritesNothing(w, svc);
        StoresStay(w, c.w, Scope({}, {}, {}, {}, true), svc.key);
        CalmDrop(c.w, svc);
      }
    }
  }

  lemma CleanupStores(s: Store<ServiceSpec, ServiceStatus>, svc: Service, fip: bool, port: bool)
    requires svc.key in s.objects && s.objects[svc.key] == svc && ServiceFinalizer in svc.finalizers
    ensures var t := Replace(s, Annotated(svc, Blanks(fip, port)));
      svc.key in t.objects && t.objects[svc.key].terminating == svc.terminating && t.objects[svc.key].key == svc.key
  {
    hide Blanks;
  }

  lemma CalmForce(w: World, svc: Service)
    requires Still(w) && w.script == [] && svc.terminating
    requires svc.key in w.services.objects && w.services.objects[svc.key].terminating
    ensures var f := Forced(w, svc);
      f.v == DONE && Follows(w, f.w) && f.w.lbs == w.lbs && f.w.cloud == w.cloud && svc.key !in f.w.services.objects
  {
    hide Tick, Still, Replace, Evolves;
    TickStill(w);
    KeyStored(w, svc.key);
    assert Valid(w.services) by { StillWF(w); hide Valid; }
    ReplaceOutside(w.services, w.services.objects[svc.key].(finalizers := []), {svc.key});
    StillWF(w);
    var sc := Scope({svc.key}, {svc.key}, {}, {}, true);
    ForcedEvolves(w, svc, sc);
    EvolvesStill(w, Forced(w, svc).w, sc);
  }

  lemma CalmDrop(w: World, svc: Service)
    requires Still(w) && w.script == [] && svc.terminating && svc.key in w.services.objects
    requires w.services.objects[svc.key] == svc
    ensures var d := DropFinalizer(w, svc);
      && d.v == DONE && Follows(w, d.w) && d.w.lbs == w.lbs && d.w.cloud == w.cloud
      && (svc.key in d.w.services.objects ==>
            d.w.services.objects[svc.key].terminating && ServiceFinalizer !in d.w.services.objects[svc.key].finalizers)
  {
    hide Still, WriteService, Replace, Forced, RemoveFinalizer;
    var o := svc.(finalizers := RemoveFinalizer(svc.finalizers, ServiceFinalizer));
    WriteStill(w, o, STEPS);
    CalmWrites(w, o, STEPS);
    assert Valid(w.services) by { StillWF(w); hide Valid; }
    ReplaceOutside(w.services, Merge(svc, o), {svc.key});
  }

  // ----- The loop -----

  /** A deletion cleans up for the service: it is not terminating, or held by the finalizer. */
  predicate Cleans(svc: Service, className: string) {
    Involved(svc, className) && (!svc.terminating || ServiceFinalizer in svc.finalizers)
  }

  ghost predicate Sound(svc: Service, c: Neutron) {
    SelectedOwned(svc, c) && (!svc.terminating ==> RecordsLive(svc, c))
  }

  /** The selection of one service does not reach what the other records. */
  ghost predicate Apart(svc: Service, other: Service, c: Neutron) {
    !PicksPort(svc, c, Annotation(other, PortID)) && !PicksFloatingIP(svc, c, Annotation(other, FloatingIPID))
  }

  ghost predicate Orderly(c: Neutron, svcs: seq<Service>, className: string) {
    && (forall s :: s in svcs && Cleans(s, className) ==> Sound(s, c))
    && (forall s, t :: s in svcs && t in svcs && s.key != t.key && Cleans(s, className) && Owing(t, className) ==>
           Apart(s, t, c))
  }

  ghost predicate Shrunk(a: Neutron, b: Neutron) {
    && b.used == a.used
    && (forall id :: id in b.ports ==> id in a.ports && b.ports[id] == a.ports[id])
    && (forall id :: id in b.fips ==> id in a.fips && b.fips[id] == a.fips[id])
  }

  lemma ShrunkPicks(svc: Service, a: Neutron, b: Neutron)
    requires Shrunk(a, b)
    ensures forall id :: PicksPort(svc, b, id) ==> PicksPort(svc, a, id) && b.ports[id] == a.ports[id]
    ensures forall id :: PicksFloatingIP(svc, b, id) ==> PicksFloatingIP(svc, a, id) && b.fips[id] == a.fips[id]
  {
    hide SelectsPort, SelectsFloatingIP, Annotation;
  }

  lemma SoundStays(x: Service, s: Service, a: Neutron, b: Neutron)
    requires Sound(s, a) && Trimmed(a, b, x) && (!s.terminating ==> Apart(x, s, a))
    ensures Sound(s, b)
  {
    hide OwnedByOperator, PicksPort, PicksFloatingIP;
    ShrunkPicks(s, a, b);
  }

  /** Cleaning up for the first service leaves the others orderly. */
  lemma OrderlyRest(a: Neutron, b: Neutron, svcs: seq<Service>, className: string)
    requires svcs != [] && Orderly(a, svcs, className) && (forall s :: s in svcs[1..] ==> s.key != svcs[0].key)
    requires Trimmed(a, b, svcs[0]) && (!Cleans(svcs[0], className) ==> a == b)
    ensures Orderly(b, svcs[1..], className)
  {
    hide Cleans, Sound, Involved, PicksPort, PicksFloatingIP;
    if a != b {
      var x, rest := svcs[0], svcs[1..];
      assert x in svcs;
      forall s | s in rest && Cleans(s, className) ensures Sound(s, b) {
        assert s in svcs;
        OwingCleans(s, className);
        SoundStays(x, s, a, b);
      }
      forall s, t | s in rest && t in rest && s.key != t.key && Cleans(s, className) && Owing(t, className)
        ensures Apart(s, t, b)
      {
        assert s in svcs && t in svcs;
        ShrunkPicks(s, a, b);
      }
    }
  }

  lemma OwingCleans(s: Service, className: string)
    ensures Cleans(s, className) && !s.terminating ==> Owing(s, className)
  {
    hide Involved;
  }

  /** What the loop leaves of a listed service. */
  ghost predicate Laid(s: Service, b: World, className: string) {
    if !Involved(s, className) then s.key in b.services.objects && b.services.objects[s.key] == s
    else if s.terminating then
      s.key in b.services.objects ==>
        b.services.objects[s.key].terminating && ServiceFinalizer !in b.services.objects[s.key].finalizers
    else
      && s.key in b.services.objects && !b.services.objects[s.key].terminating
      && !HasResources(b.services.objects[s.key]) && b.services.objects[s.key].key == s.key
  }

  lemma LaidStays(a: World, b: World, sc: Scope, s: Service, className: string)
    requires Still(a) && Evolves(a, b, sc) && s.key !in sc.keys && Laid(s, a, className)
    ensures Laid(s, b, className)
  {
    hide Still, Evolves, Involved, HasResources;
    StoresStay(a, b, sc, s.key);
  }

  /** One turn of the loop. */
  lemma CalmCleanService(w: World, svc: Service, className: string)
    requires Still(w) && w.script == [] && svc.key in w.services.objects && w.services.objects[svc.key] == svc
    requires Involved(svc, className) && (Cleans(svc, className) ==> Sound(svc, w.cloud))
    ensures var c := CleanService(w, svc);
      && Follows(w, c.w) && c.w.lbs == w.lbs && Trimmed(w.cloud, c.w.cloud, svc) && Laid(svc, c.w, className)
      && (!Cleans(svc, className) ==> c.w.cloud == w.cloud)
      && (svc.terminating || !HasResources(svc) ==> c.v == DONE)
  {
    hide Still, Cleanup, Trimmed, Cut, SelectedOwned, HasResources, RecordsLive, PicksPort, PicksFloatingIP, Involved;
    if svc.terminating {
      CalmFinalize(w, svc);
    } else {
      CalmCleanup(w, svc);
      CutTrims(w.cloud, Cleanup(w, svc).w.cloud, svc);
      CalmCleanupBlanks(w, svc);
    }
  }

  ghost predicate Laying(a: World, svcs: seq<Service>, className: string, requeue: bool, r: Out<bool>) {
    && Follows(a, r.w) && r.w.lbs == a.lbs && Shrunk(a.cloud, r.w.cloud)
    && (forall s :: s in svcs ==> Laid(s, r.w, className))
    && ((forall s :: s in svcs && Owing(s, className) ==> !HasResources(s)) ==> r.v == requeue)
  }

  lemma LayingStep(a: World, b: World, svcs: seq<Service>, className: string, q: bool, requeue: bool, r: Out<bool>)
    requires svcs != [] && Laying(b, svcs[1..], className, q, r) && Laid(svcs[0], r.w, className)
    requires Follows(a, b) && a.lbs == b.lbs && Trimmed(a.cloud, b.cloud, svcs[0])
    requires (Owing(svcs[0], className) ==> !HasResources(svcs[0])) ==> q == requeue
    ensures Laying(a, svcs, className, requeue, r)
  {
    hide Still, Laid, Owing, HasResources, PicksPort, PicksFloatingIP;
    assert svcs[0] in svcs && forall s :: s in svcs[1..] ==> s in svcs;
  }

  lemma TrimmedReflexive(c: Neutron, svc: Service)
    ensures Trimmed(c, c, svc)
  {
  }

  lemma {:induction false} CalmClean(w: World, svcs: seq<Service>, className: string, requeue: bool)
    requires Still(w) && w.script == [] && Listed(w, svcs) && Orderly(w.cloud, svcs, className)
    ensures Laying(w, svcs, className, requeue, CleanAll(w, svcs, className, requeue))
    decreases |svcs|
  {
    hide WF, Quiet, Fresh, Evolves, CleanService, Cleans, Sound, Apart, Laid, Involved, HasResources, Trimmed;
    if svcs != [] {
      hide Laying;
      var x, rest := svcs[0], svcs[1..];
      var sc := Scope({x.key}, {x.key}, {}, {}, true);
      assert x in svcs;
      if !Involved(x, className) {
        EvolvesReflexive(w, sc);
        RestStored(w, w, svcs, sc);
        TrimmedReflexive(w.cloud, x);
        OrderlyRest(w.cloud, w.cloud, svcs, className);
        CalmClean(w, rest, className, requeue);
        CleanAllEvolves(w, rest, className, requeue, RestScope(rest));
        assert Laid(x, w, className) by { LaidSkipped(w, x, className); }
        LaidStays(w, CleanAll(w, rest, className, requeue).w, RestScope(rest), x, className);
        LayingStep(w, w, svcs, className, requeue, requeue, CleanAll(w, rest, className, requeue));
      } else {
        var c := CleanService(w, x);
        CalmCleanService(w, x, className);
        CleanServiceEvolves(w, x, sc);
        RestStored(w, c.w, svcs, sc);
        OrderlyRest(w.cloud, c.w.cloud, svcs, className);
        var q := requeue || c.v != DONE;
        hide Orderly, Listed;
        CalmClean(c.w, rest, className, q);
        CleanAllEvolves(c.w, rest, className, q, RestScope(rest));
        LaidStays(c.w, CleanAll(c.w, rest, className, q).w, RestScope(rest), x, className);
        LayingStep(w, c.w, svcs, className, q, requeue, CleanAll(c.w, rest, className, q));
      }
    }
  }

  lemma LaidSkipped(w: World, s: Service, className: string)
    requires s.key in w.services.objects && w.services.objects[s.key] == s && !Involved(s, className)
    ensures Laid(s, w, className)
  {
    hide Involved;
  }

  // ----- Two passes -----

  /** The conditions under which deletion converges, for the services as stored. */
  ghost predicate Separable(w: World, className: string) {
    && (forall k :: k in w.services.objects && Cleans(w.services.objects[k], className) ==>
           Sound(w.services.objects[k], w.cloud))
    && (forall k, l :: k in w.services.objects && l in w.services.objects && k != l
          && Cleans(w.services.objects[k], className) && Owing(w.services.objects[l], className)
          ==> Apart(w.services.objects[k], w.services.objects[l], w.cloud))
  }

  /** Nothing is left to do for any service. */
  ghost predicate Rested(w: World, className: string) {
    forall k :: k in w.services.objects && Cleans(w.services.objects[k], className) ==>
      && !w.services.objects[k].terminating && !HasResources(w.services.objects[k])
      && SelectedOwned(w.services.objects[k], w.cloud)
  }

  lemma RestedSeparable(w: World, className: string)
    requires Still(w) && Rested(w, className)
    ensures Separable(w, className)
  {
    hide Still, Involved, SelectsPort, SelectsFloatingIP, SelectedOwned;
    NoEmptyPort(w);
  }

  /** A load balancer that lost the finalizer, or is gone. */
  ghost predicate LetGo(w: World, k: Key) {
    k in w.lbs.objects ==> LoadBalancerFinalizer !in w.lbs.objects[k].finalizers
  }

  lemma OwnedWhenBlank(o: Service, s: Service, a: Neutron, b: Neutron)
    requires SelectedOwned(s, a) && Shrunk(a, b) && o.key == s.key && !HasResources(o) && ValidCloud(a)
    ensures SelectedOwned(o, b)
  {
    hide OwnedByOperator, DescribedFor, PortTextFor;
    forall id | PicksPort(o, b, id) ensures OwnedByOperator(b.ports[id].tags) {
      assert PicksPort(s, a, id);
    }
    forall id | PicksFloatingIP(o, b, id) ensures OwnedByOperator(b.fips[id].tags) {
      assert PicksFloatingIP(s, a, id);
    }
  }

  lemma LaidRests(a: World, b: World, s: Service, className: string)
    requires Still(a) && Laid(s, b, className) && s.key in b.services.objects
    requires Cleans(b.services.objects[s.key], className)
    requires Shrunk(a.cloud, b.cloud) && (Cleans(s, className) ==> Sound(s, a.cloud))
    ensures var o := b.services.objects[s.key]; !o.terminating && !HasResources(o) && SelectedOwned(o, b.cloud)
  {
    hide Still, OwnedByOperator, HasResources, SelectedOwned, RecordsLive, MatchesClass;
    var o := b.services.objects[s.key];
    assert ValidCloud(a.cloud) by { StillWF(a); hide ValidCloud, Valid, Marked, OneBound; }
    OwnedWhenBlank(o, s, a.cloud, b.cloud);
  }

  /** The loop over all the services there are. */
  lemma LoopRests(w: World, svcs: seq<Service>, className: string)
    requires Still(w) && w.script == [] && Separable(w, className) && Listed(w, svcs)
    requires forall k :: k in w.services.objects ==> w.services.objects[k] in svcs
    ensures var d := CleanAll(w, svcs, className, false);
      Follows(w, d.w) && d.w.lbs == w.lbs && Rested(d.w, className) && (Rested(w, className) ==> !d.v)
  {
    hide Still, CleanAll, Sound, Apart, Laid, MatchesClass, HasResources, SelectedOwned, Evolves, Shrunk;
    assert Orderly(w.cloud, svcs, className);
    CalmClean(w, svcs, className, false);
    var d := CleanAll(w, svcs, className, false);
    StillWF(w);
    CleanAllEvolves(w, svcs, className, false, RestScope(svcs));
    forall k | k in d.w.services.objects && Cleans(d.w.services.objects[k], className)
      ensures var o := d.w.services.objects[k]; !o.terminating && !HasResources(o) && SelectedOwned(o, d.w.cloud)
    {
      StoresStay(w, d.w, RestScope(svcs), k);
      var s :| s in svcs && s.key == k;
      LaidRests(w, d.w, s, className);
    }
    if Rested(w, className) {
      forall s | s in svcs && Owing(s, className) ensures !HasResources(s) {
        assert Cleans(w.services.objects[s.key], className);
      }
    }
  }

  lemma CalmDropLB(w: World, lb: LoadBalancer)
    requires Still(w) && w.script == [] && lb.key in w.lbs.objects && w.lbs.objects[lb.key] == lb && lb.terminating
    ensures var r := DropLBFinalizer(w, lb).w;
      && Follows(w, r) && r.services == w.services && r.cloud == w.cloud && LetGo(r, lb.key)
      && (lb.key in r.lbs.objects ==> r.lbs.objects[lb.key].terminating && r.lbs.objects[lb.key].spec == lb.spec)
  {
    hide Still, WriteLB, Replace, RemoveFinalizer;
    var o := lb.(finalizers := RemoveFinalizer(lb.finalizers, LoadBalancerFinalizer));
    WriteLBStill(w, o, STEPS);
    CalmWritesLB(w, o, STEPS);
    assert Valid(w.lbs) by { StillWF(w); hide Valid; }
    ReplaceOutside(w.lbs, Merge(lb, o), {lb.key});
  }

  lemma RestedSame(a: World, b: World, className: string)
    requires a.services == b.services && a.cloud == b.cloud
    ensures Rested(a, className) ==> Rested(b, className)
    ensures Separable(a, className) ==> Separable(b, className)
  {
    hide Cleans, Owing, Sound, Apart, HasResources, SelectedOwned;
  }

  /** One deletion pass brings the services to rest; when they are at rest it lets go. */
  lemma DeletionPass(w: World, lb: LoadBalancer)
    requires Still(w) && w.script == [] && lb.key in w.lbs.objects && w.lbs.objects[lb.key] == lb && lb.terminating
    requires Separable(w, lb.spec.className)
    ensures var r := HandleDeletion(w, lb).w;
      && Follows(w, r) && Rested(r, lb.spec.className) && (Rested(w, lb.spec.className) ==> LetGo(r, lb.key))
      && (lb.key in r.lbs.objects ==> r.lbs.objects[lb.key].terminating && r.lbs.objects[lb.key].spec == lb.spec)
  {
    hide Still, Tick, CleanAll, DropLBFinalizer, Listing, Rested, Separable, Fresh;
    NewClientStill(w, lb.spec.secret);
    var c := NewClient(w, lb.spec.secret);
    TickStill(c.w);
    var l := ListServices(c.w);
    StillWF(c.w);
    ListingHeld(c.w, l.w, l.v.value);
    RestedSame(w, l.w, lb.spec.className);
    LoopRests(l.w, l.v.value, lb.spec.className);
    var d := CleanAll(l.w, l.v.value, lb.spec.className, false);
    CalmDropLB(d.w, lb);
    RestedSame(d.w, DropLBFinalizer(d.w, lb).w, lb.spec.className);
  }

  /** Either gone or still being deleted, with the same class. */
  ghost predicate Leaving(w: World, k: Key, className: string) {
    k in w.lbs.objects ==> w.lbs.objects[k].terminating && w.lbs.objects[k].spec.className == className
  }

  lemma LeavingPass(w: World, k: Key, className: string)
    requires Still(w) && w.script == [] && !IsServiceRequest(k.name) && Leaving(w, k, className)
    requires Separable(w, className) && (k !in w.lbs.objects ==> Rested(w, className))
    ensures var r := Reconcile(w, k).w;
      Follows(w, r) && Rested(r, className) && Leaving(r, k, className) && (Rested(w, className) ==> LetGo(r, k))
  {
    hide Still, Tick, HandleDeletion, ReconcileLive, WriteLB, Rested, Separable, IsServiceRequest;
    CalmGet(w, k);
    KeyStored(w, k);
    var got := GetLB(w, k);
    RestedSame(w, got.w, className);
    if got.v.Found? {
      DeletionPass(got.w, got.v.obj);
    }
  }

  lemma {:induction false} RestedRun(w: World, k: Key, className: string, m: nat)
    requires Still(w) && w.script == [] && !IsServiceRequest(k.name) && Leaving(w, k, className) && Rested(w, className)
    requires m == 0 ==> LetGo(w, k)
    ensures LetGo(Run(w, Repeat(k, m)), k)
    decreases m
  {
    hide Still, Reconcile, Rested, Separable, IsServiceRequest;
    if m > 0 {
      RestedSeparable(w, className);
      LeavingPass(w, k, className);
      assert Repeat(k, m)[0] == k && Repeat(k, m)[1..] == Repeat(k, m - 1);
      RestedRun(Reconcile(w, k).w, k, className, m - 1);
    }
  }

  /** In a calm world, two passes or more over a load balancer that is being deleted take the
      finalizer off it, provided that for the services it cleans up for, records name live
      resources, what is selected carries the ownership tag, and no selection reaches what another
      service records. */
  lemma DeletionConverges(w: World, k: Key, m: nat)
    requires Still(w) && w.script == [] && !IsServiceRequest(k.name) && k in w.lbs.objects
    requires w.lbs.objects[k].terminating
    requires Separable(w, w.lbs.objects[k].spec.className) && m >= 2
    ensures LetGo(Run(w, Repeat(k, m)), k)
  {
    hide Still, Reconcile, Rested, Separable, IsServiceRequest;
    var className := w.lbs.objects[k].spec.className;
    LeavingPass(w, k, className);
    assert Repeat(k, m)[0] == k && Repeat(k, m)[1..] == Repeat(k, m - 1);
    RestedRun(Reconcile(w, k).w, k, className, m - 1);
  }
}
