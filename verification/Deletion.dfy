/** Deleting a load balancer: when its finalizer goes, the services are clean, whatever failed on
    the way; and a service that records a resource which is gone keeps the finalizer on forever. */
module Deletion {
  import opened Kube
  import opened Cloud
  import opened Selection
  import opened Worlds
  import opened Calls
  import opened Retry
  import opened Requests
  import opened Operator
  import opened Evolution
  import opened Passes
  import opened Teardown
  import opened Orphans
  import opened Runs
  import opened Refinement
  import opened Undisturbed
  import opened Progress
  import opened Truthful

  // ----- Soundness -----

  /** A cleanup that reports done writes no service. */
  lemma DoneWritesNothing(w: World, svc: Service)
    requires WF(w) && !HasResources(svc)
    ensures Evolves(w, Cleanup(w, svc).w, Scope({}, {}, {}, {}, true))
  {
    hide Flow, StoresEvolve, CloudEvolves, Spares, Valid, ValidCloud, Marked, OneBound;
    hide ListFloatingIPs, ListPorts, Sweeps, EditAnnotations, Blanks, Cleared, ListsFloatingIPs, ListsPorts;
    var none := Scope({}, {}, {}, {}, true);
    var fips := ListFloatingIPs(w);
    ListFloatingIPsFacts(w, none);
    if fips.v.Some? {
      var ports := ListPorts(fips.w);
      ListFloatingIPsFacts(fips.w, none);
      EvolvesTransitive(w, fips.w, ports.w, none);
      if ports.v.Some? {
        SweepsFacts(fips.w, ports.w, svc, fips.v.value, ports.v.value, fips.w.cloud.used);
        var s := Sweeps(ports.w, svc, fips.v.value, ports.v.value);
        SweepsEvolve(ports.w, svc, fips.v.value, ports.v.value, none);
        EvolvesTransitive(w, ports.w, s.w, none);
        BlanksEmpty(s.v.0.hit, s.v.1.hit);
        NoEmptyIDs(fips.w);
        NoEmptyIDs(ports.w);
      }
    }
  }

  lemma ClearedFewer(c: Neutron, used: seq<string>, fewer: seq<string>, svc: Service, binds: bool)
    requires Cleared(c, used, svc, binds) && fewer <= used
    ensures Cleared(c, fewer, svc, binds)
  {
    hide SelectsPort, DescribedFor;
    assert forall id :: id in fewer ==> id in used;
  }

  /** The services a deletion must have cleaned before it lets go. */
  predicate Owing(svc: Service, className: string) {
    Involved(svc, className) && !svc.terminating
  }

  function Doomed(svcs: seq<Service>): set<Key> {
    set s | s in svcs && s.terminating :: s.key
  }

  /** What a loop that never asked for another pass has achieved. */
  ghost predicate Swept(a: World, svcs: seq<Service>, className: string, b: World) {
    && Evolves(a, b, Scope(Doomed(svcs), Doomed(svcs), {}, {}, true))
    && forall s :: s in svcs && Owing(s, className) ==>
         !HasResources(s) && Cleared(b.cloud, a.cloud.used, s, b.rules.binds)
  }

  /** One turn of a loop that never asks for another pass. */
  lemma CleanServiceSound(w: World, svc: Service, className: string, svcs: seq<Service>)
    requires WF(w) && CleanService(w, svc).v == DONE && svc in svcs
    ensures Evolves(w, CleanService(w, svc).w, Scope(Doomed(svcs), Doomed(svcs), {}, {}, true))
    ensures !svc.terminating ==>
      !HasResources(svc) && Cleared(CleanService(w, svc).w.cloud, w.cloud.used, svc, CleanService(w, svc).w.rules.binds)
  {
    hide WF, Evolves, Cleanup, Finalize, Cleared, HasResources;
    var sc := Scope(Doomed(svcs), Doomed(svcs), {}, {}, true);
    if svc.terminating {
      FinalizeEvolves(w, svc, sc);
    } else {
      CleanupFacts(w, svc);
      DoneWritesNothing(w, svc);
      Widen(w, Cleanup(w, svc).w, Scope({}, {}, {}, {}, true), sc);
    }
  }

  /** A step within a scope is within every wider one. */
  lemma Widen(a: World, b: World, sc: Scope, wide: Scope)
    requires Evolves(a, b, sc) && sc.deletes == wide.deletes
    requires sc.keys <= wide.keys && sc.lost <= wide.lost && sc.lbs <= wide.lbs && sc.owners <= wide.owners
    ensures Evolves(a, b, wide)
  {
    hide WF, Flow, Spares, Ages, Unbinds, KeepsLive, Quiet, SameOrNew;
  }

  lemma {:induction false} CleanAllSound(w: World, svcs: seq<Service>, className: string, requeue: bool)
    requires WF(w) && !CleanAll(w, svcs, className, requeue).v
    ensures !requeue && Swept(w, svcs, className, CleanAll(w, svcs, className, requeue).w)
    decreases |svcs|
  {
    hide WF, Evolves, CleanService, Cleared, Involved, HasResources;
    var sc := Scope(Doomed(svcs), Doomed(svcs), {}, {}, true);
    if svcs == [] {
      EvolvesReflexive(w, sc);
    } else {
      var s, rest := svcs[0], svcs[1..];
      if Involved(s, className) {
        var c := CleanService(w, s);
        var r := CleanAll(c.w, rest, className, requeue || c.v != DONE);
        CleanServiceEvolves(w, s, Scope({s.key}, {s.key}, {}, {}, true));
        EvolvesWF(w, c.w, Scope({s.key}, {s.key}, {}, {}, true));
        CleanAllSound(c.w, rest, className, requeue || c.v != DONE);
        CleanServiceSound(w, s, className, svcs);
        SweptStep(w, c.w, svcs, className, r.w);
      } else {
        EvolvesReflexive(w, sc);
        CleanAllSound(w, rest, className, requeue);
        SweptStep(w, w, svcs, className, CleanAll(w, rest, className, requeue).w);
      }
    }
  }

  lemma EvolvesWF(a: World, b: World, sc: Scope)
    requires Evolves(a, b, sc)
    ensures WF(b) && a.rules == b.rules
  {
    hide WF, StoresEvolve, CloudEvolves, Spares, Fresh, Quiet, TagsReadable;
  }

  /** Later turns undo nothing that earlier ones achieved. */
  lemma SweptStep(a: World, b: World, svcs: seq<Service>, className: string, c: World)
    requires WF(a) && svcs != [] && Evolves(a, b, Scope(Doomed(svcs), Doomed(svcs), {}, {}, true))
    requires Swept(b, svcs[1..], className, c)
    requires Owing(svcs[0], className) ==>
      !HasResources(svcs[0]) && Cleared(b.cloud, a.cloud.used, svcs[0], b.rules.binds)
    ensures Swept(a, svcs, className, c)
  {
    hide WF, Evolves, Cleared, HasResources, Owing;
    var sc := Scope(Doomed(svcs), Doomed(svcs), {}, {}, true);
    var rest := svcs[1..];
    Widen(b, c, Scope(Doomed(rest), Doomed(rest), {}, {}, true), sc);
    EvolvesTransitive(a, b, c, sc);
    EvolvesWF(a, b, sc);
    EvolvesWF(b, c, sc);
    UsedPrefix(a, b, sc);
    forall s | s in svcs && Owing(s, className)
      ensures !HasResources(s) && Cleared(c.cloud, a.cloud.used, s, c.rules.binds)
    {
      if s in rest {
        ClearedFewer(c.cloud, b.cloud.used, a.cloud.used, s, c.rules.binds);
      } else {
        ClearedStays(b, c, a.cloud.used, s, sc);
      }
    }
  }

  /** What a deletion that had a client listed, and where its loop ended. */
  ghost predicate Loop(w: World, lb: LoadBalancer, start: World, svcs: seq<Service>, end: World) {
    && NewClient(w, lb.spec.secret).v
    && ListServices(NewClient(w, lb.spec.secret).w) == Out(start, Some(svcs))
    && end == CleanAll(start, svcs, lb.spec.className, false).w
  }

  /** Whichever calls failed: if a deletion had a client and ended without error and without asking
      for another pass, so that the finalizer is off, then every service of the load balancer that
      is not itself terminating was listed without records, and at the end of the loop none of the
      resources there were when it began is live and selected for it.  With a current listing and
      nobody else editing the records, what is stored for it then has no records either. */
  lemma DeletionSound(w: World, lb: LoadBalancer) returns (start: World, svcs: seq<Service>, end: World)
    requires WF(w) && NewClient(w, lb.spec.secret).v && HandleDeletion(w, lb).v == DONE
    ensures Loop(w, lb, start, svcs, end) && WF(end) && HandleDeletion(w, lb) == DropLBFinalizer(end, lb)
    ensures forall s :: s in svcs && Owing(s, lb.spec.className) ==>
      !HasResources(s) && Cleared(end.cloud, start.cloud.used, s, end.rules.binds)
    ensures Fresh(w.script) && w.rules.services.annotations ==>
      forall k :: k in end.services.objects && k in start.services.objects
        && end.services.objects[k].uid == start.services.objects[k].uid
        && Owing(start.services.objects[k], lb.spec.className)
        ==> !HasResources(end.services.objects[k])
  {
    hide WF, Evolves, NewClient, ListServices, CleanAll, DropLBFinalizer, Cleared, Involved, HasResources, Fresh;
    var sc := Scope({}, {}, {lb.key}, {}, true);
    var c := NewClient(w, lb.spec.secret);
    NewClientEvolves(w, lb.spec.secret, sc);
    EvolvesWF(w, c.w, sc);
    var l := ListServices(c.w);
    ListServicesEvolves(c.w, sc);
    EvolvesWF(c.w, l.w, sc);
    start, svcs := l.w, l.v.value;
    end := CleanAll(start, svcs, lb.spec.className, false).w;
    CleanAllSound(start, svcs, lb.spec.className, false);
    var doomed := Scope(Doomed(svcs), Doomed(svcs), {}, {}, true);
    EvolvesWF(start, end, doomed);
    if Fresh(w.script) && w.rules.services.annotations {
      LogAndRules(w, c.w, sc);
      ListingHeld(c.w, start, svcs);
      forall k | k in end.services.objects && k in start.services.objects
        && end.services.objects[k].uid == start.services.objects[k].uid
        && Owing(start.services.objects[k], lb.spec.className)
        ensures !HasResources(end.services.objects[k])
      {
        var s := start.services.objects[k];
        assert s in svcs;
        StoredKey(start, k);
        assert k !in Doomed(svcs) by { assert forall x :: x in svcs && x.key == k ==> x == s; }
        RecordsStay(start, end, doomed, k);
      }
    }
  }

  lemma StoredKey(w: World, k: Key)
    requires WF(w) && k in w.services.objects
    ensures w.services.objects[k].key == k
  {
    hide ValidCloud, Marked, OneBound;
  }

  lemma RecordsStay(a: World, b: World, sc: Scope, k: Key)
    requires Evolves(a, b, sc) && a.rules.services.annotations && k !in sc.keys
    requires k in a.services.objects && k in b.services.objects
    requires a.services.objects[k].uid == b.services.objects[k].uid
    ensures HasResources(a.services.objects[k]) == HasResources(b.services.objects[k])
  {
    hide WF, CloudEvolves, Spares, Fresh, Quiet, TagsReadable, SameOrNew, KeepsFinalizers, KeepsStatus, SameOutside;
  }

  // ----- The trap -----

  function KindOf(name: AnnotationName): Kind {
    if name == PortID then PortKind else FloatingIPKind
  }

  /** The service records a resource that was there once and is gone. */
  ghost predicate Dangling(o: Service, name: AnnotationName, c: Neutron) {
    && (name == PortID || name == FloatingIPID) && !o.terminating
    && Annotation(o, name) != "" && Annotation(o, name) in c.used && !Live(c, KindOf(name), Annotation(o, name))
  }

  /** The service is stored and records what `o` does. */
  ghost predicate StillDangling(w: World, o: Service, name: AnnotationName) {
    && o.key in w.services.objects && Dangling(w.services.objects[o.key], name, w.cloud)
    && Annotation(w.services.objects[o.key], name) == Annotation(o, name)
  }

  lemma BlanksSpare(o: Service, fip: bool, port: bool, name: AnnotationName)
    requires name == PortID ==> !port
    requires name == FloatingIPID ==> !fip
    ensures Annotation(Annotated(o, Blanks(fip, port)), name) == Annotation(o, name)
      || (name != PortID && name != FloatingIPID)
  {
    assert PortID in Blanks(fip, port) <==> port;
    assert FloatingIPID in Blanks(fip, port) <==> fip;
  }

  /** A cleanup only blanks a record whose resource it found, so this one stays, and the record
      alone makes it ask for another pass. */
  lemma CleanupDangles(w: World, svc: Service, name: AnnotationName)
    requires Still(w) && svc.key in w.services.objects && w.services.objects[svc.key] == svc
    requires Dangling(svc, name, w.cloud)
    ensures var c := Cleanup(w, svc); Still(c.w) && c.v != DONE && StillDangling(c.w, svc, name)
  {
    hide Still, ListFloatingIPs, ListPorts, Sweeps, EditAnnotations, Blanks, ListsFloatingIPs, ListsPorts, Evolves;
    hide Cleared, Live, KindOf;
    var none := Scope({}, {}, {}, {}, true);
    var sc := Scope({svc.key}, {}, {}, {}, true);
    StillWF(w);
    CleanupEvolves(w, svc, sc);
    EvolvesStill(w, Cleanup(w, svc).w, sc);
    StaysGone(w, Cleanup(w, svc).w, sc, KindOf(name), Annotation(svc, name));
    var fips := ListFloatingIPs(w);
    ListFloatingIPsFacts(w, none);
    EvolvesStill(w, fips.w, none);
    StoresStay(w, fips.w, none, svc.key);
    if fips.v.Some? {
      StillWF(fips.w);
      var ports := ListPorts(fips.w);
      ListFloatingIPsFacts(fips.w, none);
      EvolvesStill(fips.w, ports.w, none);
      StoresStay(fips.w, ports.w, none, svc.key);
      if ports.v.Some? {
        StillWF(ports.w);
        var s := Sweeps(ports.w, svc, fips.v.value, ports.v.value);
        SweepsFacts(fips.w, ports.w, svc, fips.v.value, ports.v.value, fips.w.cloud.used);
        SweepsEvolve(ports.w, svc, fips.v.value, ports.v.value, none);
        EvolvesStill(ports.w, s.w, none);
        StoresStay(ports.w, s.w, none, svc.key);
        StaysGone(w, fips.w, none, KindOf(name), Annotation(svc, name));
        StaysGone(fips.w, ports.w, none, KindOf(name), Annotation(svc, name));
        NotHit(fips.w, ports.w, svc, name);
        BlanksSpare(svc, s.v.0.hit, s.v.1.hit, name);
        EditDangles(s.w, svc, Blanks(s.v.0.hit, s.v.1.hit), name);
      }
    }
  }

  lemma NotHit(a: World, b: World, svc: Service, name: AnnotationName)
    requires name == PortID || name == FloatingIPID
    requires !Live(a.cloud, KindOf(name), Annotation(svc, name)) && !Live(b.cloud, KindOf(name), Annotation(svc, name))
    ensures name == PortID ==> Annotation(svc, PortID) !in b.cloud.ports
    ensures name == FloatingIPID ==> Annotation(svc, FloatingIPID) !in a.cloud.fips
  {
  }

  lemma EditDangles(w: World, svc: Service, edits: Annotations, name: AnnotationName)
    requires Still(w) && svc.key in w.services.objects && w.services.objects[svc.key] == svc && !svc.terminating
    requires Annotation(Annotated(svc, edits), name) == Annotation(svc, name)
    ensures var s := EditAnnotations(w, svc.key, edits, STEPS).w.services;
      svc.key in s.objects && Annotation(s.objects[svc.key], name) == Annotation(svc, name)
        && !s.objects[svc.key].terminating
  {
    hide Still, EditAnnotations, Replace;
    EditStill(w, svc.key, edits, STEPS);
    assert Valid(w.services) by { StillWF(w); hide Valid; }
    ReplaceStores(w.services, Annotated(svc, edits));
  }

  lemma StaysGone(a: World, b: World, sc: Scope, kind: Kind, id: string)
    requires WF(a) && Evolves(a, b, sc) && id in a.cloud.used && !Live(a.cloud, kind, id)
    ensures id in b.cloud.used && !Live(b.cloud, kind, id)
  {
    hide WF, Flow, StoresEvolve, Spares, KeepsLive, LogGrows, Unbinds;
  }

  /** Nobody else acting, a step leaves the services outside its scope as they are. */
  lemma StoresStay(a: World, b: World, sc: Scope, k: Key)
    requires Still(a) && Evolves(a, b, sc)
    ensures k !in sc.keys ==> Current(a.services, k) == Current(b.services, k)
    ensures k !in sc.lbs ==> Current(a.lbs, k) == Current(b.lbs, k)
  {
    hide WF, Fresh, Quiet, TagsReadable, Spares, CloudEvolves, KeepsFinalizers, KeepsRecords, KeepsStatus, SameOrNew;
  }

  lemma DanglingStays(a: World, b: World, sc: Scope, o: Service, name: AnnotationName)
    requires Still(a) && Evolves(a, b, sc) && o.key !in sc.keys && StillDangling(a, o, name)
    ensures StillDangling(b, o, name)
  {
    hide Still, Evolves, KindOf, Live;
    StoresStay(a, b, sc, o.key);
    StillWF(a);
    StaysGone(a, b, sc, KindOf(name), Annotation(o, name));
  }

  lemma {:induction false} CleanAllSticks(w: World, svcs: seq<Service>, className: string, requeue: bool)
    ensures requeue ==> CleanAll(w, svcs, className, requeue).v
    decreases |svcs|
  {
    hide CleanService, Involved;
    if svcs != [] {
      if Involved(svcs[0], className) {
        var c := CleanService(w, svcs[0]);
        CleanAllSticks(c.w, svcs[1..], className, requeue || c.v != DONE);
      } else {
        CleanAllSticks(w, svcs[1..], className, requeue);
      }
    }
  }

  /** After one turn of the loop the services still to come are stored as listed. */
  lemma RestStored(a: World, b: World, svcs: seq<Service>, sc: Scope)
    requires svcs != [] && Listed(a, svcs) && Still(a) && Evolves(a, b, sc) && sc.keys <= {svcs[0].key}
    ensures Listed(b, svcs[1..]) && forall s :: s in svcs[1..] ==> s.key != svcs[0].key
  {
    hide Still, Evolves;
    forall s | s in svcs[1..]
      ensures s.key != svcs[0].key && s.key in b.services.objects && b.services.objects[s.key] == s
    {
      assert s in svcs;
      StoresStay(a, b, sc, s.key);
    }
  }

  /** The turn of the trapped service itself, and the rest of the loop. */
  lemma TrapTurn(w: World, rest: seq<Service>, className: string, requeue: bool, o: Service, name: AnnotationName)
    requires Still(w) && o.key in w.services.objects && w.services.objects[o.key] == o && Dangling(o, name, w.cloud)
    requires forall s :: s in rest ==> s.key != o.key
    ensures var c := CleanService(w, o);
      var r := CleanAll(c.w, rest, className, requeue || c.v != DONE);
      r.v && StillDangling(r.w, o, name)
  {
    hide Still, Evolves, CleanService, CleanAll, Cleanup, Dangling;
    var c := CleanService(w, o);
    DanglingInvolved(o, name, w.cloud);
    NotTerminating(w, o);
    CleanupDangles(w, o, name);
    CleanAllSticks(c.w, rest, className, true);
    StillWF(c.w);
    CleanAllEvolves(c.w, rest, className, true, RestScope(rest));
    DanglingStays(c.w, CleanAll(c.w, rest, className, true).w, RestScope(rest), o, name);
  }

  lemma {:induction false} TrapLoop(w: World, svcs: seq<Service>, className: string, requeue: bool,
      o: Service, name: AnnotationName)
    requires Still(w) && Listed(w, svcs) && o in svcs && Dangling(o, name, w.cloud)
    ensures var r := CleanAll(w, svcs, className, requeue); r.v && StillDangling(r.w, o, name)
    decreases |svcs|
  {
    hide Still, Evolves, CleanService, Dangling, MatchesClass;
    var x, rest := svcs[0], svcs[1..];
    var sc := Scope({x.key}, {x.key}, {}, {}, true);
    StillWF(w);
    if !Involved(x, className) {
      assert x != o by { DanglingInvolved(o, name, w.cloud); }
      EvolvesReflexive(w, sc);
      RestStored(w, w, svcs, sc);
      TrapLoop(w, rest, className, requeue, o, name);
    } else {
      var c := CleanService(w, x);
      CleanServiceEvolves(w, x, sc);
      EvolvesStill(w, c.w, sc);
      RestStored(w, c.w, svcs, sc);
      var q := requeue || c.v != DONE;
      if x == o {
        TrapTurn(w, rest, className, requeue, o, name);
      } else {
        assert StillDangling(w, o, name);
        DanglingStays(w, c.w, sc, o, name);
        TrapLoop(c.w, rest, className, q, o, name);
      }
    }
  }

  function RestScope(svcs: seq<Service>): Scope {
    Scope(set s | s in svcs :: s.key, set s | s in svcs :: s.key, {}, {}, true)
  }

  lemma NotTerminating(w: World, svc: Service)
    ensures !svc.terminating ==> CleanService(w, svc) == Cleanup(w, svc)
  {
    hide Cleanup;
  }

  lemma DanglingInvolved(o: Service, name: AnnotationName, c: Neutron)
    requires Dangling(o, name, c)
    ensures HasResources(o) && !o.terminating
  {
  }

  /** A load balancer being deleted, and a service that records a resource which is gone. */
  ghost predicate Trapped(w: World, k: Key, o: Service, name: AnnotationName) {
    && Still(w) && StillDangling(w, o, name)
    && k in w.lbs.objects && w.lbs.objects[k].terminating && LoadBalancerFinalizer in w.lbs.objects[k].finalizers
  }

  lemma TrapStays(a: World, b: World, sc: Scope, k: Key, o: Service, name: AnnotationName)
    requires Trapped(a, k, o, name) && Evolves(a, b, sc) && o.key !in sc.keys && k !in sc.lbs
    ensures Trapped(b, k, o, name) && WF(b)
  {
    hide WF, Quiet, Fresh, Evolves, StillDangling;
    EvolvesStill(a, b, sc);
    DanglingStays(a, b, sc, o, name);
    StoresStay(a, b, sc, k);
  }

  /** The loop of a deletion over all the services there are. */
  lemma TrapCleaning(w: World, svcs: seq<Service>, lb: LoadBalancer, o: Service, name: AnnotationName)
    requires Trapped(w, lb.key, o, name) && Listed(w, svcs) && w.services.objects[o.key] in svcs
    ensures var d := CleanAll(w, svcs, lb.spec.className, false); d.v && Trapped(d.w, lb.key, o, name)
  {
    hide Still, Evolves, CleanAll, Dangling;
    StillWF(w);
    StoredKey(w, o.key);
    TrapLoop(w, svcs, lb.spec.className, false, w.services.objects[o.key], name);
    CleanAllEvolves(w, svcs, lb.spec.className, false, RestScope(svcs));
    var d := CleanAll(w, svcs, lb.spec.className, false);
    EvolvesStill(w, d.w, RestScope(svcs));
    StoresStay(w, d.w, RestScope(svcs), lb.key);
  }

  lemma TrapDeletion(w: World, lb: LoadBalancer, o: Service, name: AnnotationName)
    requires Trapped(w, lb.key, o, name) && NewClient(w, lb.spec.secret).v
    ensures Trapped(HandleDeletion(w, lb).w, lb.key, o, name)
  {
    hide WF, Evolves, NewClient, ListServices, CleanAll, DropLBFinalizer, Trapped, Fresh;
    var none := Scope({}, {}, {}, {}, true);
    assert WF(w) by { EvolvesFrom(w, lb.key, o, name); }
    var c := NewClient(w, lb.spec.secret);
    NewClientEvolves(w, lb.spec.secret, none);
    TrapStays(w, c.w, none, lb.key, o, name);
    var l := ListServices(c.w);
    ListServicesEvolves(c.w, none);
    TrapStays(c.w, l.w, none, lb.key, o, name);
    if l.v.Some? {
      EvolvesFrom(c.w, lb.key, o, name);
      EvolvesFrom(l.w, lb.key, o, name);
      ListingHeld(c.w, l.w, l.v.value);
      TrapCleaning(l.w, l.v.value, lb, o, name);
    }
  }

  lemma EvolvesFrom(w: World, k: Key, o: Service, name: AnnotationName)
    requires Trapped(w, k, o, name)
    ensures WF(w) && Fresh(w.script) && o.key in w.services.objects
  {
    hide WF, Fresh, Quiet, Dangling;
  }

  lemma TrapPass(w: World, k: Key, o: Service, name: AnnotationName)
    requires Trapped(w, k, o, name) && !IsServiceRequest(k.name) && Reconcile(w, k).w.log.misses == w.log.misses
    ensures Trapped(Reconcile(w, k).w, k, o, name)
  {
    hide Still, Evolves, Tick, HandleDeletion, ReconcileLive, WriteLB, StillDangling, IsServiceRequest, Fresh;
    var none := Scope({}, {}, {}, {}, true);
    StillWF(w);
    var got := GetLB(w, k);
    GetLBFacts(w, k, none);
    TrapStays(w, got.w, none, k, o, name);
    if got.v.Found? {
      StillWF(got.w);
      TickLog(w);
      NoClientMisses(got.w, got.v.obj);
      TrapDeletion(got.w, got.v.obj, o, name);
    }
  }

  lemma NoClientMisses(w: World, lb: LoadBalancer)
    requires WF(w)
    ensures NewClient(w, lb.spec.secret).v || HandleDeletion(w, lb).w.log.misses > w.log.misses
  {
    hide WF, Tick, Evolves, DropLBFinalizer, CleanAll, Listing;
    var sc := Scope({}, {}, {lb.key}, {}, true);
    TickLog(w);
    var c := NewClient(w, lb.spec.secret);
    NewClientEvolves(w, lb.spec.secret, sc);
    EvolvesWF(w, c.w, sc);
    DropLBFinalizerEvolves(c.w, lb, sc);
    LogAndRules(c.w, DropLBFinalizer(c.w, lb).w, sc);
  }

  lemma RunMisses(w: World, reqs: seq<Key>)
    requires WF(w)
    ensures w.log.misses <= Run(w, reqs).log.misses
    decreases |reqs|
  {
    hide WF, Reconcile, Evolves;
    if reqs != [] {
      var sc := ReconcileEvolves(w, reqs[0]);
      EvolvesWF(w, Reconcile(w, reqs[0]).w, sc);
      LogAndRules(w, Reconcile(w, reqs[0]).w, sc);
      RunMisses(Reconcile(w, reqs[0]).w, reqs[1..]);
    }
  }

  /** The trap: nobody else acting, no number of deletion passes that have a client blanks the
      record or takes the finalizer off the load balancer, whichever other calls succeed. */
  lemma {:induction false} TrapHolds(w: World, k: Key, m: nat, o: Service, name: AnnotationName)
    requires Trapped(w, k, o, name) && !IsServiceRequest(k.name) && Run(w, Repeat(k, m)).log.misses == w.log.misses
    ensures Trapped(Run(w, Repeat(k, m)), k, o, name)
    decreases m
  {
    hide WF, Evolves, Reconcile, Trapped, IsServiceRequest;
    if m > 0 {
      assert Repeat(k, m)[0] == k && Repeat(k, m)[1..] == Repeat(k, m - 1);
      EvolvesFrom(w, k, o, name);
      var v := Reconcile(w, k).w;
      var sc := ReconcileEvolves(w, k);
      EvolvesWF(w, v, sc);
      LogAndRules(w, v, sc);
      RunMisses(v, Repeat(k, m - 1));
      TrapPass(w, k, o, name);
      TrapHolds(v, k, m - 1, o, name);
    }
  }
}
