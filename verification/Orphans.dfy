/** No orphans: what the operator made for a service object is held by that object's finalizer,
    unless the pass that let go of it ran without credentials or had a call to the cloud fail. */
module Orphans {
  import opened Kube
  import opened Cloud
  import opened Selection
  import opened Text
  import opened Worlds
  import opened Calls
  import opened Retry
  import opened Requests
  import opened Operator
  import opened Evolution
  import opened Passes
  import opened Teardown
  import opened Finalization

  /** The owner is still stored and carries the finalizer. */
  ghost predicate Owned(w: World, o: Owner) {
    && o.key in w.services.objects
    && w.services.objects[o.key].uid == o.uid
    && ServiceFinalizer in w.services.objects[o.key].finalizers
  }

  /** A live resource the operator made whose owner is gone or let go. */
  ghost predicate Orphan(w: World, id: string) {
    id in w.log.made && (id in w.cloud.ports || id in w.cloud.fips) && !Owned(w, w.log.made[id])
  }

  /** Credentials were unavailable, or a call to the cloud failed or was refused. */
  predicate Troubled(a: World, b: World) {
    b.log.misses > a.log.misses || b.log.faults > a.log.faults
  }

  ghost predicate NoNewOrphans(a: World, b: World) {
    forall id :: Orphan(b, id) ==> Orphan(a, id)
  }

  /** A step that drops no finalizer orphans only what it makes for owners it does not hold. */
  lemma NewOrphan(a: World, b: World, sc: Scope, id: string)
    requires WF(a) && Guarded(a) && Evolves(a, b, sc) && sc.lost == {} && Orphan(b, id) && !Orphan(a, id)
    ensures id !in a.log.made && b.log.made[id] in sc.owners && !Owned(a, b.log.made[id])
  {
    hide Valid, ValidCloud, OneBound, Flow, KeepsLive, Unbinds, Spares, SameOrNew, SameOutside, KeepsRecords;
    hide KeepsStatus;
    hide PortName, PortDescription, FloatingIPDescription, StraysOf, MishapsOf;
  }

  /** The text the operator writes selects the resource for the service it was made for. */
  lemma OwnTextSelects(k: Key)
    ensures DescribedFor(PortDescription(k), k) && DescribedFor(FloatingIPDescription(k), k)
  {
    ContainsMiddle(PORT_TEXT + " ", ServicePath(k), " " + OPERATOR);
    ContainsMiddle(FLOATING_IP_TEXT + " ", ServicePath(k), " " + OPERATOR);
    assert PortDescription(k) == PORT_TEXT + " " + ServicePath(k) + (" " + OPERATOR);
    assert FloatingIPDescription(k) == FLOATING_IP_TEXT + " " + ServicePath(k) + (" " + OPERATOR);
  }

  /** A cleared service has no live resource of its own left. */
  lemma ClearedOwnsNothing(w: World, used: seq<string>, svc: Service, id: string)
    requires WF(w) && Cleared(w.cloud, used, svc, w.rules.binds) && id in used
    requires id in w.log.made && w.log.made[id].key == svc.key
    ensures id !in w.cloud.ports && id !in w.cloud.fips
  {
    hide Valid, ValidCloud, OneBound, PortName, PortDescription, FloatingIPDescription, DescribedFor;
    OwnTextSelects(svc.key);
  }

  lemma FinalizeNoNewOrphans(w: World, svc: Service)
    requires WF(w) && Guarded(w)
    ensures var r := Finalize(w, svc); NoNewOrphans(w, r.w) || r.w.log.faults > w.log.faults
  {
    hide Valid, ValidCloud, OneBound, Flow, KeepsLive, Unbinds, Spares, SameOrNew, SameOutside, KeepsRecords;
    hide KeepsStatus;
    hide PortName, PortDescription, FloatingIPDescription, Cleanup, DropFinalizer, Forced, Cleared;
    if ServiceFinalizer in svc.finalizers {
      hide Finalize;
      var sc := Scope({svc.key}, {svc.key}, {}, {}, true);
      var r := Finalize(w, svc);
      FinalizeEvolves(w, svc, sc);
      FinalizeClears(w, svc);
      if r.w.log.faults == w.log.faults {
        forall id | Orphan(r.w, id)
          ensures Orphan(w, id)
        {
          assert id in w.log.made && id in w.cloud.used;
          if w.log.made[id].key == svc.key {
            ClearedOwnsNothing(r.w, w.cloud.used, svc, id);
          }
        }
      }
    }
  }

  // ----- Whole passes -----

  lemma KeepingCall(a: World, b: World, sc: Scope)
    requires WF(a) && Guarded(a) && Evolves(a, b, sc) && sc.lost == {} && sc.owners == {}
    ensures NoNewOrphans(a, b) && Guarded(b) && WF(b) && (Fresh(a.script) ==> Fresh(b.script))
    ensures a.log.faults <= b.log.faults && a.log.misses <= b.log.misses
  {
    hide WF, StoresEvolve, Unbinds, KeepsLive, Ages, Spares, Fresh, Quiet, TagsReadable, Orphan, Owned;
    forall id | Orphan(b, id) ensures Orphan(a, id) {
      if !Orphan(a, id) {
        NewOrphan(a, b, sc, id);
      }
    }
  }

  lemma CleanServiceNoNewOrphans(w: World, svc: Service)
    requires WF(w) && Guarded(w)
    ensures var r := CleanService(w, svc);
      && WF(r.w) && Guarded(r.w) && w.log.faults <= r.w.log.faults
      && (NoNewOrphans(w, r.w) || r.w.log.faults > w.log.faults)
  {
    hide WF, Flow, StoresEvolve, CloudEvolves, Finalize, Cleanup, NoNewOrphans, Spares;
    var sc := Scope({svc.key}, {}, {}, {}, true);
    if svc.terminating {
      FinalizeNoNewOrphans(w, svc);
      FinalizeEvolves(w, svc, sc.(lost := {svc.key}));
      LogAndRules(w, Finalize(w, svc).w, sc.(lost := {svc.key}));
    } else {
      CleanupEvolves(w, svc, sc);
      KeepingCall(w, Cleanup(w, svc).w, sc);
    }
  }

  lemma LogAndRules(a: World, b: World, sc: Scope)
    requires Evolves(a, b, sc)
    ensures a.rules == b.rules && a.log.faults <= b.log.faults && a.log.misses <= b.log.misses
    ensures Fresh(a.script) ==> Fresh(b.script)
  {
    hide WF, StoresEvolve, Unbinds, KeepsLive, Ages, Spares, Fresh, Quiet, TagsReadable;
  }

  lemma {:induction false} CleanAllNoNewOrphans(w: World, svcs: seq<Service>, className: string, requeue: bool)
    requires WF(w) && Guarded(w)
    ensures var r := CleanAll(w, svcs, className, requeue);
      && WF(r.w) && Guarded(r.w) && w.log.faults <= r.w.log.faults
      && (NoNewOrphans(w, r.w) || r.w.log.faults > w.log.faults)
    decreases |svcs|
  {
    hide WF, CleanService, Involved, Orphan;
    if svcs != [] {
      if Involved(svcs[0], className) {
        var c := CleanService(w, svcs[0]);
        CleanServiceNoNewOrphans(w, svcs[0]);
        CleanAllNoNewOrphans(c.w, svcs[1..], className, requeue || c.v != DONE);
      } else {
        CleanAllNoNewOrphans(w, svcs[1..], className, requeue);
      }
    }
  }

  lemma HandleDeletionNoNewOrphans(w: World, lb: LoadBalancer)
    requires WF(w) && Guarded(w)
    ensures var r := HandleDeletion(w, lb); NoNewOrphans(w, r.w) || Troubled(w, r.w)
  {
    hide WF, Others, Tick, Flow, StoresEvolve, CloudEvolves, NewClient, CleanAll, DropLBFinalizer, Listing, Spares;
    hide Orphan;
    var sc := Scope({}, {}, {lb.key}, {}, false);
    var c := NewClient(w, lb.spec.secret);
    NewClientEvolves(w, lb.spec.secret, sc);
    KeepingCall(w, c.w, sc);
    DropLBFinalizerEvolves(c.w, lb, sc);
    KeepingCall(c.w, DropLBFinalizer(c.w, lb).w, sc);
    if c.v {
      var l := ListServices(c.w);
      TickEvolves(c.w, sc);
      KeepingCall(c.w, l.w, sc);
      if l.v.Some? {
        var d := CleanAll(l.w, l.v.value, lb.spec.className, false);
        CleanAllNoNewOrphans(l.w, l.v.value, lb.spec.className, false);
        DropLBFinalizerEvolves(d.w, lb, sc);
        KeepingCall(d.w, DropLBFinalizer(d.w, lb).w, sc);
      }
    }
  }

  lemma FinalizeServiceNoNewOrphans(w: World, svc: Service)
    requires WF(w) && Guarded(w)
    ensures var r := FinalizeService(w, svc); NoNewOrphans(w, r.w) || Troubled(w, r.w)
  {
    hide WF, Flow, StoresEvolve, CloudEvolves, ClientOfService, Finalize, DropFinalizer, Spares, Orphan;
    var sc := Scope({svc.key}, {}, {}, {}, true);
    var c := ClientOfService(w, svc);
    ClientOfServiceEvolves(w, svc, sc);
    KeepingCall(w, c.w, sc);
    NoClientIsTrouble(w, svc);
    FinalizeNoNewOrphans(c.w, svc);
    FinalizeEvolves(c.w, svc, sc.(lost := {svc.key}));
    LogAndRules(c.w, Finalize(c.w, svc).w, sc.(lost := {svc.key}));
    DropFinalizerEvolves(c.w, svc, sc.(lost := {svc.key}));
    LogAndRules(c.w, DropFinalizer(c.w, svc).w, sc.(lost := {svc.key}));
  }

  lemma NoMatchingClient(w: World, svc: Service, lbs: seq<LoadBalancer>)
    requires WF(w)
    ensures w.log.misses <= ClientOfMatching(w, svc, lbs).w.log.misses
  {
    hide WF, Flow, StoresEvolve, Ages, Unbinds, KeepsLive, ClientOfMatching, Spares;
    ClientOfMatchingEvolves(w, svc, lbs, Scope({}, {}, {}, {}, false));
  }

  lemma NoClientIsTrouble(w: World, svc: Service)
    requires WF(w)
    ensures var c := ClientOfService(w, svc); c.v || c.w.log.misses > w.log.misses
  {
    hide WF, Others, Tick, Flow, StoresEvolve, CloudEvolves, ClientOfMatching, Listing, Spares;
    var sc := Scope({}, {}, {}, {}, false);
    TickLog(w);
    FaultEvolves(w, sc);
    var l := ListLBs(w);
    if l.v.Some? {
      var c := ClientOfMatching(l.w, svc, l.v.value);
      NoMatchingClient(l.w, svc, l.v.value);
      ClientOfMatchingEvolves(l.w, svc, l.v.value, sc);
      TickLog(c.w);
    }
  }

  lemma ReconcileServiceNoNewOrphans(w: World, req: Key)
    requires WF(w) && Guarded(w)
    ensures var r := ReconcileService(w, req); NoNewOrphans(w, r.w) || Troubled(w, r.w)
  {
    hide WF, Others, Tick, Flow, StoresEvolve, CloudEvolves, GetService, FinalizeService, AdoptService, ServiceName;
    hide Spares, Orphan;
    if ServiceName(req.name).Some? {
      var k := Key(req.namespace, ServiceName(req.name).value);
      var sc := Scope({k}, {}, {}, {}, false);
      var got := GetService(w, k);
      GetServiceFacts(w, k, sc);
      KeepingCall(w, got.w, sc);
      if got.v.Found? {
        var svc := got.v.obj;
        FinalizeServiceNoNewOrphans(got.w, svc);
        AdoptServiceEvolves(got.w, svc, sc);
        KeepingCall(got.w, AdoptService(got.w, svc).w, sc);
      }
    }
  }

  /** A current listing shows each held service with its finalizer, so what provisioning makes
      is made for owners that are held. */
  lemma ListingHeld(w: World, c: World, svcs: seq<Service>)
    requires WF(w) && Fresh(w.script) && ListServices(w) == Out(c, Some(svcs))
    ensures WF(c)
    ensures forall s :: s in svcs ==> s.key in c.services.objects && c.services.objects[s.key] == s
    ensures forall s :: s in svcs && ServiceFinalizer in s.finalizers ==> Owned(c, OwnerOf(s))
    ensures forall i, j :: 0 <= i < j < |svcs| ==> svcs[i].key != svcs[j].key
    ensures forall k :: k in c.services.objects ==> c.services.objects[k] in svcs
  {
    hide Tick, Others, Fresh, Listing, ValidCloud, Marked, OneBound;
    TickOthers(w);
    NextReadable(w);
    ListingCurrent(c.services, c.services.names);
  }

  /** The listing that a provisioning pass starts from shows, as held, a service that is not held. */
  ghost predicate ListsFalsely(w: World, lb: LoadBalancer, o: Owner) {
    var c := NewClient(w, lb.spec.secret);
    var l := ListServices(c.w);
    && c.v && l.v.Some? && !Owned(l.w, o)
    && exists s :: s in l.v.value && Provisions(s, lb.spec.className) && OwnerOf(s) == o
  }

  /** The pass is over a load balancer, and its listing is false about this owner. */
  ghost predicate Misled(w: World, req: Key, o: Owner) {
    var got := GetLB(w, req);
    !IsServiceRequest(req.name) && got.v.Found? && ListsFalsely(got.w, got.v.obj, o)
  }

  function ProvisionScope(svcs: seq<Service>, className: string): Scope {
    Scope(set s | s in svcs :: s.key, {}, {}, set s | s in svcs && Provisions(s, className) :: OwnerOf(s), false)
  }

  lemma ReconcileLiveOrphans(w: World, lb: LoadBalancer, id: string)
    requires WF(w) && Guarded(w) && Orphan(ReconcileLive(w, lb).w, id) && !Orphan(w, id)
    ensures ListsFalsely(w, lb, ReconcileLive(w, lb).w.log.made[id])
  {
    hide WF, Evolves, NewClient, ListServices, ProvisionAll, Conclude, WriteStatus, SetCondition, Orphan, Fresh, Owned;
    hide Provisions;
    var sc := Scope({}, {}, {lb.key}, {}, false);
    var c := NewClient(w, lb.spec.secret);
    NewClientEvolves(w, lb.spec.secret, sc);
    KeepingCall(w, c.w, sc);
    var bad := Note(c.w, lb, Ready, false, OpenStackClientError, ErrorText(w));
    WriteStatusEvolves(c.w, bad.key, bad.status, STEPS, sc);
    KeepingCall(c.w, WriteStatus(c.w, bad.key, bad.status, STEPS).w, sc);
    var l := ListServices(c.w);
    ListServicesEvolves(c.w, sc);
    KeepingCall(c.w, l.w, sc);
    assert c.v && l.v.Some?;
    var wide := ProvisionScope(l.v.value, lb.spec.className);
    var t := Tally(lb, false, false, false);
    var p := ProvisionAll(l.w, l.v.value, t);
    ProvisionAllEvolves(l.w, l.v.value, t, wide);
    LogAndRules(l.w, p.w, wide);
    assert WF(p.w) by { StillFormed(l.w, p.w, wide); }
    ConcludeEvolves(p.w, p.v, sc);
    KeepingCall(p.w, Conclude(p.w, p.v).w, sc);
    NewOrphan(l.w, p.w, wide, id);
    MadeStays(p.w, Conclude(p.w, p.v).w, sc, id);
  }

  lemma StillFormed(a: World, b: World, sc: Scope)
    requires Evolves(a, b, sc)
    ensures WF(b)
  {
    hide WF, Flow, StoresEvolve, CloudEvolves, Spares;
  }

  lemma MadeStays(a: World, b: World, sc: Scope, id: string)
    requires Evolves(a, b, sc) && Orphan(a, id)
    ensures id in b.log.made && b.log.made[id] == a.log.made[id]
  {
    hide WF, Flow, StoresEvolve, Spares, Owned, Ages, Unbinds, KeepsLive, StraysOf, MishapsOf;
  }

  lemma ListServicesEvolves(w: World, sc: Scope)
    requires WF(w)
    ensures Evolves(w, ListServices(w).w, sc)
  {
    hide WF, Others, Tick, Evolves, Listing;
    TickEvolves(w, sc);
  }

  /** New orphans of a pass come from trouble, or from a false listing. */
  ghost predicate Explained(w: World, req: Key, id: string) {
    var r := Reconcile(w, req).w;
    Orphan(r, id) ==> Orphan(w, id) || Troubled(w, r) || Misled(w, req, r.log.made[id])
  }

  lemma ReconcileLBOrphans(w: World, k: Key, id: string)
    requires WF(w) && Guarded(w) && !IsServiceRequest(k.name)
    ensures Explained(w, k, id)
  {
    hide WF, Evolves, Others, Tick, GetLB, WriteLB, HandleDeletion, ReconcileLive, Fresh, Orphan, Owned;
    hide IsServiceRequest, ListsFalsely;
    var sc := Scope({}, {}, {k}, {}, false);
    var got := GetLB(w, k);
    GetLBFacts(w, k, sc);
    KeepingCall(w, got.w, sc);
    if got.v.Found? {
      var lb := got.v.obj;
      var o := lb.(finalizers := AddFinalizer(lb.finalizers, LoadBalancerFinalizer));
      WriteLBEvolves(got.w, o, STEPS, sc);
      KeepingCall(got.w, WriteLB(got.w, o, STEPS).w, sc);
      HandleDeletionNoNewOrphans(got.w, lb);
      if Orphan(ReconcileLive(got.w, lb).w, id) && !Orphan(got.w, id) {
        ReconcileLiveOrphans(got.w, lb, id);
      }
    }
  }

  /** Every pass, however old its reads: a new orphan means that the pass was troubled, or that its
      listing showed the service it was made for as held although it was not. */
  lemma PassOrphans(w: World, req: Key, id: string)
    requires WF(w) && Guarded(w)
    ensures Explained(w, req, id)
  {
    hide WF, ReconcileService, ReconcileLB, Orphan, IsServiceRequest, Misled;
    if IsServiceRequest(req.name) {
      ReconcileServiceNoNewOrphans(w, req);
    } else {
      ReconcileLBOrphans(w, req, id);
    }
  }

  /** A current listing misleads nobody. */
  lemma CurrentListing(w: World, req: Key, o: Owner)
    requires WF(w) && Fresh(w.script)
    ensures !Misled(w, req, o)
  {
    hide WF, Evolves, Others, Tick, GetLB, NewClient, ListServices, Fresh, Owned, Eligible, IsServiceRequest;
    var none := Scope({}, {}, {}, {}, false);
    var got := GetLB(w, req);
    GetLBFacts(w, req, none);
    LogAndRules(w, got.w, none);
    StillFormed(w, got.w, none);
    if got.v.Found? {
      var secret := got.v.obj.spec.secret;
      var c := NewClient(got.w, secret);
      NewClientEvolves(got.w, secret, none);
      LogAndRules(got.w, c.w, none);
      StillFormed(got.w, c.w, none);
      var l := ListServices(c.w);
      if l.v.Some? {
        ListingHeld(c.w, l.w, l.v.value);
      }
    }
  }
}
