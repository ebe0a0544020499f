/** When a terminating service loses the operator's finalizer, and what that says about its
    resources. */
module Finalization {
  import opened Kube
  import opened Cloud
  import opened Selection
  import opened Tags
  import opened Worlds
  import opened Calls
  import opened Retry
  import opened Requests
  import opened Operator
  import opened Evolution
  import opened Passes
  import opened Teardown
  import opened Refinement

  /** With no call to the cloud gone wrong, a finalization leaves the service cleared. */
  lemma FinalizeClears(w: World, svc: Service)
    requires WF(w) && ServiceFinalizer in svc.finalizers
    ensures var r := Finalize(w, svc);
      && w.log.faults <= r.w.log.faults
      && (r.w.log.faults == w.log.faults ==> Cleared(r.w.cloud, w.cloud.used, svc, r.w.rules.binds))
      && (!HasResources(svc) && r.v == DONE ==> Cleared(r.w.cloud, w.cloud.used, svc, r.w.rules.binds))
  {
    hide Flow, StoresEvolve, KeepsLive, Unbinds, Spares, Valid, ValidCloud, Marked, OneBound, Ages;
    hide Cleanup, Forced, DropFinalizer, DropLiveFinalizer, Cleared;
    var sc := Scope({svc.key}, {svc.key}, {}, {}, true);
    var c := Cleanup(w, svc);
    CleanupFacts(w, svc);
    CleanupEvolves(w, svc, sc);
    UsedPrefix(w, c.w, sc);
    ForcedEvolves(c.w, svc, sc);
    DropFinalizerEvolves(c.w, svc, sc);
    DropLiveFinalizerEvolves(c.w, svc, sc);
    ClearedStays(c.w, DropLiveFinalizer(c.w, svc).w, w.cloud.used, svc, sc);
    ClearedStays(c.w, Forced(c.w, svc).w, w.cloud.used, svc, sc);
    ClearedStays(c.w, DropFinalizer(c.w, svc).w, w.cloud.used, svc, sc);
  }

  /** Dropping the finalizer means the service is cleared, or it recorded a resource and a call
      to the cloud failed or was refused during this very pass. */
  lemma DropMeansClean(w: World, svc: Service)
    requires WF(w) && ServiceFinalizer in svc.finalizers && Finalize(w, svc).v == DONE
    ensures var r := Finalize(w, svc);
      || Cleared(r.w.cloud, w.cloud.used, svc, r.w.rules.binds)
      || (HasResources(svc) && r.w.log.faults > w.log.faults)
  {
    hide WF, Finalize, Cleared;
    FinalizeClears(w, svc);
  }

  /** The stored object is the one the snapshot shows, terminating and held by the finalizer. */
  ghost predicate Holding(w: World, svc: Service) {
    && svc.key in w.services.objects
    && w.services.objects[svc.key].uid == svc.uid
    && w.services.objects[svc.key].terminating
    && ServiceFinalizer in w.services.objects[svc.key].finalizers
  }

  ghost predicate Released(w: World, svc: Service) {
    svc.key !in w.services.objects || ServiceFinalizer !in w.services.objects[svc.key].finalizers
  }

  lemma EvolvesHolds(a: World, b: World, svc: Service, sc: Scope)
    requires Guarded(a) && Evolves(a, b, sc) && svc.key !in sc.lost && Holding(a, svc)
    ensures Holding(b, svc) && Guarded(b)
    ensures Fresh(a.script) ==> Fresh(b.script)
  {
    hide WF, CloudEvolves, Fresh, Quiet, TagsReadable, SameOrNew, SameOutside, KeepsRecords, KeepsStatus, Spares;
  }

  lemma UpdateReleases(w: World, o: Service)
    requires WF(w) && Guarded(w) && Holding(w, o) && ServiceFinalizer !in o.finalizers
    ensures var u := UpdateService(w, o);
      if u.v == Written then Released(u.w, o) else Holding(u.w, o) && u.w == Tick(w)
  {
    hide Tick, Others, Flow, StoresEvolve, CloudEvolves, Marked, ValidCloud, OneBound, Spares;
    var sc := Scope({}, {}, {}, {}, false);
    TickEvolves(w, sc);
    EvolvesHolds(w, Tick(w), o, sc);
  }

  /** The ordinary removal: a success that wrote means the finalizer is off; it is still on after a
      failure, and after a success that wrote nothing because a read showed no object. */
  lemma {:induction false} WriteReleases(w: World, o: Service, n: nat)
    requires WF(w) && Guarded(w) && Holding(w, o) && ServiceFinalizer !in o.finalizers
    ensures var u := WriteService(w, o, n); if u.v && !Missed(w, o, n) then Released(u.w, o) else Holding(u.w, o)
    ensures WriteService(w, o, n).w.log == w.log
    decreases n
  {
    hide WF, Tick, Others, Flow, StoresEvolve, CloudEvolves, GetService, UpdateService, Fresh, Spares;
    if n > 0 {
      var sc := Scope({o.key}, {}, {}, {}, false);
      var got := GetService(w, o.key);
      GetServiceFacts(w, o.key, sc);
      TickLog(w);
      EvolvesHolds(w, got.w, o, sc);
      match got.v {
        case Failed => WriteReleases(got.w, o, n - 1);
        case Missing =>
        case Found(current) =>
          var e := o.(version := current.version);
          var put := UpdateService(got.w, e);
          UpdateReleases(got.w, e);
          TickLog(got.w);
          TickEvolves(got.w, sc);
          UpdateLog(got.w, e);
          if put.v == Conflict {
            EvolvesHolds(got.w, put.w, o, sc);
            WriteReleases(put.w, o, n - 1);
          }
      }
    }
  }

  /** With current reads an object that is held is never missed. */
  lemma {:induction false} CurrentNotMissed(w: World, o: Service, n: nat)
    requires WF(w) && Guarded(w) && Fresh(w.script) && Holding(w, o)
    ensures !Missed(w, o, n)
    decreases n
  {
    hide WF, Tick, Others, Flow, StoresEvolve, CloudEvolves, GetService, UpdateService, Fresh, Spares;
    if n > 0 {
      var sc := Scope({o.key}, {}, {}, {}, false);
      var got := GetService(w, o.key);
      GetServiceFacts(w, o.key, sc);
      EvolvesHolds(w, got.w, o, sc);
      match got.v {
        case Failed => CurrentNotMissed(got.w, o, n - 1);
        case Missing =>
        case Found(current) =>
          var e := o.(version := current.version);
          var put := UpdateService(got.w, e);
          if put.v == Conflict {
            UpdateWrites(got.w, e);
            TickEvolves(got.w, sc);
            EvolvesHolds(got.w, put.w, o, sc);
            CurrentNotMissed(put.w, o, n - 1);
          }
      }
    }
  }

  lemma UpdateLog(w: World, o: Service)
    ensures UpdateService(w, o).w.log == Tick(w).log
  {
    hide Tick, Update;
  }

  /** The forced removal: a success removes the object itself, a failure is noted and changes
      nothing. */
  lemma ForceReleases(w: World, svc: Service)
    requires WF(w) && Guarded(w) && Holding(w, svc) && svc.terminating
    ensures var f := Forced(w, svc);
      if f.v == DONE then svc.key !in f.w.services.objects && f.w.log == w.log
      else Holding(f.w, svc) && f.w.log == w.log.(patchFaults := w.log.patchFaults + 1)
  {
    hide Tick, Others, Flow, StoresEvolve, CloudEvolves, Marked, ValidCloud, OneBound, Spares;
    var sc := Scope({}, {}, {}, {}, false);
    TickEvolves(w, sc);
    TickLog(w);
    EvolvesHolds(w, Tick(w), svc, sc);
  }

  function Dropped(svc: Service): Service {
    svc.(finalizers := RemoveFinalizer(svc.finalizers, ServiceFinalizer))
  }

  lemma DropReleases(w: World, svc: Service)
    requires WF(w) && Guarded(w) && Holding(w, svc) && svc.terminating
    ensures var d := DropFinalizer(w, svc);
      && (if d.v == DONE && !Missed(w, Dropped(svc), STEPS) then Released(d.w, svc) else Holding(d.w, svc))
      && (d.v == DONE <==> d.w.log.patchFaults == w.log.patchFaults)
      && d.w.log.patchFaults >= w.log.patchFaults
  {
    hide WF, Flow, StoresEvolve, CloudEvolves, WriteService, Forced, Fresh, Spares, Missed;
    var o := Dropped(svc);
    var u := WriteService(w, o, STEPS);
    WriteReleases(w, o, STEPS);
    MissedSucceeds(w, o, STEPS);
    var sc := Scope({svc.key}, {svc.key}, {}, {}, false);
    WriteServiceEvolves(w, o, STEPS, sc);
    assert Guarded(u.w) by { FlowRules(w, u.w); }
    if !u.v {
      ForceReleases(u.w, svc);
    }
  }

  lemma MissedSucceeds(w: World, o: Service, n: nat)
    requires WF(w)
    ensures Missed(w, o, n) ==> WriteService(w, o, n).v
  {
    hide WF, Others, Missed, WriteService, Commits, Unwritten, Fresh;
    var mid := WriteServiceAtomic(w, o, n);
  }

  /** The ordinary removal of a finalization was shown no object. */
  ghost predicate RemovalMissed(w: World, svc: Service) {
    var c := Cleanup(w, svc);
    c.v == DONE && Missed(c.w, Dropped(svc), STEPS)
  }

  /** The counterpart for the whole finalization with a client. */
  lemma FinalizeReleases(w: World, svc: Service)
    requires WF(w) && Guarded(w) && Holding(w, svc)
    requires svc.terminating && ServiceFinalizer in svc.finalizers
    ensures var r := Finalize(w, svc);
      && (if r.v == DONE && !RemovalMissed(w, svc) then Released(r.w, svc) else Holding(r.w, svc))
      && (r.v != DONE <==>
            r.w.log.patchFaults > w.log.patchFaults || (!HasResources(svc) && Cleanup(w, svc).v != DONE))
      && (HasResources(svc) && r.v == DONE ==> svc.key !in r.w.services.objects)
  {
    hide WF, Flow, StoresEvolve, CloudEvolves, Cleanup, Forced, DropFinalizer, Fresh, Spares, Missed;
    var sc := Scope({svc.key}, {}, {}, {}, true);
    var c := Cleanup(w, svc);
    CleanupEvolves(w, svc, sc);
    EvolvesHolds(w, c.w, svc, sc);
    CleanupPatches(w, svc);
    CleanupFacts(w, svc);
    if c.v == DONE {
      DropReleases(c.w, svc);
    } else {
      ForceReleases(c.w, svc);
    }
  }

  lemma CleanupPatches(w: World, svc: Service)
    requires WF(w)
    ensures Cleanup(w, svc).w.log.patchFaults == w.log.patchFaults
  {
    hide WF, Flow, StoresEvolve, CloudEvolves, Others, Tick, DeleteAll, EditAnnotations, FloatingIPList, PortList;
    hide Blanks, Spares;
    hide FloatingIPsFor, PortsFor, FloatingIPIDs, PortIDs;
    var sc := Scope({}, {}, {}, {}, true);
    FaultEvolves(w, sc);
    TickLog(w);
    var fips := ListFloatingIPs(w);
    if fips.v.Some? {
      FaultEvolves(fips.w, sc);
      TickLog(fips.w);
      var ports := ListPorts(fips.w);
      if ports.v.Some? {
        var fs := FloatingIPIDs(FloatingIPsFor(fips.v.value, svc.key, Annotation(svc, PortID),
          Annotation(svc, FloatingIPID)));
        var ps := PortIDs(PortsFor(ports.v.value, svc.key, Annotation(svc, PortID)));
        var f := DeleteAll(ports.w, FloatingIPKind, fs, Annotation(svc, FloatingIPID));
        DeleteAllPatches(ports.w, FloatingIPKind, fs, Annotation(svc, FloatingIPID));
        DeleteAllEvolves(ports.w, FloatingIPKind, fs, Annotation(svc, FloatingIPID), sc);
        DeleteAllPatches(f.w, PortKind, ps, Annotation(svc, PortID));
        DeleteAllEvolves(f.w, PortKind, ps, Annotation(svc, PortID), sc);
        var s := Sweeps(ports.w, svc, fips.v.value, ports.v.value);
        EditAnnotationsLog(s.w, svc.key, Blanks(s.v.0.hit, s.v.1.hit), STEPS);
      }
    }
  }

  lemma {:induction false} DeleteAllPatches(w: World, kind: Kind, ids: seq<string>, watched: string)
    requires WF(w)
    ensures DeleteAll(w, kind, ids, watched).w.log.patchFaults == w.log.patchFaults
    ensures DeleteAll(w, kind, ids, watched).w.log.misses == w.log.misses
    decreases |ids|
  {
    hide WF, Flow, StoresEvolve, CloudEvolves, DeleteResource, Spares;
    if ids != [] {
      var sc := Scope({}, {}, {}, {}, true);
      var d := DeleteResource(w, kind, ids[0]);
      DeleteResourcePatches(w, kind, ids[0]);
      DeleteResourceEvolves(w, kind, ids[0], sc);
      DeleteAllPatches(d.w, kind, ids[1..], watched);
    }
  }

  lemma DeleteResourcePatches(w: World, kind: Kind, id: string)
    requires WF(w)
    ensures DeleteResource(w, kind, id).w.log.patchFaults == w.log.patchFaults
    ensures DeleteResource(w, kind, id).w.log.misses == w.log.misses
  {
    hide WF, Tick, Others, Take, OwnedByOperator;
    TickOthers(w);
    TickLog(w);
    var g := GetResource(w, kind, id);
    if g.v.Some? && g.v.value {
      TickOthers(g.w);
      TickLog(g.w);
      TickLog(Tick(g.w));
      TakeNotes(Tick(Tick(g.w)), kind, id);
    }
  }

  lemma {:induction false} ClientOfMatchingPatches(w: World, svc: Service, lbs: seq<LoadBalancer>)
    requires WF(w)
    ensures ClientOfMatching(w, svc, lbs).w.log.patchFaults == w.log.patchFaults
    decreases |lbs|
  {
    hide WF, Tick, Flow, StoresEvolve, CloudEvolves, MatchesClass, Spares;
    if lbs != [] {
      if MatchesClass(svc, lbs[0].spec.className) {
        var c := NewClient(w, lbs[0].spec.secret);
        NewClientEvolves(w, lbs[0].spec.secret, Scope({}, {}, {}, {}, false));
        TickLog(w);
        ClientOfMatchingPatches(c.w, svc, lbs[1..]);
      } else {
        ClientOfMatchingPatches(w, svc, lbs[1..]);
      }
    }
  }

  lemma ClientOfServicePatches(w: World, svc: Service)
    requires WF(w)
    ensures ClientOfService(w, svc).w.log.patchFaults == w.log.patchFaults
  {
    hide WF, Others, Tick, Flow, StoresEvolve, CloudEvolves, ClientOfMatching, Listing, Spares;
    var sc := Scope({}, {}, {}, {}, false);
    TickLog(w);
    FaultEvolves(w, sc);
    var l := ListLBs(w);
    if l.v.Some? {
      ClientOfMatchingPatches(l.w, svc, l.v.value);
      ClientOfMatchingEvolves(l.w, svc, l.v.value, sc);
      TickLog(ClientOfMatching(l.w, svc, l.v.value).w);
    }
  }

  /** The ordinary removal of a pass, with or without a client, was shown no object. */
  ghost predicate PassMissed(w: World, svc: Service) {
    var client := ClientOfService(w, svc);
    if client.v then RemovalMissed(client.w, svc) else Missed(client.w, Dropped(svc), STEPS)
  }

  /** After one pass over a terminating service that the finalizer holds, however old the copy the pass
      was given and whatever its later reads show: the finalizer is still on exactly when the pass asks
      to be repeated or its removal was shown no object; and the pass asks to be repeated exactly when a
      forced removal was tried and failed, or there was a client, the copy recorded no resource and the
      cleanup did not finish.  A forced removal that succeeds takes the whole finalizer list, and the
      object with it. */
  lemma RetentionIff(w: World, req: Key, svc: Service)
    requires WF(w) && Guarded(w)
    requires ServiceName(req.name) == Some(svc.key.name) && req.namespace == svc.key.namespace
    requires GetService(w, svc.key).v == Found(svc) && Holding(GetService(w, svc.key).w, svc)
    requires svc.terminating && ServiceFinalizer in svc.finalizers
    ensures var r, got := ReconcileService(w, req), GetService(w, svc.key).w;
      var client := ClientOfService(got, svc);
      && (Holding(r.w, svc) <==> r.v != DONE || PassMissed(got, svc))
      && (r.v != DONE <==>
            || r.w.log.patchFaults > w.log.patchFaults
            || (client.v && !HasResources(svc) && Cleanup(client.w, svc).v != DONE))
      && (!Holding(r.w, svc) ==> Released(r.w, svc))
      && (client.v && HasResources(svc) && r.v == DONE ==> svc.key !in r.w.services.objects)
  {
    hide WF, Others, Tick, Flow, StoresEvolve, CloudEvolves, GetService, ClientOfService, Finalize, DropFinalizer;
    hide Cleanup, Fresh;
    hide Spares, Missed, RemovalMissed;
    var sc := Scope({}, {}, {}, {}, false);
    var got := GetService(w, svc.key);
    assert Key(req.namespace, svc.key.name) == svc.key;
    GetServiceFacts(w, svc.key, sc);
    TickLog(w);
    FlowRules(w, got.w);
    var client := ClientOfService(got.w, svc);
    ClientOfServiceEvolves(got.w, svc, sc);
    EvolvesHolds(got.w, client.w, svc, sc);
    ClientOfServicePatches(got.w, svc);
    if client.v {
      FinalizeReleases(client.w, svc);
    } else {
      DropReleases(client.w, svc);
    }
  }

  /** With current reads no removal is shown no object, so the finalizer is on exactly when the pass
      asks to be repeated. */
  lemma CurrentPassMissesNothing(w: World, svc: Service)
    requires WF(w) && Guarded(w) && Fresh(w.script) && Holding(w, svc)
    ensures !PassMissed(w, svc)
  {
    hide WF, Others, Tick, Flow, StoresEvolve, CloudEvolves, ClientOfService, Cleanup, Fresh, Spares, Missed;
    var sc := Scope({svc.key}, {}, {}, {}, true);
    var client := ClientOfService(w, svc);
    ClientOfServiceEvolves(w, svc, sc);
    EvolvesHolds(w, client.w, svc, sc);
    CurrentNotMissed(client.w, Dropped(svc), STEPS);
    if client.v {
      var c := Cleanup(client.w, svc);
      CleanupEvolves(client.w, svc, sc);
      EvolvesHolds(client.w, c.w, svc, sc);
      CurrentNotMissed(c.w, Dropped(svc), STEPS);
    }
  }
}
