/** How a pass ends: when a read fails, when nothing is there, when the finalizer of a load balancer goes
    on or comes off, and which step asks for another pass without an error. */
module Exits {
  import opened Kube
  import opened Cloud
  import opened Worlds
  import opened Calls
  import opened Retry
  import opened Requests
  import opened Operator
  import opened Evolution
  import opened Passes
  import opened Teardown
  import opened Orphans
  import opened Undisturbed
  import opened Progress
  import opened Truthful
  import opened Convergence
  import opened Deletion
  import opened Conditions
  import opened Readiness

  // ----- The opening read -----

  /** The object a request is for, or none when a handler request cannot be decoded. */
  function Target(req: Key): Option<Key> {
    if !IsServiceRequest(req.name) then Some(req)
    else match ServiceName(req.name)
      case None => None
      case Some(name) => Some(Key(req.namespace, name))
  }

  predicate Stored(w: World, req: Key)
    requires Target(req).Some?
  {
    if IsServiceRequest(req.name) then Target(req).value in w.services.objects else req in w.lbs.objects
  }

  /** A pass whose opening read fails reports the error and does nothing; so does, without an error, a
      pass whose object a current read does not show.  A request that cannot be decoded makes no call. */
  lemma OpeningRead(w: World, req: Key)
    requires WF(w)
    ensures Target(req).None? ==> Reconcile(w, req) == Out(w, DONE)
    ensures Target(req).Some? && !Ok(w) ==> Reconcile(w, req) == Out(Tick(w), Verdict(false, true))
    ensures Target(req).Some? && Ok(w) && Fresh(w.script) && !Stored(Tick(w), req) ==>
      Reconcile(w, req) == Out(Tick(w), DONE)
  {
    hide WF, Tick, Fresh, Evolves, Others, Known, IsServiceRequest, ServiceName, FinalizeService, AdoptService;
    hide ReconcileLive, HandleDeletion, WriteLB;
    if Target(req).Some? {
      GetServiceFacts(w, Target(req).value, Scope({}, {}, {}, {}, false));
      GetLBFacts(w, req, Scope({}, {}, {}, {}, false));
    }
  }

  // ----- The finalizer of a load balancer -----

  /** The load balancer is as before but for its finalizers, or gone because it was terminating and none
      is left. */
  ghost predicate Refinalized(a: World, b: World, k: Key, fs: seq<Finalizer>)
    requires k in a.lbs.objects
  {
    var lb := a.lbs.objects[k];
    && b.services == a.services && b.cloud == a.cloud
    && (forall other :: other != k ==> Current(b.lbs, other) == Current(a.lbs, other))
    && (k in b.lbs.objects <==> !(lb.terminating && fs == []))
    && (k in b.lbs.objects ==> b.lbs.objects[k] == lb.(finalizers := fs, version := b.lbs.objects[k].version))
  }

  lemma FinalizersWritten(w: World, lb: LoadBalancer, fs: seq<Finalizer>)
    requires Still(w) && lb.key in w.lbs.objects && w.lbs.objects[lb.key] == lb
    ensures var u := WriteLB(w, lb.(finalizers := fs), STEPS);
      && (w.script == [] ==> u.v)
      && (if u.v then Refinalized(w, u.w, lb.key, fs) else Same(w, u.w))
  {
    hide Still, WriteLB;
    WriteLBStill(w, lb.(finalizers := fs), STEPS);
    if w.script == [] {
      CalmWritesLB(w, lb.(finalizers := fs), STEPS);
    }
    Written(w, lb, fs);
  }

  lemma Written(w: World, lb: LoadBalancer, fs: seq<Finalizer>)
    requires Still(w) && lb.key in w.lbs.objects && w.lbs.objects[lb.key] == lb
    ensures Refinalized(w, w.(lbs := Replace(w.lbs, Merge(lb, lb.(finalizers := fs)))), lb.key, fs)
  {
    hide Quiet, Fresh, ValidCloud, Marked, OneBound;
  }

  lemma ReadsLB(w: World, k: Key)
    requires Still(w) && !IsServiceRequest(k.name) && k in w.lbs.objects && Ok(w)
    ensures var got, lb := Tick(w), w.lbs.objects[k];
      && Follows(w, got) && Same(w, got) && lb.key == k && GetLB(w, k) == Out(got, Found(lb))
  {
    hide Still, Tick, IsServiceRequest, Evolves, Others, Known;
    TickStill(w);
    StillWF(w);
    GetLBFacts(w, k, Scope({}, {}, {}, {}, false));
    KeyStored(w, k);
  }

  /** The first pass over a load balancer puts the finalizer on and does nothing else; it reports an
      error exactly when that write failed. */
  lemma FinalizerFirst(w: World, k: Key)
    requires Still(w) && !IsServiceRequest(k.name) && k in w.lbs.objects && Ok(w)
    requires !w.lbs.objects[k].terminating && LoadBalancerFinalizer !in w.lbs.objects[k].finalizers
    ensures var r, fs := Reconcile(w, k), w.lbs.objects[k].finalizers;
      && (r.v == DONE || r.v == Verdict(false, true)) && (w.script == [] ==> r.v == DONE)
      && (if r.v == DONE then Refinalized(w, r.w, k, fs + [LoadBalancerFinalizer]) else Same(w, r.w))
  {
    hide Still, Tick, IsServiceRequest, WriteLB, HandleDeletion, ReconcileLive, GetLB;
    ReadsLB(w, k);
    var lb := w.lbs.objects[k];
    FinalizersWritten(Tick(w), lb, lb.finalizers + [LoadBalancerFinalizer]);
  }

  /** A deletion pass that gets no client takes the finalizer off all the same: no service and no
      resource changes, and nothing is reported unless the write fails. */
  lemma DeletionWithoutClient(w: World, k: Key)
    requires Still(w) && !IsServiceRequest(k.name) && k in w.lbs.objects && w.lbs.objects[k].terminating
    requires Ok(w) && !Ok(Tick(w))
    ensures var r, fs := Reconcile(w, k), w.lbs.objects[k].finalizers;
      && (r.v == DONE || r.v == Verdict(false, true)) && (|w.script| <= 2 ==> r.v == DONE)
      && (if r.v == DONE then Refinalized(w, r.w, k, RemoveFinalizer(fs, LoadBalancerFinalizer)) else Same(w, r.w))
      && (r.v == DONE && (forall f :: f in fs ==> f == LoadBalancerFinalizer) ==> k !in r.w.lbs.objects)
      && (r.v == DONE && k in r.w.lbs.objects ==> LoadBalancerFinalizer !in r.w.lbs.objects[k].finalizers)
  {
    hide Still, Tick, IsServiceRequest, WriteLB, ReconcileLive, CleanAll, Listing, GetLB, NewClient, RemoveFinalizer;
    ReadsLB(w, k);
    var lb, got := w.lbs.objects[k], Tick(w);
    NewClientStill(got, lb.spec.secret);
    var c := NewClient(got, lb.spec.secret);
    FinalizersWritten(c.w, lb, RemoveFinalizer(lb.finalizers, LoadBalancerFinalizer));
    TwoTurns(w);
    OnlyOne(lb.finalizers);
  }

  lemma OnlyOne(fs: seq<Finalizer>)
    ensures (forall f :: f in fs ==> f == LoadBalancerFinalizer) ==> RemoveFinalizer(fs, LoadBalancerFinalizer) == []
  {
    var r := RemoveFinalizer(fs, LoadBalancerFinalizer);
    if r != [] {
      assert r[0] in r && r[0] in fs;
    }
  }

  lemma TwoTurns(w: World)
    requires Still(w)
    ensures |w.script| <= 2 ==> Tick(Tick(w)).script == []
    ensures |Tick(w).script| <= |w.script|
  {
    hide WF, Fresh;
  }

  /** A deletion pass whose listing fails reports the error and stores nothing. */
  lemma DeletionWithoutListing(w: World, k: Key)
    requires Still(w) && !IsServiceRequest(k.name) && k in w.lbs.objects && w.lbs.objects[k].terminating
    requires Ok(w) && Ok(Tick(w)) && !Ok(Tick(Tick(w)))
    ensures Reconcile(w, k).v == Verdict(false, true) && Same(w, Reconcile(w, k).w)
  {
    hide Still, Tick, IsServiceRequest, WriteLB, ReconcileLive, CleanAll, Listing, GetLB;
    ReadsLB(w, k);
    var got := Tick(w);
    NewClientStill(got, w.lbs.objects[k].spec.secret);
    var c := NewClient(got, w.lbs.objects[k].spec.secret);
    TickStill(c.w);
    SameNext(Tick(got), c.w);
  }

  lemma SameNext(a: World, b: World)
    requires a.script == b.script
    ensures Ok(a) <==> Ok(b)
  {
  }

  // ----- Credentials -----

  /** A pass over a load balancer that carries the finalizer or is being deleted asks for a client with the
      credentials the load balancer names, before any others. */
  lemma AsksOwnCredentials(w: World, k: Key, lb: LoadBalancer)
    requires WF(w) && !IsServiceRequest(k.name) && GetLB(w, k).v == Found(lb)
    requires lb.terminating || LoadBalancerFinalizer in lb.finalizers
    ensures w.log.asked + [lb.spec.secret] <= Reconcile(w, k).w.log.asked
  {
    hide WF, Tick, Evolves, Others, IsServiceRequest, Known, ProvisionAll, CleanAll, Listing, WriteStatus, Judge;
    hide SetCondition, Conclude, DropLBFinalizer, WriteLB;
    var got := GetLB(w, k);
    var none := Scope({}, {}, {}, {}, false);
    GetLBFacts(w, k, none);
    StillFormed(w, got.w, none);
    TickLog(w);
    TickLog(got.w);
    var c := NewClient(got.w, lb.spec.secret);
    NewClientEvolves(got.w, lb.spec.secret, none);
    StillFormed(got.w, c.w, none);
    assert c.w.log.asked == w.log.asked + [lb.spec.secret];
    AskedStays(c.w, lb, k);
  }

  /** What a pass does after its client call only adds to the credentials asked for. */
  lemma AskedStays(w: World, lb: LoadBalancer, k: Key)
    requires WF(w) && lb.key == k
    ensures forall st :: w.log.asked <= WriteStatus(w, k, st, STEPS).w.log.asked
    ensures w.log.asked <= DropLBFinalizer(w, lb).w.log.asked
    ensures w.log.asked <= ListServices(w).w.log.asked
    ensures ListServices(w).v.Some? ==>
      var l, t := ListServices(w), Tally(lb, false, false, false);
      var p, d := ProvisionAll(l.w, l.v.value, t), CleanAll(l.w, l.v.value, lb.spec.className, false);
      w.log.asked <= Conclude(p.w, p.v).w.log.asked && w.log.asked <= d.w.log.asked
      && w.log.asked <= DropLBFinalizer(d.w, lb).w.log.asked
  {
    hide WF, Tick, Evolves, ProvisionAll, CleanAll, Listing, WriteLB, WriteStatus, Judge, Conclude, DropLBFinalizer;
    var sc := Scope({}, {}, {k}, {}, true);
    forall st ensures w.log.asked <= WriteStatus(w, k, st, STEPS).w.log.asked {
      WriteStatusEvolves(w, k, st, STEPS, sc);
      AskedGrows(w, WriteStatus(w, k, st, STEPS).w, sc);
    }
    DropLBFinalizerEvolves(w, lb, sc);
    AskedGrows(w, DropLBFinalizer(w, lb).w, sc);
    ListServicesEvolves(w, sc);
    var l := ListServices(w);
    AskedGrows(w, l.w, sc);
    StillFormed(w, l.w, sc);
    if l.v.Some? {
      var t := Tally(lb, false, false, false);
      var p, d := ProvisionAll(l.w, l.v.value, t), CleanAll(l.w, l.v.value, lb.spec.className, false);
      var wide := ListScope(l.v.value, {k}, false);
      ProvisionAllEvolves(l.w, l.v.value, t, wide);
      AskedGrows(l.w, p.w, wide);
      StillFormed(l.w, p.w, wide);
      LoopReports(l.w, l.v.value, t);
      ConcludeEvolves(p.w, p.v, sc);
      AskedGrows(p.w, Conclude(p.w, p.v).w, sc);
      CleanAllEvolves(l.w, l.v.value, lb.spec.className, false, RestScope(l.v.value));
      AskedGrows(l.w, d.w, RestScope(l.v.value));
      StillFormed(l.w, d.w, RestScope(l.v.value));
      DropLBFinalizerEvolves(d.w, lb, sc);
      AskedGrows(d.w, DropLBFinalizer(d.w, lb).w, sc);
    }
  }

  lemma AskedGrows(a: World, b: World, sc: Scope)
    requires Evolves(a, b, sc)
    ensures a.log.asked <= b.log.asked
  {
    hide WF, Flow, StoresEvolve, Ages, KeepsLive, Unbinds, Spares;
  }

  // ----- The verdict of a deletion -----

  /** What the cleanup of each involved service reported, in the order of the listing. */
  function CleanReports(w: World, svcs: seq<Service>, className: string): seq<Verdict>
    decreases |svcs|
  {
    if svcs == [] then []
    else if !Involved(svcs[0], className) then CleanReports(w, svcs[1..], className)
    else
      var c := CleanService(w, svcs[0]);
      [c.v] + CleanReports(c.w, svcs[1..], className)
  }

  predicate SomeUnfinished(rs: seq<Verdict>) {
    exists i :: 0 <= i < |rs| && rs[i] != DONE
  }

  lemma {:induction false} CleanAllReports(w: World, svcs: seq<Service>, className: string, requeue: bool)
    ensures CleanAll(w, svcs, className, requeue).v <==> requeue || SomeUnfinished(CleanReports(w, svcs, className))
    decreases |svcs|
  {
    hide Involved, CleanService;
    if svcs != [] {
      if !Involved(svcs[0], className) {
        CleanAllReports(w, svcs[1..], className, requeue);
      } else {
        var c := CleanService(w, svcs[0]);
        CleanAllReports(c.w, svcs[1..], className, requeue || c.v != DONE);
        var rest := CleanReports(c.w, svcs[1..], className);
        var all := [c.v] + rest;
        assert all[0] == c.v && forall i :: 0 <= i < |rest| ==> all[i + 1] == rest[i];
      }
    }
  }

  /** An undisturbed deletion pass with a client and a listing: if the cleanup of some involved service is
      not done, it asks for another pass without an error and leaves the load balancer as it is.  Otherwise
      it takes exactly our finalizer off, or reports that it could not. */
  lemma DeletionReports(w: World, k: Key)
    requires Still(w) && !IsServiceRequest(k.name) && k in w.lbs.objects && w.lbs.objects[k].terminating
    requires Ok(w) && Provisioning(Tick(w), w.lbs.objects[k]).Some?
    ensures var r, lb := Reconcile(w, k), w.lbs.objects[k]; var l := Provisioning(Tick(w), lb).value;
      var rest := RemoveFinalizer(lb.finalizers, LoadBalancerFinalizer);
      if SomeUnfinished(CleanReports(l.w, l.v, lb.spec.className)) then
        r.v == Verdict(true, false) && Current(r.w.lbs, k) == Some(lb)
      else if r.v == DONE then
        && (k in r.w.lbs.objects <==> rest != [])
        && (rest != [] ==> r.w.lbs.objects[k] == lb.(finalizers := rest, version := r.w.lbs.objects[k].version))
      else r.v == Verdict(false, true) && Current(r.w.lbs, k) == Some(lb)
  {
    hide Still, Tick, IsServiceRequest, WriteLB, ReconcileLive, CleanAll, Listing, GetLB, RemoveFinalizer, CleanReports;
    hide SomeUnfinished, Evolves;
    ReadsLB(w, k);
    var lb, got := w.lbs.objects[k], Tick(w);
    NewClientStill(got, lb.spec.secret);
    var c := NewClient(got, lb.spec.secret);
    TickStill(c.w);
    var l := ListServices(c.w);
    StillWF(l.w);
    CleanAllReports(l.w, l.v.value, lb.spec.className, false);
    var d := CleanAll(l.w, l.v.value, lb.spec.className, false);
    CleanAllEvolves(l.w, l.v.value, lb.spec.className, false, RestScope(l.v.value));
    EvolvesStill(l.w, d.w, RestScope(l.v.value));
    LBStays(l.w, d.w, RestScope(l.v.value), k);
    FinalizersWritten(d.w, lb, RemoveFinalizer(lb.finalizers, LoadBalancerFinalizer));
  }

  // ----- Another pass without an error -----

  /** A provisioning step is done, fails, or asks for another pass without an error. */
  predicate Plain(v: Verdict) {
    v == DONE || v == Verdict(true, true) || v == Verdict(true, false)
  }

  /** What a step that asks for another pass without an error has done: it put the finalizer on, or
      forgot a port or a floating IP that is gone. */
  ghost predicate Forgot(c: Neutron, o: Service, svc: Service) {
    || (HasAnnotation(svc, PortID) && Annotation(svc, PortID) !in c.ports && !HasAnnotation(o, PortID))
    || (HasAnnotation(svc, FloatingIPID) && Annotation(svc, FloatingIPID) !in c.fips && !HasAnnotation(o, FloatingIPID))
  }

  ghost predicate Improved(c: Neutron, o: Service, svc: Service) {
    if ServiceFinalizer !in svc.finalizers
    then o == svc.(finalizers := svc.finalizers + [ServiceFinalizer], version := o.version)
    else Alike(o, svc) && Forgot(c, o, svc)
  }

  lemma PlainSteps(w: World, lb: LoadBalancer, svc: Service, ip: string, portID: string)
    ensures Plain(EnsurePort(w, lb, svc, ip).v.v) && Plain(HandleFloatingIP(w, lb, svc, portID).v.v)
    ensures !HasAnnotation(svc, PortID) ==> EnsurePort(w, lb, svc, ip).v.v != Verdict(true, false)
    ensures !HasAnnotation(svc, FloatingIPID) ==> HandleFloatingIP(w, lb, svc, portID).v.v != Verdict(true, false)
  {
    hide EditAnnotations, CreatePort, GetResource, GetAddress, FindFloatingIP, CreateFloatingIP, AddExternalIP;
    hide HasAnnotation, SetCondition, Recorded, Mishap;
  }

  lemma ForgetsWhatIsGone(w: World, lb: LoadBalancer, svc: Service, ip: string, secret: SecretRef)
    requires Stands(w, svc, secret, Annotation(svc, PortID), Annotation(svc, FloatingIPID)) && !svc.terminating
    ensures var r := Provision(w, lb, svc, ip);
      && Plain(r.v.v)
      && (r.v.v == Verdict(true, false) ==>
            svc.key in r.w.services.objects
            && Alike(r.w.services.objects[svc.key], svc) && Forgot(w.cloud, r.w.services.objects[svc.key], svc))
  {
    hide Still, DetectNetwork, EnsurePort, HandleFloatingIP, Alike, Credited, Reaches;
    var fipID := Annotation(svc, FloatingIPID);
    DetectStill(w, lb, ip);
    DetectSays(w, lb, ip);
    var d := DetectNetwork(w, lb, ip);
    StandsSame(w, d.w, svc, secret, Annotation(svc, PortID), fipID);
    var p := EnsurePort(d.w, d.v.lb, svc, ip);
    PlainSteps(d.w, d.v.lb, svc, ip, p.v.portID);
    PlainSteps(p.w, p.v.lb, svc, ip, p.v.portID);
    PortForgets(d.w, d.v.lb, svc, ip, secret);
    if d.v.v == DONE && p.v.v == DONE && lb.spec.createFloatingIP && HasAnnotation(svc, FloatingIPID) {
      PortStill(d.w, d.v.lb, svc, ip, secret);
      HandleKnown(p.w, p.v.lb, svc, secret, p.v.portID);
    }
  }

  lemma PortForgets(w: World, lb: LoadBalancer, svc: Service, ip: string, secret: SecretRef)
    requires Stands(w, svc, secret, Annotation(svc, PortID), Annotation(svc, FloatingIPID)) && !svc.terminating
    ensures var p := EnsurePort(w, lb, svc, ip);
      && (p.v.v == Verdict(true, false) ==>
            && HasAnnotation(svc, PortID) && Annotation(svc, PortID) !in w.cloud.ports
            && Stands(p.w, svc, secret, "", Annotation(svc, FloatingIPID)))
      && forall id :: id in w.cloud.fips ==> id in p.w.cloud.fips
  {
    hide Still, CheckPort, MakePort, Alike, Credited, Evolves, Annotation;
    var none := Scope({svc.key}, {}, {}, {OwnerOf(svc)}, false);
    StillWF(w);
    PlainSteps(w, lb, svc, ip, "");
    EnsurePortEvolves(w, lb, svc, ip, none);
    CalmCloud(w, EnsurePort(w, lb, svc, ip).w, none);
    if HasAnnotation(svc, PortID) {
      CheckPortStill(w, lb, svc, secret, Annotation(svc, FloatingIPID));
    }
  }

  /** Provisioning a service that is stored, undisturbed: it asks for another pass without an error only
      after it improved the stored service. */
  lemma SilentRequeue(w: World, lb: LoadBalancer, svc: Service, ip: string)
    requires Still(w) && !svc.terminating && svc.key in w.services.objects && w.services.objects[svc.key] == svc
    ensures var r := ProcessService(w, lb, svc, ip);
      && Plain(r.v.v)
      && (r.v.v == Verdict(true, false) ==>
            svc.key in r.w.services.objects && Improved(w.cloud, r.w.services.objects[svc.key], svc))
  {
    hide Still, EnsureCredentials, Provision, WriteService, Forgot, Replace;
    var o := svc.(finalizers := svc.finalizers + [ServiceFinalizer]);
    if ServiceFinalizer !in svc.finalizers {
      WriteStill(w, o, STEPS);
      assert Valid(w.services) by { StillWF(w); hide Valid; }
      ReplaceStores(w.services, Merge(svc, o));
    } else {
      CredentialsStand(w, svc, lb);
      PlainCredentials(w, svc, lb);
      var c := EnsureCredentials(w, svc, lb);
      if c.v == DONE {
        ForgetsWhatIsGone(c.w, lb, svc, ip, lb.spec.secret);
      }
    }
  }

  lemma PlainCredentials(w: World, svc: Service, lb: LoadBalancer)
    ensures EnsureCredentials(w, svc, lb).v == DONE || EnsureCredentials(w, svc, lb).v == Verdict(true, true)
  {
    hide EditAnnotations, HasAnnotation;
  }
}
