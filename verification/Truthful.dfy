/** What a pass that reports neither an error nor a need for another pass says about the
    services. */
module Truthful {
  import opened Kube
  import opened Cloud
  import opened Worlds
  import opened Calls
  import opened Retry
  import opened Requests
  import opened Operator
  import opened Evolution
  import opened Passes
  import opened Orphans
  import opened Undisturbed
  import opened Progress

  lemma PortErrorsRequeue(w: World, lb: LoadBalancer, svc: Service, ip: string)
    ensures EnsurePort(w, lb, svc, ip).v.v.err ==> EnsurePort(w, lb, svc, ip).v.v.requeue
    ensures EnsurePort(w, lb, svc, ip).v.lb.spec == lb.spec && EnsurePort(w, lb, svc, ip).v.lb.key == lb.key
  {
    hide EditAnnotations, CreatePort, GetResource, SetCondition, HasAnnotation, Recorded, Mishap;
  }

  lemma FloatingIPErrorsRequeue(w: World, lb: LoadBalancer, svc: Service, portID: string)
    ensures HandleFloatingIP(w, lb, svc, portID).v.v.err ==> HandleFloatingIP(w, lb, svc, portID).v.v.requeue
  {
    hide EditAnnotations, AddExternalIP, CreateFloatingIP, FindFloatingIP, GetResource, GetAddress, SetCondition;
    hide HasAnnotation;
  }

  /** Every error of the five provisioning steps also asks for another pass. */
  lemma ErrorsRequeue(w: World, lb: LoadBalancer, svc: Service, ip: string)
    ensures ProcessService(w, lb, svc, ip).v.v.err ==> ProcessService(w, lb, svc, ip).v.v.requeue
  {
    hide WriteService, EditAnnotations, FindSubnet, SetCondition, HasAnnotation, EnsurePort, HandleFloatingIP;
    var c := EnsureCredentials(w, svc, lb);
    var d := DetectNetwork(c.w, lb, ip);
    PortErrorsRequeue(d.w, d.v.lb, svc, ip);
    var p := EnsurePort(d.w, d.v.lb, svc, ip);
    FloatingIPErrorsRequeue(p.w, p.v.lb, svc, p.v.portID);
  }

  lemma PortStill(w: World, lb: LoadBalancer, svc: Service, ip: string, secret: SecretRef)
    requires Stands(w, svc, secret, Annotation(svc, PortID), Annotation(svc, FloatingIPID)) && !svc.terminating
    ensures var p := EnsurePort(w, lb, svc, ip);
      p.v.v == DONE ==>
        && Follows(w, p.w) && p.w.lbs == w.lbs && p.v.lb.spec == lb.spec && p.v.portID in p.w.cloud.ports
        && Stands(p.w, svc, secret, p.v.portID, Annotation(svc, FloatingIPID))
  {
    hide Still, CheckPort, MakePort, Alike, Credited, Evolves;
    var fipID := Annotation(svc, FloatingIPID);
    CheckPortStill(w, lb, svc, secret, fipID);
    MakePortStill(w, lb, svc, ip, secret, fipID);
    if HasAnnotation(svc, PortID) && CheckPort(w, lb, svc).v.v == DONE {
      StandsSame(w, CheckPort(w, lb, svc).w, svc, secret, Annotation(svc, PortID), fipID);
    }
    PortErrorsRequeue(w, lb, svc, ip);
  }

  /** The service is stored and served. */
  ghost predicate Provisioned(w: World, k: Key, fip: bool) {
    k in w.services.objects && Served(w.services.objects[k], w.cloud, fip)
  }

  lemma ProvisionServes(w: World, lb: LoadBalancer, svc: Service, ip: string, secret: SecretRef)
    requires Stands(w, svc, secret, Annotation(svc, PortID), Annotation(svc, FloatingIPID)) && !svc.terminating
    requires Provision(w, lb, svc, ip).v.v == DONE
    ensures Provisioned(Provision(w, lb, svc, ip).w, svc.key, lb.spec.createFloatingIP)
  {
    hide Still, DetectNetwork, EnsurePort, HandleFloatingIP, Alike, Credited, Reachable;
    var portID, fipID := Annotation(svc, PortID), Annotation(svc, FloatingIPID);
    var d := DetectNetwork(w, lb, ip);
    DetectStill(w, lb, ip);
    StandsSame(w, d.w, svc, secret, portID, fipID);
    PortStill(d.w, d.v.lb, svc, ip, secret);
    var p := EnsurePort(d.w, d.v.lb, svc, ip);
    if lb.spec.createFloatingIP {
      if HasAnnotation(svc, FloatingIPID) {
        HandleKnown(p.w, p.v.lb, svc, secret, p.v.portID);
      } else {
        HandleNew(p.w, p.v.lb, svc, secret, p.v.portID);
      }
    }
  }

  /** A service that is done with is served. */
  lemma ProcessServes(w: World, lb: LoadBalancer, svc: Service, ip: string)
    requires Still(w) && !svc.terminating && svc.key in w.services.objects && w.services.objects[svc.key] == svc
    requires ProcessService(w, lb, svc, ip).v.v == DONE
    ensures Provisioned(ProcessService(w, lb, svc, ip).w, svc.key, lb.spec.createFloatingIP)
  {
    hide Still, EnsureFinalizer, EnsureCredentials, Provision, Served;
    FinalizerNeeded(w, svc);
    CredentialsStand(w, svc, lb);
    ProvisionServes(EnsureCredentials(w, svc, lb).w, lb, svc, ip, lb.spec.secret);
  }

  // ----- The loop -----

  lemma EvolvesStill(a: World, b: World, sc: Scope)
    requires Still(a) && Evolves(a, b, sc)
    ensures Still(b) && Follows(a, b)
  {
    hide WF, Fresh, Quiet, TagsReadable, StoresEvolve, CloudEvolves, Spares;
  }

  /** What a quiet step that deletes nothing means for a service outside its scope. */
  lemma OutsideStill(a: World, b: World, sc: Scope, k: Key)
    requires Still(a) && Evolves(a, b, sc) && k !in sc.keys && !sc.deletes
    ensures Current(a.services, k) == Current(b.services, k)
    ensures KeepsLive(a.cloud, b.cloud) && Ages(a.cloud, b.cloud)
  {
    hide WF, Fresh, Quiet, TagsReadable, Spares, KeepsLive, Ages, LogGrows, Unbinds, KeepsFinalizers, KeepsRecords;
    hide KeepsStatus, SameOrNew;
  }

  lemma ServedLasts(o: Service, a: Neutron, b: Neutron, fip: bool)
    requires ValidCloud(a) && KeepsLive(a, b) && Ages(a, b) && Served(o, a, fip)
    ensures Served(o, b, fip)
  {
  }

  lemma ProvisionedLasts(a: World, b: World, sc: Scope, k: Key, fip: bool)
    requires Still(a) && Evolves(a, b, sc) && k !in sc.keys && !sc.deletes && Provisioned(a, k, fip)
    ensures Provisioned(b, k, fip)
  {
    hide Valid, Marked, OneBound, ValidCloud, Served, KeepsLive, Ages, Evolves, Quiet, Fresh;
    OutsideStill(a, b, sc, k);
    assert ValidCloud(a.cloud);
    ServedLasts(a.services.objects[k], a.cloud, b.cloud, fip);
  }

  /** The listed services have distinct names and are stored as listed. */
  ghost predicate Listed(w: World, svcs: seq<Service>) {
    && (forall s :: s in svcs ==> s.key in w.services.objects && w.services.objects[s.key] == s)
    && (forall i, j :: 0 <= i < j < |svcs| ==> svcs[i].key != svcs[j].key)
  }

  /** One turn of the loop leaves the services still to come as listed. */
  lemma RestListed(a: World, b: World, svcs: seq<Service>, sc: Scope)
    requires svcs != [] && Listed(a, svcs) && Still(a) && Evolves(a, b, sc) && sc.keys <= {svcs[0].key} && !sc.deletes
    ensures Listed(b, svcs[1..])
    ensures svcs[0].key !in ListScope(svcs[1..], {}, false).keys
  {
    hide Still, Evolves;
    forall s | s in svcs[1..]
      ensures s.key != svcs[0].key && s.key in b.services.objects && b.services.objects[s.key] == s
    {
      assert s in svcs;
      OutsideStill(a, b, sc, s.key);
    }
  }

  lemma {:induction false} LoopServes(w: World, svcs: seq<Service>, t: Tally)
    requires Still(w) && Listed(w, svcs) && !ProvisionAll(w, svcs, t).v.requeue
    ensures var r := ProvisionAll(w, svcs, t);
      forall s :: s in svcs && Eligible(s, t.lb.spec.className) ==> Provisioned(r.w, s.key, t.lb.spec.createFloatingIP)
    ensures !t.requeue
    decreases |svcs|
  {
    hide Still, Evolves, ProcessService, Provisioned;
    if svcs != [] {
      var s, rest := svcs[0], svcs[1..];
      var fip := t.lb.spec.createFloatingIP;
      if !Eligible(s, t.lb.spec.className) {
        assert Listed(w, rest);
        LoopServes(w, rest, t);
      } else {
        var ip := s.status.ingress[0];
        var p := ProcessService(w, t.lb, s, ip);
        var sc := ListScope([s], {}, false);
        assert s in [s];
        StillWF(w);
        ProcessServiceEvolves(w, t.lb, s, ip, sc);
        EvolvesStill(w, p.w, sc);
        RestListed(w, p.w, svcs, sc);
        var u := Tally(p.v.lb, true, t.err || p.v.v.err, t.requeue || p.v.v.requeue);
        LoopServes(p.w, rest, u);
        ErrorsRequeue(w, t.lb, s, ip);
        ProcessServes(w, t.lb, s, ip);
        StillWF(p.w);
        ProvisionAllEvolves(p.w, rest, u, ListScope(rest, {}, false));
        ProvisionedLasts(p.w, ProvisionAll(p.w, rest, u).w, ListScope(rest, {}, false), s.key, fip);
      }
    }
  }

  lemma StillWF(w: World)
    requires Still(w)
    ensures WF(w) && Fresh(w.script)
  {
    hide WF, Fresh, Quiet;
  }

  // ----- The pass -----

  lemma ConcludeStill(w: World, t: Tally)
    requires Still(w) && t.lb.key in w.lbs.objects
    ensures var c := Conclude(w, t); c.w.services == w.services && c.w.cloud == w.cloud && Follows(w, c.w)
    ensures Conclude(w, t).v == DONE ==> !t.requeue
  {
    hide Still, WriteStatus, SetCondition, Replace;
    var lb := Judge(w, t);
    WriteStatusStill(w, t.lb.key, lb.status, STEPS);
  }

  lemma LBStays(a: World, b: World, sc: Scope, k: Key)
    requires Still(a) && Evolves(a, b, sc) && sc.lbs == {}
    ensures Current(a.lbs, k) == Current(b.lbs, k)
  {
    hide WF, Fresh, Quiet, TagsReadable, Spares, CloudEvolves, KeepsFinalizers, KeepsRecords, KeepsStatus, SameOrNew;
  }

  lemma LivePassServes(w: World, lb: LoadBalancer)
    requires Still(w) && lb.key in w.lbs.objects
    requires ReconcileLive(w, lb).v == DONE && ReconcileLive(w, lb).w.log.misses == w.log.misses
    ensures forall k :: k in w.services.objects && Eligible(w.services.objects[k], lb.spec.className) ==>
      Provisioned(ReconcileLive(w, lb).w, k, lb.spec.createFloatingIP)
  {
    hide Still, Tick, Evolves, ProvisionAll, Conclude, Listing, WriteStatus, SetCondition, Eligible, Served;
    StillWF(w);
    NewClientStill(w, lb.spec.secret);
    var c := NewClient(w, lb.spec.secret);
    if !c.v {
      var none := Scope({}, {}, {lb.key}, {}, false);
      NewClientEvolves(w, lb.spec.secret, none);
      var bad := Note(c.w, lb, Ready, false, OpenStackClientError, ErrorText(w));
      EvolvesStill(w, c.w, none);
      StillWF(c.w);
      WriteStatusEvolves(c.w, bad.key, bad.status, STEPS, none);
      LogAndRules(c.w, ReconcileLive(w, lb).w, none);
    } else {
      StillWF(c.w);
      TickStill(c.w);
      var l := ListServices(c.w);
      if l.v.Some? {
        var svcs := l.v.value;
        var t := Tally(lb, false, false, false);
        var p := ProvisionAll(l.w, svcs, t);
        ListingHeld(c.w, l.w, svcs);
        assert Listed(l.w, svcs);
        var sc := ListScope(svcs, {}, false);
        ProvisionAllEvolves(l.w, svcs, t, sc);
        EvolvesStill(l.w, p.w, sc);
        LBStays(l.w, p.w, sc, lb.key);
        ConcludeStill(p.w, p.v);
        LoopServes(l.w, svcs, t);
      }
    }
  }

  /** A pass over a live load balancer that obtained a client and ends with neither an error nor
      a request for another pass leaves every eligible service served. */
  lemma CleanPassServes(w: World, k: Key)
    requires Still(w) && !IsServiceRequest(k.name) && k in w.lbs.objects
    requires !w.lbs.objects[k].terminating && LoadBalancerFinalizer in w.lbs.objects[k].finalizers
    requires Reconcile(w, k).v == DONE && Reconcile(w, k).w.log.misses == w.log.misses
    ensures var lb := w.lbs.objects[k];
      forall s :: s in w.services.objects && Eligible(w.services.objects[s], lb.spec.className) ==>
        Provisioned(Reconcile(w, k).w, s, lb.spec.createFloatingIP)
  {
    hide Still, Tick, Evolves, ReconcileLive, WriteLB, HandleDeletion, Eligible, Served, IsServiceRequest;
    var got := GetLB(w, k);
    StillWF(w);
    GetLBFacts(w, k, Scope({}, {}, {}, {}, false));
    TickStill(w);
    assert w.lbs.objects[k].key == k by { KeyStored(w, k); }
    LivePassServes(got.w, got.v.obj);
  }

  lemma KeyStored(w: World, k: Key)
    requires Still(w)
    ensures k in w.lbs.objects ==> w.lbs.objects[k].key == k
    ensures k in w.services.objects ==> w.services.objects[k].key == k
  {
    hide Quiet, Fresh, ValidCloud, Marked, OneBound;
  }
}
