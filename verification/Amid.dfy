/** Provisioning converges also when the passes over a load balancer are mixed with handler passes and
    with passes over other load balancers: none of those sets a service back. */
module Amid {
  import opened Kube
  import opened Cloud
  import opened Network
  import opened Worlds
  import opened Calls
  import opened Retry
  import opened Requests
  import opened Operator
  import opened Evolution
  import opened Passes
  import opened Orphans
  import opened Refinement
  import opened Undisturbed
  import opened Progress
  import opened Truthful
  import opened Convergence

  /** Nothing is being deleted, and every load balancer names its credentials in full. */
  ghost predicate Peaceful(w: World) {
    && (forall s :: s in w.services.objects ==> !w.services.objects[s].terminating)
    && (forall l :: l in w.lbs.objects ==>
          !w.lbs.objects[l].terminating && w.lbs.objects[l].spec.secret.name != ""
            && w.lbs.objects[l].spec.secret.namespace != "")
  }

  /** The service is stored as before as far as eligibility goes, and no further from being finished. */
  ghost predicate NoWorse(x: Service, a: Neutron, o: Service, b: Neutron, spec: LBSpec) {
    && o.status == x.status && o.terminating == x.terminating
    && (forall c :: Eligible(o, c) <==> Eligible(x, c))
    && Rank(o, b, spec) <= Rank(x, a, spec)
  }

  /** A calm step that sets no service back. */
  ghost predicate Mild(a: World, b: World, spec: LBSpec) {
    && Still(b) && b.script == [] && b.texts == a.texts && b.cloud.subnets == a.cloud.subnets
    && b.services.objects.Keys == a.services.objects.Keys
    && (forall s :: s in a.services.objects ==>
           NoWorse(a.services.objects[s], a.cloud, b.services.objects[s], b.cloud, spec))
  }

  lemma MildReflexive(w: World, spec: LBSpec)
    requires Still(w) && w.script == []
    ensures Mild(w, w, spec)
  {
    hide Still, Rank, Eligible;
  }

  lemma MildTransitive(a: World, b: World, c: World, spec: LBSpec)
    requires Mild(a, b, spec) && Mild(b, c, spec)
    ensures Mild(a, c, spec)
  {
    hide Still, Rank, Eligible;
    forall s | s in a.services.objects
      ensures NoWorse(a.services.objects[s], a.cloud, c.services.objects[s], c.cloud, spec)
    {
      assert NoWorse(a.services.objects[s], a.cloud, b.services.objects[s], b.cloud, spec);
      assert NoWorse(b.services.objects[s], b.cloud, c.services.objects[s], c.cloud, spec);
    }
  }

  /** A step that adds to the cloud and writes one service at most. */
  lemma MildStep(a: World, b: World, sc: Scope, spec: LBSpec, k: Key)
    requires Still(a) && a.script == [] && Evolves(a, b, sc) && !sc.deletes && sc.keys <= {k}
    requires k in a.services.objects ==>
      k in b.services.objects && NoWorse(a.services.objects[k], a.cloud, b.services.objects[k], b.cloud, spec)
    ensures Mild(a, b, spec)
  {
    hide Still, Evolves, Rank, Eligible;
    EvolvesStill(a, b, sc);
    CalmCloud(a, b, sc);
    assert ValidCloud(a.cloud) by { StillWF(a); hide ValidCloud, Valid, Marked, OneBound; }
    NothingAdded(a, b, sc);
    forall s | s in a.services.objects
      ensures s in b.services.objects && NoWorse(a.services.objects[s], a.cloud, b.services.objects[s], b.cloud, spec)
    {
      if s != k {
        OutsideStill(a, b, sc, s);
        RankFalls(a.services.objects[s], a.cloud, b.cloud, spec);
      }
    }
  }

  lemma NothingAdded(a: World, b: World, sc: Scope)
    requires Still(a) && Evolves(a, b, sc)
    ensures b.services.objects.Keys <= a.services.objects.Keys && b.lbs.objects.Keys <= a.lbs.objects.Keys
  {
    hide WF, Fresh, Quiet, TagsReadable, Spares, CloudEvolves, KeepsFinalizers, KeepsRecords, KeepsStatus, SameOrNew;
    hide Current;
  }

  // ----- A service provisioned for another load balancer -----

  /** How the record of a resource may change: it stays, or was blank or dead and is now blank or live. */
  predicate Renewed(before: string, after: string, were: set<string>, are: set<string>) {
    after == before || (before !in were && (after == "" || after in are))
  }

  lemma StandsNoWorse(a: World, svc: Service, b: World, secret: SecretRef, spec: LBSpec, portID: string, fipID: string)
    requires Stands(b, svc, secret, portID, fipID) && secret.name != "" && secret.namespace != ""
    requires ServiceFinalizer in svc.finalizers && "" !in a.cloud.ports && "" !in a.cloud.fips
    requires KeepsLive(a.cloud, b.cloud)
    requires Renewed(Annotation(svc, PortID), portID, a.cloud.ports.Keys, b.cloud.ports.Keys)
    requires Renewed(Annotation(svc, FloatingIPID), fipID, a.cloud.fips.Keys, b.cloud.fips.Keys)
    requires spec.createFloatingIP ==> Rank(svc, a.cloud, spec) > 0
    ensures NoWorse(svc, a.cloud, b.services.objects[svc.key], b.cloud, spec)
  {
    hide Still;
    AlikeEligible(b.services.objects[svc.key], svc);
  }

  /** The records after a calm provisioning, whichever steps it got through. */
  lemma ProvisionRenews(w: World, lb: LoadBalancer, svc: Service, ip: string, secret: SecretRef)
    returns (portID: string, fipID: string)
    requires Stands(w, svc, secret, Annotation(svc, PortID), Annotation(svc, FloatingIPID)) && w.script == []
    requires !svc.terminating
    ensures var r := Provision(w, lb, svc, ip).w;
      && Stands(r, svc, secret, portID, fipID)
      && Renewed(Annotation(svc, PortID), portID, w.cloud.ports.Keys, r.cloud.ports.Keys)
      && Renewed(Annotation(svc, FloatingIPID), fipID, w.cloud.fips.Keys, r.cloud.fips.Keys)
  {
    hide Still, DetectNetwork, CheckPort, MakePort, HandleFloatingIP, Alike, Credited, Evolves;
    portID, fipID := Annotation(svc, PortID), Annotation(svc, FloatingIPID);
    var d := DetectNetwork(w, lb, ip);
    DetectStill(w, lb, ip);
    StandsSame(w, d.w, svc, secret, portID, fipID);
    if d.v.v == DONE {
      CheckPortStill(d.w, d.v.lb, svc, secret, fipID);
      MakePortStill(d.w, d.v.lb, svc, ip, secret, fipID);
      NoEmptyPort(d.w);
      var p := EnsurePort(d.w, d.v.lb, svc, ip);
      if HasAnnotation(svc, PortID) && portID in d.w.cloud.ports {
        StandsSame(d.w, p.w, svc, secret, portID, fipID);
      } else if HasAnnotation(svc, PortID) {
        portID := "";
      } else {
        portID := p.v.portID;
      }
      if p.v.v == DONE && lb.spec.createFloatingIP {
        PortErrorsRequeue(d.w, d.v.lb, svc, ip);
        StillWF(d.w);
        var sc := Scope({svc.key}, {}, {}, {OwnerOf(svc)}, false);
        EnsurePortEvolves(d.w, d.v.lb, svc, ip, sc);
        CalmCloud(d.w, p.w, sc);
        fipID := FloatingIPRenews(p.w, p.v.lb, svc, secret, portID);
        var h := HandleFloatingIP(p.w, p.v.lb, svc, portID);
        StillWF(p.w);
        HandleFloatingIPEvolves(p.w, p.v.lb, svc, portID, sc);
        CalmCloud(p.w, h.w, sc);
        assert portID in h.w.cloud.ports by { PortStays(p.w.cloud, h.w.cloud, portID); }
      }
    }
  }

  lemma FloatingIPRenews(w: World, lb: LoadBalancer, svc: Service, secret: SecretRef, portID: string)
    returns (fipID: string)
    requires Stands(w, svc, secret, portID, Annotation(svc, FloatingIPID)) && w.script == [] && !svc.terminating
    requires portID in w.cloud.ports
    ensures var r := HandleFloatingIP(w, lb, svc, portID).w;
      && Stands(r, svc, secret, portID, fipID)
      && forall were :: were <= w.cloud.fips.Keys ==>
        Renewed(Annotation(svc, FloatingIPID), fipID, were, r.cloud.fips.Keys)
  {
    hide Still, AddExternalIP, CheckFloatingIP, Alike, Credited;
    fipID := Annotation(svc, FloatingIPID);
    if HasAnnotation(svc, FloatingIPID) {
      HandleKnown(w, lb, svc, secret, portID);
      if fipID !in w.cloud.fips {
        fipID := "";
      }
    } else {
      HandleNew(w, lb, svc, secret, portID);
      NoEmptyPort(w);
      var r := HandleFloatingIP(w, lb, svc, portID);
      if lb.spec.floatingIPNetworkID != "" {
        fipID := Annotation(r.w.services.objects[svc.key], FloatingIPID);
      }
    }
  }

  /** A finished service, floating IP included, is left alone by every load balancer. */
  lemma FinishedStays(w: World, lb: LoadBalancer, svc: Service, ip: string)
    requires Still(w) && w.script == [] && !svc.terminating && svc.key in w.services.objects
    requires w.services.objects[svc.key] == svc
    requires HasAnnotation(svc, CredentialsSecretName) && HasAnnotation(svc, CredentialsSecretNamespace)
    requires ServiceFinalizer in svc.finalizers && Served(svc, w.cloud, true)
    ensures var r := ProcessService(w, lb, svc, ip).w; r.services == w.services && r.cloud == w.cloud
  {
    hide Still, DetectNetwork, CheckPort, HandleFloatingIP, Alike, Credited;
    var secret, portID, fipID := lb.spec.secret, Annotation(svc, PortID), Annotation(svc, FloatingIPID);
    CredentialsStand(w, svc, lb);
    NoEmptyPort(w);
    var d := DetectNetwork(w, lb, ip);
    DetectStill(w, lb, ip);
    if d.v.v == DONE {
      StandsSame(w, d.w, svc, secret, portID, fipID);
      CheckPortStill(d.w, d.v.lb, svc, secret, fipID);
      var p := CheckPort(d.w, d.v.lb, svc);
      StandsSame(d.w, p.w, svc, secret, portID, fipID);
      HandleKnown(p.w, p.v.lb, svc, secret, portID);
    }
  }

  /** Provisioning a service for any load balancer does not set it back with respect to another. */
  lemma ProcessNoWorse(w: World, lb: LoadBalancer, svc: Service, ip: string, spec: LBSpec)
    requires Still(w) && w.script == [] && !svc.terminating && svc.key in w.services.objects
    requires w.services.objects[svc.key] == svc
    requires lb.spec.secret.name != "" && lb.spec.secret.namespace != "" && spec.secret.name != ""
    requires spec.secret.namespace != ""
    ensures var r := ProcessService(w, lb, svc, ip).w;
      svc.key in r.services.objects && NoWorse(svc, w.cloud, r.services.objects[svc.key], r.cloud, spec)
  {
    hide Still, Rank, Credited, Provision, EnsureCredentials, Evolves, NoWorse, Eligible, Alike;
    if ServiceFinalizer !in svc.finalizers {
      FinalizerCalm(w, lb, svc, ip);
      BareNoWorse(w, svc, ProcessService(w, lb, svc, ip).w, lb.spec, spec);
    } else if spec.createFloatingIP && Rank(svc, w.cloud, spec) == 0 {
      FinishedCredited(svc, w.cloud, spec);
      FinishedStays(w, lb, svc, ip);
      SameNoWorse(svc, w.cloud, spec);
    } else {
      var c := EnsureCredentials(w, svc, lb);
      CredentialsStand(w, svc, lb);
      var portID, fipID := ProvisionRenews(c.w, lb, svc, ip, lb.spec.secret);
      var r := Provision(c.w, lb, svc, ip).w;
      NoEmptyPort(w);
      StillWF(c.w);
      var sc := Scope({svc.key}, {}, {}, {OwnerOf(svc)}, false);
      ProvisionEvolves(c.w, lb, svc, ip, sc);
      CalmCloud(c.w, r, sc);
      StandsNoWorse(w, svc, r, lb.spec.secret, spec, portID, fipID);
    }
  }

  lemma SameNoWorse(svc: Service, c: Neutron, spec: LBSpec)
    ensures NoWorse(svc, c, svc, c, spec)
  {
    hide Rank, Eligible;
  }

  lemma FinishedCredited(svc: Service, c: Neutron, spec: LBSpec)
    requires Rank(svc, c, spec) == 0 && spec.secret.name != "" && spec.secret.namespace != "" && spec.createFloatingIP
    ensures HasAnnotation(svc, CredentialsSecretName) && HasAnnotation(svc, CredentialsSecretNamespace)
    ensures Served(svc, c, true)
    ensures ServiceFinalizer in svc.finalizers
  {
    hide Served;
  }

  /** A service without finalizer cannot be set back. */
  lemma BareNoWorse(w: World, svc: Service, r: World, spec: LBSpec, other: LBSpec)
    requires Advanced(w, svc, r, spec) && ServiceFinalizer !in svc.finalizers && !svc.terminating
    requires r.services.objects[svc.key].terminating == svc.terminating
    ensures NoWorse(svc, w.cloud, r.services.objects[svc.key], r.cloud, other)
  {
    hide Eligible, Served, Credited;
    RankBound(r.services.objects[svc.key], r.cloud, other);
  }

  // ----- Passes over other load balancers -----

  lemma {:induction false} LoopMild(w: World, svcs: seq<Service>, t: Tally, spec: LBSpec)
    requires Still(w) && w.script == [] && Listed(w, svcs) && forall s :: s in svcs ==> !s.terminating
    requires t.lb.spec.secret.name != "" && t.lb.spec.secret.namespace != "" && spec.secret.name != ""
    requires spec.secret.namespace != ""
    ensures Mild(w, ProvisionAll(w, svcs, t).w, spec)
    decreases |svcs|
  {
    hide Still, Evolves, ProcessService, Rank, Mild, NoWorse, MatchesClass;
    if svcs == [] {
      MildReflexive(w, spec);
    } else {
      var s, rest := svcs[0], svcs[1..];
      StillWF(w);
      if !Eligible(s, t.lb.spec.className) {
        EvolvesReflexive(w, Scope({}, {}, {}, {}, false));
        RestListed(w, w, svcs, Scope({}, {}, {}, {}, false));
        LoopMild(w, rest, t, spec);
      } else {
        var ip := s.status.ingress[0];
        assert s in svcs;
        var p := ProcessService(w, t.lb, s, ip);
        var sc := ListScope([s], {}, false);
        assert s in [s];
        ProcessServiceEvolves(w, t.lb, s, ip, sc);
        ProcessNoWorse(w, t.lb, s, ip, spec);
        MildStep(w, p.w, sc, spec, s.key);
        EvolvesStill(w, p.w, sc);
        RestListed(w, p.w, svcs, sc);
        var u := Tallied(t, p.v);
        LoopMild(p.w, rest, u, spec);
        MildTransitive(w, p.w, ProvisionAll(p.w, rest, u).w, spec);
      }
    }
  }

  /** The load balancers are the same but for status and finalizers. */
  ghost predicate SameSpecs(a: World, b: World) {
    && b.lbs.objects.Keys == a.lbs.objects.Keys
    && forall l :: l in a.lbs.objects ==>
         b.lbs.objects[l].spec == a.lbs.objects[l].spec && b.lbs.objects[l].terminating == a.lbs.objects[l].terminating
  }

  /** And this one is the same altogether. */
  ghost predicate SameLBs(a: World, b: World, k: Key) {
    SameSpecs(a, b) && Current(a.lbs, k) == Current(b.lbs, k)
  }

  /** A pass that neither sets a service back nor touches the load balancer k. */
  ghost predicate Gentle(a: World, b: World, k: Key, spec: LBSpec) {
    Mild(a, b, spec) && SameLBs(a, b, k)
  }

  lemma SameGentle(a: World, b: World, k: Key, spec: LBSpec)
    requires Still(a) && a.script == [] && Follows(a, b) && Same(a, b)
    ensures Gentle(a, b, k, spec)
  {
    hide Still, Rank, Eligible;
  }

  lemma GentleTransitive(a: World, b: World, c: World, k: Key, spec: LBSpec)
    requires Gentle(a, b, k, spec) && Gentle(b, c, k, spec)
    ensures Gentle(a, c, k, spec)
  {
    hide Mild;
    MildTransitive(a, b, c, spec);
  }

  /** A write of one load balancer that is not terminating. */
  lemma LBWritten(w: World, o: LoadBalancer)
    requires Still(w) && o.key in w.lbs.objects && o.uid == w.lbs.objects[o.key].uid
    requires !o.terminating && !w.lbs.objects[o.key].terminating && o.spec == w.lbs.objects[o.key].spec
    ensures var v := w.(lbs := Replace(w.lbs, o)); SameSpecs(w, v) && forall k :: k != o.key ==> SameLBs(w, v, k)
  {
    hide Still, Replace;
    assert Valid(w.lbs) by { StillWF(w); hide Valid; }
    ReplaceOutside(w.lbs, o, {o.key});
    var s := Replace(w.lbs, o);
    forall l | l in w.lbs.objects
      ensures l in s.objects && s.objects[l].spec == w.lbs.objects[l].spec
      ensures s.objects[l].terminating == w.lbs.objects[l].terminating
    {
      assert l != o.key ==> Current(w.lbs, l) == Current(s, l);
    }
    assert SameOutside(w.lbs, s, {o.key});
  }

  lemma MildSame(a: World, b: World, c: World, spec: LBSpec)
    requires Mild(a, b, spec) && Follows(b, c) && b.services == c.services && b.cloud == c.cloud
    ensures Mild(a, c, spec)
  {
    hide Still, Rank, Eligible;
  }

  lemma ConcludeGentle(w: World, t: Tally)
    requires Still(w) && w.script == [] && t.lb.key in w.lbs.objects && !w.lbs.objects[t.lb.key].terminating
    ensures var c := Conclude(w, t).w;
      && Follows(w, c) && c.services == w.services && c.cloud == w.cloud
      && SameSpecs(w, c) && forall k :: k != t.lb.key ==> SameLBs(w, c, k)
  {
    hide Still, WriteStatus, SetCondition, Replace, SameLBs, SameSpecs;
    var stored, lb := w.lbs.objects[t.lb.key], Judge(w, t);
    KeyStored(w, t.lb.key);
    WriteStatusStill(w, t.lb.key, lb.status, STEPS);
    CalmWritesLB(w, stored.(status := lb.status), STEPS);
    LBWritten(w, stored.(status := lb.status));
    LBsOnly(w, w.(lbs := Replace(w.lbs, stored.(status := lb.status))), WriteStatus(w, t.lb.key, lb.status, STEPS).w);
  }

  lemma LBsOnly(a: World, b: World, c: World)
    requires b.lbs == c.lbs
    ensures SameSpecs(a, b) ==> SameSpecs(a, c)
    ensures forall k :: SameLBs(a, b, k) ==> SameLBs(a, c, k)
  {
  }

  lemma LiveGentle(w: World, lb: LoadBalancer, spec: LBSpec)
    requires Still(w) && w.script == [] && Peaceful(w) && lb.key in w.lbs.objects && w.lbs.objects[lb.key] == lb
    requires spec.secret.name != "" && spec.secret.namespace != ""
    ensures var r := ReconcileLive(w, lb).w;
      Mild(w, r, spec) && SameSpecs(w, r) && forall k :: k != lb.key ==> Gentle(w, r, k, spec)
  {
    hide Still, Evolves, Tick, ProvisionAll, Conclude, Listing, Mild, Fresh, SameSpecs, SameLBs;
    NewClientStill(w, lb.spec.secret);
    var c := NewClient(w, lb.spec.secret);
    TickStill(c.w);
    var l := ListServices(c.w);
    StillWF(c.w);
    var svcs := l.v.value;
    ListingHeld(c.w, l.w, svcs);
    assert Listed(l.w, svcs);
    var t := Tally(lb, false, false, false);
    LoopMild(l.w, svcs, t, spec);
    var p := ProvisionAll(l.w, svcs, t);
    MildStill(l.w, p.w, spec);
    var sc := ListScope(svcs, {}, false);
    StillWF(l.w);
    ProvisionAllEvolves(l.w, svcs, t, sc);
    LoopLBs(l.w, p.w, sc);
    assert Current(l.w.lbs, lb.key) == Current(p.w.lbs, lb.key) by { LBStays(l.w, p.w, sc, lb.key); }
    ConcludeGentle(p.w, p.v);
    var r := Conclude(p.w, p.v).w;
    MildSame(l.w, p.w, r, spec);
    MildFrom(w, l.w, r, spec);
    LBsAcross(w, l.w, p.w, r);
  }

  lemma LBsAcross(w: World, a: World, b: World, c: World)
    requires w.lbs == a.lbs && SameSpecs(a, b) && SameSpecs(b, c)
    ensures SameSpecs(w, c) && forall k :: SameLBs(a, b, k) && SameLBs(b, c, k) ==> SameLBs(w, c, k)
  {
  }

  lemma MildStill(a: World, b: World, spec: LBSpec)
    requires Mild(a, b, spec)
    ensures Still(b) && b.script == []
  {
    hide Still, NoWorse;
  }

  lemma MildFrom(a: World, b: World, c: World, spec: LBSpec)
    requires Mild(b, c, spec) && a.services == b.services && a.cloud == b.cloud && a.texts == b.texts
    ensures Mild(a, c, spec)
  {
    hide Still, NoWorse;
  }

  lemma LoopLBs(a: World, b: World, sc: Scope)
    requires Still(a) && Evolves(a, b, sc) && sc.lbs == {}
    ensures SameSpecs(a, b) && forall k :: SameLBs(a, b, k)
  {
    hide Still, Evolves;
    NothingAdded(a, b, sc);
    forall l ensures Current(a.lbs, l) == Current(b.lbs, l) {
      LBStays(a, b, sc, l);
    }
    forall l | l in a.lbs.objects ensures l in b.lbs.objects && b.lbs.objects[l] == a.lbs.objects[l] {
      assert Current(a.lbs, l) == Current(b.lbs, l);
    }
  }

  lemma OtherLBPass(w: World, req: Key, k: Key, spec: LBSpec)
    requires Still(w) && w.script == [] && Peaceful(w) && req != k
    requires spec.secret.name != "" && spec.secret.namespace != ""
    ensures Gentle(w, ReconcileLB(w, req).w, k, spec)
  {
    hide Still, Tick, WriteLB, Replace, ReconcileLive, HandleDeletion, Mild, SameLBs, SameSpecs;
    CalmGet(w, req);
    KeyStored(w, req);
    var got := GetLB(w, req);
    SameGentle(w, got.w, k, spec);
    if got.v.Found? {
      var lb := got.v.obj;
      if LoadBalancerFinalizer !in lb.finalizers {
        var o := lb.(finalizers := AddFinalizer(lb.finalizers, LoadBalancerFinalizer));
        FinalizerAdded(got.w, lb);
        var u := WriteLB(got.w, o, STEPS).w;
        MildSame(w, got.w, u, spec);
        SameLBsAcross(w, got.w, u, k);
      } else {
        PeacefulSame(w, got.w);
        LiveGentle(got.w, lb, spec);
        GentleTransitive(w, got.w, ReconcileLive(got.w, lb).w, k, spec);
      }
    }
  }

  lemma FinalizerAdded(w: World, lb: LoadBalancer)
    requires Still(w) && w.script == [] && lb.key in w.lbs.objects && w.lbs.objects[lb.key] == lb && !lb.terminating
    ensures var u := WriteLB(w, lb.(finalizers := AddFinalizer(lb.finalizers, LoadBalancerFinalizer)), STEPS).w;
      && Follows(w, u) && u.services == w.services && u.cloud == w.cloud
      && SameSpecs(w, u) && forall k :: k != lb.key ==> SameLBs(w, u, k)
  {
    hide Still, WriteLB, Replace, SameLBs, SameSpecs;
    var o := lb.(finalizers := AddFinalizer(lb.finalizers, LoadBalancerFinalizer));
    WriteLBStill(w, o, STEPS);
    CalmWritesLB(w, o, STEPS);
    LBWritten(w, Merge(lb, o));
    LBsOnly(w, w.(lbs := Replace(w.lbs, Merge(lb, o))), WriteLB(w, o, STEPS).w);
  }

  lemma SameLBsAcross(a: World, b: World, c: World, k: Key)
    requires SameLBs(a, b, k) && SameLBs(b, c, k)
    ensures SameLBs(a, c, k)
  {
  }

  lemma PeacefulSame(a: World, b: World)
    requires Peaceful(a) && a.services == b.services && a.lbs == b.lbs
    ensures Peaceful(b)
  {
  }

  // ----- Handler passes -----

  /** The handler writes a service only while it has no finalizer. */
  lemma AdoptGentle(w: World, svc: Service, k: Key, spec: LBSpec)
    requires Still(w) && w.script == [] && svc.key in w.services.objects && w.services.objects[svc.key] == svc
    requires !svc.terminating
    ensures Gentle(w, AdoptService(w, svc).w, k, spec)
  {
    hide Still, Evolves, Tick, WriteService, EditAnnotations, Replace, FirstMatching, Listing, Mild, HasResources;
    TickStill(w);
    SameGentle(w, w, k, spec);
    var l := ListLBs(w);
    SameGentle(w, l.w, k, spec);
    var lb := FirstMatching(svc, l.v.value);
    if ServiceFinalizer !in svc.finalizers {
      var o := svc.(finalizers := AddFinalizer(svc.finalizers, ServiceFinalizer));
      WriteStill(l.w, o, STEPS);
      CalmWrites(l.w, o, STEPS);
      var u := WriteService(l.w, o, STEPS);
      assert Valid(w.services) by { StillWF(w); hide Valid; }
      ReplaceStores(w.services, Merge(svc, o));
      var sc := Scope({svc.key}, {}, {}, {}, false);
      StillWF(l.w);
      WriteServiceEvolves(l.w, o, STEPS, sc);
      AdoptedGentle(l.w, u.w, svc, sc, k, spec);
      if lb.Some? {
        var edits := Credentials(lb.value);
        EditStill(u.w, svc.key, edits, STEPS);
        CalmUpdates(u.w, svc.key, edits, "", STEPS);
        var e := EditAnnotations(u.w, svc.key, edits, STEPS);
        assert Valid(u.w.services) by { StillWF(u.w); hide Valid; }
        ReplaceStores(u.w.services, Annotated(u.w.services.objects[svc.key], edits));
        StillWF(u.w);
        EditAnnotationsEvolves(u.w, svc.key, edits, STEPS, sc);
        EvolvesTransitive(l.w, u.w, e.w, sc);
        AdoptedGentle(l.w, e.w, svc, sc, k, spec);
        GentleTransitive(w, l.w, e.w, k, spec);
      }
      GentleTransitive(w, l.w, u.w, k, spec);
    }
  }

  /** The service has gained the finalizer, and credentials at most. */
  lemma AdoptedGentle(a: World, b: World, svc: Service, sc: Scope, k: Key, spec: LBSpec)
    requires Still(a) && a.script == [] && Evolves(a, b, sc) && sc == Scope({svc.key}, {}, {}, {}, false)
    requires a.lbs == b.lbs
    requires svc.key in a.services.objects && a.services.objects[svc.key] == svc && ServiceFinalizer !in svc.finalizers
    requires svc.key in b.services.objects
    requires var o := b.services.objects[svc.key];
      && o.spec == svc.spec && o.status == svc.status && o.terminating == svc.terminating
      && (LoadBalancerClass in o.annotations <==> LoadBalancerClass in svc.annotations)
      && Annotation(o, LoadBalancerClass) == Annotation(svc, LoadBalancerClass)
    ensures Gentle(a, b, k, spec)
  {
    hide Still, Evolves, Mild, Served, Credited;
    RankBound(b.services.objects[svc.key], b.cloud, spec);
    MildStep(a, b, sc, spec, svc.key);
  }

  lemma HandlerPass(w: World, req: Key, k: Key, spec: LBSpec)
    requires Still(w) && w.script == [] && Peaceful(w)
    ensures Gentle(w, ReconcileService(w, req).w, k, spec)
  {
    hide Still, Tick, FinalizeService, AdoptService, ServiceName, Gentle;
    SameGentle(w, w, k, spec);
    if ServiceName(req.name).Some? {
      var at := Key(req.namespace, ServiceName(req.name).value);
      CalmGet(w, at);
      KeyStored(w, at);
      var got := GetService(w, at);
      SameGentle(w, got.w, k, spec);
      if got.v.Found? {
        AdoptGentle(got.w, got.v.obj, k, spec);
        GentleTransitive(w, got.w, AdoptService(got.w, got.v.obj).w, k, spec);
      }
    }
  }

  // ----- Runs -----

  lemma PeacefulStays(a: World, b: World, spec: LBSpec)
    requires Peaceful(a) && Mild(a, b, spec) && SameSpecs(a, b)
    ensures Peaceful(b)
  {
    hide Still, Rank, Eligible;
    forall s | s in b.services.objects ensures !b.services.objects[s].terminating {
      assert NoWorse(a.services.objects[s], a.cloud, b.services.objects[s], b.cloud, spec);
    }
  }

  /** How far the load balancer k is: without its finalizer at five, then by the ranks of its services. */
  ghost predicate Stage(w: World, k: Key, n: nat) {
    && Still(w) && w.script == [] && Peaceful(w) && k in w.lbs.objects && Provisionable(w, w.lbs.objects[k].spec)
    && (if LoadBalancerFinalizer in w.lbs.objects[k].finalizers then Underway(w, k, if n < 4 then n else 4) else n >= 5)
  }

  lemma MildSuits(a: World, b: World, spec: LBSpec, n: nat)
    requires Mild(a, b, spec)
    ensures Suits(a, spec, n) ==> Suits(b, spec, n)
    ensures Provisionable(a, spec) ==> Provisionable(b, spec)
    ensures Wanted(a, spec.className) == Wanted(b, spec.className) && KeepsWants(a, b, spec.className)
  {
    hide Still, Rank, MatchesClass, FirstMatch;
    forall s | s in b.services.objects
      ensures s in a.services.objects && NoWorse(a.services.objects[s], a.cloud, b.services.objects[s], b.cloud, spec)
    {
    }
    if Wanted(a, spec.className) {
      var s :| s in a.services.objects && Eligible(a.services.objects[s], spec.className);
      assert NoWorse(a.services.objects[s], a.cloud, b.services.objects[s], b.cloud, spec);
      assert s in b.services.objects && Eligible(b.services.objects[s], spec.className);
    }
    if Wanted(b, spec.className) {
      var s :| s in b.services.objects && Eligible(b.services.objects[s], spec.className);
      assert s in a.services.objects && Eligible(a.services.objects[s], spec.className);
    }
  }

  /** A gentle pass leaves the load balancer k at its stage. */
  lemma StageStays(a: World, b: World, k: Key, n: nat)
    requires Stage(a, k, n) && Gentle(a, b, k, a.lbs.objects[k].spec)
    ensures Stage(b, k, n) && b.lbs.objects[k].spec == a.lbs.objects[k].spec
    ensures KeepsWants(a, b, a.lbs.objects[k].spec.className)
  {
    hide Still, NoWorse, Peaceful, Provisionable, Suits, Wanted, KeepsWants, Verdicts;
    var spec := a.lbs.objects[k].spec;
    PeacefulStays(a, b, spec);
    MildSuits(a, b, spec, if n < 4 then n else 4);
    assert b.lbs.objects[k] == a.lbs.objects[k];
  }

  lemma OtherPass(w: World, req: Key, k: Key, n: nat)
    requires Stage(w, k, n) && req != k
    ensures var r := Reconcile(w, req).w;
      Stage(r, k, n) && r.lbs.objects[k].spec == w.lbs.objects[k].spec
        && KeepsWants(w, r, w.lbs.objects[k].spec.className)
  {
    hide Still, ReconcileService, ReconcileLB, IsServiceRequest, Gentle, Underway, Provisionable, KeepsWants;
    var spec := w.lbs.objects[k].spec;
    if IsServiceRequest(req.name) {
      HandlerPass(w, req, k, spec);
    } else {
      OtherLBPass(w, req, k, spec);
    }
    StageStays(w, Reconcile(w, req).w, k, n);
  }

  /** A pass over k itself brings it one stage on. */
  lemma OwnPass(w: World, k: Key, n: nat)
    requires Stage(w, k, n) && !IsServiceRequest(k.name)
    ensures var r := Reconcile(w, k).w;
      && Stage(r, k, Less(n)) && r.lbs.objects[k].spec == w.lbs.objects[k].spec
      && KeepsWants(w, r, w.lbs.objects[k].spec.className)
  {
    hide Still, Reconcile, Within, Steady, Provisionable, Peaceful, Eligible, Rank, IsServiceRequest, Wanted;
    var spec, r := w.lbs.objects[k].spec, Reconcile(w, k).w;
    OwnPassPeaceful(w, k);
    PeacefulLB(w, k);
    if LoadBalancerFinalizer in w.lbs.objects[k].finalizers {
      CalmPass(w, k, if n < 4 then n else 4);
      WithinMore(r, k, Less(if n < 4 then n else 4), if Less(n) < 4 then Less(n) else 4);
    } else {
      FirstPass(w, k);
      StartsUnderway(r, k);
    }
  }

  lemma WithinMore(w: World, k: Key, n: nat, m: nat)
    requires Within(w, k, n) && n <= m
    ensures Within(w, k, m)
    ensures k in w.lbs.objects && LoadBalancerFinalizer in w.lbs.objects[k].finalizers && Still(w) && w.script == []
  {
    hide Still, Rank, Smooth, MatchesClass;
  }

  /** The pass over k sets nothing back either. */
  lemma OwnPassPeaceful(w: World, k: Key)
    requires Still(w) && w.script == [] && Peaceful(w) && k in w.lbs.objects && !IsServiceRequest(k.name)
    requires Provisionable(w, w.lbs.objects[k].spec)
    ensures Peaceful(Reconcile(w, k).w) && Provisionable(Reconcile(w, k).w, w.lbs.objects[k].spec)
    ensures KeepsWants(w, Reconcile(w, k).w, w.lbs.objects[k].spec.className)
  {
    hide Still, Tick, WriteLB, ReconcileLive, HandleDeletion, Mild, SameSpecs, IsServiceRequest, Peaceful;
    hide Provisionable, KeepsWants;
    CalmGet(w, k);
    KeyStored(w, k);
    var got, lb := GetLB(w, k), w.lbs.objects[k];
    var r := Reconcile(w, k).w;
    assert !lb.terminating && lb.spec.secret.name != "" && lb.spec.secret.namespace != "" by { PeacefulLB(w, k); }
    PeacefulSame(w, got.w);
    MildReflexive(got.w, lb.spec);
    if LoadBalancerFinalizer !in lb.finalizers {
      FinalizerAdded(got.w, lb);
      MildSame(got.w, got.w, r, lb.spec);
    } else {
      LiveGentle(got.w, lb, lb.spec);
    }
    PeacefulStays(got.w, r, lb.spec);
    MildFrom(w, got.w, r, lb.spec);
    MildSuits(w, r, lb.spec, 0);
  }

  lemma PeacefulLB(w: World, k: Key)
    requires Peaceful(w) && k in w.lbs.objects
    ensures var lb := w.lbs.objects[k]; !lb.terminating && lb.spec.secret.name != "" && lb.spec.secret.namespace != ""
  {
  }

  function Times(k: Key, reqs: seq<Key>): nat {
    if reqs == [] then 0 else (if reqs[0] == k then 1 else 0) + Times(k, reqs[1..])
  }

  lemma {:induction false} RunAmid(w: World, k: Key, reqs: seq<Key>, n: nat)
    requires Stage(w, k, n) && n <= Times(k, reqs) && !IsServiceRequest(k.name)
    ensures var v := Run(w, reqs);
      Stage(v, k, 0) && v.lbs.objects[k].spec == w.lbs.objects[k].spec
        && KeepsWants(w, v, w.lbs.objects[k].spec.className)
    decreases |reqs|
  {
    hide Still, Reconcile, Peaceful, Provisionable, Underway, Eligible, IsServiceRequest;
    if reqs != [] {
      var r := Reconcile(w, reqs[0]).w;
      if reqs[0] == k {
        OwnPass(w, k, n);
        RunAmid(r, k, reqs[1..], Less(n));
      } else {
        OtherPass(w, reqs[0], k, n);
        RunAmid(r, k, reqs[1..], n);
      }
    }
  }

  /** In a calm world in which nothing is being deleted and every load balancer names its credentials in
      full, whatever the requests and in whatever order, once five of them were for the load balancer k:
      every service that was eligible for it is served, and a further pass over it reports success and
      changes nothing. */
  lemma ConvergesAmid(w: World, k: Key, reqs: seq<Key>)
    requires Still(w) && w.script == [] && Peaceful(w) && k in w.lbs.objects && !IsServiceRequest(k.name)
    requires Provisionable(w, w.lbs.objects[k].spec) && Times(k, reqs) >= 5
    ensures var v, spec := Run(w, reqs), w.lbs.objects[k].spec;
      && Same(v, Reconcile(v, k).w) && Reconcile(v, k).v == DONE
      && forall s :: s in w.services.objects && Eligible(w.services.objects[s], spec.className) ==>
           Provisioned(v, s, spec.createFloatingIP)
  {
    hide Still, Reconcile, Within, Steady, Eligible, Rank, Served, Provisionable, IsServiceRequest;
    var spec := w.lbs.objects[k].spec;
    if LoadBalancerFinalizer in w.lbs.objects[k].finalizers {
      StartsUnderway(w, k);
    }
    assert Stage(w, k, 5);
    RunAmid(w, k, reqs, 5);
    var v := Run(w, reqs);
    FixedPass(v, k);
    forall s | s in w.services.objects && Eligible(w.services.objects[s], spec.className)
      ensures Provisioned(v, s, spec.createFloatingIP)
    {
      FinishedServed(v, k, s);
    }
  }
}
