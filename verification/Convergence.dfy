/** Provisioning converges: when nobody interferes and every call succeeds, five passes over a
    load balancer bring every service to where a further pass changes nothing at all. */
module Convergence {
  import opened Kube
  import opened Cloud
  import opened Network
  import opened Worlds
  import opened Calls
  import opened Retry
  import opened Requests
  import opened Operator
  import opened Evolution
  import opened Passes
  import opened Orphans
  import opened Runs
  import opened Undisturbed
  import opened Progress
  import opened Truthful

  /** How many passes a service still needs: one to put the finalizer on, one to forget a port
      that is gone, one to forget a floating IP that is gone, one to make what is missing. */
  function Rank(o: Service, c: Neutron, spec: LBSpec): nat {
    var portID, fipID := Annotation(o, PortID), Annotation(o, FloatingIPID);
    if ServiceFinalizer !in o.finalizers then 4
    else if portID != "" && portID !in c.ports then 3
    else if spec.createFloatingIP && fipID != "" && fipID !in c.fips then 2
    else if Credited(o, spec.secret) && Served(o, c, spec.createFloatingIP) then 0
    else 1
  }

  /** Every call succeeds, nobody else acts, and the address has a subnet and a network to draw a
      floating IP from. */
  ghost predicate Smooth(w: World, spec: LBSpec, ip: string) {
    Still(w) && w.script == [] && Locatable(w, ip) && (spec.createFloatingIP ==> spec.floatingIPNetworkID != "")
  }

  function Less(n: nat): nat {
    if n == 0 then 0 else n - 1
  }

  /** What one turn of the loop does for a service. */
  ghost predicate Advanced(a: World, svc: Service, b: World, spec: LBSpec) {
    && svc.key in b.services.objects
    && var o := b.services.objects[svc.key];
       && o.status == svc.status
       && (forall c :: Eligible(o, c) <==> Eligible(svc, c))
       && Rank(o, b.cloud, spec) <= Less(Rank(svc, a.cloud, spec))
  }

  lemma AlikeEligible(o: Service, svc: Service)
    requires Alike(o, svc)
    ensures forall c :: Eligible(o, c) <==> Eligible(svc, c)
  {
  }

  /** The first pass over a service puts the finalizer on. */
  lemma FinalizerCalm(w: World, lb: LoadBalancer, svc: Service, ip: string)
    requires Still(w) && w.script == [] && svc.key in w.services.objects && w.services.objects[svc.key] == svc
    requires !svc.terminating && ServiceFinalizer !in svc.finalizers
    ensures var r := ProcessService(w, lb, svc, ip);
      Advanced(w, svc, r.w, lb.spec) && r.v == Step(lb, Verdict(true, false)) && r.w.cloud == w.cloud
      && svc.key in r.w.services.objects && r.w.services.objects[svc.key].annotations == svc.annotations
      && !r.w.services.objects[svc.key].terminating
  {
    hide Still, WriteService, Replace, EnsureCredentials, Provision, Credited, Served;
    var o := svc.(finalizers := AddFinalizer(svc.finalizers, ServiceFinalizer));
    WriteStill(w, o, STEPS);
    CalmWrites(w, o, STEPS);
    assert Valid(w.services) by { StillWF(w); hide Valid; }
    ReplaceStores(w.services, Merge(svc, o));
  }

  lemma StandsAdvanced(a: World, svc: Service, b: World, spec: LBSpec, portID: string, fipID: string)
    requires Stands(b, svc, spec.secret, portID, fipID) && ServiceFinalizer in svc.finalizers
    requires Rank(svc, a.cloud, spec) == 3 ==> portID == "" || portID in b.cloud.ports
    requires Rank(svc, a.cloud, spec) == 2 ==>
      (portID == "" || portID in b.cloud.ports) && (fipID == "" || fipID in b.cloud.fips)
    requires Rank(svc, a.cloud, spec) <= 1 ==> Served(b.services.objects[svc.key], b.cloud, spec.createFloatingIP)
    requires "" !in b.cloud.ports && "" !in b.cloud.fips
    ensures Advanced(a, svc, b, spec)
  {
    hide Still, Credited;
    AlikeEligible(b.services.objects[svc.key], svc);
  }

  /** A service whose recorded port is gone forgets it. */
  lemma ForgetPort(w: World, lb: LoadBalancer, svc: Service, ip: string, a: World)
    requires Smooth(w, lb.spec, ip) && !svc.terminating && ServiceFinalizer in svc.finalizers
    requires Stands(w, svc, lb.spec.secret, Annotation(svc, PortID), Annotation(svc, FloatingIPID))
    requires w.cloud == a.cloud
    requires Rank(svc, w.cloud, lb.spec) == 3
    ensures var r := Provision(w, lb, svc, ip);
      Advanced(a, svc, r.w, lb.spec) && r.v.v == Verdict(true, false) && NetworkKnown(r.v.lb)
  {
    hide Still, DetectNetwork, CheckPort, HandleFloatingIP, Credited, Served, Locatable, Alike, Advanced;
    var d := DetectNetwork(w, lb, ip);
    DetectStill(w, lb, ip);
    StandsSame(w, d.w, svc, lb.spec.secret, Annotation(svc, PortID), Annotation(svc, FloatingIPID));
    CheckPortStill(d.w, d.v.lb, svc, lb.spec.secret, Annotation(svc, FloatingIPID));
    var p := CheckPort(d.w, d.v.lb, svc);
    assert Still(p.w);
    NoEmptyPort(p.w);
    StandsAdvanced(a, svc, p.w, lb.spec, "", Annotation(svc, FloatingIPID));
  }

  /** Any other service ends up with a live port on record, and nothing is lost. */
  lemma PortCalm(w: World, lb: LoadBalancer, svc: Service, ip: string)
    requires Still(w) && w.script == [] && !svc.terminating
    requires Stands(w, svc, lb.spec.secret, Annotation(svc, PortID), Annotation(svc, FloatingIPID))
    requires Annotation(svc, PortID) == "" || Annotation(svc, PortID) in w.cloud.ports
    ensures var p := EnsurePort(w, lb, svc, ip);
      && p.v.v == DONE && Follows(w, p.w) && p.w.lbs == w.lbs && p.v.portID in p.w.cloud.ports
      && KeepsLive(w.cloud, p.w.cloud)
      && p.v.lb.spec == lb.spec && (NetworkKnown(lb) ==> NetworkKnown(p.v.lb))
      && Stands(p.w, svc, lb.spec.secret, p.v.portID, Annotation(svc, FloatingIPID))
      && (Annotation(svc, PortID) != "" ==> Same(w, p.w) && p.v.lb == lb)
  {
    hide Still, CheckPort, MakePort, Credited, Alike, KeepsLive, Evolves;
    var fipID := Annotation(svc, FloatingIPID);
    var sc := ListScope([svc], {}, false).(owners := {OwnerOf(svc)});
    PortStill(w, lb, svc, ip, lb.spec.secret);
    CheckPortStill(w, lb, svc, lb.spec.secret, fipID);
    MakePortStill(w, lb, svc, ip, lb.spec.secret, fipID);
    StillWF(w);
    assert svc in [svc];
    EnsurePortEvolves(w, lb, svc, ip, sc);
    OutsideStill(w, EnsurePort(w, lb, svc, ip).w, sc, Key("", if svc.key.name == "" then "x" else ""));
    KeepsNetwork(w, lb, svc, ip);
    if HasAnnotation(svc, PortID) {
      StandsSame(w, CheckPort(w, lb, svc).w, svc, lb.spec.secret, Annotation(svc, PortID), fipID);
    }
  }

  lemma KeepsNetwork(w: World, lb: LoadBalancer, svc: Service, ip: string)
    ensures NetworkKnown(lb) ==> NetworkKnown(EnsurePort(w, lb, svc, ip).v.lb)
  {
    hide CreatePort, EditAnnotations, SetCondition, GetResource, Recorded, Mishap;
  }

  lemma KeepsNetworkToo(w: World, lb: LoadBalancer, svc: Service, portID: string)
    ensures NetworkKnown(lb) ==> NetworkKnown(HandleFloatingIP(w, lb, svc, portID).v.lb)
  {
    hide CreateFloatingIP, EditAnnotations, SetCondition, GetResource, GetAddress, FindFloatingIP, AddExternalIP;
  }

  /** The outcome of provisioning a service that records no port that is gone. */
  ghost predicate Provides(a: World, svc: Service, r: Out<Step>, spec: LBSpec) {
    && Advanced(a, svc, r.w, spec) && !r.v.v.err && NetworkKnown(r.v.lb)
    && (Rank(svc, a.cloud, spec) <= 1 ==> r.v.v == DONE)
  }

  lemma Provide(w: World, lb: LoadBalancer, svc: Service, ip: string, a: World)
    requires Smooth(w, lb.spec, ip) && !svc.terminating && ServiceFinalizer in svc.finalizers
    requires Stands(w, svc, lb.spec.secret, Annotation(svc, PortID), Annotation(svc, FloatingIPID))
    requires w.cloud == a.cloud
    requires Rank(svc, w.cloud, lb.spec) <= 2
    ensures Provides(a, svc, Provision(w, lb, svc, ip), lb.spec)
    ensures Rank(svc, w.cloud, lb.spec) == 0 && svc == w.services.objects[svc.key] ==>
      Same(w, Provision(w, lb, svc, ip).w) && (NetworkKnown(lb) ==> Provision(w, lb, svc, ip).v.lb == lb)
  {
    hide Still, DetectNetwork, EnsurePort, HandleFloatingIP, Credited, Locatable, Alike, Advanced, KeepsLive;
    var portID, fipID, fip := Annotation(svc, PortID), Annotation(svc, FloatingIPID), lb.spec.createFloatingIP;
    var d := DetectNetwork(w, lb, ip);
    DetectStill(w, lb, ip);
    StandsSame(w, d.w, svc, lb.spec.secret, portID, fipID);
    PortCalm(d.w, d.v.lb, svc, ip);
    var p := EnsurePort(d.w, d.v.lb, svc, ip);
    NoEmptyPort(w);
    NoEmptyPort(p.w);
    LiveStays(w.cloud, p.w.cloud, fipID);
    if !fip {
      StandsAdvanced(a, svc, p.w, lb.spec, p.v.portID, fipID);
    } else {
      KeepsNetworkToo(p.w, p.v.lb, svc, p.v.portID);
      var h := HandleFloatingIP(p.w, p.v.lb, svc, p.v.portID);
      if HasAnnotation(svc, FloatingIPID) {
        HandleKnown(p.w, p.v.lb, svc, lb.spec.secret, p.v.portID);
        if fipID in p.w.cloud.fips {
          ReachesAdvanced(a, svc, h.w, lb.spec, p.v.portID);
        } else {
          StandsAdvanced(a, svc, h.w, lb.spec, p.v.portID, "");
        }
      } else {
        HandleNew(p.w, p.v.lb, svc, lb.spec.secret, p.v.portID);
        ReachesAdvanced(a, svc, h.w, lb.spec, p.v.portID);
      }
    }
  }

  lemma LiveStays(a: Neutron, b: Neutron, fipID: string)
    requires KeepsLive(a, b)
    ensures fipID in a.fips ==> fipID in b.fips
  {
  }

  lemma ReachesAdvanced(a: World, svc: Service, b: World, spec: LBSpec, portID: string)
    requires Reaches(b, svc, spec.secret, portID) && ServiceFinalizer in svc.finalizers && Rank(svc, a.cloud, spec) <= 2
    ensures Advanced(a, svc, b, spec)
  {
    hide Still, Credited, Advanced, Alike, Rank;
    var fipID := Annotation(b.services.objects[svc.key], FloatingIPID);
    NoEmptyPort(b);
    StandsAdvanced(a, svc, b, spec, portID, fipID);
  }

  /** One service in a calm pass: its rank goes down, and at rank zero nothing changes. */
  lemma ProcessCalm(w: World, lb: LoadBalancer, svc: Service, ip: string)
    requires Smooth(w, lb.spec, ip) && svc.key in w.services.objects && w.services.objects[svc.key] == svc
    requires !svc.terminating
    ensures var r, n := ProcessService(w, lb, svc, ip), Rank(svc, w.cloud, lb.spec);
      && Advanced(w, svc, r.w, lb.spec) && !r.v.v.err
      && (n <= 3 || NetworkKnown(lb) ==> NetworkKnown(r.v.lb))
      && (n <= 1 ==> r.v.v == DONE)
      && (n == 0 ==> Same(w, r.w) && (NetworkKnown(lb) ==> r.v.lb == lb))
  {
    hide Still, EnsureCredentials, Provision, Credited, Served, Locatable, Advanced, WriteService;
    var n := Rank(svc, w.cloud, lb.spec);
    if n == 4 {
      FinalizerCalm(w, lb, svc, ip);
    } else {
      var c := EnsureCredentials(w, svc, lb);
      CredentialsStand(w, svc, lb);
      assert Locatable(c.w, ip) by { Relocates(w, c.w, ip); }
      if n == 3 {
        ForgetPort(c.w, lb, svc, ip, w);
      } else {
        Provide(c.w, lb, svc, ip, w);
      }
    }
  }

  lemma Relocates(a: World, b: World, ip: string)
    requires Locatable(a, ip) && a.texts == b.texts && a.cloud.subnets == b.cloud.subnets
    ensures Locatable(b, ip)
  {
    hide FirstMatch;
  }

  // ----- The loop -----

  /** Ranks only fall as the cloud fills. */
  lemma RankFalls(o: Service, a: Neutron, b: Neutron, spec: LBSpec)
    requires ValidCloud(a) && KeepsLive(a, b) && Ages(a, b)
    ensures Rank(o, b, spec) <= Rank(o, a, spec)
  {
    hide Credited, Served;
    if Served(o, a, spec.createFloatingIP) {
      ServedLasts(o, a, b, spec.createFloatingIP);
    }
  }

  /** What a pass does for each service: those it does not provision stay as they are, the others
      end at rank n. */
  ghost predicate Outcome(s: Service, b: World, spec: LBSpec, n: nat) {
    && s.key in b.services.objects
    && var o := b.services.objects[s.key];
       if !Eligible(s, spec.className) then o == s
       else o.status == s.status && (forall c :: Eligible(o, c) <==> Eligible(s, c)) && Rank(o, b.cloud, spec) <= n
  }

  lemma OutcomeLasts(a: World, b: World, sc: Scope, s: Service, spec: LBSpec, n: nat)
    requires Still(a) && Evolves(a, b, sc) && s.key !in sc.keys && !sc.deletes && Outcome(s, a, spec, n)
    ensures Outcome(s, b, spec, n)
  {
    hide Still, Evolves, Eligible, Rank;
    OutsideStill(a, b, sc, s.key);
    assert ValidCloud(a.cloud) by { StillWF(a); hide ValidCloud, Valid, Marked, OneBound; }
    RankFalls(a.services.objects[s.key], a.cloud, b.cloud, spec);
  }

  predicate AnyEligible(svcs: seq<Service>, className: string) {
    exists s :: s in svcs && Eligible(s, className)
  }

  ghost predicate Manageable(w: World, svcs: seq<Service>, spec: LBSpec, n: nat) {
    forall s :: s in svcs && Eligible(s, spec.className) ==>
      Smooth(w, spec, s.status.ingress[0]) && Rank(s, w.cloud, spec) <= n
  }

  lemma ManageableLasts(a: World, b: World, svcs: seq<Service>, spec: LBSpec, n: nat, sc: Scope)
    requires Still(a) && Evolves(a, b, sc) && !sc.deletes && Manageable(a, svcs, spec, n)
    ensures Manageable(b, svcs, spec, n)
  {
    hide Evolves, Rank, MatchesClass, FirstMatch, Still;
    EvolvesStill(a, b, sc);
    CalmCloud(a, b, sc);
    assert ValidCloud(a.cloud) by { StillWF(a); hide ValidCloud, Valid, Marked, OneBound; }
    forall s | s in svcs && Eligible(s, spec.className)
      ensures Smooth(b, spec, s.status.ingress[0]) && Rank(s, b.cloud, spec) <= n
    {
      RankFalls(s, a.cloud, b.cloud, spec);
    }
  }

  lemma CalmCloud(a: World, b: World, sc: Scope)
    requires Still(a) && Evolves(a, b, sc) && !sc.deletes
    ensures KeepsLive(a.cloud, b.cloud) && Ages(a.cloud, b.cloud) && a.cloud.subnets == b.cloud.subnets
  {
    hide WF, Fresh, Quiet, TagsReadable, Spares, KeepsLive, Ages, LogGrows, Unbinds, StoresEvolve;
  }

  /** The service loop of a calm pass over services of rank at most n. */
  ghost predicate Looped(a: World, svcs: seq<Service>, t: Tally, r: Out<Tally>, n: nat) {
    && (forall s :: s in svcs ==> Outcome(s, r.w, t.lb.spec, Less(n)))
    && r.v.err == t.err
    && r.v.processed == (t.processed || AnyEligible(svcs, t.lb.spec.className))
    && (n <= 1 ==> r.v.requeue == t.requeue)
    && (NetworkKnown(t.lb) || (n <= 3 && AnyEligible(svcs, t.lb.spec.className)) ==> NetworkKnown(r.v.lb))
    && (n == 0 ==> Same(a, r.w) && (NetworkKnown(t.lb) || !AnyEligible(svcs, t.lb.spec.className) ==> r.v.lb == t.lb))
  }

  lemma AdvancedOutcome(a: World, s: Service, b: World, spec: LBSpec, n: nat)
    requires Advanced(a, s, b, spec) && Eligible(s, spec.className) && Rank(s, a.cloud, spec) <= n
    ensures Outcome(s, b, spec, Less(n))
  {
    hide Rank, Eligible;
  }

  lemma SkippedOutcome(w: World, s: Service, spec: LBSpec, n: nat)
    requires s.key in w.services.objects && w.services.objects[s.key] == s && !Eligible(s, spec.className)
    ensures Outcome(s, w, spec, n)
  {
    hide Rank, Eligible;
  }

  lemma LoopedSkip(w: World, svcs: seq<Service>, t: Tally, r: Out<Tally>, n: nat)
    requires svcs != [] && !Eligible(svcs[0], t.lb.spec.className) && Looped(w, svcs[1..], t, r, n)
    requires Outcome(svcs[0], r.w, t.lb.spec, Less(n))
    ensures Looped(w, svcs, t, r, n)
  {
    hide Eligible, Outcome, NetworkKnown;
    assert AnyEligible(svcs, t.lb.spec.className) <==> AnyEligible(svcs[1..], t.lb.spec.className);
  }

  function Tallied(t: Tally, p: Step): Tally {
    Tally(p.lb, true, t.err || p.v.err, t.requeue || p.v.requeue)
  }

  lemma LoopedStep(w: World, svcs: seq<Service>, t: Tally, p: Out<Step>, r: Out<Tally>, n: nat)
    requires svcs != [] && Eligible(svcs[0], t.lb.spec.className) && Looped(p.w, svcs[1..], Tallied(t, p.v), r, n)
    requires Outcome(svcs[0], r.w, t.lb.spec, Less(n)) && p.v.lb.spec == t.lb.spec
    requires !p.v.v.err && (n <= 3 || NetworkKnown(t.lb) ==> NetworkKnown(p.v.lb)) && (n <= 1 ==> p.v.v == DONE)
    requires n == 0 ==> Same(w, p.w) && (NetworkKnown(t.lb) ==> p.v.lb == t.lb)
    ensures Looped(w, svcs, t, r, n)
  {
    hide Eligible, Outcome, NetworkKnown;
    assert svcs[0] in svcs && AnyEligible(svcs, t.lb.spec.className);
  }

  lemma {:induction false} CalmLoop(w: World, svcs: seq<Service>, t: Tally, n: nat)
    requires Still(w) && w.script == [] && Listed(w, svcs) && Manageable(w, svcs, t.lb.spec, n)
    ensures Looped(w, svcs, t, ProvisionAll(w, svcs, t), n)
    decreases |svcs|
  {
    hide Still, Evolves, ProcessService, Rank, Outcome, Advanced, Locatable, MatchesClass, NetworkKnown;
    if svcs != [] {
      hide Looped;
      var s, rest, spec := svcs[0], svcs[1..], t.lb.spec;
      StillWF(w);
      assert Manageable(w, rest, spec, n);
      if !Eligible(s, spec.className) {
        EvolvesReflexive(w, Scope({}, {}, {}, {}, false));
        RestListed(w, w, svcs, Scope({}, {}, {}, {}, false));
        CalmLoop(w, rest, t, n);
        SkippedOutcome(w, s, spec, Less(n));
        ProvisionAllEvolves(w, rest, t, ListScope(rest, {}, false));
        OutcomeLasts(w, ProvisionAll(w, rest, t).w, ListScope(rest, {}, false), s, spec, Less(n));
        LoopedSkip(w, svcs, t, ProvisionAll(w, rest, t), n);
      } else {
        assert s in svcs;
        var ip := s.status.ingress[0];
        var p := ProcessService(w, t.lb, s, ip);
        ProcessCalm(w, t.lb, s, ip);
        AdvancedOutcome(w, s, p.w, spec, n);
        var sc := ListScope([s], {}, false);
        assert s in [s];
        ProcessServiceEvolves(w, t.lb, s, ip, sc);
        EvolvesStill(w, p.w, sc);
        RestListed(w, p.w, svcs, sc);
        ManageableLasts(w, p.w, rest, spec, n, sc);
        var u := Tallied(t, p.v);
        hide Manageable, Listed;
        CalmLoop(p.w, rest, u, n);
        StillWF(p.w);
        ProvisionAllEvolves(p.w, rest, u, ListScope(rest, {}, false));
        OutcomeLasts(p.w, ProvisionAll(p.w, rest, u).w, ListScope(rest, {}, false), s, spec, Less(n));
        LoopedStep(w, svcs, t, p, ProvisionAll(p.w, rest, u), n);
      }
    }
  }

  // ----- The pass -----

  /** A calm world with a live load balancer that carries the finalizer, all of whose services
      have rank at most n. */
  ghost predicate Within(w: World, k: Key, n: nat) {
    && Still(w) && w.script == []
    && k in w.lbs.objects && !w.lbs.objects[k].terminating && LoadBalancerFinalizer in w.lbs.objects[k].finalizers
    && Suits(w, w.lbs.objects[k].spec, n)
  }

  ghost predicate Suits(w: World, spec: LBSpec, n: nat) {
    forall s :: s in w.services.objects && Eligible(w.services.objects[s], spec.className) ==>
      Smooth(w, spec, w.services.objects[s].status.ingress[0]) && Rank(w.services.objects[s], w.cloud, spec) <= n
  }

  /** No service is lost, and the same services are eligible. */
  ghost predicate KeepsWants(a: World, b: World, className: string) {
    forall s :: s in a.services.objects ==>
      && s in b.services.objects
      && (Eligible(a.services.objects[s], className) <==> Eligible(b.services.objects[s], className))
  }

  predicate Wanted(w: World, className: string) {
    exists s :: s in w.services.objects && Eligible(w.services.objects[s], className)
  }

  /** The verdict on a pass that went well. */
  function Verdicts(cs: seq<Condition>, wanted: bool, className: string, now: nat): seq<Condition> {
    if wanted then SetCondition(cs, Ready, true, ResourcesReady, [], now)
    else SetCondition(cs, Ready, false, NoMatchingService, [className], now)
  }

  /** The status is the one a pass over finished services would write again. */
  ghost predicate Steady(w: World, k: Key) {
    && k in w.lbs.objects
    && var lb := w.lbs.objects[k];
       && (Wanted(w, lb.spec.className) ==> NetworkKnown(lb) && lb.status.ready)
       && var wanted, cs := Wanted(w, lb.spec.className), lb.status.conditions;
          forall now :: Verdicts(cs, wanted, lb.spec.className, now) == cs
  }

  /** Setting a condition again, even later, changes nothing. */
  lemma {:induction false} SetConditionIdempotent(cs: seq<Condition>, kind: ConditionKind, status: bool, reason: Reason,
                                                  detail: seq<string>, now: nat, later: nat)
    ensures var once := SetCondition(cs, kind, status, reason, detail, now);
      SetCondition(once, kind, status, reason, detail, later) == once
  {
    if cs != [] && cs[0].kind != kind {
      SetConditionIdempotent(cs[1..], kind, status, reason, detail, now, later);
    }
  }

  lemma VerdictsIdempotent(cs: seq<Condition>, wanted: bool, className: string, now: nat)
    ensures var once := Verdicts(cs, wanted, className, now);
      forall later :: Verdicts(once, wanted, className, later) == once
  {
    hide SetCondition;
    forall later: nat
      ensures Verdicts(Verdicts(cs, wanted, className, now), wanted, className, later)
        == Verdicts(cs, wanted, className, now)
    {
      SetConditionIdempotent(cs, Ready, true, ResourcesReady, [], now, later);
      SetConditionIdempotent(cs, Ready, false, NoMatchingService, [className], now, later);
    }
  }

  /** The end of a calm pass: the status stored is the verdict on the loop. */
  lemma ConcludeCalm(w: World, t: Tally, wanted: bool)
    requires Still(w) && w.script == [] && t.lb.key in w.lbs.objects && !t.err && t.processed == wanted
    requires !w.lbs.objects[t.lb.key].terminating
    ensures var c := Conclude(w, t);
      && c.v == Verdict(t.requeue, false) && Follows(w, c.w) && c.w.services == w.services && c.w.cloud == w.cloud
      && t.lb.key in c.w.lbs.objects
      && var lb := c.w.lbs.objects[t.lb.key];
         && lb == w.lbs.objects[t.lb.key].(status := lb.status, version := lb.version)
         && lb.status == t.lb.status.(
              conditions := Verdicts(t.lb.status.conditions, wanted, t.lb.spec.className, w.time),
              ready := wanted || t.lb.status.ready)
    ensures Judge(w, t).status == w.lbs.objects[t.lb.key].status ==> Conclude(w, t).w.lbs == w.lbs
  {
    hide Still, WriteStatus, SetCondition, Replace, Fresh, Quiet;
    var k := t.lb.key;
    var stored := w.lbs.objects[k];
    var status := Judge(w, t).status;
    KeyStored(w, k);
    WriteStatusStill(w, k, status, STEPS);
    CalmWritesLB(w, stored.(status := status), STEPS);
    assert Valid(w.lbs) by { StillWF(w); hide Valid; }
    ReplaceOutside(w.lbs, stored.(status := status), {k});
    assert stored.(status := status) == stored ==> Replace(w.lbs, stored.(status := status)) == w.lbs by {
      RewriteSame(w.lbs, stored.(status := status));
    }
  }

  lemma RewriteSame(s: Store<LBSpec, LBStatus>, o: LoadBalancer)
    requires o.key in s.objects
    ensures s.objects[o.key] == o ==> Replace(s, o) == s
  {
  }

  /** Up to the service loop a calm pass only reads. */
  lemma CalmListing(w: World, lb: LoadBalancer) returns (v: World, svcs: seq<Service>)
    requires Still(w) && w.script == []
    ensures Follows(w, v) && Same(w, v) && v.script == [] && Listed(v, svcs)
    ensures forall s :: s in v.services.objects ==> v.services.objects[s] in svcs
    ensures var p := ProvisionAll(v, svcs, Tally(lb, false, false, false)); ReconcileLive(w, lb) == Conclude(p.w, p.v)
  {
    hide Still, Tick, ProvisionAll, Conclude, Listing, Fresh;
    NewClientStill(w, lb.spec.secret);
    var c := NewClient(w, lb.spec.secret);
    TickStill(c.w);
    var l := ListServices(c.w);
    v, svcs := l.w, l.v.value;
    StillWF(c.w);
    ListingHeld(c.w, v, svcs);
  }

  lemma CalmLiveStart(w: World, lb: LoadBalancer, n: nat) returns (v: World, svcs: seq<Service>)
    requires Still(w) && w.script == [] && Suits(w, lb.spec, n)
    ensures Follows(w, v) && Same(w, v) && v.script == [] && Listed(v, svcs) && Manageable(v, svcs, lb.spec, n)
    ensures forall s :: s in v.services.objects ==> v.services.objects[s] in svcs
    ensures AnyEligible(svcs, lb.spec.className) == Wanted(w, lb.spec.className)
    ensures var p := ProvisionAll(v, svcs, Tally(lb, false, false, false)); ReconcileLive(w, lb) == Conclude(p.w, p.v)
  {
    hide Still, ProvisionAll, Conclude, ReconcileLive, MatchesClass, Locatable, Rank;
    v, svcs := CalmListing(w, lb);
    assert Manageable(v, svcs, lb.spec, n) by {
      forall s | s in svcs && Eligible(s, lb.spec.className)
        ensures Smooth(v, lb.spec, s.status.ingress[0]) && Rank(s, v.cloud, lb.spec) <= n
      {
        assert w.services.objects[s.key] == s;
        Relocates(w, v, s.status.ingress[0]);
      }
    }
    WantedListed(v, svcs, lb.spec.className);
  }

  lemma WantedListed(v: World, svcs: seq<Service>, className: string)
    requires Listed(v, svcs) && forall s :: s in v.services.objects ==> v.services.objects[s] in svcs
    ensures AnyEligible(svcs, className) == Wanted(v, className)
  {
    hide Eligible;
    if AnyEligible(svcs, className) {
      var s :| s in svcs && Eligible(s, className);
      assert s.key in v.services.objects && v.services.objects[s.key] == s;
    }
  }

  lemma CalmStart(w: World, k: Key, n: nat) returns (v: World, svcs: seq<Service>)
    requires Within(w, k, n) && !IsServiceRequest(k.name)
    ensures Follows(w, v) && Same(w, v) && Listed(v, svcs) && Manageable(v, svcs, w.lbs.objects[k].spec, n)
    ensures v.script == [] && w.lbs.objects[k].key == k
    ensures forall s :: s in v.services.objects ==> v.services.objects[s] in svcs
    ensures AnyEligible(svcs, w.lbs.objects[k].spec.className) == Wanted(w, w.lbs.objects[k].spec.className)
    ensures var p := ProvisionAll(v, svcs, Tally(w.lbs.objects[k], false, false, false));
      Reconcile(w, k) == Conclude(p.w, p.v)
  {
    hide Still, Tick, ProvisionAll, Conclude, ReconcileLive, HandleDeletion, WriteLB, IsServiceRequest, Suits;
    hide Manageable, Listed, Eligible;
    var lb := w.lbs.objects[k];
    KeyStored(w, k);
    CalmGet(w, k);
    var got := GetLB(w, k);
    SuitsSame(w, got.w, lb.spec, n);
    v, svcs := CalmLiveStart(got.w, lb, n);
  }

  /** A stored service after the loop is one of the listed ones. */
  lemma StoredWasListed(v: World, b: World, svcs: seq<Service>, k: Key) returns (s: Service)
    requires Still(v) && Evolves(v, b, ListScope(svcs, {}, false)) && k in b.services.objects && Listed(v, svcs)
    requires forall s :: s in v.services.objects ==> v.services.objects[s] in svcs
    ensures s in svcs && s.key == k
  {
    hide Still, Evolves;
    var sc := ListScope(svcs, {}, false);
    KeyStored(v, k);
    if k !in sc.keys {
      OutsideStill(v, b, sc, k);
      s := v.services.objects[k];
    } else {
      s :| s in svcs && s.key == k;
    }
  }

  lemma OutcomeSuits(a: World, s: Service, b: World, spec: LBSpec, n: nat)
    requires Outcome(s, b, spec, n) && Eligible(b.services.objects[s.key], spec.className) && Still(b) && b.script == []
    requires Eligible(s, spec.className) ==> Smooth(a, spec, s.status.ingress[0])
    requires a.texts == b.texts && a.cloud.subnets == b.cloud.subnets
    ensures Eligible(s, spec.className)
    ensures Smooth(b, spec, b.services.objects[s.key].status.ingress[0])
    ensures Rank(b.services.objects[s.key], b.cloud, spec) <= n
  {
    hide Still, Rank, Locatable, MatchesClass;
    Relocates(a, b, s.status.ingress[0]);
  }

  lemma LoopWants(v: World, svcs: seq<Service>, b: World, spec: LBSpec, n: nat)
    requires Still(v) && Listed(v, svcs) && (forall s :: s in v.services.objects ==> v.services.objects[s] in svcs)
    requires forall s :: s in svcs ==> Outcome(s, b, spec, n)
    ensures KeepsWants(v, b, spec.className) && (AnyEligible(svcs, spec.className) ==> Wanted(b, spec.className))
  {
    hide Still, Eligible, Rank;
    forall k | k in v.services.objects
      ensures k in b.services.objects
      ensures (Eligible(v.services.objects[k], spec.className) <==> Eligible(b.services.objects[k], spec.className))
    {
      KeyStored(v, k);
      assert Outcome(v.services.objects[k], b, spec, n);
    }
    if AnyEligible(svcs, spec.className) {
      var s :| s in svcs && Eligible(s, spec.className);
      assert Outcome(s, b, spec, n);
    }
  }

  lemma LoopKeepsSuits(v: World, svcs: seq<Service>, b: World, spec: LBSpec, n: nat)
    requires Still(v) && Evolves(v, b, ListScope(svcs, {}, false)) && Listed(v, svcs) && Manageable(v, svcs, spec, n)
    requires Still(b) && b.script == [] && v.texts == b.texts && v.cloud.subnets == b.cloud.subnets
    requires forall s :: s in v.services.objects ==> v.services.objects[s] in svcs
    requires forall s :: s in svcs ==> Outcome(s, b, spec, Less(n))
    ensures Suits(b, spec, Less(n)) && (Wanted(b, spec.className) ==> AnyEligible(svcs, spec.className))
  {
    hide Still, Evolves, MatchesClass, Smooth, Rank, Less, Outcome;
    forall k | k in b.services.objects && Eligible(b.services.objects[k], spec.className)
      ensures Smooth(b, spec, b.services.objects[k].status.ingress[0])
      ensures Rank(b.services.objects[k], b.cloud, spec) <= Less(n) && AnyEligible(svcs, spec.className)
    {
      var s := StoredWasListed(v, b, svcs, k);
      OutcomeSuits(v, s, b, spec, Less(n));
    }
  }

  /** The loop leaves the stored services with their ranks lowered, and as many of them wanted. */
  lemma LoopSuits(v: World, svcs: seq<Service>, t: Tally, n: nat)
    requires Still(v) && v.script == [] && Listed(v, svcs) && Manageable(v, svcs, t.lb.spec, n)
    requires forall s :: s in v.services.objects ==> v.services.objects[s] in svcs
    ensures var p := ProvisionAll(v, svcs, t);
      && Follows(v, p.w) && p.w.script == [] && Looped(v, svcs, t, p, n) && p.v.lb.spec == t.lb.spec
      && p.v.lb.key == t.lb.key
      && (forall k :: Current(v.lbs, k) == Current(p.w.lbs, k))
      && Suits(p.w, t.lb.spec, Less(n)) && Wanted(p.w, t.lb.spec.className) == AnyEligible(svcs, t.lb.spec.className)
      && KeepsWants(v, p.w, t.lb.spec.className)
  {
    hide Still, ProvisionAll, Evolves, MatchesClass, Smooth, Rank, Less;
    var p, spec, sc := ProvisionAll(v, svcs, t), t.lb.spec, ListScope(svcs, {}, false);
    StillWF(v);
    CalmLoop(v, svcs, t, n);
    ProvisionAllEvolves(v, svcs, t, sc);
    EvolvesStill(v, p.w, sc);
    CalmCloud(v, p.w, sc);
    forall k ensures Current(v.lbs, k) == Current(p.w.lbs, k) {
      LBStays(v, p.w, sc, k);
    }
    assert forall s :: s in svcs ==> Outcome(s, p.w, spec, Less(n));
    LoopKeepsSuits(v, svcs, p.w, spec, n);
    hide Suits, Eligible, Manageable, Outcome;
    LoopWants(v, svcs, p.w, spec, Less(n));
  }

  /** A calm pass: every rank goes down by one, and no error is reported. */
  lemma CalmPass(w: World, k: Key, n: nat)
    requires Within(w, k, n) && !IsServiceRequest(k.name)
    ensures var r := Reconcile(w, k);
      && Within(r.w, k, Less(n)) && !r.v.err && r.w.lbs.objects[k].spec == w.lbs.objects[k].spec
      && (n <= 3 ==> Steady(r.w, k)) && KeepsWants(w, r.w, w.lbs.objects[k].spec.className)
      && (Wanted(w, w.lbs.objects[k].spec.className) ==>
             r.w.lbs.objects[k].status.ready && Wanted(r.w, w.lbs.objects[k].spec.className))
  {
    hide Still, ProvisionAll, Conclude, Reconcile, Eligible, Locatable, Rank, Manageable, Listed, Suits;
    var lb := w.lbs.objects[k];
    var v, svcs := CalmStart(w, k, n);
    var t := Tally(lb, false, false, false);
    LoopSuits(v, svcs, t, n);
    var p := ProvisionAll(v, svcs, t);
    var wanted := Wanted(w, lb.spec.className);
    assert Current(v.lbs, k) == Current(p.w.lbs, k);
    ConcludeCalm(p.w, p.v, wanted);
    VerdictsIdempotent(p.v.lb.status.conditions, wanted, lb.spec.className, p.w.time);
    SuitsSame(p.w, Conclude(p.w, p.v).w, lb.spec, Less(n));
  }

  lemma SuitsSame(a: World, b: World, spec: LBSpec, n: nat)
    requires Follows(a, b) && a.services == b.services && a.cloud == b.cloud && Suits(a, spec, n)
    ensures Suits(b, spec, n) && Wanted(a, spec.className) == Wanted(b, spec.className)
  {
    hide Still, Rank, FirstMatch, MatchesClass;
  }

  /** With every service finished and the status steady, a further calm pass changes nothing. */
  lemma FixedPass(w: World, k: Key)
    requires Within(w, k, 0) && Steady(w, k) && !IsServiceRequest(k.name)
    ensures Same(w, Reconcile(w, k).w) && Reconcile(w, k).v == DONE
  {
    hide Still, ProvisionAll, Conclude, Reconcile, Eligible, Locatable, Rank, Manageable, Listed, Suits, SetCondition;
    var lb := w.lbs.objects[k];
    var v, svcs := CalmStart(w, k, 0);
    var t := Tally(lb, false, false, false);
    LoopSuits(v, svcs, t, 0);
    var p := ProvisionAll(v, svcs, t);
    var wanted := Wanted(w, lb.spec.className);
    assert p.v.lb == lb && Same(v, p.w);
    ConcludeCalm(p.w, p.v, wanted);
    assert Verdicts(lb.status.conditions, wanted, lb.spec.className, p.w.time) == lb.status.conditions;
    assert Judge(p.w, p.v).status == lb.status;
  }

  // ----- Five passes -----

  /** On the way: once every rank is at most two, the status is steady too. */
  ghost predicate Underway(w: World, k: Key, n: nat) {
    Within(w, k, n) && (n <= 2 ==> Steady(w, k))
  }

  lemma {:induction false} RunCalm(w: World, k: Key, n: nat, m: nat)
    requires Underway(w, k, n) && n <= m && !IsServiceRequest(k.name)
    ensures var v := Run(w, Repeat(k, m));
      Underway(v, k, 0) && v.lbs.objects[k].spec == w.lbs.objects[k].spec
        && KeepsWants(w, v, w.lbs.objects[k].spec.className)
    decreases m
  {
    hide Within, Reconcile, Eligible, Steady, Wanted;
    if m > 0 {
      CalmPass(w, k, n);
      var r := Reconcile(w, k).w;
      RunCalm(r, k, Less(n), m - 1);
      assert Repeat(k, m)[0] == k && Repeat(k, m)[1..] == Repeat(k, m - 1);
      WithinStored(w, k, n);
    } else {
      WithinStored(w, k, n);
    }
  }

  lemma WithinStored(w: World, k: Key, n: nat)
    requires Within(w, k, n)
    ensures k in w.lbs.objects
  {
    hide Still, Suits;
  }

  /** The first pass over a load balancer without the finalizer puts it on. */
  lemma FirstPass(w: World, k: Key)
    requires Still(w) && w.script == [] && k in w.lbs.objects && !w.lbs.objects[k].terminating
    requires !IsServiceRequest(k.name)
    requires LoadBalancerFinalizer !in w.lbs.objects[k].finalizers
    ensures var r := Reconcile(w, k).w;
      && Follows(w, r) && r.services == w.services && r.cloud == w.cloud && k in r.lbs.objects
      && !r.lbs.objects[k].terminating
      && r.lbs.objects[k].spec == w.lbs.objects[k].spec && LoadBalancerFinalizer in r.lbs.objects[k].finalizers
  {
    hide Still, Tick, WriteLB, Replace, ReconcileLive, HandleDeletion, IsServiceRequest;
    var lb := w.lbs.objects[k];
    var o := lb.(finalizers := AddFinalizer(lb.finalizers, LoadBalancerFinalizer));
    KeyStored(w, k);
    CalmGet(w, k);
    var got := GetLB(w, k);
    WriteLBStill(got.w, o, STEPS);
    CalmWritesLB(got.w, o, STEPS);
    assert Valid(w.lbs) by { StillWF(w); hide Valid; }
    ReplaceOutside(w.lbs, Merge(lb, o), {k});
  }

  /** Every eligible service has its address in a known subnet, and there is a network to draw
      floating IPs from if they are asked for. */
  ghost predicate Provisionable(w: World, spec: LBSpec) {
    && (spec.createFloatingIP ==> spec.floatingIPNetworkID != "")
    && forall s :: s in w.services.objects && Eligible(w.services.objects[s], spec.className) ==>
         Locatable(w, w.services.objects[s].status.ingress[0])
  }

  lemma RankBound(o: Service, c: Neutron, spec: LBSpec)
    ensures Rank(o, c, spec) <= 4
    ensures Rank(o, c, spec) == 0 ==> Served(o, c, spec.createFloatingIP)
  {
    hide Credited, Served;
  }

  lemma StartsUnderway(w: World, k: Key)
    requires Still(w) && w.script == [] && k in w.lbs.objects && !w.lbs.objects[k].terminating
    requires LoadBalancerFinalizer in w.lbs.objects[k].finalizers && Provisionable(w, w.lbs.objects[k].spec)
    ensures Underway(w, k, 4)
  {
    hide Still, Rank, Locatable, MatchesClass;
    forall s | s in w.services.objects ensures Rank(w.services.objects[s], w.cloud, w.lbs.objects[k].spec) <= 4 {
      RankBound(w.services.objects[s], w.cloud, w.lbs.objects[k].spec);
    }
  }

  lemma ProvisionableSame(a: World, b: World, spec: LBSpec)
    requires Follows(a, b) && a.services == b.services && a.cloud == b.cloud && Provisionable(a, spec)
    ensures Provisionable(b, spec)
  {
    hide Still, FirstMatch, MatchesClass;
  }

  /** In a calm world, after five passes or more, however many services there are: every service
      that was eligible is served, and a further pass reports success and leaves the services, the
      load balancers and the cloud exactly as they are. */
  lemma Converges(w: World, k: Key, m: nat)
    requires Still(w) && w.script == [] && k in w.lbs.objects && !w.lbs.objects[k].terminating
    requires !IsServiceRequest(k.name)
    requires Provisionable(w, w.lbs.objects[k].spec) && m >= 5
    ensures var v, spec := Run(w, Repeat(k, m)), w.lbs.objects[k].spec;
      && Same(v, Reconcile(v, k).w) && Reconcile(v, k).v == DONE
      && forall s :: s in w.services.objects && Eligible(w.services.objects[s], spec.className) ==>
           Provisioned(v, s, spec.createFloatingIP)
  {
    hide Still, Reconcile, Within, Steady, Eligible, Locatable, Rank, Served;
    var spec := w.lbs.objects[k].spec;
    var v := Run(w, Repeat(k, m));
    if LoadBalancerFinalizer in w.lbs.objects[k].finalizers {
      StartsUnderway(w, k);
      RunCalm(w, k, 4, m);
    } else {
      FirstPass(w, k);
      var r := Reconcile(w, k).w;
      ProvisionableSame(w, r, spec);
      StartsUnderway(r, k);
      RunCalm(r, k, 4, m - 1);
      assert Repeat(k, m)[0] == k && Repeat(k, m)[1..] == Repeat(k, m - 1);
    }
    FixedPass(v, k);
    forall s | s in w.services.objects && Eligible(w.services.objects[s], spec.className)
      ensures Provisioned(v, s, spec.createFloatingIP)
    {
      FinishedServed(v, k, s);
    }
  }

  lemma FinishedServed(v: World, k: Key, s: Key)
    requires Within(v, k, 0) && s in v.services.objects
    requires Eligible(v.services.objects[s], v.lbs.objects[k].spec.className)
    ensures Provisioned(v, s, v.lbs.objects[k].spec.createFloatingIP)
  {
    hide Still, Eligible, Rank, Served, Smooth;
    RankBound(v.services.objects[s], v.cloud, v.lbs.objects[k].spec);
  }

  /** Readiness alone says less: a calm pass sets the load balancer ready although a service that
      had no finalizer yet has received nothing but the finalizer. */
  lemma ReadyTooEarly(w: World, k: Key, s: Key)
    requires Within(w, k, 4) && !IsServiceRequest(k.name) && s in w.services.objects
    requires Eligible(w.services.objects[s], w.lbs.objects[k].spec.className)
    requires ServiceFinalizer !in w.services.objects[s].finalizers && !HasAnnotation(w.services.objects[s], PortID)
    ensures var r := Reconcile(w, k);
      && k in r.w.lbs.objects && r.w.lbs.objects[k].status.ready && !r.v.err && r.v.requeue
      && s in r.w.services.objects && !HasAnnotation(r.w.services.objects[s], PortID)
  {
    hide Still, Reconcile, Eligible, Suits, Steady;
    CalmPass(w, k, 4);
    assert Wanted(w, w.lbs.objects[k].spec.className);
    BarePass(w, k, s);
  }

  lemma BarePass(w: World, k: Key, s: Key)
    requires Within(w, k, 4) && !IsServiceRequest(k.name) && s in w.services.objects
    requires Eligible(w.services.objects[s], w.lbs.objects[k].spec.className)
    requires ServiceFinalizer !in w.services.objects[s].finalizers
    ensures var r := Reconcile(w, k);
      r.v.requeue && s in r.w.services.objects
        && r.w.services.objects[s].annotations == w.services.objects[s].annotations
  {
    hide Still, ProvisionAll, Conclude, Reconcile, Eligible, Locatable, Rank, Manageable, Suits, Looped, KeepsWants;
    hide Verdicts, Judge;
    var lb := w.lbs.objects[k];
    var v, svcs := CalmStart(w, k, 4);
    var t := Tally(lb, false, false, false);
    LoopSuits(v, svcs, t, 4);
    var p := ProvisionAll(v, svcs, t);
    assert Current(v.lbs, k) == Current(p.w.lbs, k);
    KeyStored(w, s);
    BareService(v, svcs, t, w.services.objects[s], 4);
    LoopedOutcome(v, svcs, t, p, 4);
    ConcludeCalm(p.w, p.v, p.v.processed);
  }

  lemma LoopedOutcome(a: World, svcs: seq<Service>, t: Tally, r: Out<Tally>, n: nat)
    requires Looped(a, svcs, t, r, n)
    ensures r.v.err == t.err
  {
    hide Outcome, AnyEligible, NetworkKnown;
  }

  /** A service without finalizer leaves the loop with the records it came with, and has the loop
      ask for another pass. */
  lemma {:induction false} BareService(w: World, svcs: seq<Service>, t: Tally, s: Service, n: nat)
    requires Still(w) && w.script == [] && Listed(w, svcs) && Manageable(w, svcs, t.lb.spec, n)
    requires s in svcs && Eligible(s, t.lb.spec.className) && ServiceFinalizer !in s.finalizers
    ensures var p := ProvisionAll(w, svcs, t);
      p.v.requeue && s.key in p.w.services.objects && p.w.services.objects[s.key].annotations == s.annotations
    decreases |svcs|
  {
    hide Still, Evolves, ProcessService, Rank, Advanced, Locatable, MatchesClass, NetworkKnown;
    var x, rest, spec := svcs[0], svcs[1..], t.lb.spec;
    StillWF(w);
    assert Manageable(w, rest, spec, n);
    if !Eligible(x, spec.className) {
      EvolvesReflexive(w, Scope({}, {}, {}, {}, false));
      RestListed(w, w, svcs, Scope({}, {}, {}, {}, false));
      BareService(w, rest, t, s, n);
    } else {
      var ip := x.status.ingress[0];
      var p := ProcessService(w, t.lb, x, ip);
      var sc := ListScope([x], {}, false);
      assert x in [x];
      ProcessServiceEvolves(w, t.lb, x, ip, sc);
      EvolvesStill(w, p.w, sc);
      RestListed(w, p.w, svcs, sc);
      ManageableLasts(w, p.w, rest, spec, n, sc);
      var u := Tallied(t, p.v);
      StillWF(p.w);
      if x == s {
        FinalizerCalm(w, t.lb, s, ip);
        ProvisionAllEvolves(p.w, rest, u, ListScope(rest, {}, false));
        OutsideStill(p.w, ProvisionAll(p.w, rest, u).w, ListScope(rest, {}, false), s.key);
        RequeueSticks(p.w, rest, u);
      } else {
        BareService(p.w, rest, u, s, n);
      }
    }
  }

  lemma {:induction false} RequeueSticks(w: World, svcs: seq<Service>, t: Tally)
    ensures t.requeue ==> ProvisionAll(w, svcs, t).v.requeue
    decreases |svcs|
  {
    hide ProcessService, MatchesClass;
    if svcs != [] {
      if !Eligible(svcs[0], t.lb.spec.className) {
        RequeueSticks(w, svcs[1..], t);
      } else {
        var p := ProcessService(w, t.lb, svcs[0], svcs[0].status.ingress[0]);
        RequeueSticks(p.w, svcs[1..], Tallied(t, p.v));
      }
    }
  }
}
