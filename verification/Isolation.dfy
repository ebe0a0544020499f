/** One service does not hold up another: whatever is wrong with the others, a calm pass brings forward
    every service that can be provisioned, and a calm deletion takes what it may of every service. */
module Isolation {
  import opened Kube
  import opened Cloud
  import opened Tags
  import opened Selection
  import opened Worlds
  import opened Calls
  import opened Retry
  import opened Requests
  import opened Operator
  import opened Evolution
  import opened Passes
  import opened Orphans
  import opened Runs
  import opened Refinement
  import opened Undisturbed
  import opened Progress
  import opened Truthful
  import opened Convergence
  import opened Deletion
  import opened Dismantling
  import opened Conditions
  import opened Exits

  // ----- Provisioning -----

  lemma OutcomeWeakens(s: Service, b: World, spec: LBSpec, m: nat, n: nat)
    requires Outcome(s, b, spec, m) && m <= n
    ensures Outcome(s, b, spec, n)
  {
    hide Rank, Eligible;
  }

  lemma SmoothLasts(a: World, b: World, spec: LBSpec, ip: string, sc: Scope)
    requires Smooth(a, spec, ip) && Evolves(a, b, sc) && !sc.deletes
    ensures Smooth(b, spec, ip)
  {
    hide Still, Evolves, Locatable;
    EvolvesStill(a, b, sc);
    CalmCloud(a, b, sc);
    Relocates(a, b, ip);
  }

  /** One turn of the loop, for another service. */
  lemma TurnPassesBy(w: World, svcs: seq<Service>, t: Tally, s: Service) returns (sc: Scope)
    requires Still(w) && Listed(w, svcs) && svcs != [] && s in svcs[1..]
    requires Eligible(svcs[0], t.lb.spec.className) && Eligible(s, t.lb.spec.className)
    requires Smooth(w, t.lb.spec, s.status.ingress[0])
    ensures var p, spec := ProcessService(w, t.lb, svcs[0], svcs[0].status.ingress[0]), t.lb.spec;
      && p.v.lb.spec == spec && Listed(p.w, svcs[1..]) && Smooth(p.w, spec, s.status.ingress[0])
      && Rank(s, p.w.cloud, spec) <= Rank(s, w.cloud, spec)
  {
    hide Still, Evolves, ProcessService, Rank, Locatable, MatchesClass, Listed;
    var h, ip := svcs[0], svcs[0].status.ingress[0];
    var p := ProcessService(w, t.lb, h, ip);
    sc := ListScope([h], {}, false);
    assert h in [h];
    StillWF(w);
    ProcessServiceEvolves(w, t.lb, h, ip, sc);
    ProcessKeeps(w, t.lb, h, ip);
    RestListed(w, p.w, svcs, sc);
    SmoothLasts(w, p.w, t.lb.spec, s.status.ingress[0], sc);
    CalmCloud(w, p.w, sc);
    assert ValidCloud(w.cloud) by { hide ValidCloud, Valid, Marked, OneBound; }
    RankFalls(s, w.cloud, p.w.cloud, t.lb.spec);
  }

  /** The turn of the service itself, and the rest of the loop. */
  lemma OwnTurn(w: World, svcs: seq<Service>, t: Tally)
    requires Still(w) && Listed(w, svcs) && svcs != [] && Eligible(svcs[0], t.lb.spec.className)
    requires Smooth(w, t.lb.spec, svcs[0].status.ingress[0])
    ensures Outcome(svcs[0], ProvisionAll(w, svcs, t).w, t.lb.spec, Less(Rank(svcs[0], w.cloud, t.lb.spec)))
  {
    hide Still, Evolves, ProcessService, Rank, Outcome, Advanced, Locatable, MatchesClass, Smooth;
    var s, rest, spec := svcs[0], svcs[1..], t.lb.spec;
    assert s in svcs && s in [s];
    StillWF(w);
    var ip, n := s.status.ingress[0], Rank(s, w.cloud, spec);
    var p := ProcessService(w, t.lb, s, ip);
    ProcessCalm(w, t.lb, s, ip);
    AdvancedOutcome(w, s, p.w, spec, n);
    var sc := ListScope([s], {}, false);
    ProcessServiceEvolves(w, t.lb, s, ip, sc);
    EvolvesStill(w, p.w, sc);
    RestListed(w, p.w, svcs, sc);
    StillWF(p.w);
    ProvisionAllEvolves(p.w, rest, Tallied(t, p.v), ListScope(rest, {}, false));
    OutcomeLasts(p.w, ProvisionAll(p.w, rest, Tallied(t, p.v)).w, ListScope(rest, {}, false), s, spec, Less(n));
  }

  lemma {:induction false} LoopBringsForward(w: World, svcs: seq<Service>, t: Tally, s: Service)
    requires Still(w) && Listed(w, svcs) && s in svcs && Eligible(s, t.lb.spec.className)
    requires Smooth(w, t.lb.spec, s.status.ingress[0])
    ensures Outcome(s, ProvisionAll(w, svcs, t).w, t.lb.spec, Less(Rank(s, w.cloud, t.lb.spec)))
    decreases |svcs|
  {
    hide Still, Evolves, ProcessService, Rank, Outcome, Locatable, MatchesClass, Smooth;
    var h, rest, spec := svcs[0], svcs[1..], t.lb.spec;
    var n := Rank(s, w.cloud, spec);
    if h == s {
      OwnTurn(w, svcs, t);
    } else if !Eligible(h, spec.className) {
      StillWF(w);
      EvolvesReflexive(w, Scope({}, {}, {}, {}, false));
      RestListed(w, w, svcs, Scope({}, {}, {}, {}, false));
      LoopBringsForward(w, rest, t, s);
    } else {
      var p := ProcessService(w, t.lb, h, h.status.ingress[0]);
      var sc := TurnPassesBy(w, svcs, t, s);
      assert Still(p.w) by { SmoothStill(p.w, spec, s.status.ingress[0]); }
      LoopBringsForward(p.w, rest, Tallied(t, p.v), s);
      OutcomeWeakens(s, ProvisionAll(w, svcs, t).w, spec, Less(Rank(s, p.w.cloud, spec)), Less(n));
    }
  }

  lemma SmoothStill(w: World, spec: LBSpec, ip: string)
    requires Smooth(w, spec, ip)
    ensures Still(w) && w.script == []
  {
    hide Still, Locatable;
  }

  /** The load balancer is live and carries the finalizer, and the service can be provisioned for it and
      has rank at most n.  Nothing is said of any other service. */
  ghost predicate OnTheWay(w: World, k: Key, s: Key, n: nat) {
    && k in w.lbs.objects && !w.lbs.objects[k].terminating && LoadBalancerFinalizer in w.lbs.objects[k].finalizers
    && s in w.services.objects && Eligible(w.services.objects[s], w.lbs.objects[k].spec.className)
    && Smooth(w, w.lbs.objects[k].spec, w.services.objects[s].status.ingress[0])
    && Rank(w.services.objects[s], w.cloud, w.lbs.objects[k].spec) <= n
  }

  /** The end of a pass keeps the load balancer but for its status, whatever the verdict. */
  lemma ConcludeKeeps(w: World, t: Tally)
    requires Still(w) && t.lb.key in w.lbs.objects && !w.lbs.objects[t.lb.key].terminating
    ensures var c, k := Conclude(w, t).w, t.lb.key;
      && k in c.lbs.objects
      && c.lbs.objects[k] == w.lbs.objects[k].(status := c.lbs.objects[k].status, version := c.lbs.objects[k].version)
  {
    hide Still, WriteStatus, SetCondition, Replace;
    var k, st := t.lb.key, Judge(w, t).status;
    KeyStored(w, k);
    WriteStatusStill(w, k, st, STEPS);
    assert Valid(w.lbs) by { StillWF(w); hide Valid; }
    ReplaceOutside(w.lbs, w.lbs.objects[k].(status := st), {k});
  }

  lemma {:induction false} LoopKeeps(w: World, svcs: seq<Service>, t: Tally)
    ensures ProvisionAll(w, svcs, t).v.lb.key == t.lb.key && ProvisionAll(w, svcs, t).v.lb.spec == t.lb.spec
    decreases |svcs|
  {
    hide ProcessService, MatchesClass;
    if svcs != [] {
      if Eligible(svcs[0], t.lb.spec.className) {
        var ip := svcs[0].status.ingress[0];
        var p := ProcessService(w, t.lb, svcs[0], ip);
        ProcessKeeps(w, t.lb, svcs[0], ip);
        LoopKeeps(p.w, svcs[1..], Tallied(t, p.v));
      } else {
        LoopKeeps(w, svcs[1..], t);
      }
    }
  }

  lemma SmoothSame(a: World, b: World, spec: LBSpec, ip: string)
    requires Smooth(a, spec, ip) && Follows(a, b) && a.cloud.subnets == b.cloud.subnets
    ensures Smooth(b, spec, ip)
  {
    hide Still, Locatable;
    Relocates(a, b, ip);
  }

  lemma PassBringsForward(w: World, k: Key, s: Key, n: nat)
    requires OnTheWay(w, k, s, n) && !IsServiceRequest(k.name)
    ensures OnTheWay(Reconcile(w, k).w, k, s, Less(n))
    ensures Reconcile(w, k).w.lbs.objects[k].spec == w.lbs.objects[k].spec
  {
    hide Still, Evolves, Tick, IsServiceRequest, ReconcileLive, HandleDeletion, WriteLB, ProvisionAll, Conclude;
    hide Eligible, Smooth, Rank, Listed, GetLB, ListScope;
    var lb, svc := w.lbs.objects[k], w.services.objects[s];
    var ip := IngressOf(svc, lb.spec.className);
    SmoothStill(w, lb.spec, ip);
    TickStill(w);
    KeyStored(w, s);
    ReadsLB(w, k);
    var v, svcs := CalmListing(Tick(w), lb);
    var t := Tally(lb, false, false, false);
    SmoothSame(w, v, lb.spec, ip);
    LoopBringsForward(v, svcs, t, svc);
    var p, sc := ProvisionAll(v, svcs, t), ListScope(svcs, {}, false);
    StillWF(v);
    LoopScope(v, svcs, t);
    EvolvesStill(v, p.w, sc);
    CalmCloud(v, p.w, sc);
    LBStays(v, p.w, sc, k);
    LoopKeeps(v, svcs, t);
    ConcludeStill(p.w, p.v);
    ConcludeKeeps(p.w, p.v);
    var r := Conclude(p.w, p.v).w;
    SmoothSame(v, r, lb.spec, ip);
    Arrived(w, svc, r, lb.spec, n);
  }

  function IngressOf(svc: Service, className: string): string
    requires Eligible(svc, className)
  {
    svc.status.ingress[0]
  }

  lemma LoopScope(v: World, svcs: seq<Service>, t: Tally)
    requires WF(v) && Listed(v, svcs)
    ensures Evolves(v, ProvisionAll(v, svcs, t).w, ListScope(svcs, {}, false)) && ListScope(svcs, {}, false).lbs == {}
    ensures !ListScope(svcs, {}, false).deletes
  {
    hide WF, Evolves, ProvisionAll;
    ProvisionAllEvolves(v, svcs, t, ListScope(svcs, {}, false));
  }

  lemma Arrived(a: World, svc: Service, r: World, spec: LBSpec, n: nat)
    requires Outcome(svc, r, spec, Less(Rank(svc, a.cloud, spec))) && Rank(svc, a.cloud, spec) <= n
    requires Eligible(svc, spec.className) && Smooth(r, spec, IngressOf(svc, spec.className))
    ensures svc.key in r.services.objects && Eligible(r.services.objects[svc.key], spec.className)
    ensures Smooth(r, spec, r.services.objects[svc.key].status.ingress[0])
    ensures Rank(r.services.objects[svc.key], r.cloud, spec) <= Less(n)
  {
    hide Rank, Smooth, MatchesClass;
  }

  lemma {:induction false} RunBringsForward(w: World, k: Key, s: Key, n: nat, m: nat)
    requires OnTheWay(w, k, s, n) && n <= m && !IsServiceRequest(k.name)
    ensures var v := Run(w, Repeat(k, m)); OnTheWay(v, k, s, 0) && v.lbs.objects[k].spec == w.lbs.objects[k].spec
    decreases m
  {
    hide OnTheWay, Reconcile, IsServiceRequest;
    assert k in w.lbs.objects by { WayStored(w, k, s, n); }
    if m > 0 {
      PassBringsForward(w, k, s, n);
      RunBringsForward(Reconcile(w, k).w, k, s, Less(n), m - 1);
      assert Repeat(k, m)[0] == k && Repeat(k, m)[1..] == Repeat(k, m - 1);
    }
  }

  lemma WayStored(w: World, k: Key, s: Key, n: nat)
    requires OnTheWay(w, k, s, n)
    ensures k in w.lbs.objects
  {
    hide Eligible, Smooth, Rank;
  }

  /** In a calm world every eligible service whose address has a subnet is served after four passes over
      a load balancer that carries the finalizer, whatever becomes of the other services: they may lie
      in no subnet, and fail in every pass. */
  lemma EachConverges(w: World, k: Key, s: Key, m: nat)
    requires Still(w) && w.script == [] && !IsServiceRequest(k.name) && m >= 4
    requires k in w.lbs.objects && !w.lbs.objects[k].terminating
    requires LoadBalancerFinalizer in w.lbs.objects[k].finalizers
    requires var spec := w.lbs.objects[k].spec;
      && s in w.services.objects && Eligible(w.services.objects[s], spec.className)
      && Locatable(w, w.services.objects[s].status.ingress[0])
      && (spec.createFloatingIP ==> spec.floatingIPNetworkID != "")
    ensures Provisioned(Run(w, Repeat(k, m)), s, w.lbs.objects[k].spec.createFloatingIP)
  {
    hide Still, Rank, Locatable, MatchesClass, Reconcile, IsServiceRequest, Served;
    var spec := w.lbs.objects[k].spec;
    RankBound(w.services.objects[s], w.cloud, spec);
    RunBringsForward(w, k, s, 4, m);
    var v := Run(w, Repeat(k, m));
    RankBound(v.services.objects[s], v.cloud, spec);
  }

  // ----- Deletion -----

  /** What a cleanup for the service would take from the first cloud is not in the second. */
  ghost predicate TakenFrom(a: Neutron, b: Neutron, s: Service) {
    && (forall id :: TakesPort(s, a, id) ==> id !in b.ports)
    && (forall id :: TakesFloatingIP(s, a, id) ==> id !in b.fips)
  }

  lemma CutTakes(a: Neutron, b: Neutron, c: Neutron, s: Service)
    requires Cut(a, b, s) && Shrunk(b, c)
    ensures TakenFrom(a, c, s) && Shrunk(a, c)
  {
    hide TakesPort, TakesFloatingIP;
  }

  lemma TakesLater(a: Neutron, b: Neutron, c: Neutron, s: Service)
    requires Shrunk(a, b) && Shrunk(b, c) && TakenFrom(b, c, s)
    ensures TakenFrom(a, c, s) && Shrunk(a, c)
  {
    hide OwnedByOperator, SelectsPort, SelectsFloatingIP, Annotation;
    forall id | TakesPort(s, a, id) ensures id !in c.ports {
      assert id in b.ports ==> TakesPort(s, b, id);
    }
    forall id | TakesFloatingIP(s, a, id) ensures id !in c.fips {
      assert id in b.fips ==> TakesFloatingIP(s, b, id);
    }
  }

  lemma TrimShrinks(a: Neutron, b: Neutron, s: Service)
    requires Trimmed(a, b, s)
    ensures Shrunk(a, b)
  {
    hide PicksPort, PicksFloatingIP;
  }

  /** One turn of the loop, whatever is refused. */
  lemma AnyCleanService(w: World, svc: Service, className: string)
    requires Still(w) && w.script == [] && svc.key in w.services.objects && w.services.objects[svc.key] == svc
    ensures var c := CleanService(w, svc);
      && Follows(w, c.w) && Shrunk(w.cloud, c.w.cloud)
      && (Cleans(svc, className) ==> Cut(w.cloud, c.w.cloud, svc))
  {
    hide Still, Cleanup, Finalize, Trimmed, Cut, SelectedOwned, HasResources, Involved, Shrunk, TakesPort;
    hide TakesFloatingIP;
    if svc.terminating {
      CalmFinalize(w, svc);
    } else {
      CalmCleanup(w, svc);
      CutTrims(w.cloud, Cleanup(w, svc).w.cloud, svc);
    }
    TrimShrinks(w.cloud, CleanService(w, svc).w.cloud, svc);
  }

  lemma {:induction false} LoopTakes(w: World, svcs: seq<Service>, className: string, requeue: bool)
    requires Still(w) && w.script == [] && Listed(w, svcs)
    ensures var r := CleanAll(w, svcs, className, requeue);
      && Follows(w, r.w) && Shrunk(w.cloud, r.w.cloud)
      && forall s :: s in svcs && Cleans(s, className) ==> TakenFrom(w.cloud, r.w.cloud, s)
    decreases |svcs|
  {
    hide WF, Quiet, Fresh, Evolves, CleanService, Cleans, Cut, TakenFrom, Involved, Listed;
    if svcs != [] {
      var x, rest := svcs[0], svcs[1..];
      var sc := Scope({x.key}, {x.key}, {}, {}, true);
      assert svcs == [x] + rest;
      if !Involved(x, className) {
        EvolvesReflexive(w, sc);
        RestStored(w, w, svcs, sc);
        LoopTakes(w, rest, className, requeue);
        NotCleaned(x, className);
      } else {
        hide Shrunk;
        FirstStored(w, svcs);
        var c := CleanService(w, x);
        AnyCleanService(w, x, className);
        CleanServiceEvolves(w, x, sc);
        RestStored(w, c.w, svcs, sc);
        var q := requeue || c.v != DONE;
        LoopTakes(c.w, rest, className, q);
        var r := CleanAll(c.w, rest, className, q);
        ShrinksOn(w.cloud, c.w.cloud, r.w.cloud);
        forall s | s in svcs && Cleans(s, className) ensures TakenFrom(w.cloud, r.w.cloud, s) {
          if s == x {
            CutTakes(w.cloud, c.w.cloud, r.w.cloud, s);
          } else {
            TakesLater(w.cloud, c.w.cloud, r.w.cloud, s);
          }
        }
      }
    }
  }

  lemma ShrinksOn(a: Neutron, b: Neutron, c: Neutron)
    requires Shrunk(a, b) && Shrunk(b, c)
    ensures Shrunk(a, c)
  {
  }

  lemma NotCleaned(s: Service, className: string)
    requires !Involved(s, className)
    ensures !Cleans(s, className)
  {
    hide Involved;
  }

  lemma FirstStored(w: World, svcs: seq<Service>)
    requires svcs != [] && Listed(w, svcs)
    ensures svcs[0].key in w.services.objects && w.services.objects[svcs[0].key] == svcs[0]
  {
  }

  /** One calm deletion pass takes, for every service it cleans up for, all that is selected for it and
      carries the tag, even when something else is refused or a record cannot be honoured. */
  lemma DeletionTakesAll(w: World, k: Key)
    requires Still(w) && w.script == [] && !IsServiceRequest(k.name) && k in w.lbs.objects
    requires w.lbs.objects[k].terminating
    ensures var r := Reconcile(w, k).w;
      && Shrunk(w.cloud, r.cloud)
      && forall s :: s in w.services.objects && Cleans(w.services.objects[s], w.lbs.objects[k].spec.className) ==>
           TakenFrom(w.cloud, r.cloud, w.services.objects[s])
  {
    hide Still, Tick, CleanAll, WriteLB, Listing, IsServiceRequest, GetLB, ReconcileLive, Fresh, Cleans, TakenFrom;
    hide Shrunk;
    hide Evolves;
    ReadsLB(w, k);
    var lb, got := w.lbs.objects[k], Tick(w);
    NewClientStill(got, lb.spec.secret);
    var c := NewClient(got, lb.spec.secret);
    TickStill(w);
    TickStill(c.w);
    var l := ListServices(c.w);
    StillWF(c.w);
    ListingHeld(c.w, l.w, l.v.value);
    LoopTakes(l.w, l.v.value, lb.spec.className, false);
    var d := CleanAll(l.w, l.v.value, lb.spec.className, false);
    StillWF(d.w);
    WriteKeepsCloud(d.w, lb);
  }

  lemma WriteKeepsCloud(w: World, lb: LoadBalancer)
    requires Still(w)
    ensures DropLBFinalizer(w, lb).w.cloud == w.cloud
  {
    hide Still, WriteLB, Replace, Others;
    var o := lb.(finalizers := RemoveFinalizer(lb.finalizers, LoadBalancerFinalizer));
    StillWF(w);
    var mid := WriteLBAtomic(w, o, STEPS);
    OthersStill(w, mid);
  }
}
