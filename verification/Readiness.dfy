/** What a provisioning pass reports: the readiness it stores and the verdict it returns, whatever the
    calls come to and whatever the others do. */
module Readiness {
  import opened Kube
  import opened Cloud
  import opened Worlds
  import opened Calls
  import opened Retry
  import opened Requests
  import opened Operator
  import opened Evolution
  import opened Passes
  import opened Orphans
  import opened Refinement
  import opened Convergence
  import opened Conditions

  // ----- The loop -----

  /** What the processing of each eligible service reported, in the order of the listing. */
  function Reports(w: World, lb: LoadBalancer, svcs: seq<Service>): seq<Verdict>
    decreases |svcs|
  {
    if svcs == [] then []
    else if !Eligible(svcs[0], lb.spec.className) then Reports(w, lb, svcs[1..])
    else
      var p := ProcessService(w, lb, svcs[0], svcs[0].status.ingress[0]);
      [p.v.v] + Reports(p.w, p.v.lb, svcs[1..])
  }

  predicate SomeErrs(rs: seq<Verdict>) {
    exists i :: 0 <= i < |rs| && rs[i].err
  }

  predicate SomeRequeues(rs: seq<Verdict>) {
    exists i :: 0 <= i < |rs| && rs[i].requeue
  }

  /** There is one report for each eligible service. */
  lemma {:induction false} OneReportEach(w: World, lb: LoadBalancer, svcs: seq<Service>)
    ensures |Reports(w, lb, svcs)| == |EligibleOnes(svcs, lb.spec.className)|
    ensures Reports(w, lb, svcs) == [] <==> !AnyEligible(svcs, lb.spec.className)
    decreases |svcs|
  {
    hide Eligible, ProcessService;
    if svcs != [] {
      assert svcs == [svcs[0]] + svcs[1..];
      if !Eligible(svcs[0], lb.spec.className) {
        OneReportEach(w, lb, svcs[1..]);
      } else {
        EligibleHasAddress(svcs[0], lb.spec.className);
        var ip := svcs[0].status.ingress[0];
        var p := ProcessService(w, lb, svcs[0], ip);
        ProcessKeeps(w, lb, svcs[0], ip);
        OneReportEach(p.w, p.v.lb, svcs[1..]);
      }
    }
  }

  function EligibleOnes(svcs: seq<Service>, className: string): seq<Service> {
    if svcs == [] then []
    else (if Eligible(svcs[0], className) then [svcs[0]] else []) + EligibleOnes(svcs[1..], className)
  }

  /** The loop goes on after a failure and remembers it; it leaves the readiness alone. */
  lemma {:induction false} LoopReports(w: World, svcs: seq<Service>, t: Tally)
    ensures var r, rs := ProvisionAll(w, svcs, t).v, Reports(w, t.lb, svcs);
      && (r.processed <==> t.processed || rs != [])
      && (r.err <==> t.err || SomeErrs(rs)) && (r.requeue <==> t.requeue || SomeRequeues(rs))
      && r.lb.key == t.lb.key && r.lb.spec == t.lb.spec && r.lb.status.ready == t.lb.status.ready
    decreases |svcs|
  {
    hide Eligible, ProcessService;
    if svcs != [] {
      if !Eligible(svcs[0], t.lb.spec.className) {
        LoopReports(w, svcs[1..], t);
      } else {
        EligibleHasAddress(svcs[0], t.lb.spec.className);
        var ip := svcs[0].status.ingress[0];
        var p := ProcessService(w, t.lb, svcs[0], ip);
        ProcessKeeps(w, t.lb, svcs[0], ip);
        LoopReports(p.w, svcs[1..], Tallied(t, p.v));
        FirstReport(p.v.v, Reports(p.w, p.v.lb, svcs[1..]));
      }
    }
  }

  lemma FirstReport(v: Verdict, rs: seq<Verdict>)
    ensures SomeErrs([v] + rs) <==> v.err || SomeErrs(rs)
    ensures SomeRequeues([v] + rs) <==> v.requeue || SomeRequeues(rs)
  {
    var all := [v] + rs;
    assert all[0] == v && forall i :: 0 <= i < |rs| ==> all[i + 1] == rs[i];
  }

  lemma NoReports()
    ensures !SomeErrs([]) && !SomeRequeues([])
  {
  }

  // ----- The pass -----

  /** The services that a pass over the load balancer lists, and the world it then provisions them in;
      none when there is no client or the listing fails. */
  function Provisioning(w: World, lb: LoadBalancer): Option<Out<seq<Service>>> {
    var c := NewClient(w, lb.spec.secret);
    if !c.v then None else
      var l := ListServices(c.w);
      if l.v.None? then None else Some(Out(l.w, l.v.value))
  }

  /** What the pass hears from the services it provisions. */
  function Heard(w: World, lb: LoadBalancer): seq<Verdict> {
    match Provisioning(w, lb)
    case None => []
    case Some(l) => Reports(l.w, lb, l.v)
  }

  /** The readiness that a pass over the load balancer has to store: it is ready exactly when there was
      a client, some listed service is eligible, and none of those reported an error. */
  ghost predicate PassStatus(w: World, lb: LoadBalancer, st: LBStatus)
    requires Ok(w) ==> Provisioning(w, lb).Some?
  {
    if !Ok(w) then
      Says(st.conditions, Ready, false, OpenStackClientError) && st.ready == lb.status.ready
    else if !AnyEligible(Provisioning(w, lb).value.v, lb.spec.className) then
      && Says(st.conditions, Ready, false, NoMatchingService) && st.ready == lb.status.ready
      && FirstOf(st.conditions, Ready).value.detail == [lb.spec.className]
    else if SomeErrs(Heard(w, lb)) then
      Says(st.conditions, Ready, false, ProcessingError) && st.ready == lb.status.ready
    else Says(st.conditions, Ready, true, ResourcesReady) && st.ready
  }

  lemma JudgeSays(w: World, t: Tally)
    ensures var lb := Judge(w, t);
      && lb.key == t.lb.key
      && (if !t.processed then
            && Says(lb.status.conditions, Ready, false, NoMatchingService) && lb.status.ready == t.lb.status.ready
            && FirstOf(lb.status.conditions, Ready).value.detail == [t.lb.spec.className]
          else if t.err then
            Says(lb.status.conditions, Ready, false, ProcessingError) && lb.status.ready == t.lb.status.ready
          else Says(lb.status.conditions, Ready, true, ResourcesReady) && lb.status.ready)
  {
    hide Note, FirstOf;
    NoteSays(w, t.lb, Ready, false, NoMatchingService, [t.lb.spec.className]);
    NoteSays(w, t.lb, Ready, false, ProcessingError, ErrorText(w));
    NoteSays(w, t.lb, Ready, true, ResourcesReady, []);
  }

  /** The pass either stored nothing, or put `st` on the load balancer in one write at the moment `mid`. */
  ghost predicate Stores(mid: World, after: World, k: Key, st: LBStatus) {
    || after == mid
    || (k in mid.lbs.objects && CommitsLB(mid, after, k, mid.lbs.objects[k].(status := st)))
  }

  /** A provisioning pass, whatever fails and whatever the others do, stores no other readiness than
      the one its client call and the reports of the eligible services ask for, in its last write.  It
      reports an error when the listing or that write fails, and asks for another pass when a service
      did and the write went through. */
  lemma LivePassSays(w: World, lb: LoadBalancer) returns (mid: World, st: LBStatus)
    requires WF(w)
    ensures var r, heard := ReconcileLive(w, lb), Heard(w, lb);
      if Ok(w) && Provisioning(w, lb).None? then r.v == Verdict(false, true) && Others(w, r.w.(log := w.log))
      else
        && PassStatus(w, lb, st) && Stores(mid, r.w, lb.key, st)
        && (r.v.err ==> r.w == mid && !r.v.requeue)
        && (!r.v.err ==> r.v.requeue == SomeRequeues(heard))
        && (!r.v.err && Fresh(w.script) && lb.key in r.w.lbs.objects ==> r.w.lbs.objects[lb.key].status == st)
  {
    hide WF, Evolves, Tick, ProvisionAll, Judge, Note, WriteStatus, Reports, FirstOf, Fresh, Others;
    hide SomeErrs, SomeRequeues, Listing;
    var none := Scope({}, {}, {lb.key}, {}, false);
    var c := NewClient(w, lb.spec.secret);
    mid, st := w, lb.status;
    NewClientEvolves(w, lb.spec.secret, none);
    EvolvesFresh(w, c.w, none);
    if !c.v {
      var bad := Note(c.w, lb, Ready, false, OpenStackClientError, ErrorText(w));
      NoteSays(c.w, lb, Ready, false, OpenStackClientError, ErrorText(w));
      st := bad.status;
      mid := StatusStored(c.w, lb.key, st);
      NoReports();
    } else {
      ListServicesEvolves(c.w, none);
      var l := ListServices(c.w);
      EvolvesFresh(c.w, l.w, none);
      if l.v.Some? {
        var svcs, t := l.v.value, Tally(lb, false, false, false);
        var p := ProvisionAll(l.w, svcs, t);
        var sc := ListScope(svcs, {}, false);
        ProvisionAllEvolves(l.w, svcs, t, sc);
        EvolvesFresh(l.w, p.w, sc);
        LoopReports(l.w, svcs, t);
        OneReportEach(l.w, lb, svcs);
        JudgeSays(p.w, p.v);
        st := Judge(p.w, p.v).status;
        mid := StatusStored(p.w, lb.key, st);
      } else {
        TwoTicks(w, c.w);
      }
    }
  }

  /** A pass that gives up on the listing has done nothing itself. */
  lemma TwoTicks(w: World, c: World)
    requires WF(w) && WF(c) && c == Tick(w).(log := c.log)
    ensures Others(w, Tick(c).(log := w.log))
  {
    hide WF, Tick, Fresh, TagsReadable, Moves, Drifts, Quiet;
    TickOthers(w);
    TickOthers(c);
    assert Others(Tick(w), Tick(c).(log := w.log));
    OthersTransitive(w, Tick(w), Tick(c).(log := w.log));
  }

  lemma EvolvesFresh(a: World, b: World, sc: Scope)
    requires Evolves(a, b, sc)
    ensures WF(b) && (Fresh(a.script) ==> Fresh(b.script))
  {
    hide WF, Fresh, Quiet, TagsReadable, StoresEvolve, CloudEvolves, Spares;
  }

  lemma StatusStored(w: World, k: Key, st: LBStatus) returns (mid: World)
    requires WF(w)
    ensures var r := WriteStatus(w, k, st, STEPS);
      && Stores(mid, r.w, k, st) && (!r.v ==> r.w == mid)
      && (r.v && Fresh(w.script) && k in r.w.lbs.objects ==> r.w.lbs.objects[k].status == st)
  {
    hide WF, WriteStatus, Fresh, Others, Replace;
    mid := WriteStatusAtomic(w, k, st, STEPS);
    var r := WriteStatus(w, k, st, STEPS);
    if k in mid.lbs.objects && CommitsLB(mid, r.w, k, mid.lbs.objects[k].(status := st)) {
      ReplaceSet(mid.lbs, mid.lbs.objects[k].(status := st));
    }
  }

  lemma ReplaceSet(s: Store<LBSpec, LBStatus>, o: LoadBalancer)
    requires o.key in s.objects
    ensures o.key in Replace(s, o).objects ==> Replace(s, o).objects[o.key].status == o.status
  {
  }

  /** After a pass over a live load balancer whose reads are current: if it reports no error and the
      load balancer is still there, the stored readiness is the one asked for. */
  lemma StoredReadiness(w: World, k: Key)
    requires WF(w) && Fresh(w.script) && !IsServiceRequest(k.name) && Ok(w)
    requires var got := Tick(w); k in got.lbs.objects && var lb := got.lbs.objects[k];
      !lb.terminating && LoadBalancerFinalizer in lb.finalizers
    ensures var got, r := Tick(w), Reconcile(w, k); var lb := got.lbs.objects[k];
      && (r.v.err <== Ok(got) && Provisioning(got, lb).None?)
      && (!r.v.err ==>
            && r.v.requeue == SomeRequeues(Heard(got, lb))
            && (k in r.w.lbs.objects ==> PassStatus(got, lb, r.w.lbs.objects[k].status)))
      && (r.v.err ==> !r.v.requeue)
  {
    hide WF, Fresh, Tick, IsServiceRequest, ReconcileLive, WriteLB, HandleDeletion, Heard, Provisioning, PassStatus;
    hide Evolves;
    hide SomeRequeues, Stores, Others;
    var got := GetLB(w, k);
    var none := Scope({}, {}, {}, {}, false);
    GetLBFacts(w, k, none);
    EvolvesFresh(w, got.w, none);
    var mid, st := LivePassSays(got.w, got.v.obj);
  }
}
