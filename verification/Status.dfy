/** Once both network ids of a load balancer are stored, they stay. */
module Status {
  import opened Kube
  import opened Cloud
  import opened Worlds
  import opened Calls
  import opened Retry
  import opened Requests
  import opened Operator
  import opened Evolution
  import opened Passes
  import opened Orphans
  import opened Runs

  function NetworkIDs(s: LBStatus): (string, string) {
    (s.networkID, s.subnetID)
  }

  /** The load balancer object with this unique id, if it is stored, has these network ids. */
  ghost predicate Settled(w: World, k: Key, uid: nat, ids: (string, string)) {
    && uid <= w.lbs.clock
    && (k in w.lbs.objects && w.lbs.objects[k].uid == uid ==> NetworkIDs(w.lbs.objects[k].status) == ids)
  }

  lemma EvolvesSettled(a: World, b: World, sc: Scope, k: Key, uid: nat, ids: (string, string))
    requires a.rules.lbs.status && Evolves(a, b, sc) && k !in sc.lbs && Settled(a, k, uid, ids)
    ensures Settled(b, k, uid, ids) && b.rules == a.rules
  {
    hide WF, CloudEvolves, Spares, KeepsFinalizers, KeepsRecords, SameOutside, Fresh, Quiet, TagsReadable;
  }

  lemma UpdateLBSettled(w: World, o: LoadBalancer, k: Key, uid: nat, ids: (string, string))
    requires WF(w) && w.rules.lbs.status && Settled(w, k, uid, ids)
    ensures Settled(UpdateLB(w, o).w, k, uid, ids)
    ensures NetworkIDs(o.status) == ids ==> Settled(UpdateLBStatus(w, o).w, k, uid, ids)
  {
    hide Tick, Others, Flow, StoresEvolve, CloudEvolves, Spares, Marked, ValidCloud, OneBound;
    var sc := Scope({}, {}, {}, {}, false);
    TickEvolves(w, sc);
    EvolvesSettled(w, Tick(w), sc, k, uid, ids);
  }

  lemma {:induction false} WriteLBSettled(w: World, o: LoadBalancer, n: nat, k: Key, uid: nat, ids: (string, string))
    requires WF(w) && w.rules.lbs.status && Settled(w, k, uid, ids)
    ensures Settled(WriteLB(w, o, n).w, k, uid, ids)
    decreases n
  {
    hide WF, Others, Flow, StoresEvolve, CloudEvolves, Spares, GetLB, UpdateLB, Settled;
    if n > 0 {
      var sc := Scope({}, {}, {}, {}, false);
      var got := GetLB(w, o.key);
      GetLBFacts(w, o.key, sc);
      EvolvesSettled(w, got.w, sc, k, uid, ids);
      match got.v {
        case Failed => WriteLBSettled(got.w, o, n - 1, k, uid, ids);
        case Missing =>
        case Found(current) =>
          var e := o.(version := current.version);
          UpdateLBSettled(got.w, e, k, uid, ids);
          UpdateLBEvolves(got.w, e, sc.(lbs := {o.key}));
          LogAndRules(got.w, UpdateLB(got.w, e).w, sc.(lbs := {o.key}));
          WriteLBSettled(UpdateLB(got.w, e).w, o, n - 1, k, uid, ids);
      }
    }
  }

  lemma {:induction false} WriteStatusSettled(w: World, key: Key, status: LBStatus, n: nat, k: Key, uid: nat,
      ids: (string, string))
    requires WF(w) && w.rules.lbs.status && Settled(w, k, uid, ids) && NetworkIDs(status) == ids
    ensures Settled(WriteStatus(w, key, status, n).w, k, uid, ids)
    decreases n
  {
    hide WF, Others, Flow, StoresEvolve, CloudEvolves, Spares, GetLB, UpdateLBStatus, Settled;
    if n > 0 {
      var sc := Scope({}, {}, {}, {}, false);
      var got := GetLB(w, key);
      GetLBFacts(w, key, sc);
      EvolvesSettled(w, got.w, sc, k, uid, ids);
      match got.v {
        case Failed => WriteStatusSettled(got.w, key, status, n - 1, k, uid, ids);
        case Missing =>
        case Found(current) =>
          var e := current.(status := status);
          UpdateLBSettled(got.w, e, k, uid, ids);
          UpdateLBEvolves(got.w, e, sc.(lbs := {key}));
          LogAndRules(got.w, UpdateLBStatus(got.w, e).w, sc.(lbs := {key}));
          WriteStatusSettled(UpdateLBStatus(got.w, e).w, key, status, n - 1, k, uid, ids);
      }
    }
  }

  // ----- Provisioning does not touch known network ids -----

  lemma NoteKeeps(w: World, lb: LoadBalancer, kind: ConditionKind, status: bool, reason: Reason, detail: seq<string>)
    ensures var n := Note(w, lb, kind, status, reason, detail);
      NetworkIDs(n.status) == NetworkIDs(lb.status) && n.uid == lb.uid
  {
  }

  lemma EnsurePortNetwork(w: World, lb: LoadBalancer, svc: Service, ip: string)
    ensures NetworkIDs(EnsurePort(w, lb, svc, ip).v.lb.status) == NetworkIDs(lb.status)
  {
    hide EditAnnotations, SetCondition, CreatePort, GetResource, Mishap, Recorded;
  }

  lemma HandleFloatingIPNetwork(w: World, lb: LoadBalancer, svc: Service, portID: string)
    ensures NetworkIDs(HandleFloatingIP(w, lb, svc, portID).v.lb.status) == NetworkIDs(lb.status)
  {
    hide EditAnnotations, AddExternalIP, SetCondition, CreateFloatingIP, FindFloatingIP, GetResource, GetAddress;
  }

  lemma ProcessServiceNetwork(w: World, lb: LoadBalancer, svc: Service, ip: string)
    requires NetworkKnown(lb)
    ensures NetworkIDs(ProcessService(w, lb, svc, ip).v.lb.status) == NetworkIDs(lb.status)
  {
    hide EnsureFinalizer, EnsureCredentials, EnsurePort, HandleFloatingIP, FindSubnet;
    var c := EnsureCredentials(EnsureFinalizer(w, svc).w, svc, lb);
    var p := EnsurePort(c.w, lb, svc, ip);
    EnsurePortNetwork(c.w, lb, svc, ip);
    HandleFloatingIPNetwork(p.w, p.v.lb, svc, p.v.portID);
  }

  lemma {:induction false} ProvisionAllNetwork(w: World, svcs: seq<Service>, t: Tally)
    requires NetworkKnown(t.lb)
    ensures NetworkIDs(ProvisionAll(w, svcs, t).v.lb.status) == NetworkIDs(t.lb.status)
    decreases |svcs|
  {
    hide ProcessService, Eligible;
    if svcs != [] {
      if Eligible(svcs[0], t.lb.spec.className) {
        EligibleHasAddress(svcs[0], t.lb.spec.className);
        var ip := svcs[0].status.ingress[0];
        var p := ProcessService(w, t.lb, svcs[0], ip);
        ProcessServiceNetwork(w, t.lb, svcs[0], ip);
        ProvisionAllNetwork(p.w, svcs[1..], Tally(p.v.lb, true, t.err || p.v.v.err, t.requeue || p.v.v.requeue));
      } else {
        ProvisionAllNetwork(w, svcs[1..], t);
      }
    }
  }

  lemma JudgeNetwork(w: World, t: Tally)
    ensures NetworkIDs(Judge(w, t).status) == NetworkIDs(t.lb.status) && Judge(w, t).key == t.lb.key
  {
    hide SetCondition;
  }

  lemma ReconcileLiveSettled(w: World, lb: LoadBalancer, uid: nat, ids: (string, string))
    requires WF(w) && w.rules.lbs.status && Settled(w, lb.key, uid, ids)
    requires NetworkKnown(lb) && NetworkIDs(lb.status) == ids
    ensures Settled(ReconcileLive(w, lb).w, lb.key, uid, ids)
  {
    hide WF, Others, Tick, Flow, StoresEvolve, CloudEvolves, Spares, NewClient, ListServices, ProvisionAll, WriteStatus;
    hide Note, Judge, Settled, NetworkIDs, NetworkKnown;
    var sc := Scope({}, {}, {}, {}, false);
    var k := lb.key;
    var c := NewClient(w, lb.spec.secret);
    NewClientEvolves(w, lb.spec.secret, sc);
    EvolvesSettled(w, c.w, sc, k, uid, ids);
    var bad := Note(c.w, lb, Ready, false, OpenStackClientError, ErrorText(w));
    NoteKeeps(c.w, lb, Ready, false, OpenStackClientError, ErrorText(w));
    WriteStatusSettled(c.w, bad.key, bad.status, STEPS, k, uid, ids);
    var l := ListServices(c.w);
    ListServicesEvolves(c.w, sc);
    EvolvesSettled(c.w, l.w, sc, k, uid, ids);
    if l.v.Some? {
      var t := Tally(lb, false, false, false);
      var p := ProvisionAll(l.w, l.v.value, t);
      var wide := Scope(set s | s in l.v.value :: s.key, {}, {}, set s | s in l.v.value :: OwnerOf(s), false);
      ProvisionAllEvolves(l.w, l.v.value, t, wide);
      EvolvesSettled(l.w, p.w, wide, k, uid, ids);
      ProvisionAllNetwork(l.w, l.v.value, t);
      JudgeNetwork(p.w, p.v);
      var j := Judge(p.w, p.v);
      WriteStatusSettled(p.w, j.key, j.status, STEPS, k, uid, ids);
    }
  }

  lemma HandleDeletionSettled(w: World, lb: LoadBalancer, k: Key, uid: nat, ids: (string, string))
    requires WF(w) && w.rules.lbs.status && Settled(w, k, uid, ids)
    ensures Settled(HandleDeletion(w, lb).w, k, uid, ids)
  {
    hide WF, Others, Tick, Flow, StoresEvolve, CloudEvolves, Spares, NewClient, ListServices, CleanAll, WriteLB;
    hide Settled;
    var sc := Scope({}, {}, {}, {}, false);
    var o := lb.(finalizers := RemoveFinalizer(lb.finalizers, LoadBalancerFinalizer));
    var c := NewClient(w, lb.spec.secret);
    NewClientEvolves(w, lb.spec.secret, sc);
    EvolvesSettled(w, c.w, sc, k, uid, ids);
    WriteLBSettled(c.w, o, STEPS, k, uid, ids);
    var l := ListServices(c.w);
    ListServicesEvolves(c.w, sc);
    EvolvesSettled(c.w, l.w, sc, k, uid, ids);
    if l.v.Some? {
      var d := CleanAll(l.w, l.v.value, lb.spec.className, false);
      var ks := set s | s in l.v.value :: s.key;
      var wide := Scope(ks, ks, {}, {}, true);
      CleanAllEvolves(l.w, l.v.value, lb.spec.className, false, wide);
      EvolvesSettled(l.w, d.w, wide, k, uid, ids);
      WriteLBSettled(d.w, o, STEPS, k, uid, ids);
    }
  }

  lemma AbsentSettled(a: World, b: World, sc: Scope, k: Key, uid: nat, ids: (string, string))
    requires Evolves(a, b, sc) && uid <= a.lbs.clock && !(k in a.lbs.objects && a.lbs.objects[k].uid == uid)
    ensures Settled(b, k, uid, ids)
  {
    hide WF, CloudEvolves, Spares, KeepsFinalizers, KeepsRecords, KeepsStatus, SameOutside, Fresh, Quiet, TagsReadable;
  }

  /** The pass is over this load balancer, and the object its opening read shows, which it goes on to
      provision from, does not have the ids that are stored. */
  ghost predicate Misreads(w: World, req: Key, k: Key, uid: nat, ids: (string, string)) {
    var got := GetLB(w, k);
    && req == k && !IsServiceRequest(k.name)
    && k in got.w.lbs.objects && got.w.lbs.objects[k].uid == uid
    && got.v.Found? && !got.v.obj.terminating && LoadBalancerFinalizer in got.v.obj.finalizers
    && NetworkIDs(got.v.obj.status) != ids
  }

  /** One pass, over any request, keeps the network ids of every load balancer that has both, unless
      it misreads them. */
  lemma PassSettled(w: World, req: Key, k: Key, uid: nat, ids: (string, string))
    requires WF(w) && w.rules.lbs.status && Settled(w, k, uid, ids) && ids.0 != "" && ids.1 != ""
    requires !Misreads(w, req, k, uid, ids)
    ensures Settled(Reconcile(w, req).w, k, uid, ids)
  {
    hide WF, Others, Tick, Flow, StoresEvolve, CloudEvolves, Spares, Fresh, GetLB, WriteLB, HandleDeletion;
    hide ReconcileLive;
    hide ReconcileService, ServiceName, IsServiceRequest;
    if IsServiceRequest(req.name) {
      var name := ServiceName(req.name);
      var ks := if name.Some? then {Key(req.namespace, name.value)} else {};
      var sc := Scope(ks, ks, {}, {}, true);
      ReconcileServiceEvolves(w, req, sc);
      EvolvesSettled(w, ReconcileService(w, req).w, sc, k, uid, ids);
    } else if req != k {
      var sc := ReconcileLBEvolves(w, req);
      EvolvesSettled(w, ReconcileLB(w, req).w, sc, k, uid, ids);
    } else {
      var sc := Scope({}, {}, {}, {}, false);
      var got := GetLB(w, k);
      GetLBFacts(w, k, sc);
      EvolvesSettled(w, got.w, sc, k, uid, ids);
      if got.v.Found? {
        var lb := got.v.obj;
        var o := lb.(finalizers := AddFinalizer(lb.finalizers, LoadBalancerFinalizer));
        WriteLBSettled(got.w, o, STEPS, k, uid, ids);
        HandleDeletionSettled(got.w, lb, k, uid, ids);
        if NetworkIDs(lb.status) == ids {
          ReconcileLiveSettled(got.w, lb, uid, ids);
        } else if !(k in got.w.lbs.objects && got.w.lbs.objects[k].uid == uid) {
          var wide := ReconcileFoundEvolves(got.w, lb);
          AbsentSettled(got.w, ReconcileLive(got.w, lb).w, wide, k, uid, ids);
        }
      }
    }
  }

  /** A current read misreads nothing. */
  lemma CurrentRead(w: World, req: Key, k: Key, uid: nat, ids: (string, string))
    requires WF(w) && Fresh(w.script) && w.rules.lbs.status && Settled(w, k, uid, ids)
    ensures !Misreads(w, req, k, uid, ids)
  {
    hide WF, Others, Tick, Flow, StoresEvolve, CloudEvolves, Spares, Fresh, GetLB, IsServiceRequest;
    var sc := Scope({}, {}, {}, {}, false);
    GetLBFacts(w, k, sc);
    EvolvesSettled(w, GetLB(w, k).w, sc, k, uid, ids);
  }

  lemma StoredUid(w: World, k: Key)
    requires WF(w) && k in w.lbs.objects
    ensures w.lbs.objects[k].uid <= w.lbs.clock
  {
  }

  /** Over any run in which nobody else edits load balancer status, however old the reads: a load
      balancer object that has both network ids has the same ones at the end, if it is still stored,
      unless some pass over it began with a read that showed other ids. */
  lemma RunSettled(w: World, reqs: seq<Key>, k: Key)
    requires WF(w) && w.rules.lbs.status
    requires k in w.lbs.objects && NetworkKnown(w.lbs.objects[k])
    ensures var before, after := w.lbs.objects[k], Run(w, reqs).lbs.objects;
      || (k in after && after[k].uid == before.uid ==> NetworkIDs(after[k].status) == NetworkIDs(before.status))
      || exists i :: 0 <= i < |reqs| && Misreads(Run(w, reqs[..i]), reqs[i], k, before.uid, NetworkIDs(before.status))
  {
    hide WF, Run, Misreads;
    StoredUid(w, k);
    RunSettledFrom(w, reqs, k, w.lbs.objects[k].uid, NetworkIDs(w.lbs.objects[k].status));
  }

  lemma {:induction false} RunSettledFrom(w: World, reqs: seq<Key>, k: Key, uid: nat, ids: (string, string))
    requires WF(w) && w.rules.lbs.status && Settled(w, k, uid, ids) && ids.0 != "" && ids.1 != ""
    ensures Settled(Run(w, reqs), k, uid, ids)
      || exists i :: 0 <= i < |reqs| && Misreads(Run(w, reqs[..i]), reqs[i], k, uid, ids)
    decreases |reqs|
  {
    hide WF, Reconcile, Settled, Misreads;
    if reqs != [] {
      var n := |reqs| - 1;
      var most := reqs[..n];
      assert reqs == most + [reqs[n]];
      RunSnoc(w, most, reqs[n]);
      RunKeeps(w, most);
      RunSettledFrom(w, most, k, uid, ids);
      if Settled(Run(w, most), k, uid, ids) {
        if !Misreads(Run(w, most), reqs[n], k, uid, ids) {
          PassSettled(Run(w, most), reqs[n], k, uid, ids);
        }
      } else {
        var i :| 0 <= i < |most| && Misreads(Run(w, most[..i]), most[i], k, uid, ids);
        assert most[..i] == reqs[..i] && most[i] == reqs[i];
      }
    }
  }
}
