/** What holds over whole runs: any requests in any order, any failures, any interference. */
module Runs {
  import opened Kube
  import opened Cloud
  import opened Tags
  import opened Worlds
  import opened Calls
  import opened Retry
  import opened Requests
  import opened Operator
  import opened Evolution
  import opened Passes
  import opened Orphans

  // ----- A pass stays within some scope -----

  lemma ReconcileServiceEvolves(w: World, req: Key, sc: Scope)
    requires WF(w) && sc.deletes
    requires ServiceName(req.name).Some? ==>
      var k := Key(req.namespace, ServiceName(req.name).value); k in sc.keys && k in sc.lost
    ensures Evolves(w, ReconcileService(w, req).w, sc)
  {
    hide WF, Others, Flow, StoresEvolve, CloudEvolves, GetService, FinalizeService, AdoptService, ServiceName, Spares;
    EvolvesReflexive(w, sc);
    if ServiceName(req.name).Some? {
      var k := Key(req.namespace, ServiceName(req.name).value);
      var got := GetService(w, k);
      GetServiceFacts(w, k, sc);
      if got.v.Found? {
        FinalizeServiceEvolves(got.w, got.v.obj, sc);
        EvolvesTransitive(w, got.w, FinalizeService(got.w, got.v.obj).w, sc);
        AdoptServiceEvolves(got.w, got.v.obj, sc);
        EvolvesTransitive(w, got.w, AdoptService(got.w, got.v.obj).w, sc);
      }
    }
  }

  /** The scope of a pass over the services its client would list. */
  lemma ReconcileFoundEvolves(w: World, lb: LoadBalancer) returns (sc: Scope)
    requires WF(w)
    ensures sc.lbs == {lb.key}
    ensures Evolves(w, HandleDeletion(w, lb).w, sc) && Evolves(w, ReconcileLive(w, lb).w, sc)
  {
    hide WF, Evolves, HandleDeletion, ReconcileLive, NewClient, ListServices;
    var l := ListServices(NewClient(w, lb.spec.secret).w).v;
    var svcs := if l.Some? then l.value else [];
    sc := Scope(
      set s | s in svcs :: s.key, set s | s in svcs :: s.key, {lb.key}, set s | s in svcs :: OwnerOf(s), true);
    HandleDeletionEvolves(w, lb, sc);
    ReconcileLiveEvolves(w, lb, sc);
  }

  lemma ReconcileLBEvolves(w: World, k: Key) returns (sc: Scope)
    requires WF(w)
    ensures sc.lbs == {k} && Evolves(w, ReconcileLB(w, k).w, sc)
  {
    hide WF, Others, Flow, StoresEvolve, CloudEvolves, GetLB, WriteLB, HandleDeletion, ReconcileLive, Spares;
    var got := GetLB(w, k);
    sc := Scope({}, {}, {k}, {}, false);
    GetLBFacts(w, k, sc);
    if got.v.Found? {
      var lb := got.v.obj;
      sc := ReconcileFoundEvolves(got.w, lb);
      GetLBFacts(w, k, sc);
      var o := lb.(finalizers := AddFinalizer(lb.finalizers, LoadBalancerFinalizer));
      WriteLBEvolves(got.w, o, STEPS, sc);
      EvolvesTransitive(w, got.w, WriteLB(got.w, o, STEPS).w, sc);
      EvolvesTransitive(w, got.w, HandleDeletion(got.w, lb).w, sc);
      EvolvesTransitive(w, got.w, ReconcileLive(got.w, lb).w, sc);
    }
  }

  lemma ReconcileEvolves(w: World, req: Key) returns (sc: Scope)
    requires WF(w)
    ensures Evolves(w, Reconcile(w, req).w, sc)
  {
    hide WF, Evolves, ReconcileService, ReconcileLB, ServiceName, IsServiceRequest;
    if IsServiceRequest(req.name) {
      var name := ServiceName(req.name);
      var ks := if name.Some? then {Key(req.namespace, name.value)} else {};
      sc := Scope(ks, ks, {}, {}, true);
      ReconcileServiceEvolves(w, req, sc);
    } else {
      sc := ReconcileLBEvolves(w, req);
    }
  }

  /** The same request m times over. */
  function Repeat(k: Key, m: nat): seq<Key> {
    if m == 0 then [] else [k] + Repeat(k, m - 1)
  }

  lemma {:induction false} RunSnoc(w: World, reqs: seq<Key>, req: Key)
    ensures Run(w, reqs + [req]) == Reconcile(Run(w, reqs), req).w
    decreases |reqs|
  {
    hide Reconcile;
    if reqs == [] {
      assert reqs + [req] == [req];
      assert Run(w, [req]) == Run(Reconcile(w, req).w, []);
    } else {
      assert (reqs + [req])[1..] == reqs[1..] + [req];
      RunSnoc(Reconcile(w, reqs[0]).w, reqs[1..], req);
    }
  }

  /** Every run keeps the world well formed; in particular, as long as the others bind no
      floating IPs, no two floating IPs made by the operator are ever bound to the same port,
      whichever creations and annotation writes went wrong. */
  lemma {:induction false} RunKeeps(w: World, reqs: seq<Key>)
    requires WF(w)
    ensures var r := Run(w, reqs);
      && WF(r) && r.rules == w.rules && (Fresh(w.script) ==> Fresh(r.script))
      && (!w.rules.binds ==> OneBound(r.cloud, r.log.made))
    decreases |reqs|
  {
    hide Valid, ValidCloud, Marked, OneBound, StoresEvolve, CloudEvolves, Reconcile, Fresh, Quiet, TagsReadable, Spares;
    if reqs != [] {
      var sc := ReconcileEvolves(w, reqs[0]);
      RunKeeps(Reconcile(w, reqs[0]).w, reqs[1..]);
    }
  }

  // ----- Floating IPs per port -----

  /** All the floating IPs ever made on a port. */
  ghost function MadeOn(w: World, portID: string): set<string> {
    set f | f in w.log.madeOn && w.log.madeOn[f] == portID
  }

  /** Those of them that were since deleted or unbound. */
  ghost function LostFrom(w: World, portID: string): set<string> {
    set f | f in MadeOn(w, portID) && !(f in w.cloud.fips && w.cloud.fips[f].portID == portID)
  }

  lemma OneLeft(w: World, portID: string)
    requires WF(w) && !w.rules.binds && portID != ""
    ensures |MadeOn(w, portID)| <= 1 + |LostFrom(w, portID)|
  {
    hide Valid, ValidCloud, Marked;
    var left := MadeOn(w, portID) - LostFrom(w, portID);
    if left != {} {
      var f :| f in left;
      forall g | g in left ensures g == f {
        assert f in w.log.made && g in w.log.made;
      }
      assert left == {f};
    }
    assert MadeOn(w, portID) == left + LostFrom(w, portID);
  }

  /** Over any run in which the others bind no floating IPs: those ever made on a port number at most one
      more than those of them that were deleted or unbound since. */
  lemma RunFloatingIPs(w: World, reqs: seq<Key>, portID: string)
    requires WF(w) && !w.rules.binds && portID != ""
    ensures var r := Run(w, reqs); |MadeOn(r, portID)| <= 1 + |LostFrom(r, portID)|
  {
    hide WF, Run;
    RunKeeps(w, reqs);
    OneLeft(Run(w, reqs), portID);
  }

  // ----- No orphans -----

  /** The pass at position i orphaned the resource, and was troubled or misled by its listing. */
  ghost predicate OrphanedAt(w: World, reqs: seq<Key>, i: nat, id: string)
    requires i < |reqs|
  {
    var a, b := Run(w, reqs[..i]), Run(w, reqs[..i + 1]);
    !Orphan(a, id) && Orphan(b, id) && (Troubled(a, b) || Misled(a, reqs[i], b.log.made[id]))
  }

  /** Over any run in which the others never strip the service finalizer, however old the reads: a
      resource that ends up an orphan was one at the start, or became one in a pass that had no
      credentials or had a call to the cloud fail or be refused, or in a pass that made it because its
      listing showed as held a service that was not held any more. */
  lemma {:induction false} RunOrphans(w: World, reqs: seq<Key>, id: string)
    requires WF(w) && Guarded(w) && Orphan(Run(w, reqs), id)
    ensures Orphan(w, id) || exists i :: 0 <= i < |reqs| && OrphanedAt(w, reqs, i, id)
    decreases |reqs|
  {
    hide WF, Reconcile, Orphan, Misled;
    if reqs != [] {
      var n := |reqs| - 1;
      var most := reqs[..n];
      assert reqs == most + [reqs[n]];
      RunSnoc(w, most, reqs[n]);
      RunKeeps(w, most);
      var a := Run(w, most);
      PassOrphans(a, reqs[n], id);
      assert reqs[..n + 1] == reqs;
      if Orphan(a, id) {
        RunOrphans(w, most, id);
        if !Orphan(w, id) {
          var i :| 0 <= i < |most| && OrphanedAt(w, most, i, id);
          assert most[..i] == reqs[..i] && most[..i + 1] == reqs[..i + 1];
          assert OrphanedAt(w, reqs, i, id);
        }
      } else {
        assert OrphanedAt(w, reqs, n, id);
      }
    }
  }

  // ----- Foreign resources -----

  /** Over any run in which tags can be read, the operator deletes nothing that lacks its
      ownership tag; and if nobody else acts, whatever others own is exactly as it was. */
  lemma {:induction false} RunSparesForeign(w: World, reqs: seq<Key>)
    requires WF(w) && TagsReadable(w.script)
    ensures Run(w, reqs).log.seized == w.log.seized
    ensures Quiet(w.script) ==> SparesForeign(w.cloud, Run(w, reqs).cloud, w.log.made)
    decreases |reqs|
  {
    hide Valid, Marked, OneBound, StoresEvolve, Ages, Unbinds, KeepsLive, LogGrows, Reconcile, Fresh, Quiet;
    hide TagsReadable, OwnedByOperator;
    if reqs != [] {
      var sc := ReconcileEvolves(w, reqs[0]);
      var v := Reconcile(w, reqs[0]).w;
      RunSparesForeign(v, reqs[1..]);
      assert Spares(w, v);
      if Quiet(w.script) {
        assert forall id :: id in w.cloud.ports ==> id in w.cloud.used;
        assert forall id :: id in w.cloud.fips ==> id in w.cloud.used;
      }
    }
  }
}
