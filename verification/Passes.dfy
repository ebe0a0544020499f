/** Every function of the operator stays within its scope. */
module Passes {
  import opened Kube
  import opened Cloud
  import opened Selection
  import opened Network
  import opened Worlds
  import opened Calls
  import opened Retry
  import opened Operator
  import opened Evolution

  // ----- Retries -----

  lemma GetServiceFacts(w: World, k: Key, sc: Scope)
    requires WF(w)
    ensures var g := GetService(w, k); Evolves(w, g.w, sc) && Others(w, g.w) && g.w == Tick(w)
    ensures var g := GetService(w, k); g.v.Found? ==> Known(g.w.services, g.v.obj) && g.v.obj.key == k
    ensures var g := GetService(w, k); Fresh(w.script) && g.v != Failed ==>
      g.v == (match Current(g.w.services, k) case Some(o) => Found(o) case None => Missing)
  {
    hide Tick, Others, Flow, StoresEvolve, CloudEvolves, Valid, ValidCloud, Marked, OneBound, Fresh, Read, Known;
    TickEvolves(w, sc);
    NextReadable(w);
    ReadKnown(Tick(w).services, k, Next(w).view);
  }

  lemma {:induction false} EditAnnotationsEvolves(w: World, k: Key, edits: Annotations, n: nat, sc: Scope)
    requires WF(w) && k in sc.keys
    ensures Evolves(w, EditAnnotations(w, k, edits, n).w, sc)
    decreases n
  {
    hide WF, Others, Flow, StoresEvolve, CloudEvolves, GetService, UpdateService;
    if n == 0 {
      EvolvesReflexive(w, sc);
    } else {
      var got := GetService(w, k);
      GetServiceFacts(w, k, sc);
      match got.v {
        case Failed =>
          EditAnnotationsEvolves(got.w, k, edits, n - 1, sc);
          EvolvesTransitive(w, got.w, EditAnnotations(got.w, k, edits, n - 1).w, sc);
        case Missing =>
        case Found(o) =>
          var e := o.(annotations := o.annotations + edits);
          var put := UpdateService(got.w, e);
          UpdateServiceEvolves(got.w, e, o, sc);
          EvolvesTransitive(w, got.w, put.w, sc);
          EditAnnotationsEvolves(put.w, k, edits, n - 1, sc);
          EvolvesTransitive(w, put.w, EditAnnotations(put.w, k, edits, n - 1).w, sc);
      }
    }
  }

  lemma {:induction false} AddExternalIPEvolves(w: World, k: Key, ip: string, n: nat, sc: Scope)
    requires WF(w) && k in sc.keys
    ensures Evolves(w, AddExternalIP(w, k, ip, n).w, sc)
    decreases n
  {
    hide WF, Others, Flow, StoresEvolve, CloudEvolves, GetService, UpdateService;
    if n == 0 {
      EvolvesReflexive(w, sc);
    } else {
      var got := GetService(w, k);
      GetServiceFacts(w, k, sc);
      match got.v {
        case Failed =>
          AddExternalIPEvolves(got.w, k, ip, n - 1, sc);
          EvolvesTransitive(w, got.w, AddExternalIP(got.w, k, ip, n - 1).w, sc);
        case Missing =>
        case Found(o) =>
          var e := o.(spec := o.spec.(externalIPs := o.spec.externalIPs + [ip]));
          var put := UpdateService(got.w, e);
          UpdateServiceEvolves(got.w, e, o, sc);
          EvolvesTransitive(w, got.w, put.w, sc);
          AddExternalIPEvolves(put.w, k, ip, n - 1, sc);
          EvolvesTransitive(w, put.w, AddExternalIP(put.w, k, ip, n - 1).w, sc);
      }
    }
  }

  lemma {:induction false} WriteServiceEvolves(w: World, o: Service, n: nat, sc: Scope)
    requires WF(w) && o.key in sc.keys && (o.key in sc.lost || ServiceFinalizer in o.finalizers)
    ensures Evolves(w, WriteService(w, o, n).w, sc)
    decreases n
  {
    hide WF, Others, Flow, StoresEvolve, CloudEvolves, GetService, UpdateService;
    if n == 0 {
      EvolvesReflexive(w, sc);
    } else {
      var got := GetService(w, o.key);
      GetServiceFacts(w, o.key, sc);
      match got.v {
        case Failed =>
          WriteServiceEvolves(got.w, o, n - 1, sc);
          EvolvesTransitive(w, got.w, WriteService(got.w, o, n - 1).w, sc);
        case Missing =>
        case Found(current) =>
          var e := o.(version := current.version);
          var put := UpdateService(got.w, e);
          UpdateServiceEvolves(got.w, e, e, sc);
          EvolvesTransitive(w, got.w, put.w, sc);
          WriteServiceEvolves(put.w, o, n - 1, sc);
          EvolvesTransitive(w, put.w, WriteService(put.w, o, n - 1).w, sc);
      }
    }
  }

  lemma GetLBFacts(w: World, k: Key, sc: Scope)
    requires WF(w)
    ensures var g := GetLB(w, k); Evolves(w, g.w, sc) && Others(w, g.w) && g.w == Tick(w)
    ensures var g := GetLB(w, k); g.v.Found? ==> Known(g.w.lbs, g.v.obj) && g.v.obj.key == k
    ensures var g := GetLB(w, k); Fresh(w.script) && g.v != Failed ==>
      g.v == (match Current(g.w.lbs, k) case Some(o) => Found(o) case None => Missing)
  {
    hide Tick, Others, Flow, StoresEvolve, CloudEvolves, Valid, ValidCloud, Marked, OneBound, Fresh, Read, Known;
    TickEvolves(w, sc);
    NextReadable(w);
    ReadKnown(Tick(w).lbs, k, Next(w).view);
  }

  lemma {:induction false} WriteLBEvolves(w: World, o: LoadBalancer, n: nat, sc: Scope)
    requires WF(w) && o.key in sc.lbs
    ensures Evolves(w, WriteLB(w, o, n).w, sc)
    decreases n
  {
    hide WF, Others, Flow, StoresEvolve, CloudEvolves, GetLB, UpdateLB;
    if n == 0 {
      EvolvesReflexive(w, sc);
    } else {
      var got := GetLB(w, o.key);
      GetLBFacts(w, o.key, sc);
      match got.v {
        case Failed =>
          WriteLBEvolves(got.w, o, n - 1, sc);
          EvolvesTransitive(w, got.w, WriteLB(got.w, o, n - 1).w, sc);
        case Missing =>
        case Found(current) =>
          var e := o.(version := current.version);
          var put := UpdateLB(got.w, e);
          UpdateLBEvolves(got.w, e, sc);
          EvolvesTransitive(w, got.w, put.w, sc);
          WriteLBEvolves(put.w, o, n - 1, sc);
          EvolvesTransitive(w, put.w, WriteLB(put.w, o, n - 1).w, sc);
      }
    }
  }

  lemma {:induction false} WriteStatusEvolves(w: World, k: Key, status: LBStatus, n: nat, sc: Scope)
    requires WF(w) && k in sc.lbs
    ensures Evolves(w, WriteStatus(w, k, status, n).w, sc)
    decreases n
  {
    hide WF, Others, Flow, StoresEvolve, CloudEvolves, GetLB, UpdateLBStatus;
    if n == 0 {
      EvolvesReflexive(w, sc);
    } else {
      var got := GetLB(w, k);
      GetLBFacts(w, k, sc);
      match got.v {
        case Failed =>
          WriteStatusEvolves(got.w, k, status, n - 1, sc);
          EvolvesTransitive(w, got.w, WriteStatus(got.w, k, status, n - 1).w, sc);
        case Missing =>
        case Found(current) =>
          var e := current.(status := status);
          var put := UpdateLBStatus(got.w, e);
          UpdateLBEvolves(got.w, e, sc);
          EvolvesTransitive(w, got.w, put.w, sc);
          WriteStatusEvolves(put.w, k, status, n - 1, sc);
          EvolvesTransitive(w, put.w, WriteStatus(put.w, k, status, n - 1).w, sc);
      }
    }
  }

  // ----- Teardown -----

  lemma {:induction false} DeleteAllEvolves(w: World, kind: Kind, ids: seq<string>, watched: string, sc: Scope)
    requires WF(w) && sc.deletes
    ensures Evolves(w, DeleteAll(w, kind, ids, watched).w, sc)
    decreases |ids|
  {
    hide WF, Flow, StoresEvolve, CloudEvolves, DeleteResource;
    if ids == [] {
      EvolvesReflexive(w, sc);
    } else {
      var d := DeleteResource(w, kind, ids[0]);
      DeleteResourceEvolves(w, kind, ids[0], sc);
      DeleteAllEvolves(d.w, kind, ids[1..], watched, sc);
      EvolvesTransitive(w, d.w, DeleteAll(d.w, kind, ids[1..], watched).w, sc);
    }
  }

  lemma SweepsEvolve(w: World, svc: Service, fips: seq<FloatingIP>, ports: seq<Port>, sc: Scope)
    requires WF(w) && sc.deletes
    ensures Evolves(w, Sweeps(w, svc, fips, ports).w, sc)
  {
    hide WF, Flow, StoresEvolve, CloudEvolves, DeleteAll, FloatingIPsFor, PortsFor, FloatingIPIDs, PortIDs;
    var portID, fipID := Annotation(svc, PortID), Annotation(svc, FloatingIPID);
    var fs := FloatingIPIDs(FloatingIPsFor(fips, svc.key, portID, fipID));
    var f := DeleteAll(w, FloatingIPKind, fs, fipID);
    DeleteAllEvolves(w, FloatingIPKind, fs, fipID, sc);
    var ps := PortIDs(PortsFor(ports, svc.key, portID));
    DeleteAllEvolves(f.w, PortKind, ps, portID, sc);
    EvolvesTransitive(w, f.w, DeleteAll(f.w, PortKind, ps, portID).w, sc);
  }

  lemma CleanupEvolves(w: World, svc: Service, sc: Scope)
    requires WF(w) && svc.key in sc.keys && sc.deletes
    ensures Evolves(w, Cleanup(w, svc).w, sc)
  {
    hide WF, Flow, StoresEvolve, CloudEvolves, Others, Tick, Sweeps, EditAnnotations, FloatingIPList, PortList, Fault;
    hide Blanks;
    FaultEvolves(w, sc);
    var fips := ListFloatingIPs(w);
    if fips.v.Some? {
      FaultEvolves(fips.w, sc);
      var ports := ListPorts(fips.w);
      EvolvesTransitive(w, fips.w, ports.w, sc);
      if ports.v.Some? {
        var s := Sweeps(ports.w, svc, fips.v.value, ports.v.value);
        SweepsEvolve(ports.w, svc, fips.v.value, ports.v.value, sc);
        EvolvesTransitive(w, ports.w, s.w, sc);
        var edits := Blanks(s.v.0.hit, s.v.1.hit);
        EditAnnotationsEvolves(s.w, svc.key, edits, STEPS, sc);
        EvolvesTransitive(w, s.w, EditAnnotations(s.w, svc.key, edits, STEPS).w, sc);
      }
    }
  }

  lemma ForcedEvolves(w: World, svc: Service, sc: Scope)
    requires WF(w) && svc.key in sc.keys && svc.key in sc.lost
    ensures Evolves(w, Forced(w, svc).w, sc)
  {
    hide WF, Evolves, PatchService;
    EvolvesReflexive(w, sc);
    PatchServiceEvolves(w, svc.key, sc);
  }

  lemma DropFinalizerEvolves(w: World, svc: Service, sc: Scope)
    requires WF(w) && svc.key in sc.keys && svc.key in sc.lost
    ensures Evolves(w, DropFinalizer(w, svc).w, sc)
  {
    hide WF, Flow, StoresEvolve, CloudEvolves, WriteService, Forced;
    var o := svc.(finalizers := RemoveFinalizer(svc.finalizers, ServiceFinalizer));
    WriteServiceEvolves(w, o, STEPS, sc);
    var u := WriteService(w, o, STEPS);
    ForcedEvolves(u.w, svc, sc);
    EvolvesTransitive(w, u.w, Forced(u.w, svc).w, sc);
  }

  lemma DropLiveFinalizerEvolves(w: World, svc: Service, sc: Scope)
    requires WF(w) && svc.key in sc.keys && svc.key in sc.lost
    ensures Evolves(w, DropLiveFinalizer(w, svc).w, sc)
  {
    hide WF, Flow, StoresEvolve, CloudEvolves, WriteService, Forced;
    var o := svc.(finalizers := RemoveFinalizer(svc.finalizers, ServiceFinalizer));
    WriteServiceEvolves(w, o, STEPS, sc);
    var u := WriteService(w, o, STEPS);
    ForcedEvolves(u.w, svc, sc);
    EvolvesTransitive(w, u.w, Forced(u.w, svc).w, sc);
  }

  lemma FinalizeEvolves(w: World, svc: Service, sc: Scope)
    requires WF(w) && svc.key in sc.keys && svc.key in sc.lost && sc.deletes
    ensures Evolves(w, Finalize(w, svc).w, sc)
  {
    hide WF, Flow, StoresEvolve, CloudEvolves, Cleanup, DropFinalizer, DropLiveFinalizer, Forced, ShouldForce;
    EvolvesReflexive(w, sc);
    var c := Cleanup(w, svc);
    CleanupEvolves(w, svc, sc);
    ForcedEvolves(c.w, svc, sc);
    EvolvesTransitive(w, c.w, Forced(c.w, svc).w, sc);
    DropFinalizerEvolves(c.w, svc, sc);
    EvolvesTransitive(w, c.w, DropFinalizer(c.w, svc).w, sc);
    DropLiveFinalizerEvolves(c.w, svc, sc);
    EvolvesTransitive(w, c.w, DropLiveFinalizer(c.w, svc).w, sc);
  }

  // ----- The service handler -----

  lemma {:induction false} ClientOfMatchingEvolves(w: World, svc: Service, lbs: seq<LoadBalancer>, sc: Scope)
    requires WF(w)
    ensures Evolves(w, ClientOfMatching(w, svc, lbs).w, sc)
    decreases |lbs|
  {
    hide WF, Flow, StoresEvolve, CloudEvolves, NewClient, MatchesClass;
    if lbs == [] {
      EvolvesReflexive(w, sc);
    } else if !MatchesClass(svc, lbs[0].spec.className) {
      ClientOfMatchingEvolves(w, svc, lbs[1..], sc);
    } else {
      var c := NewClient(w, lbs[0].spec.secret);
      NewClientEvolves(w, lbs[0].spec.secret, sc);
      ClientOfMatchingEvolves(c.w, svc, lbs[1..], sc);
      EvolvesTransitive(w, c.w, ClientOfMatching(c.w, svc, lbs[1..]).w, sc);
    }
  }

  lemma ClientOfServiceEvolves(w: World, svc: Service, sc: Scope)
    requires WF(w)
    ensures Evolves(w, ClientOfService(w, svc).w, sc)
  {
    hide WF, Flow, StoresEvolve, CloudEvolves, Others, Tick, NewClient, ClientOfMatching, Listing;
    var secret := SecretRef(Annotation(svc, CredentialsSecretName), Annotation(svc, CredentialsSecretNamespace));
    NewClientEvolves(w, secret, sc);
    FaultEvolves(w, sc);
    var l := ListLBs(w);
    if l.v.Some? {
      var c := ClientOfMatching(l.w, svc, l.v.value);
      ClientOfMatchingEvolves(l.w, svc, l.v.value, sc);
      EvolvesTransitive(w, l.w, c.w, sc);
      NotesEvolve(c.w, Owner(Key("", ""), 0), "", sc);
      EvolvesTransitive(w, c.w, Miss(c.w), sc);
      if l.v.value != [] {
        NewClientEvolves(c.w, l.v.value[0].spec.secret, sc);
        EvolvesTransitive(w, c.w, NewClient(c.w, l.v.value[0].spec.secret).w, sc);
      }
    }
  }

  lemma FinalizeServiceEvolves(w: World, svc: Service, sc: Scope)
    requires WF(w) && svc.key in sc.keys && svc.key in sc.lost && sc.deletes
    ensures Evolves(w, FinalizeService(w, svc).w, sc)
  {
    hide WF, Flow, StoresEvolve, CloudEvolves, ClientOfService, Finalize, DropFinalizer;
    var c := ClientOfService(w, svc);
    ClientOfServiceEvolves(w, svc, sc);
    FinalizeEvolves(c.w, svc, sc);
    EvolvesTransitive(w, c.w, Finalize(c.w, svc).w, sc);
    DropFinalizerEvolves(c.w, svc, sc);
    EvolvesTransitive(w, c.w, DropFinalizer(c.w, svc).w, sc);
  }

  lemma AdoptServiceEvolves(w: World, svc: Service, sc: Scope)
    requires WF(w) && svc.key in sc.keys
    ensures Evolves(w, AdoptService(w, svc).w, sc)
  {
    hide WF, Flow, StoresEvolve, CloudEvolves, Others, Tick, Listing, FirstMatching, WriteService, EditAnnotations;
    EvolvesReflexive(w, sc);
    FaultEvolves(w, sc);
    var l := ListLBs(w);
    if l.v.Some? {
      var o := svc.(finalizers := AddFinalizer(svc.finalizers, ServiceFinalizer));
      var u := WriteService(l.w, o, STEPS);
      WriteServiceEvolves(l.w, o, STEPS, sc);
      EvolvesTransitive(w, l.w, u.w, sc);
      var lb := FirstMatching(svc, l.v.value);
      if lb.Some? {
        EditAnnotationsEvolves(u.w, svc.key, Credentials(lb.value), STEPS, sc);
        EvolvesTransitive(w, u.w, EditAnnotations(u.w, svc.key, Credentials(lb.value), STEPS).w, sc);
      }
    }
  }

  // ----- Provisioning -----

  lemma EnsureFinalizerEvolves(w: World, svc: Service, sc: Scope)
    requires WF(w) && svc.key in sc.keys
    ensures Evolves(w, EnsureFinalizer(w, svc).w, sc)
  {
    hide WF, Evolves, WriteService;
    EvolvesReflexive(w, sc);
    WriteServiceEvolves(w, svc.(finalizers := AddFinalizer(svc.finalizers, ServiceFinalizer)), STEPS, sc);
  }

  lemma EnsureCredentialsEvolves(w: World, svc: Service, lb: LoadBalancer, sc: Scope)
    requires WF(w) && svc.key in sc.keys
    ensures Evolves(w, EnsureCredentials(w, svc, lb).w, sc)
  {
    hide WF, Evolves, EditAnnotations;
    EvolvesReflexive(w, sc);
    EditAnnotationsEvolves(w, svc.key, Credentials(lb), STEPS, sc);
  }

  lemma DetectNetworkEvolves(w: World, lb: LoadBalancer, ip: string, sc: Scope)
    requires WF(w)
    ensures Evolves(w, DetectNetwork(w, lb, ip).w, sc)
    ensures DetectNetwork(w, lb, ip).v.lb.key == lb.key && DetectNetwork(w, lb, ip).v.lb.spec == lb.spec
  {
    hide WF, Flow, StoresEvolve, CloudEvolves, Others, Tick, FirstMatch, SetCondition;
    EvolvesReflexive(w, sc);
    FaultEvolves(w, sc);
  }

  lemma CheckPortEvolves(w: World, lb: LoadBalancer, svc: Service, sc: Scope)
    requires WF(w) && svc.key in sc.keys
    ensures Evolves(w, CheckPort(w, lb, svc).w, sc)
  {
    hide WF, Flow, StoresEvolve, CloudEvolves, Others, Tick, EditAnnotations;
    FaultEvolves(w, sc);
    var g := GetResource(w, PortKind, Annotation(svc, PortID));
    EditAnnotationsEvolves(g.w, svc.key, map[PortID := ""], STEPS, sc);
    EvolvesTransitive(w, g.w, EditAnnotations(g.w, svc.key, map[PortID := ""], STEPS).w, sc);
  }

  lemma MakePortEvolves(w: World, lb: LoadBalancer, svc: Service, ip: string, sc: Scope)
    requires WF(w) && svc.key in sc.keys && OwnerOf(svc) in sc.owners
    ensures Evolves(w, MakePort(w, lb, svc, ip).w, sc)
  {
    hide WF, Flow, StoresEvolve, CloudEvolves, CreatePort, EditAnnotations, Mishap, Recorded, SetCondition;
    var c := CreatePort(w, OwnerOf(svc), lb.status.networkID, lb.status.subnetID, ip);
    CreatePortEvolves(w, OwnerOf(svc), lb.status.networkID, lb.status.subnetID, ip, sc);
    if c.v.Some? {
      var id := c.v.value;
      var u := EditAnnotations(c.w, svc.key, map[PortID := id], STEPS);
      EditAnnotationsEvolves(c.w, svc.key, map[PortID := id], STEPS, sc);
      EvolvesTransitive(w, c.w, u.w, sc);
      NotesEvolve(u.w, OwnerOf(svc), id, sc);
      EvolvesTransitive(w, u.w, Mishap(u.w, OwnerOf(svc)), sc);
      EvolvesTransitive(w, u.w, Recorded(u.w, OwnerOf(svc), id), sc);
    }
  }

  lemma EnsurePortEvolves(w: World, lb: LoadBalancer, svc: Service, ip: string, sc: Scope)
    requires WF(w) && svc.key in sc.keys && OwnerOf(svc) in sc.owners
    ensures Evolves(w, EnsurePort(w, lb, svc, ip).w, sc)
    ensures var p := EnsurePort(w, lb, svc, ip).v;
      p.lb.key == lb.key && p.lb.spec == lb.spec && (p.v == DONE ==> p.portID != "")
  {
    hide WF, Evolves, SetCondition, Tick, EditAnnotations, TagResource, PlacePort, Fault;
    CheckPortEvolves(w, lb, svc, sc);
    MakePortEvolves(w, lb, svc, ip, sc);
  }

  lemma RecordFloatingIPEvolves(w: World, lb: LoadBalancer, svc: Service, id: string, address: string, reason: Reason,
                                portID: string, sc: Scope)
    requires WF(w) && svc.key in sc.keys
    ensures var r := RecordFloatingIP(w, lb, svc, id, address, reason, portID);
      Evolves(w, r.w, sc) && r.v.lb.key == lb.key && r.v.lb.spec == lb.spec
  {
    hide WF, Evolves, EditAnnotations, SetCondition;
    EditAnnotationsEvolves(w, svc.key, map[FloatingIPID := id], STEPS, sc);
  }

  lemma MakeFloatingIPEvolves(w: World, lb: LoadBalancer, svc: Service, portID: string, sc: Scope)
    requires WF(w) && svc.key in sc.keys && OwnerOf(svc) in sc.owners && portID != ""
    requires w.rules.binds || Unbound(w, portID)
    ensures var r := MakeFloatingIP(w, lb, svc, portID);
      Evolves(w, r.w, sc) && r.v.lb.key == lb.key && r.v.lb.spec == lb.spec
  {
    hide WF, Flow, StoresEvolve, CloudEvolves, CreateFloatingIP, RecordFloatingIP, SetCondition, Unbound;
    var c := CreateFloatingIP(w, OwnerOf(svc), portID);
    CreateFloatingIPEvolves(w, OwnerOf(svc), portID, sc);
    if c.v.Some? {
      RecordFloatingIPEvolves(c.w, lb, svc, c.v.value.id, c.v.value.address, Created, portID, sc);
      EvolvesTransitive(w, c.w,
        RecordFloatingIP(c.w, lb, svc, c.v.value.id, c.v.value.address, Created, portID).w, sc);
    }
  }

  /** A floating IP is looked up before one is made, and the lookup misses none. */
  lemma FindFloatingIPFacts(w: World, portID: string, sc: Scope)
    requires WF(w)
    ensures var f := FindFloatingIP(w, portID); Evolves(w, f.w, sc)
    ensures var f := FindFloatingIP(w, portID); f.v == Some(None) ==>
      forall id :: id in f.w.cloud.fips ==> f.w.cloud.fips[id].portID != portID
    ensures var f := FindFloatingIP(w, portID); f.v.Some? && f.v.value.Some? ==>
      var fip := f.v.value.value; fip.id in f.w.cloud.fips && f.w.cloud.fips[fip.id] == fip && fip.portID == portID
    ensures var f := FindFloatingIP(w, portID); f.v.Some? ==> f.w == Tick(w)
  {
    hide Tick, Others, Flow, StoresEvolve, CloudEvolves, Valid, Marked, OneBound, BoundTo, FloatingIPList;
    FaultEvolves(w, sc);
    var t := Tick(w);
    FloatingIPListExact(t.cloud, t.cloud.used);
    var all := FloatingIPList(t.cloud, t.cloud.used);
    BoundToExact(all, portID);
    if Ok(w) && BoundTo(all, portID) == [] {
      forall id | id in t.cloud.fips
        ensures t.cloud.fips[id].portID != portID
      {
        assert t.cloud.fips[id] in all;
      }
    }
  }

  lemma CreateOrFindEvolves(w: World, lb: LoadBalancer, svc: Service, portID: string, sc: Scope)
    requires WF(w) && svc.key in sc.keys && OwnerOf(svc) in sc.owners && portID != ""
    ensures var r := CreateOrFind(w, lb, svc, portID);
      Evolves(w, r.w, sc) && r.v.lb.key == lb.key && r.v.lb.spec == lb.spec
  {
    hide WF, Flow, StoresEvolve, CloudEvolves, FindFloatingIP, MakeFloatingIP, RecordFloatingIP, SetCondition;
    EvolvesReflexive(w, sc);
    var f := FindFloatingIP(w, portID);
    FindFloatingIPFacts(w, portID, sc);
    match f.v {
      case None =>
      case Some(Some(fip)) =>
        RecordFloatingIPEvolves(f.w, lb, svc, fip.id, fip.address, FoundExisting, portID, sc);
        EvolvesTransitive(w, f.w, RecordFloatingIP(f.w, lb, svc, fip.id, fip.address, FoundExisting, portID).w, sc);
      case Some(None) =>
        assert Unbound(f.w, portID);
        MakeFloatingIPEvolves(f.w, lb, svc, portID, sc);
        EvolvesTransitive(w, f.w, MakeFloatingIP(f.w, lb, svc, portID).w, sc);
    }
  }

  lemma CheckFloatingIPEvolves(w: World, lb: LoadBalancer, svc: Service, sc: Scope)
    requires WF(w) && svc.key in sc.keys
    ensures var r := CheckFloatingIP(w, lb, svc);
      Evolves(w, r.w, sc) && r.v.lb.key == lb.key && r.v.lb.spec == lb.spec
  {
    hide WF, Flow, StoresEvolve, CloudEvolves, Others, Tick, EditAnnotations;
    FaultEvolves(w, sc);
    var g := GetResource(w, FloatingIPKind, Annotation(svc, FloatingIPID));
    EditAnnotationsEvolves(g.w, svc.key, map[FloatingIPID := ""], STEPS, sc);
    EvolvesTransitive(w, g.w, EditAnnotations(g.w, svc.key, map[FloatingIPID := ""], STEPS).w, sc);
    FaultEvolves(g.w, sc);
    EvolvesTransitive(w, g.w, GetAddress(g.w, Annotation(svc, FloatingIPID)).w, sc);
  }

  lemma HandleFloatingIPEvolves(w: World, lb: LoadBalancer, svc: Service, portID: string, sc: Scope)
    requires WF(w) && svc.key in sc.keys && OwnerOf(svc) in sc.owners && portID != ""
    ensures var r := HandleFloatingIP(w, lb, svc, portID);
      Evolves(w, r.w, sc) && r.v.lb.key == lb.key && r.v.lb.spec == lb.spec
  {
    hide WF, Flow, StoresEvolve, CloudEvolves, CheckFloatingIP, CreateOrFind, AddExternalIP;
    var a := if HasAnnotation(svc, FloatingIPID) then CheckFloatingIP(w, lb, svc) else CreateOrFind(w, lb, svc, portID);
    CheckFloatingIPEvolves(w, lb, svc, sc);
    CreateOrFindEvolves(w, lb, svc, portID, sc);
    AddExternalIPEvolves(a.w, svc.key, a.v.address, STEPS, sc);
    EvolvesTransitive(w, a.w, AddExternalIP(a.w, svc.key, a.v.address, STEPS).w, sc);
  }

  lemma ProvisionEvolves(w: World, lb: LoadBalancer, svc: Service, ip: string, sc: Scope)
    requires WF(w) && svc.key in sc.keys && OwnerOf(svc) in sc.owners
    ensures var r := Provision(w, lb, svc, ip);
      Evolves(w, r.w, sc) && r.v.lb.key == lb.key && r.v.lb.spec == lb.spec
  {
    hide WF, Flow, StoresEvolve, CloudEvolves, DetectNetwork, EnsurePort, HandleFloatingIP;
    var d := DetectNetwork(w, lb, ip);
    DetectNetworkEvolves(w, lb, ip, sc);
    var p := EnsurePort(d.w, d.v.lb, svc, ip);
    EnsurePortEvolves(d.w, d.v.lb, svc, ip, sc);
    EvolvesTransitive(w, d.w, p.w, sc);
    if p.v.v == DONE {
      HandleFloatingIPEvolves(p.w, p.v.lb, svc, p.v.portID, sc);
      EvolvesTransitive(w, p.w, HandleFloatingIP(p.w, p.v.lb, svc, p.v.portID).w, sc);
    }
  }

  lemma ProcessServiceEvolves(w: World, lb: LoadBalancer, svc: Service, ip: string, sc: Scope)
    requires WF(w) && svc.key in sc.keys && (ServiceFinalizer in svc.finalizers ==> OwnerOf(svc) in sc.owners)
    ensures var r := ProcessService(w, lb, svc, ip);
      Evolves(w, r.w, sc) && r.v.lb.key == lb.key && r.v.lb.spec == lb.spec
  {
    hide WF, Flow, StoresEvolve, CloudEvolves, EnsureFinalizer, EnsureCredentials, Provision;
    EvolvesReflexive(w, sc);
    var f := EnsureFinalizer(w, svc);
    EnsureFinalizerEvolves(w, svc, sc);
    if f.v == DONE {
      assert ServiceFinalizer in svc.finalizers by { FinalizerNeeded(w, svc); }
      var c := EnsureCredentials(f.w, svc, lb);
      EnsureCredentialsEvolves(f.w, svc, lb, sc);
      EvolvesTransitive(w, f.w, c.w, sc);
      ProvisionEvolves(c.w, lb, svc, ip, sc);
      EvolvesTransitive(w, c.w, Provision(c.w, lb, svc, ip).w, sc);
    }
  }

  lemma FinalizerNeeded(w: World, svc: Service)
    ensures EnsureFinalizer(w, svc).v == DONE ==> ServiceFinalizer in svc.finalizers && EnsureFinalizer(w, svc).w == w
  {
    hide WriteService;
  }

  /** The services a pass makes resources for. */
  predicate Provisions(svc: Service, className: string) {
    Eligible(svc, className) && ServiceFinalizer in svc.finalizers
  }

  lemma {:induction false} ProvisionAllEvolves(w: World, svcs: seq<Service>, t: Tally, sc: Scope)
    requires WF(w)
    requires forall s :: s in svcs ==> s.key in sc.keys
    requires forall s :: s in svcs && Provisions(s, t.lb.spec.className) ==> OwnerOf(s) in sc.owners
    ensures var r := ProvisionAll(w, svcs, t);
      Evolves(w, r.w, sc) && r.v.lb.key == t.lb.key && r.v.lb.spec == t.lb.spec
    decreases |svcs|
  {
    hide WF, Flow, StoresEvolve, CloudEvolves, ProcessService, Eligible;
    if svcs == [] {
      EvolvesReflexive(w, sc);
    } else if !Eligible(svcs[0], t.lb.spec.className) {
      ProvisionAllEvolves(w, svcs[1..], t, sc);
    } else {
      EligibleHasAddress(svcs[0], t.lb.spec.className);
      var p := ProcessService(w, t.lb, svcs[0], svcs[0].status.ingress[0]);
      ProcessServiceEvolves(w, t.lb, svcs[0], svcs[0].status.ingress[0], sc);
      var u := Tally(p.v.lb, true, t.err || p.v.v.err, t.requeue || p.v.v.requeue);
      ProvisionAllEvolves(p.w, svcs[1..], u, sc);
      EvolvesTransitive(w, p.w, ProvisionAll(p.w, svcs[1..], u).w, sc);
    }
  }

  lemma EligibleHasAddress(svc: Service, className: string)
    requires Eligible(svc, className)
    ensures svc.status.ingress != []
  {
  }

  lemma ConcludeEvolves(w: World, t: Tally, sc: Scope)
    requires WF(w) && t.lb.key in sc.lbs
    ensures Evolves(w, Conclude(w, t).w, sc)
  {
    hide WF, Evolves, WriteStatus, SetCondition;
    var lb := Judge(w, t);
    WriteStatusEvolves(w, lb.key, lb.status, STEPS, sc);
  }

  /** Everything a pass over the listed services may touch. */
  function ListScope(svcs: seq<Service>, lbs: set<Key>, deletes: bool): Scope {
    Scope(
      set s | s in svcs :: s.key,
      if deletes then set s | s in svcs && s.terminating :: s.key else {},
      lbs,
      if deletes then {} else set s | s in svcs && ServiceFinalizer in s.finalizers :: OwnerOf(s),
      deletes)
  }

  lemma ReconcileLiveEvolves(w: World, lb: LoadBalancer, sc: Scope)
    requires WF(w) && lb.key in sc.lbs
    requires var l := ListServices(NewClient(w, lb.spec.secret).w).v;
      l.Some? ==> forall s :: s in l.value ==>
        s.key in sc.keys && (ServiceFinalizer in s.finalizers ==> OwnerOf(s) in sc.owners)
    ensures Evolves(w, ReconcileLive(w, lb).w, sc)
  {
    hide WF, Flow, StoresEvolve, CloudEvolves, Others, Tick, NewClient, ProvisionAll, Conclude, WriteStatus;
    hide SetCondition, Listing;
    var c := NewClient(w, lb.spec.secret);
    NewClientEvolves(w, lb.spec.secret, sc);
    var bad := Note(c.w, lb, Ready, false, OpenStackClientError, ErrorText(w));
    WriteStatusEvolves(c.w, bad.key, bad.status, STEPS, sc);
    EvolvesTransitive(w, c.w, WriteStatus(c.w, bad.key, bad.status, STEPS).w, sc);
    var l := ListServices(c.w);
    TickEvolves(c.w, sc);
    EvolvesTransitive(w, c.w, l.w, sc);
    if l.v.Some? {
      var t := Tally(lb, false, false, false);
      var p := ProvisionAll(l.w, l.v.value, t);
      ProvisionAllEvolves(l.w, l.v.value, t, sc);
      EvolvesTransitive(w, l.w, p.w, sc);
      ConcludeEvolves(p.w, p.v, sc);
      EvolvesTransitive(w, p.w, Conclude(p.w, p.v).w, sc);
    }
  }

  // ----- Deletion of a load balancer -----

  lemma DropLBFinalizerEvolves(w: World, lb: LoadBalancer, sc: Scope)
    requires WF(w) && lb.key in sc.lbs
    ensures Evolves(w, DropLBFinalizer(w, lb).w, sc)
  {
    hide WF, Evolves, WriteLB;
    WriteLBEvolves(w, lb.(finalizers := RemoveFinalizer(lb.finalizers, LoadBalancerFinalizer)), STEPS, sc);
  }

  lemma CleanServiceEvolves(w: World, svc: Service, sc: Scope)
    requires WF(w) && sc.deletes && svc.key in sc.keys && (svc.terminating ==> svc.key in sc.lost)
    ensures Evolves(w, CleanService(w, svc).w, sc)
  {
    hide WF, Evolves, Finalize, Cleanup;
    if svc.terminating {
      FinalizeEvolves(w, svc, sc);
    } else {
      CleanupEvolves(w, svc, sc);
    }
  }

  lemma {:induction false} CleanAllEvolves(w: World, svcs: seq<Service>, className: string, requeue: bool, sc: Scope)
    requires WF(w) && sc.deletes
    requires forall s :: s in svcs ==> s.key in sc.keys && (s.terminating ==> s.key in sc.lost)
    ensures Evolves(w, CleanAll(w, svcs, className, requeue).w, sc)
    decreases |svcs|
  {
    hide WF, Flow, StoresEvolve, CloudEvolves, CleanService, Involved;
    if svcs == [] {
      EvolvesReflexive(w, sc);
    } else if !Involved(svcs[0], className) {
      CleanAllEvolves(w, svcs[1..], className, requeue, sc);
    } else {
      var c := CleanService(w, svcs[0]);
      CleanServiceEvolves(w, svcs[0], sc);
      CleanAllEvolves(c.w, svcs[1..], className, requeue || c.v != DONE, sc);
      EvolvesTransitive(w, c.w, CleanAll(c.w, svcs[1..], className, requeue || c.v != DONE).w, sc);
    }
  }

  lemma HandleDeletionEvolves(w: World, lb: LoadBalancer, sc: Scope)
    requires WF(w) && lb.key in sc.lbs && sc.deletes
    requires var l := ListServices(NewClient(w, lb.spec.secret).w).v;
      l.Some? ==> forall s :: s in l.value ==> s.key in sc.keys && (s.terminating ==> s.key in sc.lost)
    ensures Evolves(w, HandleDeletion(w, lb).w, sc)
  {
    hide WF, Flow, StoresEvolve, CloudEvolves, Others, Tick, NewClient, CleanAll, DropLBFinalizer, Listing;
    var c := NewClient(w, lb.spec.secret);
    NewClientEvolves(w, lb.spec.secret, sc);
    DropLBFinalizerEvolves(c.w, lb, sc);
    EvolvesTransitive(w, c.w, DropLBFinalizer(c.w, lb).w, sc);
    var l := ListServices(c.w);
    TickEvolves(c.w, sc);
    EvolvesTransitive(w, c.w, l.w, sc);
    if l.v.Some? {
      var d := CleanAll(l.w, l.v.value, lb.spec.className, false);
      CleanAllEvolves(l.w, l.v.value, lb.spec.className, false, sc);
      EvolvesTransitive(w, l.w, d.w, sc);
      DropLBFinalizerEvolves(d.w, lb, sc);
      EvolvesTransitive(w, d.w, DropLBFinalizer(d.w, lb).w, sc);
    }
  }
}
