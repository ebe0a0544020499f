/** What a lagging read can do: the passes that the results on orphans and on network ids make an
    exception for, in worlds where every call succeeds and nobody interferes. */
module Lagging {
  import opened Kube
  import opened Cloud
  import opened Selection
  import opened Worlds
  import opened Calls
  import opened Retry
  import opened Requests
  import opened Operator
  import opened Evolution
  import opened Passes
  import opened Teardown
  import opened Orphans
  import opened Refinement
  import opened Undisturbed
  import opened Progress
  import opened Truthful
  import opened Network
  import opened Convergence
  import opened Status
  import opened Ledger

  // ----- Calm provisioning notes no trouble -----

  predicate NoTrouble(a: World, b: World) {
    b.log.faults == a.log.faults && b.log.misses == a.log.misses
  }

  lemma EvolvesCalm(a: World, b: World, sc: Scope)
    requires Evolves(a, b, sc) && a.script == []
    ensures WF(b) && b.script == [] && a.rules == b.rules && a.texts == b.texts
  {
    hide WF, Fresh, Quiet, TagsReadable, StoresEvolve, CloudEvolves, Spares;
  }

  lemma OthersLog(a: World, b: World)
    requires Others(a, b)
    ensures a.log == b.log
  {
    hide Flow, Moves, Drifts, Quiet;
  }

  /** The get-modify-update helpers leave no notes. */
  lemma HelpersLog(w: World, k: Key, edits: Annotations, ip: string, o: Service, status: LBStatus, n: nat)
    requires WF(w)
    ensures EditAnnotations(w, k, edits, n).w.log == w.log && AddExternalIP(w, k, ip, n).w.log == w.log
    ensures WriteService(w, o, n).w.log == w.log && WriteStatus(w, k, status, n).w.log == w.log
  {
    hide WF, Others, EditAnnotations, AddExternalIP, WriteService, WriteStatus, Replace, Fresh;
    var m1 := EditAnnotationsAtomic(w, k, edits, n);
    OthersLog(w, m1);
    var m2 := AddExternalIPAtomic(w, k, ip, n);
    OthersLog(w, m2);
    var m3 := WriteServiceAtomic(w, o, n);
    OthersLog(w, m3);
    var m4 := WriteStatusAtomic(w, k, status, n);
    OthersLog(w, m4);
  }

  lemma EditLog(w: World, k: Key, edits: Annotations)
    requires WF(w)
    ensures EditAnnotations(w, k, edits, STEPS).w.log == w.log
  {
    hide WF, EditAnnotations, AddExternalIP, WriteService, WriteStatus;
    EditAnnotationsLog(w, k, edits, STEPS);
  }

  lemma CalmCreatePort(w: World, owner: Owner, networkID: string, subnetID: string, ip: string)
    requires WF(w) && w.script == []
    ensures var c := CreatePort(w, owner, networkID, subnetID, ip); NoTrouble(w, c.w) && c.v.Some?
  {
    hide PortName, PortDescription, TagList, NewID, SetTags, WF, AddPort;
  }

  lemma CalmCreateFloatingIP(w: World, owner: Owner, portID: string)
    requires WF(w) && w.script == []
    ensures NoTrouble(w, CreateFloatingIP(w, owner, portID).w)
  {
    hide FloatingIPDescription, TagList, NewID, SetTags, WF, AddFloatingIP;
  }

  lemma CalmCheckPort(w: World, lb: LoadBalancer, svc: Service)
    requires WF(w) && w.script == []
    ensures NoTrouble(w, CheckPort(w, lb, svc).w)
  {
    hide WF, Evolves, EditAnnotations;
    var t := Tick(w);
    var sc := Scope({}, {}, {}, {}, false);
    TickEvolves(w, sc);
    EvolvesCalm(w, t, sc);
    EditLog(t, svc.key, map[PortID := ""]);
  }

  lemma CalmMakePort(w: World, lb: LoadBalancer, svc: Service, ip: string)
    requires WF(w) && w.script == []
    ensures NoTrouble(w, MakePort(w, lb, svc, ip).w)
  {
    hide WF, Evolves, CreatePort, EditAnnotations, SetCondition, StraysOf, MishapsOf, Tick;
    var owner := OwnerOf(svc);
    var sc := Scope({svc.key}, {}, {}, {owner}, false);
    CalmCreatePort(w, owner, lb.status.networkID, lb.status.subnetID, ip);
    var c := CreatePort(w, owner, lb.status.networkID, lb.status.subnetID, ip);
    CreatePortEvolves(w, owner, lb.status.networkID, lb.status.subnetID, ip, sc);
    EvolvesCalm(w, c.w, sc);
    EditLog(c.w, svc.key, map[PortID := c.v.value]);
  }

  lemma CalmEnsurePort(w: World, lb: LoadBalancer, svc: Service, ip: string)
    requires WF(w) && w.script == []
    ensures NoTrouble(w, EnsurePort(w, lb, svc, ip).w)
  {
    hide WF, CheckPort, MakePort, NoTrouble;
    CalmCheckPort(w, lb, svc);
    CalmMakePort(w, lb, svc, ip);
  }

  lemma CalmRecord(w: World, lb: LoadBalancer, svc: Service, id: string, address: string, reason: Reason,
      portID: string)
    requires WF(w)
    ensures NoTrouble(w, RecordFloatingIP(w, lb, svc, id, address, reason, portID).w)
  {
    hide WF, EditAnnotations, SetCondition;
    EditLog(w, svc.key, map[FloatingIPID := id]);
  }

  lemma CalmMakeFloatingIP(w: World, lb: LoadBalancer, svc: Service, portID: string)
    requires WF(w) && w.script == [] && portID != "" && Unbound(w, portID)
    ensures NoTrouble(w, MakeFloatingIP(w, lb, svc, portID).w)
  {
    hide WF, Evolves, CreateFloatingIP, RecordFloatingIP, SetCondition, Unbound;
    var sc := Scope({}, {}, {}, {OwnerOf(svc)}, false);
    var c := CreateFloatingIP(w, OwnerOf(svc), portID);
    CalmCreateFloatingIP(w, OwnerOf(svc), portID);
    CreateFloatingIPEvolves(w, OwnerOf(svc), portID, sc);
    EvolvesCalm(w, c.w, sc);
    if c.v.Some? {
      CalmRecord(c.w, lb, svc, c.v.value.id, c.v.value.address, Created, portID);
    }
  }

  lemma CalmCreateOrFind(w: World, lb: LoadBalancer, svc: Service, portID: string)
    requires WF(w) && w.script == [] && portID != ""
    ensures NoTrouble(w, CreateOrFind(w, lb, svc, portID).w)
  {
    hide WF, Evolves, Tick, FindFloatingIP, MakeFloatingIP, RecordFloatingIP, SetCondition, Unbound;
    var none := Scope({}, {}, {}, {}, false);
    var f := FindFloatingIP(w, portID);
    FindFloatingIPFacts(w, portID, none);
    EvolvesCalm(w, f.w, none);
    CalmFind(w, portID);
    match f.v.value {
      case Some(fip) => CalmRecord(f.w, lb, svc, fip.id, fip.address, FoundExisting, portID);
      case None =>
        assert Unbound(f.w, portID) by { NoneIsUnbound(f.w, portID); }
        CalmMakeFloatingIP(f.w, lb, svc, portID);
    }
  }

  lemma CalmFind(w: World, portID: string)
    requires WF(w) && w.script == []
    ensures FindFloatingIP(w, portID).v.Some? && NoTrouble(w, FindFloatingIP(w, portID).w)
  {
    hide WF, BoundTo, FloatingIPList;
  }

  lemma NoneIsUnbound(w: World, portID: string)
    requires forall id :: id in w.cloud.fips ==> w.cloud.fips[id].portID != portID
    ensures Unbound(w, portID)
  {
  }

  lemma CalmHandle(w: World, lb: LoadBalancer, svc: Service, portID: string)
    requires WF(w) && w.script == [] && portID != ""
    ensures NoTrouble(w, HandleFloatingIP(w, lb, svc, portID).w)
  {
    hide WF, Evolves, CheckFloatingIP, CreateOrFind, AddExternalIP, HasAnnotation, EditAnnotations, WriteService;
    hide WriteStatus;
    var sc := Scope({svc.key}, {}, {}, {OwnerOf(svc)}, false);
    CheckFloatingIPEvolves(w, lb, svc, sc);
    CreateOrFindEvolves(w, lb, svc, portID, sc);
    CalmCreateOrFind(w, lb, svc, portID);
    CalmCheck(w, lb, svc);
    var a := if HasAnnotation(svc, FloatingIPID) then CheckFloatingIP(w, lb, svc) else CreateOrFind(w, lb, svc, portID);
    EvolvesCalm(w, a.w, sc);
    HelpersLog(a.w, svc.key, map[], a.v.address, svc, lb.status, STEPS);
  }

  lemma CalmCheck(w: World, lb: LoadBalancer, svc: Service)
    requires WF(w) && w.script == []
    ensures NoTrouble(w, CheckFloatingIP(w, lb, svc).w)
  {
    hide WF, Evolves, EditAnnotations;
    var t := Tick(w);
    var sc := Scope({}, {}, {}, {}, false);
    TickEvolves(w, sc);
    EvolvesCalm(w, t, sc);
    EditLog(t, svc.key, map[FloatingIPID := ""]);
  }

  lemma CalmProvision(w: World, lb: LoadBalancer, svc: Service, ip: string)
    requires WF(w) && w.script == []
    ensures NoTrouble(w, Provision(w, lb, svc, ip).w)
  {
    hide WF, Evolves, DetectNetwork, EnsurePort, HandleFloatingIP;
    var sc := Scope({svc.key}, {}, {}, {OwnerOf(svc)}, false);
    var d := DetectNetwork(w, lb, ip);
    DetectNetworkEvolves(w, lb, ip, sc);
    EvolvesCalm(w, d.w, sc);
    CalmDetect(w, lb, ip);
    var p := EnsurePort(d.w, d.v.lb, svc, ip);
    EnsurePortEvolves(d.w, d.v.lb, svc, ip, sc);
    EvolvesCalm(d.w, p.w, sc);
    CalmEnsurePort(d.w, d.v.lb, svc, ip);
    if p.v.v == DONE {
      CalmHandle(p.w, p.v.lb, svc, p.v.portID);
    }
  }

  lemma CalmDetect(w: World, lb: LoadBalancer, ip: string)
    requires WF(w) && w.script == []
    ensures NoTrouble(w, DetectNetwork(w, lb, ip).w)
  {
    hide WF, SetCondition;
  }

  lemma CalmProcess(w: World, lb: LoadBalancer, svc: Service, ip: string)
    requires WF(w) && w.script == []
    ensures NoTrouble(w, ProcessService(w, lb, svc, ip).w)
  {
    hide WF, Evolves, Provision, EditAnnotations, WriteService, AddExternalIP, WriteStatus, HasAnnotation;
    var sc := Scope({svc.key}, {}, {}, {OwnerOf(svc)}, false);
    var o := svc.(finalizers := AddFinalizer(svc.finalizers, ServiceFinalizer));
    HelpersLog(w, svc.key, Credentials(lb), "", o, lb.status, STEPS);
    var c := EnsureCredentials(w, svc, lb);
    EnsureCredentialsEvolves(w, svc, lb, sc);
    EvolvesCalm(w, c.w, sc);
    CalmProvision(c.w, lb, svc, ip);
  }

  lemma {:induction false} CalmLoopLog(w: World, svcs: seq<Service>, t: Tally)
    requires WF(w) && w.script == []
    ensures NoTrouble(w, ProvisionAll(w, svcs, t).w)
    decreases |svcs|
  {
    hide WF, Evolves, ProcessService, MatchesClass;
    if svcs != [] {
      var s := svcs[0];
      if !Eligible(s, t.lb.spec.className) {
        CalmLoopLog(w, svcs[1..], t);
      } else {
        var ip := s.status.ingress[0];
        var p := ProcessService(w, t.lb, s, ip);
        var sc := Scope({s.key}, {}, {}, {OwnerOf(s)}, false);
        ProcessServiceEvolves(w, t.lb, s, ip, sc);
        EvolvesCalm(w, p.w, sc);
        CalmProcess(w, t.lb, s, ip);
        CalmLoopLog(p.w, svcs[1..], Tally(p.v.lb, true, t.err || p.v.v.err, t.requeue || p.v.v.requeue));
      }
    }
  }

  // ----- A listing that shows a service without its port -----

  lemma CalmPortPlaced(w: World, owner: Owner, networkID: string, subnetID: string, ip: string) returns (id: string)
    requires Still(w) && w.script == []
    ensures var c := CreatePort(w, owner, networkID, subnetID, ip);
      && c.v == Some(id) && id !in w.log.made && id in c.w.log.made && c.w.log.made[id] == owner
      && MishapsOf(c.w.log, owner) == MishapsOf(w.log, owner)
  {
    hide Tick, Quiet, Fresh, PortName, PortDescription, FloatingIPDescription, TagList, NewID, Valid, ValidCloud;
    hide OneBound;
    TickStill(w);
    var t := Tick(w);
    id := NewID(t.cloud, Next(w).id);
    assert id !in w.log.made;
    var p := PlacePort(t, id, owner, networkID, subnetID, ip);
    hide WF;
    PlacePortEvolves(t, id, owner, networkID, subnetID, ip, Scope({}, {}, {}, {owner}, false));
    assert Still(p) by { hide StoresEvolve, CloudEvolves, TagsReadable, Spares, PlacePort; }
    TickStill(p);
  }

  /** A live port newly made for the owner, with no mishap. */
  ghost predicate MadeFor(a: World, b: World, owner: Owner, id: string) {
    && id !in a.log.made && id in b.log.made && b.log.made[id] == owner && id in b.cloud.ports
    && MishapsOf(b.log, owner) == MishapsOf(a.log, owner)
  }

  /** A copy without a port on record gets one made for it, whatever is stored. */
  lemma UnrecordedPort(w: World, lb: LoadBalancer, svc: Service, ip: string) returns (id: string)
    requires Still(w) && w.script == [] && !HasAnnotation(svc, PortID)
    ensures var p := EnsurePort(w, lb, svc, ip); p.v.v == DONE && MadeFor(w, p.w, OwnerOf(svc), id)
  {
    hide Still, Evolves, CreatePort, EditAnnotations, SetCondition, CheckPort, StraysOf, MishapsOf, Fresh;
    var owner := OwnerOf(svc);
    var c := CreatePort(w, owner, lb.status.networkID, lb.status.subnetID, ip);
    CreatePortStill(w, owner, lb.status.networkID, lb.status.subnetID, ip);
    id := CalmPortPlaced(w, owner, lb.status.networkID, lb.status.subnetID, ip);
    var edits := map[PortID := id];
    CalmUpdates(c.w, svc.key, edits, "", STEPS);
    StillWF(c.w);
    EditLog(c.w, svc.key, edits);
    CurrentEditShows(c.w, svc.key, edits, STEPS);
    var sc := Scope({svc.key}, {}, {}, {}, false);
    EditAnnotationsEvolves(c.w, svc.key, edits, STEPS, sc);
    var u := EditAnnotations(c.w, svc.key, edits, STEPS);
    assert id in u.w.cloud.ports by { CalmCloud(c.w, u.w, sc); }
    assert MishapsOf(Recorded(u.w, owner, id).log, owner) == MishapsOf(u.w.log, owner) by {
      RecordedMishaps(u.w, owner, id);
    }
  }

  lemma RecordedMishaps(w: World, owner: Owner, id: string)
    requires Lives(w, owner) ==> Annotation(w.services.objects[owner.key], PortID) == id
    ensures MishapsOf(Recorded(w, owner, id).log, owner) == MishapsOf(w.log, owner)
  {
  }

  lemma MadeForLasts(a: World, b: World, c: World, sc: Scope, owner: Owner, id: string)
    requires Still(b) && Evolves(b, c, sc) && !sc.deletes && MadeFor(a, b, owner, id) && owner !in sc.owners
    ensures MadeFor(a, c, owner, id)
  {
    hide WF, Fresh, Quiet, TagsReadable, Spares, StoresEvolve, Ages, Unbinds, StraysOf, MishapsOf;
  }

  lemma UnrecordedProvision(w: World, lb: LoadBalancer, svc: Service, ip: string) returns (id: string)
    requires Still(w) && w.script == [] && !HasAnnotation(svc, PortID) && Locatable(w, ip)
    ensures MadeFor(w, Provision(w, lb, svc, ip).w, OwnerOf(svc), id)
  {
    hide Still, Evolves, DetectNetwork, EnsurePort, HandleFloatingIP, MadeFor, Locatable;
    var owner := OwnerOf(svc);
    var sc := Scope({svc.key}, {}, {}, {owner}, false);
    var d := DetectNetwork(w, lb, ip);
    DetectStill(w, lb, ip);
    id := UnrecordedPort(d.w, d.v.lb, svc, ip);
    var p := EnsurePort(d.w, d.v.lb, svc, ip);
    StillWF(d.w);
    EnsurePortEvolves(d.w, d.v.lb, svc, ip, sc);
    EvolvesStill(d.w, p.w, sc);
    StillWF(p.w);
    assert MadeFor(w, p.w, owner, id) by { DetectLog(w, lb, ip); SameMade(w, d.w, p.w, owner, id); }
    if lb.spec.createFloatingIP {
      var h := HandleFloatingIP(p.w, p.v.lb, svc, p.v.portID);
      HandleFloatingIPEvolves(p.w, p.v.lb, svc, p.v.portID, sc);
      HandleMishaps(p.w, p.v.lb, svc, p.v.portID);
      FloatingIPKeepsPort(w, p.w, h.w, sc, owner, id);
    }
  }

  lemma FloatingIPKeepsPort(a: World, b: World, c: World, sc: Scope, owner: Owner, id: string)
    requires Still(b) && Evolves(b, c, sc) && !sc.deletes && MadeFor(a, b, owner, id)
    requires MishapsOf(c.log, owner) == MishapsOf(b.log, owner)
    ensures MadeFor(a, c, owner, id)
  {
    hide WF, Fresh, Quiet, TagsReadable, Spares, StoresEvolve, Ages, Unbinds, StraysOf, MishapsOf;
  }

  /** Whatever becomes of a floating IP, it is no mishap with a port. */
  lemma HandleMishaps(w: World, lb: LoadBalancer, svc: Service, portID: string)
    requires WF(w) && portID != ""
    ensures HandleFloatingIP(w, lb, svc, portID).w.log.mishaps == w.log.mishaps
  {
    hide WF, Evolves, CheckFloatingIP, CreateOrFind, AddExternalIP, HasAnnotation, EditAnnotations, WriteService;
    hide WriteStatus;
    var sc := Scope({svc.key}, {}, {}, {OwnerOf(svc)}, false);
    CheckFloatingIPEvolves(w, lb, svc, sc);
    CreateOrFindEvolves(w, lb, svc, portID, sc);
    CheckMishaps(w, lb, svc);
    CreateOrFindMishaps(w, lb, svc, portID);
    var a := if HasAnnotation(svc, FloatingIPID) then CheckFloatingIP(w, lb, svc) else CreateOrFind(w, lb, svc, portID);
    StillFormed(w, a.w, sc);
    HelpersLog(a.w, svc.key, map[], a.v.address, svc, lb.status, STEPS);
  }

  lemma CheckMishaps(w: World, lb: LoadBalancer, svc: Service)
    requires WF(w)
    ensures CheckFloatingIP(w, lb, svc).w.log.mishaps == w.log.mishaps
  {
    hide WF, Evolves, Tick, EditAnnotations;
    var sc := Scope({}, {}, {}, {}, false);
    FaultEvolves(w, sc);
    TickLog(w);
    var g := GetResource(w, FloatingIPKind, Annotation(svc, FloatingIPID));
    StillFormed(w, g.w, sc);
    TickLog(g.w);
    EditLog(g.w, svc.key, map[FloatingIPID := ""]);
  }

  lemma CreateOrFindMishaps(w: World, lb: LoadBalancer, svc: Service, portID: string)
    requires WF(w) && portID != ""
    ensures CreateOrFind(w, lb, svc, portID).w.log.mishaps == w.log.mishaps
  {
    hide WF, Evolves, Tick, FindFloatingIP, CreateFloatingIP, EditAnnotations, SetCondition, Unbound;
    var none, sc := Scope({}, {}, {}, {}, false), Scope({}, {}, {}, {OwnerOf(svc)}, false);
    var f := FindFloatingIP(w, portID);
    FindFloatingIPFacts(w, portID, none);
    FindMishaps(w, portID);
    StillFormed(w, f.w, none);
    match f.v {
      case None =>
      case Some(Some(fip)) => EditLog(f.w, svc.key, map[FloatingIPID := fip.id]);
      case Some(None) =>
        assert Unbound(f.w, portID) by { NoneIsUnbound(f.w, portID); }
        var c := CreateFloatingIP(f.w, OwnerOf(svc), portID);
        CreateFloatingIPEvolves(f.w, OwnerOf(svc), portID, sc);
        CreateFloatingIPMishaps(f.w, OwnerOf(svc), portID);
        StillFormed(f.w, c.w, sc);
        if c.v.Some? {
          EditLog(c.w, svc.key, map[FloatingIPID := c.v.value.id]);
        }
    }
  }

  lemma FindMishaps(w: World, portID: string)
    requires WF(w)
    ensures FindFloatingIP(w, portID).w.log.mishaps == w.log.mishaps
  {
    hide WF, Tick, BoundTo, FloatingIPList;
    TickLog(w);
  }

  lemma CreateFloatingIPMishaps(w: World, owner: Owner, portID: string)
    requires WF(w) && portID != "" && Unbound(w, portID)
    ensures CreateFloatingIP(w, owner, portID).w.log.mishaps == w.log.mishaps
  {
    hide WF, Evolves, Tick, FloatingIPDescription, TagList, NewID, SetTags, AddFloatingIP, Others, Unbound;
    var sc := Scope({}, {}, {}, {owner}, false);
    TickLog(w);
    TickEvolves(w, sc);
    var t := Tick(w);
    StillFormed(w, t, sc);
    var id := NewID(t.cloud, Next(w).id);
    var address := if Next(w).text == "" then id else Next(w).text;
    var f := PlaceFloatingIP(t, id, address, owner, portID);
    assert WF(f) by { PlacedFormed(w, t, id, address, owner, portID); }
    TickLog(f);
  }

  lemma PlacedFormed(w: World, t: World, id: string, address: string, owner: Owner, portID: string)
    requires WF(w) && t == Tick(w) && id != "" && id !in t.cloud.used && portID != "" && Unbound(w, portID)
    ensures WF(PlaceFloatingIP(t, id, address, owner, portID))
  {
    hide WF, Tick, PlaceFloatingIP, Unbound, Evolves, Flow, Moves, Drifts;
    var sc := Scope({}, {}, {}, {owner}, false);
    TickOthers(w);
    if !w.rules.binds {
      OthersUnbound(w, t, portID);
    }
    assert t.rules == w.rules by { OthersFresh(w, t); }
    PlaceFloatingIPEvolves(t, id, address, owner, portID, sc);
    StillFormed(t, PlaceFloatingIP(t, id, address, owner, portID), sc);
  }

  lemma SameMade(a: World, b: World, c: World, owner: Owner, id: string)
    requires a.log.made == b.log.made && a.log.mishaps == b.log.mishaps && MadeFor(b, c, owner, id)
    ensures MadeFor(a, c, owner, id)
  {
  }

  lemma DetectLog(w: World, lb: LoadBalancer, ip: string)
    requires Still(w)
    ensures DetectNetwork(w, lb, ip).w.log.made == w.log.made && DetectNetwork(w, lb, ip).w.log.mishaps == w.log.mishaps
  {
    hide Still, Tick, SetCondition;
    TickStill(w);
  }

  lemma UnrecordedProcess(w: World, lb: LoadBalancer, svc: Service, ip: string) returns (id: string)
    requires Still(w) && w.script == [] && !svc.terminating && ServiceFinalizer in svc.finalizers
    requires !HasAnnotation(svc, PortID) && Locatable(w, ip)
    ensures MadeFor(w, ProcessService(w, lb, svc, ip).w, OwnerOf(svc), id)
  {
    hide Still, Evolves, Provision, EditAnnotations, HasAnnotation, MadeFor, Locatable, AddExternalIP;
    var c := EnsureCredentials(w, svc, lb);
    CalmUpdates(w, svc.key, Credentials(lb), "", STEPS);
    StillWF(w);
    EditLog(w, svc.key, Credentials(lb));
    CredentialsQuiet(w, svc, lb);
    var sc := Scope({svc.key}, {}, {}, {}, false);
    EnsureCredentialsEvolves(w, svc, lb, sc);
    EvolvesCalm(w, c.w, sc);
    Elsewhere(w, c.w, ip);
    id := UnrecordedProvision(c.w, lb, svc, ip);
    SameMade(w, c.w, Provision(c.w, lb, svc, ip).w, OwnerOf(svc), id);
  }

  lemma CredentialsQuiet(w: World, svc: Service, lb: LoadBalancer)
    requires Still(w)
    ensures var c := EnsureCredentials(w, svc, lb);
      Still(c.w) && c.w.texts == w.texts && c.w.cloud.subnets == w.cloud.subnets
  {
    hide WF, Fresh, Quiet, TagsReadable, Spares, StoresEvolve, Ages, Unbinds, KeepsLive, LogGrows, EnsureCredentials;
    EnsureCredentialsEvolves(w, svc, lb, Scope({svc.key}, {}, {}, {}, false));
  }

  /** What a calm turn for another service leaves as it is. */
  lemma TurnKeeps(a: World, b: World, sc: Scope, owner: Owner)
    requires Still(a) && Evolves(a, b, sc) && owner.key !in sc.keys && owner !in sc.owners
    ensures Current(a.services, owner.key) == Current(b.services, owner.key)
    ensures a.cloud.subnets == b.cloud.subnets && a.texts == b.texts
    ensures MishapsOf(a.log, owner) == MishapsOf(b.log, owner)
    ensures forall id :: id in a.log.made ==> id in b.log.made
  {
    hide WF, Fresh, Quiet, TagsReadable, Spares, KeepsFinalizers, KeepsRecords, KeepsStatus, SameOrNew, Ages, Unbinds;
    hide KeepsLive;
    hide StraysOf, MishapsOf, Current;
  }

  /** The loop, over any listing that shows the service so. */
  lemma {:induction false} UnrecordedLoop(w: World, svcs: seq<Service>, t: Tally, svc: Service) returns (id: string)
    requires Still(w) && w.script == [] && svc in svcs
    requires forall i, j :: 0 <= i < j < |svcs| ==> svcs[i].key != svcs[j].key
    requires Provisions(svc, t.lb.spec.className) && !HasAnnotation(svc, PortID) && Locatable(w, svc.status.ingress[0])
    ensures MadeFor(w, ProvisionAll(w, svcs, t).w, OwnerOf(svc), id)
    decreases |svcs|
  {
    hide Still, Evolves, ProcessService, MatchesClass, HasAnnotation, Locatable, Current, MishapsOf;
    var x, rest := svcs[0], svcs[1..];
    StillWF(w);
    if !Eligible(x, t.lb.spec.className) {
      id := UnrecordedLoop(w, rest, t, svc);
    } else {
      var ip := x.status.ingress[0];
      var p := ProcessService(w, t.lb, x, ip);
      var sc := ProvisionScope([x], t.lb.spec.className);
      assert x in [x];
      ProcessServiceEvolves(w, t.lb, x, ip, sc);
      EvolvesStill(w, p.w, sc);
      var u := Tally(p.v.lb, true, t.err || p.v.v.err, t.requeue || p.v.v.requeue);
      if x == svc {
        id := UnrecordedProcess(w, t.lb, svc, ip);
        StillWF(p.w);
        var wide := ProvisionScope(rest, t.lb.spec.className);
        ProvisionAllEvolves(p.w, rest, u, wide);
        assert OwnerOf(svc) !in wide.owners by { assert forall s :: s in rest ==> s.key != svc.key; }
        MadeForLasts(w, p.w, ProvisionAll(p.w, rest, u).w, wide, OwnerOf(svc), id);
      } else {
        assert svc.key != x.key by { var i :| 0 <= i < |svcs| && svcs[i] == svc; }
        TurnKeeps(w, p.w, sc, OwnerOf(svc));
        Elsewhere(w, p.w, svc.status.ingress[0]);
        id := UnrecordedLoop(p.w, rest, u, svc);
      }
    }
  }

  lemma Elsewhere(a: World, b: World, ip: string)
    requires Locatable(a, ip) && a.cloud.subnets == b.cloud.subnets && a.texts == b.texts
    ensures Locatable(b, ip)
  {
  }

  lemma QuietTick(w: World)
    requires w.script != [] && w.script[0].others == []
    ensures Tick(w) == w.(script := w.script[1..], time := w.time + 1)
  {
  }

  /** The three calls before the loop of a pass whose listing lags. */
  function LaggingListing(view: View): seq<Turn> {
    [CALM, CALM, CALM.(view := view)]
  }

  /** Where the loop of such a pass starts: nothing is stored differently. */
  lemma StaleStart(w: World, k: Key, view: View) returns (v: World)
    requires WF(w) && w.script == LaggingListing(view) && !IsServiceRequest(k.name)
    requires k in w.lbs.objects && !w.lbs.objects[k].terminating && LoadBalancerFinalizer in w.lbs.objects[k].finalizers
    ensures Still(v) && Later(w, v)
    ensures var p := ProvisionAll(v, Listing(w.services, w.services.names, view),
      Tally(w.lbs.objects[k], false, false, false));
      Reconcile(w, k) == Conclude(p.w, p.v)
  {
    hide WF, Tick, ProvisionAll, Conclude, Listing, IsServiceRequest, HandleDeletion, WriteLB;
    QuietTick(w);
    var a := Tick(w);
    assert a.script == [CALM, CALM.(view := view)];
    QuietTick(a);
    var b := NewClient(a, w.lbs.objects[k].spec.secret).w;
    assert b.script == [CALM.(view := view)];
    QuietTick(b);
    v := Tick(b);
    assert v.script == [];
    assert Still(v) by { SameFormed(w, v); }
  }

  /** The script is used up, and nothing is noted but credentials that were tried. */
  predicate Later(a: World, b: World) {
    b == a.(script := [], time := b.time, log := a.log.(asked := b.log.asked))
  }

  lemma SameFormed(a: World, b: World)
    requires WF(a) && Later(a, b)
    ensures Still(b)
  {
    hide Valid, ValidCloud, Marked, OneBound;
  }

  /** A pass whose listing lags, over a load balancer that it provisions for. */
  ghost predicate LaggingPass(w: World, k: Key, view: View) {
    && WF(w) && w.script == LaggingListing(view) && !IsServiceRequest(k.name)
    && k in w.lbs.objects && !w.lbs.objects[k].terminating && LoadBalancerFinalizer in w.lbs.objects[k].finalizers
  }

  /** The listing shows the service as eligible, with the finalizer and without a port on record. */
  ghost predicate ShowsUnrecorded(w: World, k: Key, view: View, svc: Service)
    requires k in w.lbs.objects
  {
    && svc in Listing(w.services, w.services.names, view)
    && Provisions(svc, w.lbs.objects[k].spec.className) && !HasAnnotation(svc, PortID)
    && Locatable(w, svc.status.ingress[0])
  }

  /** Such a pass from its loop on. */
  lemma LaggingPassLoops(w: World, k: Key, view: View) returns (v: World, p: World, svcs: seq<Service>, t: Tally)
    requires LaggingPass(w, k, view)
    ensures Later(w, v) && Still(v) && Still(p) && p.script == []
    ensures svcs == Listing(w.services, w.services.names, view) && t == Tally(w.lbs.objects[k], false, false, false)
    ensures p == ProvisionAll(v, svcs, t).w && Evolves(v, p, ProvisionScope(svcs, t.lb.spec.className))
    ensures var r := Reconcile(w, k).w;
      Evolves(p, r, Scope({}, {}, {t.lb.key}, {}, false)) && r.log == p.log && NoTrouble(w, r)
  {
    hide Still, Evolves, ProvisionAll, WriteStatus, SetCondition, Listing, Reconcile, ProvisionScope;
    hide EditAnnotations, AddExternalIP, WriteService;
    svcs, t := Listing(w.services, w.services.names, view), Tally(w.lbs.objects[k], false, false, false);
    v := StaleStart(w, k, view);
    StillWF(v);
    CalmLoopLog(v, svcs, t);
    var done := ProvisionAll(v, svcs, t);
    p := done.w;
    var scope := ProvisionScope(svcs, t.lb.spec.className);
    assert Evolves(v, p, scope) && done.v.lb.key == t.lb.key by { ScopeFits(v, svcs, t); }
    EvolvesStill(v, p, scope);
    StillWF(p);
    var lb := Judge(p, done.v);
    HelpersLog(p, lb.key, map[], "",
      Object(k, 0, 0, false, [], map[], ServiceSpec(OtherType, None, [], ""), ServiceStatus([])), lb.status, STEPS);
    WriteStatusEvolves(p, lb.key, lb.status, STEPS, Scope({}, {}, {t.lb.key}, {}, false));
  }

  lemma ScopeFits(w: World, svcs: seq<Service>, t: Tally)
    requires WF(w)
    ensures var p := ProvisionAll(w, svcs, t);
      Evolves(w, p.w, ProvisionScope(svcs, t.lb.spec.className)) && p.v.lb.key == t.lb.key
  {
    hide WF, Evolves, ProvisionAll, Provisions;
    ProvisionAllEvolves(w, svcs, t, ProvisionScope(svcs, t.lb.spec.className));
  }

  lemma LaggingPassMakes(w: World, k: Key, view: View, svc: Service) returns (id: string)
    requires LaggingPass(w, k, view) && ShowsUnrecorded(w, k, view, svc)
    ensures var r := Reconcile(w, k).w; MadeFor(w, r, OwnerOf(svc), id) && Kept(w, r) && !Troubled(w, r)
  {
    hide Still, Evolves, ProvisionAll, Listing, Reconcile, MatchesClass, HasAnnotation, Locatable, MadeFor, Kept;
    var v, p, svcs, t := LaggingPassLoops(w, k, view);
    var r := Reconcile(w, k).w;
    Elsewhere(w, v, svc.status.ingress[0]);
    ListingOnce(w, view);
    id := UnrecordedLoop(v, svcs, t, svc);
    SameMade(w, v, p, OwnerOf(svc), id);
    var none := Scope({}, {}, {t.lb.key}, {}, false);
    MadeForLasts(w, p, r, none, OwnerOf(svc), id);
    KeptSame(w, v);
    OnlyAdds(v, p, ProvisionScope(svcs, t.lb.spec.className));
    OnlyAdds(p, r, none);
    KeptAcross(w, v, p);
    KeptAcross(w, p, r);
  }

  /** No service is added, nothing is deleted or forgotten, and no finalizer that is guarded goes. */
  ghost predicate Kept(a: World, b: World) {
    && b.services.objects.Keys <= a.services.objects.Keys && KeepsLive(a.cloud, b.cloud) && a.rules == b.rules
    && (forall x :: x in a.log.made ==> x in b.log.made && b.log.made[x] == a.log.made[x])
    && (Guarded(a) ==> forall o :: Owned(a, o) ==> Owned(b, o))
  }

  lemma KeptSame(a: World, b: World)
    requires Later(a, b)
    ensures Kept(a, b)
  {
  }

  lemma OnlyAdds(a: World, b: World, sc: Scope)
    requires Still(a) && Evolves(a, b, sc) && !sc.deletes && sc.lost == {}
    ensures Kept(a, b)
  {
    hide WF, Fresh, Quiet, TagsReadable, Spares, KeepsRecords, KeepsStatus, SameOrNew, Ages, Unbinds, KeepsLive;
    hide StraysOf, MishapsOf, Current;
  }

  lemma KeptAcross(a: World, b: World, c: World)
    requires Kept(a, b) && Kept(b, c)
    ensures Kept(a, c)
  {
    hide Owned;
  }

  lemma ListingOnce(w: World, view: View)
    requires WF(w)
    ensures var svcs := Listing(w.services, w.services.names, view);
      forall i, j :: 0 <= i < j < |svcs| ==> svcs[i].key != svcs[j].key
  {
    hide Listing, ValidCloud, Marked, OneBound, Known;
    ListingKnown(w.services, w.services.names, view);
  }

  /** The exception in the result on orphans is needed.  Take a pass in which every call succeeds and
      nobody interferes, but whose listing is old enough to show a service that is gone, as eligible,
      with the finalizer and without a port on record: it makes a port for that service, which is an
      orphan, and no call has gone wrong. */
  lemma StaleListingOrphans(w: World, k: Key, view: View, svc: Service) returns (id: string)
    requires LaggingPass(w, k, view) && ShowsUnrecorded(w, k, view, svc) && svc.key !in w.services.objects
    ensures var r := Reconcile(w, k).w;
      Orphan(r, id) && !Orphan(w, id) && !Troubled(w, r) && r.log.made[id] == OwnerOf(svc)
  {
    hide LaggingPass, ShowsUnrecorded, Reconcile;
    id := LaggingPassMakes(w, k, view, svc);
  }

  /** So is the condition in the result on ports.  If the listing of such a pass shows a service that is
      stored and held without the port that was made for it, the service ends up with two live ports,
      and there was no mishap. */
  lemma StaleRecordSecondPort(w: World, k: Key, view: View, svc: Service, first: string) returns (id: string)
    requires LaggingPass(w, k, view) && ShowsUnrecorded(w, k, view, svc)
    requires first in w.cloud.ports && first in w.log.made && w.log.made[first] == OwnerOf(svc)
    requires Guarded(w) && Owned(w, OwnerOf(svc))
    ensures var r := Reconcile(w, k).w;
      && Lives(r, OwnerOf(svc)) && id != first && {first, id} <= PortsOf(r, OwnerOf(svc))
      && MishapsOf(r.log, OwnerOf(svc)) == MishapsOf(w.log, OwnerOf(svc))
  {
    hide LaggingPass, ShowsUnrecorded, Reconcile, MishapsOf;
    id := LaggingPassMakes(w, k, view, svc);
  }

  // ----- An opening read that shows no network ids -----

  /** Provisioning keeps the network ids in memory or sets those of the subnet of the address. */
  lemma ProcessIds(w: World, lb: LoadBalancer, svc: Service, ip: string, x: Subnet)
    requires Still(w) && ip in w.texts.addresses
    requires FirstMatch(w.texts, w.cloud.subnets, w.texts.addresses[ip]) == Some(x)
    ensures var ids := NetworkIDs(ProcessService(w, lb, svc, ip).v.lb.status);
      ids == NetworkIDs(lb.status) || ids == (x.networkID, x.id)
  {
    hide Still, WriteService, EditAnnotations, EnsurePort, HandleFloatingIP, HasAnnotation, DetectNetwork;
    var c := EnsureCredentials(w, svc, lb);
    if ServiceFinalizer in svc.finalizers && c.v == DONE {
      assert Still(c.w) && c.w.texts == w.texts && c.w.cloud.subnets == w.cloud.subnets by {
        CredentialsQuiet(w, svc, lb);
      }
      DetectIds(c.w, lb, ip, x);
      var d := DetectNetwork(c.w, lb, ip);
      EnsurePortNetwork(d.w, d.v.lb, svc, ip);
      var p := EnsurePort(d.w, d.v.lb, svc, ip);
      HandleFloatingIPNetwork(p.w, p.v.lb, svc, p.v.portID);
    }
  }

  lemma DetectIds(w: World, lb: LoadBalancer, ip: string, x: Subnet)
    requires Still(w) && ip in w.texts.addresses
    requires FirstMatch(w.texts, w.cloud.subnets, w.texts.addresses[ip]) == Some(x)
    ensures var ids := NetworkIDs(DetectNetwork(w, lb, ip).v.lb.status);
      ids == NetworkIDs(lb.status) || ids == (x.networkID, x.id)
  {
    hide Still, Tick, SetCondition, FirstMatch;
    TickStill(w);
  }

  /** Every eligible service's address lies in this subnet, first of all. */
  ghost predicate AllIn(w: World, svcs: seq<Service>, className: string, x: Subnet) {
    forall s :: s in svcs && Eligible(s, className) ==>
      && s.status.ingress[0] in w.texts.addresses
      && FirstMatch(w.texts, w.cloud.subnets, w.texts.addresses[s.status.ingress[0]]) == Some(x)
  }

  lemma {:induction false} LoopIds(w: World, svcs: seq<Service>, t: Tally, x: Subnet)
    requires Still(w) && AllIn(w, svcs, t.lb.spec.className, x)
    ensures var ids := NetworkIDs(ProvisionAll(w, svcs, t).v.lb.status);
      ids == NetworkIDs(t.lb.status) || ids == (x.networkID, x.id)
    decreases |svcs|
  {
    hide Still, Evolves, ProcessService, MatchesClass, FirstMatch;
    if svcs != [] {
      var s, rest := svcs[0], svcs[1..];
      if !Eligible(s, t.lb.spec.className) {
        LoopIds(w, rest, t, x);
      } else {
        var ip := s.status.ingress[0];
        assert s in svcs;
        var p := ProcessService(w, t.lb, s, ip);
        ProcessIds(w, t.lb, s, ip, x);
        var sc := Scope({s.key}, {}, {}, {OwnerOf(s)}, false);
        StillWF(w);
        ProcessServiceEvolves(w, t.lb, s, ip, sc);
        EvolvesStill(w, p.w, sc);
        assert AllIn(p.w, rest, t.lb.spec.className, x) by { CalmCloud(w, p.w, sc); hide KeepsLive, Ages; }
        LoopIds(p.w, rest, Tally(p.v.lb, true, t.err || p.v.v.err, t.requeue || p.v.v.requeue), x);
      }
    }
  }

  /** The services are ready for their port, and their addresses lie in this subnet. */
  ghost predicate Placed(w: World, spec: LBSpec, x: Subnet) {
    && Suits(w, spec, 3) && Wanted(w, spec.className)
    && forall s :: s in w.services.objects && Eligible(w.services.objects[s], spec.className) ==>
         var ip := w.services.objects[s].status.ingress[0];
         ip in w.texts.addresses && FirstMatch(w.texts, w.cloud.subnets, w.texts.addresses[ip]) == Some(x)
  }

  /** A calm provisioning pass from a copy without ids stores those of the subnet. */
  lemma PassStoresIds(w: World, lb: LoadBalancer, x: Subnet)
    requires Still(w) && w.script == [] && Placed(w, lb.spec, x) && !NetworkKnown(lb)
    requires lb.key in w.lbs.objects && !w.lbs.objects[lb.key].terminating
    ensures var s := ReconcileLive(w, lb).w.lbs.objects;
      lb.key in s && s[lb.key].uid == w.lbs.objects[lb.key].uid && NetworkIDs(s[lb.key].status) == (x.networkID, x.id)
  {
    hide Still, ProvisionAll, Conclude, ReconcileLive, MatchesClass, Smooth, Rank, FirstMatch, Outcome, Suits;
    hide KeepsWants, SetCondition;
    var v, svcs := CalmLiveStart(w, lb, 3);
    var t := Tally(lb, false, false, false);
    LoopSuits(v, svcs, t, 3);
    var p := ProvisionAll(v, svcs, t);
    assert AllIn(v, svcs, lb.spec.className, x) by {
      forall s | s in svcs && Eligible(s, lb.spec.className)
        ensures s.status.ingress[0] in v.texts.addresses
        ensures FirstMatch(v.texts, v.cloud.subnets, v.texts.addresses[s.status.ingress[0]]) == Some(x)
      {
        assert w.services.objects[s.key] == s;
      }
    }
    LoopIds(v, svcs, t, x);
    assert Current(v.lbs, lb.key) == Current(p.w.lbs, lb.key);
    hide Eligible, Manageable, Listed, AllIn;
    ConcludeCalm(p.w, p.v, p.v.processed);
  }

  /** The exception in the result on network ids is needed.  Take a pass in which every call succeeds
      and nobody interferes, but whose opening read is old enough to show the load balancer without
      ids: whatever ids are stored, it replaces them by those of the subnet its services are in now. */
  lemma StaleReadReplacesIds(w: World, k: Key, version: nat, x: Subnet)
    requires WF(w) && w.script == [CALM.(view := map[k := AsOf(version)])] && !IsServiceRequest(k.name)
    requires k in w.lbs.objects && !w.lbs.objects[k].terminating && version in w.lbs.history
    requires var shown := w.lbs.history[version];
      && shown.key == k && !shown.terminating && LoadBalancerFinalizer in shown.finalizers && !NetworkKnown(shown)
      && Placed(w.(script := []), shown.spec, x)
    ensures var s := Reconcile(w, k).w.lbs.objects;
      k in s && s[k].uid == w.lbs.objects[k].uid && NetworkIDs(s[k].status) == (x.networkID, x.id)
  {
    hide WF, Tick, ReconcileLive, HandleDeletion, WriteLB, IsServiceRequest, Placed;
    QuietTick(w);
    var v := Tick(w);
    assert v.script == [];
    SameFormed(w, v);
    assert Placed(v, w.lbs.history[version].spec, x) by {
      SamePlaced(w.(script := []), v, w.lbs.history[version].spec, x);
    }
    PassStoresIds(v, w.lbs.history[version], x);
  }

  lemma SamePlaced(a: World, b: World, spec: LBSpec, x: Subnet)
    requires Placed(a, spec, x) && b == a.(time := b.time) && Still(b)
    ensures Placed(b, spec, x)
  {
    hide Rank, FirstMatch, MatchesClass;
    hide WF, Quiet, Fresh;
  }
}
