/** What a cleanup and a finalization achieve, and what they leave behind when calls fail. */
module Teardown {
  import opened Kube
  import opened Cloud
  import opened Selection
  import opened Worlds
  import opened Calls
  import opened Retry
  import opened Operator
  import opened Evolution
  import opened Passes

  // ----- The helpers leave no notes -----

  lemma TickLog(w: World)
    requires WF(w)
    ensures Tick(w).log == w.log
  {
    hide WF, Tick;
    TickOthers(w);
  }

  lemma {:induction false} EditAnnotationsLog(w: World, k: Key, edits: Annotations, n: nat)
    requires WF(w)
    ensures EditAnnotations(w, k, edits, n).w.log == w.log
    decreases n
  {
    hide WF, Tick, Others, Flow, StoresEvolve, CloudEvolves, Update, Read;
    if n > 0 {
      var got := GetService(w, k);
      var sc := Scope({k}, {}, {}, {}, false);
      TickLog(w);
      GetServiceFacts(w, k, sc);
      match got.v {
        case Failed => EditAnnotationsLog(got.w, k, edits, n - 1);
        case Missing =>
        case Found(o) =>
          var e := o.(annotations := o.annotations + edits);
          TickLog(got.w);
          UpdateServiceEvolves(got.w, e, o, sc);
          EditAnnotationsLog(UpdateService(got.w, e).w, k, edits, n - 1);
      }
    }
  }

  // ----- Deletions -----

  /** A deletion reports success exactly when no call went wrong, and then the resource is gone. */
  lemma DeleteResourceFacts(w: World, kind: Kind, id: string)
    requires WF(w)
    ensures var d := DeleteResource(w, kind, id);
      && w.log.faults <= d.w.log.faults
      && (d.v <==> d.w.log.faults == w.log.faults)
      && (d.v ==> !Live(d.w.cloud, kind, id))
  {
    hide WF, Tick, Others, Take;
    TickOthers(w);
    TickLog(w);
    var g := GetResource(w, kind, id);
    if g.v.Some? && g.v.value {
      TickOthers(g.w);
      TickLog(g.w);
      TickLog(Tick(g.w));
      TakeNotes(Tick(Tick(g.w)), kind, id);
    }
  }

  lemma {:induction false} DeleteAllFacts(w: World, kind: Kind, ids: seq<string>, watched: string)
    requires WF(w) && forall id :: id in ids ==> id in w.cloud.used
    ensures var d := DeleteAll(w, kind, ids, watched);
      && w.log.faults <= d.w.log.faults
      && (d.v.failed <==> d.w.log.faults > w.log.faults)
      && (d.v.hit ==> watched in ids && !Live(d.w.cloud, kind, watched))
      && (!d.v.failed ==> (watched in ids ==> d.v.hit) && forall id :: id in ids ==> !Live(d.w.cloud, kind, id))
    decreases |ids|
  {
    hide WF, Flow, StoresEvolve, LogGrows, KeepsLive, Unbinds, DeleteResource;
    if ids != [] {
      var sc := Scope({}, {}, {}, {}, true);
      var d := DeleteResource(w, kind, ids[0]);
      DeleteResourceFacts(w, kind, ids[0]);
      DeleteResourceEvolves(w, kind, ids[0], sc);
      UsedGrows(w, d.w, sc);
      DeleteAllFacts(d.w, kind, ids[1..], watched);
      DeleteAllEvolves(d.w, kind, ids[1..], watched, sc);
    }
  }

  // ----- Cleanup -----

  ghost predicate ClearedPorts(c: Neutron, used: seq<string>, svc: Service) {
    forall id :: id in c.ports && id in used ==> !SelectsPort(c.ports[id], svc.key, Annotation(svc, PortID))
  }

  ghost predicate ClearedFloatingIPs(c: Neutron, used: seq<string>, svc: Service, binds: bool) {
    forall id :: id in c.fips && id in used ==>
      && id != Annotation(svc, FloatingIPID)
      && !DescribedFor(c.fips[id].description, svc.key)
      && (binds || Annotation(svc, PortID) == "" || c.fips[id].portID != Annotation(svc, PortID))
  }

  /** Of the ids in `used`, none is live and selected for the service.  When the others bind
      floating IPs, one of theirs may have come to the service's port in the meantime. */
  ghost predicate Cleared(c: Neutron, used: seq<string>, svc: Service, binds: bool) {
    ClearedPorts(c, used, svc) && ClearedFloatingIPs(c, used, svc, binds)
  }

  /** Once cleared, always cleared: nothing gone comes back and no text changes. */
  lemma ClearedLasts(a: World, b: World, used: seq<string>, svc: Service, sc: Scope)
    requires WF(a) && WF(b) && Evolves(a, b, sc) && used <= a.cloud.used
    ensures ClearedPorts(a.cloud, used, svc) ==> ClearedPorts(b.cloud, used, svc)
    ensures ClearedFloatingIPs(a.cloud, used, svc, a.rules.binds) ==>
      ClearedFloatingIPs(b.cloud, used, svc, b.rules.binds)
  {
    hide Valid, Marked, OneBound, StoresEvolve, LogGrows, KeepsLive, DescribedFor, PortName, Fresh, Quiet, TagsReadable;
    hide Spares;
    assert forall id :: id in used ==> id in a.cloud.used;
  }

  ghost predicate ListsFloatingIPs(c: Neutron, fips: seq<FloatingIP>) {
    forall f :: f in fips <==> f.id in c.fips && c.fips[f.id] == f
  }

  ghost predicate ListsPorts(c: Neutron, ports: seq<Port>) {
    forall p :: p in ports <==> p.id in c.ports && c.ports[p.id] == p
  }

  lemma ListFloatingIPsFacts(w: World, sc: Scope)
    requires WF(w)
    ensures var l := ListFloatingIPs(w); Evolves(w, l.w, sc) && (l.v.None? <==> l.w.log.faults > w.log.faults)
    ensures var l := ListFloatingIPs(w); l.v.Some? ==> l.w.log == w.log && ListsFloatingIPs(l.w.cloud, l.v.value)
    ensures var l := ListPorts(w); Evolves(w, l.w, sc) && (l.v.None? <==> l.w.log.faults > w.log.faults)
    ensures var l := ListPorts(w); l.v.Some? ==> l.w.log == w.log && ListsPorts(l.w.cloud, l.v.value)
  {
    hide Tick, Others, Flow, StoresEvolve, CloudEvolves, Valid, Marked, OneBound, FloatingIPList, PortList;
    FaultEvolves(w, sc);
    TickLog(w);
    FloatingIPListExact(Tick(w).cloud, Tick(w).cloud.used);
    PortListExact(Tick(w).cloud, Tick(w).cloud.used);
  }

  lemma IDsExact(fs: seq<FloatingIP>, ps: seq<Port>)
    ensures forall id :: id in FloatingIPIDs(fs) <==> exists f :: f in fs && f.id == id
    ensures forall id :: id in PortIDs(ps) <==> exists p :: p in ps && p.id == id
  {
    forall f | f in fs
      ensures f.id in FloatingIPIDs(fs)
    {
      var i :| 0 <= i < |fs| && fs[i] == f;
      assert FloatingIPIDs(fs)[i] == f.id;
    }
    forall p | p in ps
      ensures p.id in PortIDs(ps)
    {
      var i :| 0 <= i < |ps| && ps[i] == p;
      assert PortIDs(ps)[i] == p.id;
    }
  }

  /** The ids a cleanup goes through are those of the selected resources in its listings. */
  lemma SelectedIDs(fips: seq<FloatingIP>, ports: seq<Port>, k: Key, portID: string, fipID: string)
    ensures forall id :: id in FloatingIPIDs(FloatingIPsFor(fips, k, portID, fipID))
              <==> exists f :: f in fips && f.id == id && SelectsFloatingIP(f, k, portID, fipID)
    ensures forall id :: id in PortIDs(PortsFor(ports, k, portID))
              <==> exists p :: p in ports && p.id == id && SelectsPort(p, k, portID)
  {
    hide SelectsFloatingIP, SelectsPort, FloatingIPsFor, PortsFor, FloatingIPIDs, PortIDs;
    FloatingIPsForExact(fips, k, portID, fipID);
    PortsForExact(ports, k, portID);
    IDsExact(FloatingIPsFor(fips, k, portID, fipID), PortsFor(ports, k, portID));
  }

  function SelectedFloatingIPs(svc: Service, fips: seq<FloatingIP>): seq<string> {
    FloatingIPIDs(FloatingIPsFor(fips, svc.key, Annotation(svc, PortID), Annotation(svc, FloatingIPID)))
  }

  function SelectedPorts(svc: Service, ports: seq<Port>): seq<string> {
    PortIDs(PortsFor(ports, svc.key, Annotation(svc, PortID)))
  }

  /** When everything selected in a listing is gone, the service is cleared. */
  lemma PortsGone(a: World, b: World, svc: Service, ports: seq<Port>, used: seq<string>, sc: Scope)
    requires WF(a) && WF(b) && Evolves(a, b, sc) && used <= a.cloud.used && ListsPorts(a.cloud, ports)
    requires forall id :: id in SelectedPorts(svc, ports) ==> !Live(b.cloud, PortKind, id)
    ensures ClearedPorts(b.cloud, used, svc)
  {
    hide Valid, Marked, OneBound, StoresEvolve, LogGrows, KeepsLive, DescribedFor, PortName, Fresh, Quiet, TagsReadable;
    hide Spares;
    hide PortsFor, PortIDs;
    var portID := Annotation(svc, PortID);
    SelectedIDs([], ports, svc.key, portID, "");
    forall id | id in b.cloud.ports && id in used
      ensures !SelectsPort(b.cloud.ports[id], svc.key, portID)
    {
      assert id in a.cloud.used;
      var p := a.cloud.ports[id];
      assert p in ports;
      assert SelectsPort(b.cloud.ports[id], svc.key, portID) == SelectsPort(p, svc.key, portID);
      assert SelectsPort(p, svc.key, portID) ==> id in SelectedPorts(svc, ports);
    }
  }

  lemma FloatingIPsGone(a: World, b: World, svc: Service, fips: seq<FloatingIP>, used: seq<string>, sc: Scope)
    requires WF(a) && WF(b) && Evolves(a, b, sc) && used <= a.cloud.used && ListsFloatingIPs(a.cloud, fips)
    requires forall id :: id in SelectedFloatingIPs(svc, fips) ==> !Live(b.cloud, FloatingIPKind, id)
    ensures ClearedFloatingIPs(b.cloud, used, svc, b.rules.binds)
  {
    hide Valid, Marked, OneBound, StoresEvolve, LogGrows, KeepsLive, DescribedFor, PortName, Fresh, Quiet, TagsReadable;
    hide Spares;
    hide FloatingIPsFor, FloatingIPIDs;
    var portID, fipID := Annotation(svc, PortID), Annotation(svc, FloatingIPID);
    SelectedIDs(fips, [], svc.key, portID, fipID);
    forall id | id in b.cloud.fips && id in used
      ensures id != fipID && !DescribedFor(b.cloud.fips[id].description, svc.key)
      ensures b.rules.binds || portID == "" || b.cloud.fips[id].portID != portID
    {
      assert id in a.cloud.used;
      var f := a.cloud.fips[id];
      assert f in fips;
      assert SelectsFloatingIP(f, svc.key, portID, fipID) ==> id in SelectedFloatingIPs(svc, fips);
    }
  }

  lemma SelectedUsed(a: World, svc: Service, fips: seq<FloatingIP>, ports: seq<Port>)
    requires WF(a)
    ensures ListsFloatingIPs(a.cloud, fips) ==> forall id :: id in SelectedFloatingIPs(svc, fips) ==> id in a.cloud.used
    ensures ListsPorts(a.cloud, ports) ==> forall id :: id in SelectedPorts(svc, ports) ==> id in a.cloud.used
  {
    hide Valid, Marked, OneBound, SelectsFloatingIP, SelectsPort, FloatingIPsFor, PortsFor, FloatingIPIDs, PortIDs;
    SelectedIDs(fips, ports, svc.key, Annotation(svc, PortID), Annotation(svc, FloatingIPID));
  }

  /** The deletions of a cleanup: nothing fails exactly when no fault is noted, and then the
      service is cleared; an annotation is only marked for blanking when its resource is gone. */
  lemma SweepsFacts(a: World, w: World, svc: Service, fips: seq<FloatingIP>, ports: seq<Port>, used: seq<string>)
    requires WF(a) && WF(w) && Evolves(a, w, Scope({}, {}, {}, {}, true)) && used <= a.cloud.used
    requires ListsFloatingIPs(a.cloud, fips) && ListsPorts(w.cloud, ports)
    ensures var s := Sweeps(w, svc, fips, ports);
      && w.log.faults <= s.w.log.faults
      && (s.v.0.failed || s.v.1.failed <==> s.w.log.faults > w.log.faults)
      && (s.v.0.hit ==>
            Annotation(svc, FloatingIPID) in a.cloud.fips && Annotation(svc, FloatingIPID) !in s.w.cloud.fips)
      && (s.v.1.hit ==> Annotation(svc, PortID) in w.cloud.ports && Annotation(svc, PortID) !in s.w.cloud.ports)
      && (s.w.log.faults == w.log.faults ==> Cleared(s.w.cloud, used, svc, s.w.rules.binds))
  {
    hide Flow, StoresEvolve, LogGrows, KeepsLive, Unbinds, Spares, DeleteAll, Valid, ValidCloud, Marked, OneBound;
    hide FloatingIPsFor, PortsFor, FloatingIPIDs, PortIDs, ClearedFloatingIPs, ClearedPorts, ListsFloatingIPs;
    hide ListsPorts;
    var sc := Scope({}, {}, {}, {}, true);
    var fs, ps := SelectedFloatingIPs(svc, fips), SelectedPorts(svc, ports);
    var portID, fipID := Annotation(svc, PortID), Annotation(svc, FloatingIPID);
    SelectedUsed(a, svc, fips, ports);
    SelectedUsed(w, svc, fips, ports);
    UsedGrows(a, w, sc);
    var f := DeleteAll(w, FloatingIPKind, fs, fipID);
    DeleteAllFacts(w, FloatingIPKind, fs, fipID);
    DeleteAllEvolves(w, FloatingIPKind, fs, fipID, sc);
    EvolvesTransitive(a, w, f.w, sc);
    UsedGrows(w, f.w, sc);
    var p := DeleteAll(f.w, PortKind, ps, portID);
    DeleteAllFacts(f.w, PortKind, ps, portID);
    DeleteAllEvolves(f.w, PortKind, ps, portID, sc);
    EvolvesTransitive(w, f.w, p.w, sc);
    UsedPrefix(a, f.w, sc);
    UsedPrefix(a, w, sc);
    if p.w.log.faults == w.log.faults {
      FloatingIPsGone(a, f.w, svc, fips, used, sc);
      PortsGone(w, p.w, svc, ports, used, sc);
    }
    ClearedLasts(f.w, p.w, used, svc, sc);
    SelectedLive(a, svc, fips, ports);
    SelectedLive(w, svc, fips, ports);
  }

  lemma UsedPrefix(a: World, b: World, sc: Scope)
    requires Evolves(a, b, sc)
    ensures a.cloud.used <= b.cloud.used
  {
    hide Flow, StoresEvolve, LogGrows, KeepsLive, Unbinds, Spares, WF;
  }

  lemma SelectedLive(a: World, svc: Service, fips: seq<FloatingIP>, ports: seq<Port>)
    ensures ListsFloatingIPs(a.cloud, fips) ==> forall id :: id in SelectedFloatingIPs(svc, fips) ==> id in a.cloud.fips
    ensures ListsPorts(a.cloud, ports) ==> forall id :: id in SelectedPorts(svc, ports) ==> id in a.cloud.ports
  {
    hide SelectsFloatingIP, SelectsPort, FloatingIPsFor, PortsFor, FloatingIPIDs, PortIDs;
    SelectedIDs(fips, ports, svc.key, Annotation(svc, PortID), Annotation(svc, FloatingIPID));
  }

  /** A cleanup asks for another pass exactly when a call to the cloud went wrong or the service
      as listed still records a resource.  With no call gone wrong the service is cleared. */
  lemma CleanupFacts(w: World, svc: Service)
    requires WF(w)
    ensures var c := Cleanup(w, svc);
      && w.log.faults <= c.w.log.faults
      && (c.v != DONE <==> c.w.log.faults > w.log.faults || HasResources(svc))
      && (c.v.err ==> c.w.log.faults > w.log.faults)
      && (c.w.log.faults == w.log.faults ==> Cleared(c.w.cloud, w.cloud.used, svc, c.w.rules.binds))
  {
    hide Flow, StoresEvolve, LogGrows, KeepsLive, Unbinds, Spares, Valid, Marked, OneBound, Ages;
    hide ListFloatingIPs, ListPorts, Sweeps, EditAnnotations, Blanks, Cleared, ListsFloatingIPs, ListsPorts;
    var sc := Scope({svc.key}, {}, {}, {}, true);
    var none := Scope({}, {}, {}, {}, true);
    var fips := ListFloatingIPs(w);
    ListFloatingIPsFacts(w, none);
    if fips.v.Some? {
      var ports := ListPorts(fips.w);
      ListFloatingIPsFacts(fips.w, none);
      if ports.v.Some? {
        UsedPrefix(w, fips.w, none);
        SweepsFacts(fips.w, ports.w, svc, fips.v.value, ports.v.value, w.cloud.used);
        var s := Sweeps(ports.w, svc, fips.v.value, ports.v.value);
        SweepsEvolve(ports.w, svc, fips.v.value, ports.v.value, none);
        var edits := Blanks(s.v.0.hit, s.v.1.hit);
        EditAnnotationsLog(s.w, svc.key, edits, STEPS);
        EditAnnotationsEvolves(s.w, svc.key, edits, STEPS, sc);
        var u := EditAnnotations(s.w, svc.key, edits, STEPS);
        UsedPrefix(fips.w, ports.w, none);
        UsedPrefix(ports.w, s.w, none);
        assert Cleared(s.w.cloud, w.cloud.used, svc, s.w.rules.binds) ==>
          Cleared(u.w.cloud, w.cloud.used, svc, u.w.rules.binds) by {
          ClearedStays(s.w, u.w, w.cloud.used, svc, sc);
        }
        BlanksEmpty(s.v.0.hit, s.v.1.hit);
        NoEmptyIDs(fips.w);
        NoEmptyIDs(ports.w);
      }
    }
  }

  lemma ClearedStays(a: World, b: World, used: seq<string>, svc: Service, sc: Scope)
    requires WF(a) && WF(b) && Evolves(a, b, sc) && used <= a.cloud.used
    ensures Cleared(a.cloud, used, svc, a.rules.binds) ==> Cleared(b.cloud, used, svc, b.rules.binds)
  {
    hide ClearedPorts, ClearedFloatingIPs, WF, Evolves;
    ClearedLasts(a, b, used, svc, sc);
  }

  lemma BlanksEmpty(fip: bool, port: bool)
    ensures Blanks(fip, port) == map[] <==> !fip && !port
  {
    assert fip ==> FloatingIPID in Blanks(fip, port);
    assert port ==> PortID in Blanks(fip, port);
  }

  lemma NoEmptyIDs(w: World)
    requires WF(w)
    ensures "" !in w.cloud.ports && "" !in w.cloud.fips
  {
    hide Valid, Marked, OneBound;
  }
}
