/** When a floating IP is made and when one that is there is adopted. */
module Adoption {
  import opened Kube
  import opened Cloud
  import opened Selection
  import opened Worlds
  import opened Calls
  import opened Retry
  import opened Operator
  import opened Evolution
  import opened Passes
  import opened Teardown
  import opened Refinement
  import opened Undisturbed
  import opened Progress
  import opened Truthful

  ghost predicate NoneBound(c: Neutron, portID: string) {
    forall id :: id in c.fips ==> c.fips[id].portID != portID
  }

  /** Whatever fails and whoever interferes: if a floating IP was made, or may have been, then at the
      moment of the lookup none was bound to the port. */
  lemma MadeWhenNoneBound(w: World, lb: LoadBalancer, svc: Service, portID: string)
    requires WF(w) && CreateOrFind(w, lb, svc, portID).w.log.made != w.log.made
    ensures lb.spec.floatingIPNetworkID != "" && NoneBound(Tick(w).cloud, portID)
  {
    hide WF, Evolves, Tick, CreateFloatingIP, EditAnnotations, SetCondition, BoundTo, FloatingIPList;
    var f := FindFloatingIP(w, portID);
    var none := Scope({}, {}, {}, {}, false);
    FindFloatingIPFacts(w, portID, none);
    TickLog(w);
    if f.v.Some? && f.v.value.Some? {
      FaultEvolves(w, none);
      EvolvesValid(w, f.w, none);
      EditAnnotationsLog(f.w, svc.key, map[FloatingIPID := f.v.value.value.id], STEPS);
    }
  }

  lemma EvolvesValid(a: World, b: World, sc: Scope)
    requires Evolves(a, b, sc)
    ensures WF(b)
  {
    hide WF, Flow, StoresEvolve, CloudEvolves, Spares;
  }

  /** A floating IP bound to the port already is adopted: none is made, and success means that the
      service now records one that is bound to its port. */
  lemma AdoptsExisting(w: World, lb: LoadBalancer, svc: Service, portID: string)
    requires Still(w) && svc.key in w.services.objects && !w.services.objects[svc.key].terminating
    requires !NoneBound(w.cloud, portID)
    ensures var r := CreateOrFind(w, lb, svc, portID);
      && r.w.log.made == w.log.made && r.w.cloud == w.cloud
      && (r.v.v == DONE ==>
            && svc.key in r.w.services.objects
            && var id := Annotation(r.w.services.objects[svc.key], FloatingIPID);
               id in w.cloud.fips && w.cloud.fips[id].portID == portID)
  {
    hide Still, Evolves, Tick, EditAnnotations, SetCondition, BoundTo, FloatingIPList, Replace, MakeFloatingIP;
    var f := FindFloatingIP(w, portID);
    StillWF(w);
    FindFloatingIPFacts(w, portID, Scope({}, {}, {}, {}, false));
    FaultStill(w);
    TickLog(w);
    if f.v.Some? && f.v.value.Some? {
      var fip := f.v.value.value;
      var edits := map[FloatingIPID := fip.id];
      var o := w.services.objects[svc.key];
      EditStill(f.w, svc.key, edits, STEPS);
      assert Valid(w.services) by { hide Valid; }
      KeyStored(w, svc.key);
      ReplaceStores(w.services, Annotated(o, edits));
    }
  }

  /** In a calm world exactly one is made when none is bound, also when an earlier one was deleted
      or unbound; so over a run a port may see several, but never two bound to it at a time. */
  lemma MakesWhenNoneBound(w: World, lb: LoadBalancer, svc: Service, portID: string) returns (id: string)
    requires Still(w) && w.script == [] && svc.key in w.services.objects && portID != ""
    requires lb.spec.floatingIPNetworkID != "" && NoneBound(w.cloud, portID)
    ensures var r := CreateOrFind(w, lb, svc, portID);
      && id !in w.cloud.used && r.w.log.made == w.log.made[id := OwnerOf(svc)]
      && id in r.w.cloud.fips && r.w.cloud.fips[id].portID == portID
  {
    hide Still, Evolves, Tick, EditAnnotations, SetCondition, FindFloatingIP, CreateFloatingIP, Replace, Unbound;
    var f := FindFloatingIP(w, portID);
    FindStill(w, portID);
    FoundNone(w, portID);
    var c := CreateFloatingIP(f.w, OwnerOf(svc), portID);
    CreateFloatingIPStill(f.w, OwnerOf(svc), portID);
    id := CalmCreate(f.w, OwnerOf(svc), portID);
    StillWF(c.w);
    EditStill(c.w, svc.key, map[FloatingIPID := c.v.value.id], STEPS);
  }

  lemma FoundNone(w: World, portID: string)
    requires Still(w) && w.script == [] && NoneBound(w.cloud, portID)
    ensures FindFloatingIP(w, portID).v == Some(None) && FindFloatingIP(w, portID).w.log == w.log
  {
    hide Still, Evolves, Tick, BoundTo, FloatingIPList;
    StillWF(w);
    TickStill(w);
    FindFloatingIPFacts(w, portID, Scope({}, {}, {}, {}, false));
    FindStill(w, portID);
  }

  /** The floating IP is the first in the order of the listing that is bound to the port. */
  ghost predicate FirstBound(c: Neutron, ids: seq<string>, portID: string, f: FloatingIP) {
    exists i ::
      && 0 <= i < |ids| && ids[i] in c.fips && c.fips[ids[i]] == f && f.portID == portID
      && forall j :: 0 <= j < i && ids[j] in c.fips ==> c.fips[ids[j]].portID != portID
  }

  lemma {:induction false} BoundInOrder(c: Neutron, ids: seq<string>, portID: string)
    ensures var bound := BoundTo(FloatingIPList(c, ids), portID);
      if bound == [] then forall id :: id in ids && id in c.fips ==> c.fips[id].portID != portID
      else FirstBound(c, ids, portID, bound[0])
  {
    if ids != [] {
      var rest := FloatingIPList(c, ids[1..]);
      BoundInOrder(c, ids[1..], portID);
      if ids[0] in c.fips {
        assert FloatingIPList(c, ids)[0] == c.fips[ids[0]] && FloatingIPList(c, ids)[1..] == rest;
      } else {
        assert FloatingIPList(c, ids) == rest;
      }
      var bound := BoundTo(FloatingIPList(c, ids), portID);
      if ids[0] in c.fips && c.fips[ids[0]].portID == portID {
        assert bound[0] == c.fips[ids[0]];
      } else if bound != [] {
        assert bound == BoundTo(rest, portID);
        var i :| 0 <= i < |ids[1..]| && ids[1..][i] in c.fips && c.fips[ids[1..][i]] == bound[0]
          && bound[0].portID == portID
          && forall j :: 0 <= j < i && ids[1..][j] in c.fips ==> c.fips[ids[1..][j]].portID != portID;
        FirstLater(c, ids, portID, bound[0], i);
      }
    }
  }

  lemma FirstLater(c: Neutron, ids: seq<string>, portID: string, f: FloatingIP, i: nat)
    requires ids != [] && i < |ids[1..]| && ids[1..][i] in c.fips && c.fips[ids[1..][i]] == f && f.portID == portID
    requires forall j :: 0 <= j < i && ids[1..][j] in c.fips ==> c.fips[ids[1..][j]].portID != portID
    requires ids[0] in c.fips ==> c.fips[ids[0]].portID != portID
    ensures FirstBound(c, ids, portID, f)
  {
    forall j | 0 <= j < i + 1 && ids[j] in c.fips ensures c.fips[ids[j]].portID != portID {
      assert j > 0 ==> ids[j] == ids[1..][j - 1];
    }
    assert ids[i + 1] == ids[1..][i];
  }

  /** The lookup by port, when it succeeds, finds the first floating IP listed that is bound to the port,
      and finds none exactly when there is none. */
  lemma FindsFirst(w: World, portID: string)
    requires WF(w) && Ok(w)
    ensures var c, found := Tick(w).cloud, FindFloatingIP(w, portID).v;
      && found.Some?
      && (found.value.None? <==> NoneBound(c, portID))
      && (found.value.Some? ==> FirstBound(c, c.used, portID, found.value.value))
  {
    hide WF, Tick, Others, BoundTo, FloatingIPList;
    TickOthers(w);
    var c := Tick(w).cloud;
    BoundInOrder(c, c.used, portID);
    assert ValidCloud(c) by { FormedCloud(Tick(w)); }
  }

  lemma FormedCloud(w: World)
    requires WF(w)
    ensures ValidCloud(w.cloud)
  {
    hide Valid, ValidCloud, Marked, OneBound;
  }

  lemma CalmCreate(w: World, owner: Owner, portID: string) returns (id: string)
    requires Still(w) && w.script == [] && portID != "" && Unbound(w, portID)
    ensures var c := CreateFloatingIP(w, owner, portID);
      && id !in w.cloud.used && c.w.log.made == w.log.made[id := owner]
      && id in c.w.cloud.fips && c.w.cloud.fips[id].portID == portID
  {
    hide Tick, Quiet, Fresh, WF, FloatingIPDescription, TagList, NewID;
    TickStill(w);
    var t := Tick(w);
    id := NewID(t.cloud, Next(w).id);
    var address := if Next(w).text == "" then id else Next(w).text;
    var f := PlaceFloatingIP(t, id, address, owner, portID);
    PlaceFloatingIPEvolves(t, id, address, owner, portID, Scope({}, {}, {}, {owner}, false));
    assert Still(f) by { hide StoresEvolve, CloudEvolves, TagsReadable, Spares, PlaceFloatingIP; }
    TickStill(f);
  }
}
