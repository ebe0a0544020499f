/** What provisioning makes is what was asked for, and tearing a service down undoes it. */
module RoundTrip {
  import opened Kube
  import opened Cloud
  import opened Selection
  import opened Network
  import opened Tags
  import opened Worlds
  import opened Calls
  import opened Retry
  import opened Operator
  import opened Evolution
  import opened Orphans
  import opened Refinement
  import opened Undisturbed
  import opened Progress
  import opened Truthful
  import opened Convergence
  import opened Dismantling
  import opened Adoption

  // ----- What is made -----

  /** The port a service is to have. */
  function PortOf(w: World, id: string, k: Key, networkID: string, subnetID: string, ip: string): Port {
    Port(id, PortName(k), PortDescription(k), TagList(Owner(k, 0), "ports", w.cluster), networkID, subnetID, ip)
  }

  lemma TagAdded(c: Neutron, p: Port, tags: seq<string>)
    ensures SetTags(AddPort(c, p), PortKind, p.id, tags) == AddPort(c, p.(tags := tags))
  {
    assert SetTags(AddPort(c, p), PortKind, p.id, tags).ports == AddPort(c, p.(tags := tags)).ports;
  }

  lemma TagAddedFloatingIP(c: Neutron, f: FloatingIP, tags: seq<string>)
    ensures SetTags(AddFloatingIP(c, f), FloatingIPKind, f.id, tags) == AddFloatingIP(c, f.(tags := tags))
  {
    assert SetTags(AddFloatingIP(c, f), FloatingIPKind, f.id, tags).fips == AddFloatingIP(c, f.(tags := tags)).fips;
  }

  lemma TagsByKey(owner: Owner, resourceType: string, cluster: string)
    ensures TagList(owner, resourceType, cluster) == TagList(Owner(owner.key, 0), resourceType, cluster)
  {
  }

  /** A calm creation adds exactly the port asked for, with its tags. */
  lemma CalmPortMade(w: World, owner: Owner, networkID: string, subnetID: string, ip: string)
    requires Still(w) && w.script == []
    ensures var c := CreatePort(w, owner, networkID, subnetID, ip);
      && c.v.Some? && c.v.value !in w.cloud.used && c.v.value != ""
      && c.w.cloud == AddPort(w.cloud, PortOf(w, c.v.value, owner.key, networkID, subnetID, ip))
  {
    hide Tick, Quiet, Fresh, PortName, PortDescription, TagList, NewID, WF, SetTags, AddPort;
    TickStill(w);
    var t := Tick(w);
    var id := NewID(t.cloud, Next(w).id);
    var p := PlacePort(t, id, owner, networkID, subnetID, ip);
    PlacePortEvolves(t, id, owner, networkID, subnetID, ip, Scope({}, {}, {}, {owner}, false));
    assert Still(p) by { hide StoresEvolve, CloudEvolves, TagsReadable, Spares, PlacePort; }
    TickStill(p);
    TagAdded(t.cloud, Port(id, PortName(owner.key), PortDescription(owner.key), [], networkID, subnetID, ip),
      TagList(owner, "ports", w.cluster));
    TagsByKey(owner, "ports", w.cluster);
  }

  function FloatingIPOf(w: World, id: string, address: string, k: Key, portID: string): FloatingIP {
    FloatingIP(id, address, portID, FloatingIPDescription(k), TagList(Owner(k, 0), "floatingips", w.cluster))
  }

  lemma CalmFloatingIPMade(w: World, owner: Owner, portID: string)
    requires Still(w) && w.script == [] && portID != "" && Unbound(w, portID)
    ensures var c := CreateFloatingIP(w, owner, portID);
      && c.v.Some? && c.v.value.id !in w.cloud.used && c.v.value.id != ""
      && c.w.cloud == AddFloatingIP(w.cloud, FloatingIPOf(w, c.v.value.id, c.v.value.address, owner.key, portID))
  {
    hide Tick, Quiet, Fresh, FloatingIPDescription, TagList, NewID, WF, SetTags, AddFloatingIP, Unbound;
    TickStill(w);
    var t := Tick(w);
    assert Unbound(t, portID) by { UnboundSame(w, t, portID); }
    var id := NewID(t.cloud, Next(w).id);
    var address := if Next(w).text == "" then id else Next(w).text;
    var f := PlaceFloatingIP(t, id, address, owner, portID);
    PlaceFloatingIPEvolves(t, id, address, owner, portID, Scope({}, {}, {}, {owner}, false));
    assert Still(f) by { hide StoresEvolve, CloudEvolves, TagsReadable, Spares, PlaceFloatingIP; }
    TickStill(f);
    TagAddedFloatingIP(t.cloud, FloatingIP(id, address, portID, FloatingIPDescription(owner.key), []),
      TagList(owner, "floatingips", w.cluster));
    TagsByKey(owner, "floatingips", w.cluster);
  }

  lemma UnboundSame(a: World, b: World, portID: string)
    requires Unbound(a, portID) && a.cloud == b.cloud && a.log == b.log
    ensures Unbound(b, portID)
  {
  }

  /** Detection stores the ids of a listed subnet that contains the address. */
  lemma DetectedContains(w: World, lb: LoadBalancer, ip: string)
    requires Still(w) && !NetworkKnown(lb) && DetectNetwork(w, lb, ip).v.v == DONE
    ensures ip in w.texts.addresses
    ensures var status, found := DetectNetwork(w, lb, ip).v.lb.status,
      FirstMatch(w.texts, w.cloud.subnets, w.texts.addresses[ip]);
      && found.Some? && found.value in w.cloud.subnets && Holds(w.texts, found.value, w.texts.addresses[ip])
      && status.networkID == found.value.networkID && status.subnetID == found.value.id
  {
    hide Tick, Still, FirstMatch, SetCondition, Fault, Holds;
    TickStill(w);
    FirstMatchHolds(w.texts, w.cloud.subnets, w.texts.addresses[ip]);
  }

  /** The credentials written on a service are the load balancer's, so they are the ones a later
      teardown asks for. */
  lemma CredentialsLeadBack(w: World, svc: Service, lb: LoadBalancer)
    requires Still(w) && !svc.terminating && svc.key in w.services.objects && w.services.objects[svc.key] == svc
    requires !(HasAnnotation(svc, CredentialsSecretName) && HasAnnotation(svc, CredentialsSecretNamespace))
    requires EnsureCredentials(w, svc, lb).v == DONE
    ensures var s := EnsureCredentials(w, svc, lb).w.services.objects;
      && svc.key in s
      && SecretRef(Annotation(s[svc.key], CredentialsSecretName), Annotation(s[svc.key], CredentialsSecretNamespace))
        == lb.spec.secret
  {
    hide Still, EditAnnotations, Replace;
    EditStill(w, svc.key, Credentials(lb), STEPS);
    assert Valid(w.services) by { StillWF(w); hide Valid; }
    ReplaceStores(w.services, Annotated(svc, Credentials(lb)));
  }

  // ----- A service without records -----

  /** Nothing in the cloud is selected for the service, and no floating IP is bound to an id that is
      still to be handed out. */
  ghost predicate Untouched(c: Neutron, svc: Service) {
    && (forall id :: !PicksPort(svc, c, id) && !PicksFloatingIP(svc, c, id))
    && (forall id :: id in c.fips && c.fips[id].portID != "" ==> c.fips[id].portID in c.used)
  }

  /** The cloud after provisioning: one new port, and one new floating IP bound to it if asked for. */
  ghost predicate Equipped(a: World, b: Neutron, k: Key, fip: bool, portID: string, fipID: string,
      networkID: string, subnetID: string, ip: string) {
    && portID !in a.cloud.used && portID != ""
    && var c := AddPort(a.cloud, PortOf(a, portID, k, networkID, subnetID, ip));
       if fip then fipID !in c.used && fipID != ""
         && exists address :: b == AddFloatingIP(c, FloatingIPOf(a, fipID, address, k, portID))
       else b == c
  }

  /** The port of a service without one: made as asked for, and put on record. */
  lemma FreshPort(w: World, lb: LoadBalancer, svc: Service, ip: string, secret: SecretRef)
    requires Stands(w, svc, secret, "", "") && w.script == [] && !svc.terminating && !HasAnnotation(svc, PortID)
    ensures var p := EnsurePort(w, lb, svc, ip);
      && p.v.v == DONE && Follows(w, p.w) && p.v.lb.spec == lb.spec
      && p.v.portID !in w.cloud.used && p.v.portID != ""
      && p.w.cloud == AddPort(w.cloud, PortOf(w, p.v.portID, svc.key, lb.status.networkID, lb.status.subnetID, ip))
      && Stands(p.w, svc, secret, p.v.portID, "")
  {
    hide Still, CreatePort, EditAnnotations, Alike, Credited, SetCondition, PortOf, AddPort, CheckPort;
    var c := CreatePort(w, OwnerOf(svc), lb.status.networkID, lb.status.subnetID, ip);
    CalmPortMade(w, OwnerOf(svc), lb.status.networkID, lb.status.subnetID, ip);
    CreatePortStill(w, OwnerOf(svc), lb.status.networkID, lb.status.subnetID, ip);
    StandsSame(w, c.w, svc, secret, "", "");
    EditStands(c.w, svc, secret, "", "", map[PortID := c.v.value]);
    var u := EditAnnotations(c.w, svc.key, map[PortID := c.v.value], STEPS);
    NotesStill(u.w, OwnerOf(svc), c.v.value);
    StandsSame(u.w, Recorded(u.w, OwnerOf(svc), c.v.value), svc, secret, c.v.value, "");
  }

  /** The floating IP of a service without one, on a port that none is bound to. */
  lemma FreshFloatingIP(w: World, lb: LoadBalancer, svc: Service, secret: SecretRef, portID: string)
    requires Stands(w, svc, secret, portID, "") && w.script == [] && !svc.terminating
    requires !HasAnnotation(svc, FloatingIPID)
    requires portID in w.cloud.ports && NoneBound(w.cloud, portID) && lb.spec.floatingIPNetworkID != ""
    ensures var r := HandleFloatingIP(w, lb, svc, portID);
      && r.v.v == DONE && Follows(w, r.w) && svc.key in r.w.services.objects
      && var fipID := Annotation(r.w.services.objects[svc.key], FloatingIPID);
         && fipID !in w.cloud.used && fipID != "" && Stands(r.w, svc, secret, portID, fipID)
         && exists address :: r.w.cloud == AddFloatingIP(w.cloud, FloatingIPOf(w, fipID, address, svc.key, portID))
  {
    hide Still, FindFloatingIP, CreateFloatingIP, EditAnnotations, AddExternalIP, Alike, Credited, SetCondition;
    hide FloatingIPOf, AddFloatingIP, Unbound;
    assert portID != "" by { NoEmptyPort(w); }
    var f := FindFloatingIP(w, portID);
    FindStill(w, portID);
    FoundNone(w, portID);
    var c := CreateFloatingIP(f.w, OwnerOf(svc), portID);
    CalmFloatingIPMade(f.w, OwnerOf(svc), portID);
    CreateFloatingIPStill(f.w, OwnerOf(svc), portID);
    var id, address := c.v.value.id, c.v.value.address;
    assert FloatingIPOf(f.w, id, address, svc.key, portID) == FloatingIPOf(w, id, address, svc.key, portID) by {
      SameCluster(w, f.w, id, address, svc.key, portID);
    }
    StandsSame(w, c.w, svc, secret, portID, "");
    EditStands(c.w, svc, secret, portID, "", map[FloatingIPID := id]);
    var u := EditAnnotations(c.w, svc.key, map[FloatingIPID := id], STEPS);
    if address != "" {
      ExposeStands(u.w, svc, secret, portID, id, address);
    }
  }

  lemma SameCluster(a: World, b: World, id: string, address: string, k: Key, portID: string)
    requires a.cluster == b.cluster
    ensures FloatingIPOf(a, id, address, k, portID) == FloatingIPOf(b, id, address, k, portID)
  {
  }

  /** Where the port of an address belongs: the ids the load balancer has on record, or else those of
      the first subnet that contains the address. */
  function Located(w: World, lb: LoadBalancer, ip: string): (string, string)
    requires Locatable(w, ip)
  {
    if NetworkKnown(lb) then (lb.status.networkID, lb.status.subnetID) else
      var subnet := FirstMatch(w.texts, w.cloud.subnets, w.texts.addresses[ip]).value;
      (subnet.networkID, subnet.id)
  }

  lemma DetectLocates(w: World, lb: LoadBalancer, ip: string)
    requires Still(w) && w.script == [] && Locatable(w, ip)
    ensures var d := DetectNetwork(w, lb, ip);
      d.v.v == DONE && (d.v.lb.status.networkID, d.v.lb.status.subnetID) == Located(w, lb, ip)
  {
    hide Still, DetectNetwork, FirstMatch;
    DetectStill(w, lb, ip);
    if !NetworkKnown(lb) {
      DetectedContains(w, lb, ip);
    }
  }

  lemma NewPortUnbound(c: Neutron, svc: Service, p: Port)
    requires Untouched(c, svc) && p.id !in c.used && p.id != ""
    ensures NoneBound(AddPort(c, p), p.id) && p.id in AddPort(c, p).ports
  {
    hide PicksPort, PicksFloatingIP;
  }

  /** Provisioning a service without records, in a calm world: it ends with the right port on record,
      on the right network, described and tagged for the service, and with a floating IP of the same
      kind bound to that port if one is asked for; nothing else in the cloud changes. */
  lemma FreshService(w: World, lb: LoadBalancer, svc: Service, ip: string) returns (portID: string, fipID: string)
    requires Smooth(w, lb.spec, ip) && svc.key in w.services.objects && w.services.objects[svc.key] == svc
    requires !svc.terminating
    requires ServiceFinalizer in svc.finalizers && !HasResources(svc) && Untouched(w.cloud, svc)
    ensures var r, at := ProcessService(w, lb, svc, ip), Located(w, lb, ip);
      && r.v.v == DONE && Follows(w, r.w)
      && Equipped(w, r.w.cloud, svc.key, lb.spec.createFloatingIP, portID, fipID, at.0, at.1, ip)
      && Stands(r.w, svc, lb.spec.secret, portID, fipID) && (!lb.spec.createFloatingIP ==> fipID == "")
  {
    hide Still, EnsureCredentials, DetectNetwork, EnsurePort, HandleFloatingIP, Credited, Alike, Locatable, Located;
    hide Untouched;
    hide AddPort, AddFloatingIP, PortOf, FloatingIPOf;
    var secret := lb.spec.secret;
    var c := EnsureCredentials(w, svc, lb);
    CredentialsStand(w, svc, lb);
    Relocates(w, c.w, ip);
    var d := DetectNetwork(c.w, lb, ip);
    DetectStill(c.w, lb, ip);
    DetectLocates(c.w, lb, ip);
    assert Located(c.w, lb, ip) == Located(w, lb, ip) by { SameLocation(w, c.w, lb, ip); }
    StandsSame(c.w, d.w, svc, secret, "", "");
    FreshPort(d.w, d.v.lb, svc, ip, secret);
    var p := EnsurePort(d.w, d.v.lb, svc, ip);
    portID, fipID := p.v.portID, "";
    var at := Located(w, lb, ip);
    assert PortOf(d.w, portID, svc.key, at.0, at.1, ip) == PortOf(w, portID, svc.key, at.0, at.1, ip) by {
      SamePort(w, d.w, portID, svc.key, at.0, at.1, ip);
    }
    if lb.spec.createFloatingIP {
      assert PortOf(w, portID, svc.key, at.0, at.1, ip).id == portID by {
        SamePort(w, w, portID, svc.key, at.0, at.1, ip);
      }
      NewPortUnbound(w.cloud, svc, PortOf(w, portID, svc.key, at.0, at.1, ip));
      FreshFloatingIP(p.w, p.v.lb, svc, secret, portID);
      var h := HandleFloatingIP(p.w, p.v.lb, svc, portID);
      fipID := Annotation(h.w.services.objects[svc.key], FloatingIPID);
      var address :| h.w.cloud == AddFloatingIP(p.w.cloud, FloatingIPOf(p.w, fipID, address, svc.key, portID));
      SameCluster(w, p.w, fipID, address, svc.key, portID);
    }
  }

  lemma SameLocation(a: World, b: World, lb: LoadBalancer, ip: string)
    requires Locatable(a, ip) && Locatable(b, ip) && a.texts == b.texts && a.cloud.subnets == b.cloud.subnets
    ensures Located(a, lb, ip) == Located(b, lb, ip)
  {
    hide FirstMatch;
  }

  lemma SamePort(a: World, b: World, id: string, k: Key, networkID: string, subnetID: string, ip: string)
    requires a.cluster == b.cluster
    ensures PortOf(a, id, k, networkID, subnetID, ip) == PortOf(b, id, k, networkID, subnetID, ip)
    ensures PortOf(a, id, k, networkID, subnetID, ip).id == id
  {
  }

  // ----- And back -----

  /** What the others' deletion of a service that finalizers hold leaves stored. */
  function Deleted(w: World, k: Key): World {
    w.(services := UserDelete(w.services, k))
  }

  lemma DeletedStands(w: World, svc: Service, secret: SecretRef, portID: string, fipID: string)
    requires Stands(w, svc, secret, portID, fipID) && !svc.terminating && ServiceFinalizer in svc.finalizers
    ensures var v := Deleted(w, svc.key);
      && Still(v) && svc.key in v.services.objects
      && var o := v.services.objects[svc.key];
         && o.key == svc.key && o.terminating && o.finalizers == svc.finalizers
         && Annotation(o, PortID) == portID && Annotation(o, FloatingIPID) == fipID
  {
    hide Valid, ValidCloud, Marked, OneBound, Moves, Credited, Replace, Quiet, Fresh;
    UserDeleteMoves(w.services, w.rules.services, svc.key);
    var stored := w.services.objects[svc.key];
    ReplaceOutside(w.services, stored.(key := svc.key, terminating := true), {svc.key});
  }

  /** What a teardown selects is exactly what provisioning added, and it carries the tag. */
  lemma PicksWhatWasAdded(a: World, b: Neutron, svc: Service, o: Service, fip: bool, portID: string, fipID: string,
                          networkID: string, subnetID: string, ip: string)
    requires ValidCloud(a.cloud) && Untouched(a.cloud, svc) && !HasResources(svc) && o.key == svc.key
    requires Equipped(a, b, svc.key, fip, portID, fipID, networkID, subnetID, ip) && (!fip ==> fipID == "")
    requires Annotation(o, PortID) == portID && Annotation(o, FloatingIPID) == fipID
    ensures forall id :: PicksPort(o, b, id) <==> id == portID
    ensures forall id :: PicksFloatingIP(o, b, id) <==> fip && id == fipID
    ensures SelectedOwned(o, b)
  {
    hide PortName, PortDescription, FloatingIPDescription, TagList, DescribedFor, OwnedByOperator;
    OwnTextSelects(svc.key);
    TagsOwned(svc.key, a.cluster);
    forall id | id in b.ports && id != portID ensures !PicksPort(o, b, id) {
      assert !PicksPort(svc, a.cloud, id);
    }
    forall id | id in b.fips && !(fip && id == fipID) ensures !PicksFloatingIP(o, b, id) {
      assert !PicksFloatingIP(svc, a.cloud, id);
    }
  }

  lemma TagsOwned(k: Key, cluster: string)
    ensures OwnedByOperator(TagList(Owner(k, 0), "ports", cluster))
    ensures OwnedByOperator(TagList(Owner(k, 0), "floatingips", cluster))
  {
    hide Tag;
  }

  lemma CutRestores(a: World, b: Neutron, c: Neutron, o: Service, k: Key, fip: bool, portID: string, fipID: string,
                    networkID: string, subnetID: string, ip: string)
    requires ValidCloud(a.cloud) && Equipped(a, b, k, fip, portID, fipID, networkID, subnetID, ip) && Cut(b, c, o)
    requires SelectedOwned(o, b)
    requires forall id :: PicksPort(o, b, id) <==> id == portID
    requires forall id :: PicksFloatingIP(o, b, id) <==> fip && id == fipID
    ensures c.ports == a.cloud.ports && c.fips == a.cloud.fips && c.subnets == a.cloud.subnets
  {
    hide PortName, PortDescription, FloatingIPDescription, TagList, PicksPort, PicksFloatingIP, OwnedByOperator;
    assert portID !in a.cloud.ports;
    assert fip ==> fipID !in a.cloud.fips;
  }

  /** Provisioning and teardown are inverse: when a service that nothing in the cloud was selected for
      is provisioned, deleted and finalized, the cloud holds exactly the ports and floating IPs it held
      before, and the service is gone or let go. */
  lemma TeardownUndoesProvisioning(w: World, lb: LoadBalancer, svc: Service, ip: string)
    requires Smooth(w, lb.spec, ip) && svc.key in w.services.objects && w.services.objects[svc.key] == svc
    requires !svc.terminating
    requires ServiceFinalizer in svc.finalizers && !HasResources(svc) && Untouched(w.cloud, svc)
    ensures var v := Deleted(ProcessService(w, lb, svc, ip).w, svc.key);
      && svc.key in v.services.objects && HasAnnotation(v.services.objects[svc.key], PortID)
      && var t := Finalize(v, v.services.objects[svc.key]);
         && t.v == DONE
         && t.w.cloud.ports == w.cloud.ports && t.w.cloud.fips == w.cloud.fips && t.w.cloud.subnets == w.cloud.subnets
         && (svc.key in t.w.services.objects ==> ServiceFinalizer !in t.w.services.objects[svc.key].finalizers)
  {
    hide Still, ProcessService, Finalize, Equipped, Untouched, Cut, SelectedOwned, PicksPort, PicksFloatingIP, Deleted;
    hide Locatable, Located, Stands, Trimmed;
    var portID, fipID := FreshService(w, lb, svc, ip);
    var r, at, fip := ProcessService(w, lb, svc, ip).w, Located(w, lb, ip), lb.spec.createFloatingIP;
    var v := Deleted(r, svc.key);
    DeletedStands(r, svc, lb.spec.secret, portID, fipID);
    DeletedCloud(r, svc.key);
    var o := v.services.objects[svc.key];
    assert ValidCloud(w.cloud) by { StillWF(w); hide ValidCloud, Valid, Marked, OneBound; }
    PicksWhatWasAdded(w, r.cloud, svc, o, fip, portID, fipID, at.0, at.1, ip);
    assert portID != "" by { EquippedPort(w, r.cloud, svc.key, fip, portID, fipID, at.0, at.1, ip); }
    CalmFinalize(v, o);
    CutRestores(w, r.cloud, Finalize(v, o).w.cloud, o, svc.key, fip, portID, fipID, at.0, at.1, ip);
  }

  lemma DeletedCloud(w: World, k: Key)
    ensures Deleted(w, k).cloud == w.cloud && Deleted(w, k).script == w.script
  {
    hide UserDelete;
  }

  lemma EquippedPort(a: World, b: Neutron, k: Key, fip: bool, portID: string, fipID: string,
      networkID: string, subnetID: string, ip: string)
    requires Equipped(a, b, k, fip, portID, fipID, networkID, subnetID, ip)
    ensures portID != ""
  {
    hide PortOf, FloatingIPOf, AddPort, AddFloatingIP;
  }
}
