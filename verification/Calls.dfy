/** The calls the operator makes, each as a function of the world it is made in.  Every call
    first lets the others act, then takes the fate its turn gives it. */
module Calls {
  import opened Kube
  import opened Cloud
  import opened Selection
  import opened Tags
  import opened Worlds

  datatype Out<T> = Out(w: World, v: T)

  datatype Got<T> = Found(obj: T) | Missing | Failed

  predicate Ok(w: World) {
    Next(w).fate == Succeeds
  }

  // ----- Kubernetes -----

  function GetService(w: World, k: Key): Out<Got<Service>> {
    var t := Tick(w);
    if !Ok(w) then Out(t, Failed)
    else match Read(t.services, k, Next(w).view) {
      case None => Out(t, Missing)
      case Some(o) => Out(t, Found(o))
    }
  }

  function ListServices(w: World): Out<Option<seq<Service>>> {
    var t := Tick(w);
    if !Ok(w) then Out(t, None) else Out(t, Some(Listing(t.services, t.services.names, Next(w).view)))
  }

  function UpdateService(w: World, o: Service): Out<Reply> {
    var t := Tick(w);
    if !Ok(w) then Out(t, Rejected)
    else var r := Update(t.services, o); Out(t.(services := r.0), r.1)
  }

  /** The merge patch that empties the finalizer list; it carries no version, so it cannot conflict. */
  function PatchService(w: World, k: Key): Out<bool> {
    var t := Tick(w);
    var r := if Ok(w) then ClearFinalizers(t.services, k) else (t.services, Rejected);
    if r.1 == Written then Out(t.(services := r.0), true)
    else Out(t.(log := t.log.(patchFaults := t.log.patchFaults + 1)), false)
  }

  function GetLB(w: World, k: Key): Out<Got<LoadBalancer>> {
    var t := Tick(w);
    if !Ok(w) then Out(t, Failed)
    else match Read(t.lbs, k, Next(w).view) {
      case None => Out(t, Missing)
      case Some(o) => Out(t, Found(o))
    }
  }

  function ListLBs(w: World): Out<Option<seq<LoadBalancer>>> {
    var t := Tick(w);
    if !Ok(w) then Out(t, None) else Out(t, Some(Listing(t.lbs, t.lbs.names, Next(w).view)))
  }

  function UpdateLB(w: World, o: LoadBalancer): Out<Reply> {
    var t := Tick(w);
    if !Ok(w) then Out(t, Rejected)
    else var r := Update(t.lbs, o); Out(t.(lbs := r.0), r.1)
  }

  function UpdateLBStatus(w: World, o: LoadBalancer): Out<Reply> {
    var t := Tick(w);
    if !Ok(w) then Out(t, Rejected)
    else var r := UpdateStatus(t.lbs, o); Out(t.(lbs := r.0), r.1)
  }

  /** Reading a credentials secret and authenticating with it. */
  function NewClient(w: World, secret: SecretRef): Out<bool> {
    var t := Tick(w);
    var tried := t.log.(asked := t.log.asked + [secret]);
    if Ok(w) then Out(t.(log := tried), true) else Out(t.(log := tried.(misses := tried.misses + 1)), false)
  }

  // ----- OpenStack -----

  function StraysOf(log: Log, owner: Owner): set<string> {
    if owner in log.strays then log.strays[owner] else {}
  }

  function MishapsOf(log: Log, owner: Owner): nat {
    if owner in log.mishaps then log.mishaps[owner] else 0
  }

  /** A reply about a new port, or the write that records it, went wrong. */
  function Mishap(w: World, owner: Owner): World {
    w.(log := w.log.(mishaps := w.log.mishaps[owner := MishapsOf(w.log, owner) + 1]))
  }

  predicate Lives(w: World, o: Owner) {
    o.key in w.services.objects && w.services.objects[o.key].uid == o.uid
  }

  /** The write that records the new port has reported success.  If the service object is there all
      the same without the record, because a cached read showed none, that is a mishap too. */
  function Recorded(w: World, owner: Owner, id: string): World {
    if Lives(w, owner) && Annotation(w.services.objects[owner.key], PortID) != id then Mishap(w, owner)
    else w.(log := w.log.(strays := w.log.strays[owner := StraysOf(w.log, owner) - {id}]))
  }

  function Fault(w: World): World {
    w.(log := w.log.(faults := w.log.faults + 1))
  }

  function GetResource(w: World, kind: Kind, id: string): Out<Option<bool>> {
    var t := Tick(w);
    if Ok(w) then Out(t, Some(Live(t.cloud, kind, id))) else Out(Fault(t), None)
  }

  /** The address of a floating IP; asking for one that is gone is an error. */
  function GetAddress(w: World, id: string): Out<Option<string>> {
    var t := Tick(w);
    if Ok(w) && id in t.cloud.fips then Out(t, Some(t.cloud.fips[id].address)) else Out(Fault(t), None)
  }

  function ListPorts(w: World): Out<Option<seq<Port>>> {
    var t := Tick(w);
    if Ok(w) then Out(t, Some(PortList(t.cloud, t.cloud.used))) else Out(Fault(t), None)
  }

  function ListFloatingIPs(w: World): Out<Option<seq<FloatingIP>>> {
    var t := Tick(w);
    if Ok(w) then Out(t, Some(FloatingIPList(t.cloud, t.cloud.used))) else Out(Fault(t), None)
  }

  function ListSubnets(w: World): Out<Option<seq<Subnet>>> {
    var t := Tick(w);
    if Ok(w) then Out(t, Some(t.cloud.subnets)) else Out(Fault(t), None)
  }

  /** GetFloatingIPByPortID: the first floating IP bound to the port, if any. */
  function FindFloatingIP(w: World, portID: string): Out<Option<Option<FloatingIP>>> {
    var t := Tick(w);
    if !Ok(w) then Out(Fault(t), None)
    else
      var bound := BoundTo(FloatingIPList(t.cloud, t.cloud.used), portID);
      Out(t, Some(if bound == [] then None else Some(bound[0])))
  }

  function TagList(owner: Owner, resourceType: string, cluster: string): seq<string> {
    [Tag(MANAGED_BY, MANAGED_BY_VALUE),
     Tag(SERVICE_NAMESPACE, owner.key.namespace),
     Tag(SERVICE_NAME, owner.key.name),
     Tag(RESOURCE_TYPE, resourceType)]
    + (if cluster != "" then [Tag(CLUSTER_NAME, cluster)] else [])
  }

  /** Tagging after creation is best effort: nothing reports that it failed. */
  function TagResource(w: World, kind: Kind, id: string, tags: seq<string>): World {
    var t := Tick(w);
    if Next(w).fate == Fails then t else t.(cloud := SetTags(t.cloud, kind, id, tags))
  }

  function PlacePort(w: World, id: string, owner: Owner, networkID: string, subnetID: string, ip: string): World {
    w.(cloud := AddPort(w.cloud,
         Port(id, PortName(owner.key), PortDescription(owner.key), [], networkID, subnetID, ip)),
       log := w.log.(made := w.log.made[id := owner],
                     strays := w.log.strays[owner := StraysOf(w.log, owner) + {id}]))
  }

  function CreatePort(w: World, owner: Owner, networkID: string, subnetID: string, ip: string): Out<Option<string>> {
    var t := Tick(w);
    var id := NewID(t.cloud, Next(w).id);
    match Next(w).fate {
      case Fails => Out(Mishap(Fault(t), owner), None)
      case FailsAfter => Out(Mishap(Fault(PlacePort(t, id, owner, networkID, subnetID, ip)), owner), None)
      case Succeeds =>
        var p := PlacePort(t, id, owner, networkID, subnetID, ip);
        Out(TagResource(p, PortKind, id, TagList(owner, "ports", w.cluster)), Some(id))
    }
  }

  function PlaceFloatingIP(w: World, id: string, address: string, owner: Owner, portID: string): World {
    w.(cloud := AddFloatingIP(w.cloud, FloatingIP(id, address, portID, FloatingIPDescription(owner.key), [])),
       log := w.log.(made := w.log.made[id := owner], madeOn := w.log.madeOn[id := portID]))
  }

  datatype NewFloatingIP = NewFloatingIP(id: string, address: string)

  /** The network the address is drawn from is left to the cloud, which also picks the address. */
  function CreateFloatingIP(w: World, owner: Owner, portID: string): Out<Option<NewFloatingIP>> {
    var t := Tick(w);
    var id := NewID(t.cloud, Next(w).id);
    var address := if Next(w).text == "" then id else Next(w).text;
    match Next(w).fate {
      case Fails => Out(Fault(t), None)
      case FailsAfter => Out(Fault(PlaceFloatingIP(t, id, address, owner, portID)), None)
      case Succeeds =>
        var f := PlaceFloatingIP(t, id, address, owner, portID);
        Out(TagResource(f, FloatingIPKind, id, TagList(owner, "floatingips", w.cluster)),
            Some(NewFloatingIP(id, address)))
    }
  }

  /** Takes a live resource away, noting it when it lacked the ownership tag. */
  function Take(w: World, kind: Kind, id: string): World {
    if !Live(w.cloud, kind, id) then w
    else
      var noted := w.log.(taken := w.log.taken + [(kind, id)]);
      w.(cloud := Remove(w.cloud, kind, id),
         log := if OwnedByOperator(TagsOf(w.cloud, kind, id)) then noted else noted.(seized := noted.seized + {id}))
  }

  /** The bare delete call; deleting what is already gone counts as done. */
  function DeleteCall(w: World, kind: Kind, id: string): Out<bool> {
    var t := Tick(w);
    match Next(w).fate {
      case Fails => Out(Fault(t), false)
      case FailsAfter => Out(Fault(Take(t, kind, id)), false)
      case Succeeds => Out(Take(t, kind, id), true)
    }
  }

  /** deleteResource: look, check the ownership tag, delete.  When the tags cannot be read the
      deletion goes ahead all the same. */
  function DeleteResource(w: World, kind: Kind, id: string): Out<bool> {
    var found := GetResource(w, kind, id);
    if found.v.None? then Out(found.w, false)
    else if !found.v.value then Out(found.w, true)
    else
      var t := Tick(found.w);
      if Next(found.w).tagsReadable && Live(t.cloud, kind, id) && !OwnedByOperator(TagsOf(t.cloud, kind, id))
      then Out(Fault(t), false)
      else DeleteCall(t, kind, id)
  }
}
