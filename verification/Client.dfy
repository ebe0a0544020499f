/** The operator's OpenStack client, in the form of pkg/openstack: each operation is a series of
    effects on the surroundings.  Every method is proved against the function that the theorems
    speak of. */
module Client {
  import opened Kube
  import opened Cloud
  import opened Tags
  import opened Worlds
  import opened Calls
  import opened Ownership

  /** The surroundings, as something that operations change. */
  class Cluster {
    var world: World

    constructor (start: World)
      ensures world == start
    {
      world := start;
    }
  }

  /** The tag table of a new resource: in whatever order its entries are written out, they say that the
      resource is the operator's and that it is for this service and no other. */
  method OwnershipTags(k: Key, resourceType: string, cluster: string) returns (tags: map<string, string>)
    ensures tags == TagTable(k, resourceType, cluster)
    ensures Identifies(tags, k)
  {
    hide Identifies;
    tags := map[
      MANAGED_BY := MANAGED_BY_VALUE,
      SERVICE_NAMESPACE := k.namespace,
      SERVICE_NAME := k.name,
      RESOURCE_TYPE := resourceType];
    if cluster != "" {
      tags := tags[CLUSTER_NAME := cluster];
    }
    TableIdentifies(k, resourceType, cluster);
  }

  /** The tags to set on a new resource, made from its table. */
  method TagSlice(owner: Owner, resourceType: string, cluster: string) returns (tagSlice: seq<string>)
    ensures tagSlice == TagList(owner, resourceType, cluster)
  {
    hide Renders, TagTable, Identifies;
    var tags := OwnershipTags(owner.key, resourceType, cluster);
    TagOrderVisits(owner.key, resourceType, cluster);
    tagSlice := ConvertMapToTags(tags, TagOrder(cluster));
    TagListInOrder(owner, resourceType, cluster, tagSlice);
  }

  /** Creates the port without tags first, then sets them; a failure to set them is not reported. */
  method CreatePortForService(c: Cluster, owner: Owner, networkID: string, subnetID: string, ip: string)
    returns (portID: Option<string>)
    modifies c
    ensures Out(c.world, portID) == CreatePort(old(c.world), owner, networkID, subnetID, ip)
  {
    hide Tick, PlacePort, TagResource, NewID, TagList;
    var tagSlice := TagSlice(owner, "ports", c.world.cluster);
    var turn := Next(c.world);
    c.world := Tick(c.world);
    var id := NewID(c.world.cloud, turn.id);
    match turn.fate {
      case Fails =>
        c.world := Mishap(Fault(c.world), owner);
        return None;
      case FailsAfter =>
        c.world := Mishap(Fault(PlacePort(c.world, id, owner, networkID, subnetID, ip)), owner);
        return None;
      case Succeeds =>
        c.world := PlacePort(c.world, id, owner, networkID, subnetID, ip);
        c.world := TagResource(c.world, PortKind, id, tagSlice);
        return Some(id);
    }
  }

  method CreateFloatingIPForService(c: Cluster, owner: Owner, portID: string) returns (fip: Option<NewFloatingIP>)
    modifies c
    ensures Out(c.world, fip) == CreateFloatingIP(old(c.world), owner, portID)
  {
    hide Tick, PlaceFloatingIP, TagResource, NewID, TagList;
    var tagSlice := TagSlice(owner, "floatingips", c.world.cluster);
    var turn := Next(c.world);
    c.world := Tick(c.world);
    var id := NewID(c.world.cloud, turn.id);
    var address := if turn.text == "" then id else turn.text;
    match turn.fate {
      case Fails =>
        c.world := Fault(c.world);
        return None;
      case FailsAfter =>
        c.world := Fault(PlaceFloatingIP(c.world, id, address, owner, portID));
        return None;
      case Succeeds =>
        c.world := PlaceFloatingIP(c.world, id, address, owner, portID);
        c.world := TagResource(c.world, FloatingIPKind, id, tagSlice);
        return Some(NewFloatingIP(id, address));
    }
  }

  /** deleteResource: check that it exists, check the ownership tag if the tags can be read, delete. */
  method DeleteOwnedResource(c: Cluster, kind: Kind, id: string) returns (ok: bool)
    modifies c
    ensures Out(c.world, ok) == DeleteResource(old(c.world), kind, id)
  {
    hide Tick, DeleteCall;
    var found := GetResource(c.world, kind, id);
    c.world := found.w;
    if found.v.None? {
      return false;
    }
    if !found.v.value {
      return true;
    }
    var turn := Next(c.world);
    c.world := Tick(c.world);
    if turn.tagsReadable && Live(c.world.cloud, kind, id) {
      var owned := IsResourceOwnedByOperator(TagsOf(c.world.cloud, kind, id));
      if !owned {
        c.world := Fault(c.world);
        return false;
      }
    }
    var deleted := DeleteCall(c.world, kind, id);
    c.world := deleted.w;
    return deleted.v;
  }
}
