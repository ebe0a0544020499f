/** The OpenStack networking service: ports and floating IPs, keyed by ids that are never empty
    and never handed out twice. */
module Cloud {

  datatype Port = Port(
    id: string, name: string, description: string, tags: seq<string>,
    networkID: string, subnetID: string, ip: string)

  datatype FloatingIP = FloatingIP(
    id: string, address: string, portID: string, description: string, tags: seq<string>)

  datatype Subnet = Subnet(id: string, networkID: string, cidr: string)

  /** `used` lists every id ever handed out, oldest first; listings follow that order. */
  datatype Neutron = Neutron(
    ports: map<string, Port>, fips: map<string, FloatingIP>, used: seq<string>, subnets: seq<Subnet>)

  datatype Kind = PortKind | FloatingIPKind

  predicate Live(c: Neutron, kind: Kind, id: string) {
    if kind == PortKind then id in c.ports else id in c.fips
  }

  function TagsOf(c: Neutron, kind: Kind, id: string): seq<string>
    requires Live(c, kind, id)
  {
    if kind == PortKind then c.ports[id].tags else c.fips[id].tags
  }

  ghost predicate ValidCloud(c: Neutron) {
    && "" !in c.used
    && (forall id :: id in c.ports ==> id in c.used && c.ports[id].id == id && id !in c.fips)
    && (forall id :: id in c.fips ==> id in c.used && c.fips[id].id == id)
  }

  // ----- Ids -----

  function Longest(ids: seq<string>): (n: nat)
    ensures forall id :: id in ids ==> |id| <= n
  {
    if ids == [] then 0 else
      var n := Longest(ids[1..]);
      if |ids[0]| > n then |ids[0]| else n
  }

  /** The id of a new resource: the one the service proposes, unless it is empty or was used. */
  function NewID(c: Neutron, proposed: string): (id: string)
    ensures id != "" && id !in c.used
  {
    if proposed != "" && proposed !in c.used then proposed
    else seq(Longest(c.used) + 1, _ => 'i')
  }

  // ----- Writes -----

  function AddPort(c: Neutron, p: Port): Neutron {
    c.(ports := c.ports[p.id := p], used := c.used + [p.id])
  }

  function AddFloatingIP(c: Neutron, f: FloatingIP): Neutron {
    c.(fips := c.fips[f.id := f], used := c.used + [f.id])
  }

  function Remove(c: Neutron, kind: Kind, id: string): Neutron {
    if kind == PortKind then c.(ports := c.ports - {id}) else c.(fips := c.fips - {id})
  }

  function Rebind(c: Neutron, id: string, portID: string): Neutron
    requires id in c.fips
  {
    c.(fips := c.fips[id := c.fips[id].(portID := portID)])
  }

  function SetTags(c: Neutron, kind: Kind, id: string, tags: seq<string>): Neutron {
    if !Live(c, kind, id) then c
    else if kind == PortKind then c.(ports := c.ports[id := c.ports[id].(tags := tags)])
    else c.(fips := c.fips[id := c.fips[id].(tags := tags)])
  }

  // ----- Reads -----

  function PortList(c: Neutron, ids: seq<string>): seq<Port> {
    if ids == [] then []
    else (if ids[0] in c.ports then [c.ports[ids[0]]] else []) + PortList(c, ids[1..])
  }

  function FloatingIPList(c: Neutron, ids: seq<string>): seq<FloatingIP> {
    if ids == [] then []
    else (if ids[0] in c.fips then [c.fips[ids[0]]] else []) + FloatingIPList(c, ids[1..])
  }

  /** The floating IPs bound to a port, as a listing filtered on the port id returns them. */
  function BoundTo(fs: seq<FloatingIP>, portID: string): seq<FloatingIP> {
    if fs == [] then []
    else (if fs[0].portID == portID then [fs[0]] else []) + BoundTo(fs[1..], portID)
  }

  lemma {:induction false} PortListExact(c: Neutron, ids: seq<string>)
    requires ValidCloud(c)
    ensures forall p :: p in PortList(c, ids) <==> p.id in ids && p.id in c.ports && c.ports[p.id] == p
  {
    if ids != [] {
      PortListExact(c, ids[1..]);
    }
  }

  lemma {:induction false} FloatingIPListExact(c: Neutron, ids: seq<string>)
    requires ValidCloud(c)
    ensures forall f :: f in FloatingIPList(c, ids) <==> f.id in ids && f.id in c.fips && c.fips[f.id] == f
  {
    if ids != [] {
      FloatingIPListExact(c, ids[1..]);
    }
  }

  lemma {:induction false} BoundToExact(fs: seq<FloatingIP>, portID: string)
    ensures forall f :: f in BoundTo(fs, portID) <==> f in fs && f.portID == portID
  {
    if fs != [] {
      BoundToExact(fs[1..], portID);
    }
  }

  // ----- The other users of the cloud -----

  /** How the cloud may have changed through its other users alone.  They delete resources, add
      resources of their own and rebind floating IPs; unless `binds`, they only unbind. */
  ghost predicate Drifts(binds: bool, a: Neutron, b: Neutron) {
    && a.used <= b.used
    && (forall id :: id in b.ports ==> (id in a.ports && b.ports[id] == a.ports[id]) || id !in a.used)
    && (forall id :: id in b.fips ==>
          if id in a.used
          then id in a.fips && b.fips[id] == a.fips[id].(portID := b.fips[id].portID)
               && (binds || b.fips[id].portID == a.fips[id].portID || b.fips[id].portID == "")
          else binds || b.fips[id].portID == "")
  }

  lemma DriftsTransitive(binds: bool, a: Neutron, b: Neutron, c: Neutron)
    requires ValidCloud(a) && ValidCloud(b) && Drifts(binds, a, b) && Drifts(binds, b, c)
    ensures Drifts(binds, a, c)
  {
    assert forall id :: id in a.used ==> id in b.used;
  }

  lemma DriftsReflexive(binds: bool, c: Neutron)
    requires ValidCloud(c)
    ensures Drifts(binds, c, c)
  {
  }

  lemma AddPortDrifts(binds: bool, c: Neutron, p: Port)
    requires ValidCloud(c) && p.id != "" && p.id !in c.used
    ensures ValidCloud(AddPort(c, p)) && Drifts(binds, c, AddPort(c, p))
  {
  }

  lemma AddFloatingIPDrifts(binds: bool, c: Neutron, f: FloatingIP)
    requires ValidCloud(c) && f.id != "" && f.id !in c.used && (binds || f.portID == "")
    ensures ValidCloud(AddFloatingIP(c, f)) && Drifts(binds, c, AddFloatingIP(c, f))
  {
  }

  lemma RemoveDrifts(binds: bool, c: Neutron, kind: Kind, id: string)
    requires ValidCloud(c)
    ensures ValidCloud(Remove(c, kind, id)) && Drifts(binds, c, Remove(c, kind, id))
  {
  }

  lemma BindDrifts(binds: bool, c: Neutron, id: string, portID: string)
    requires ValidCloud(c) && id in c.fips && (binds || portID == "")
    ensures ValidCloud(Rebind(c, id, portID)) && Drifts(binds, c, Rebind(c, id, portID))
  {
  }

  lemma SetSubnetsDrifts(binds: bool, c: Neutron, subnets: seq<Subnet>)
    requires ValidCloud(c)
    ensures ValidCloud(c.(subnets := subnets)) && Drifts(binds, c, c.(subnets := subnets))
  {
  }
}
