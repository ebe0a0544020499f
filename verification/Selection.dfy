/** Which ports and floating IPs a cleanup takes for a service's own. */
module Selection {
  import opened Kube
  import opened Cloud
  import opened Text

  const OPERATOR := "by OpenStack LB Operator"
  const PORT_TEXT := "Port created for Kubernetes service"
  const FLOATING_IP_TEXT := "Floating IP for Kubernetes service"

  // ----- What the operator writes on the resources it creates -----

  function PortName(k: Key): string {
    "k8s-lb-" + k.namespace + "-" + k.name
  }

  function ServicePath(k: Key): string {
    k.namespace + "/" + k.name
  }

  function PortDescription(k: Key): string {
    PORT_TEXT + " " + ServicePath(k) + " " + OPERATOR
  }

  function FloatingIPDescription(k: Key): string {
    FLOATING_IP_TEXT + " " + ServicePath(k) + " " + OPERATOR
  }

  // ----- What a cleanup looks for -----

  predicate DescribedFor(description: string, k: Key) {
    || Contains(description, ServicePath(k))
    || (Contains(description, OPERATOR) && Contains(description, k.name))
  }

  /** The part of the port test that needs no annotation. */
  predicate PortTextFor(p: Port, k: Key) {
    p.name == PortName(k) || DescribedFor(p.description, k)
  }

  predicate SelectsPort(p: Port, k: Key, portID: string) {
    p.id == portID || PortTextFor(p, k)
  }

  predicate SelectsFloatingIP(f: FloatingIP, k: Key, portID: string, fipID: string) {
    || f.id == fipID
    || (portID != "" && f.portID == portID)
    || DescribedFor(f.description, k)
  }

  function PortsFor(ps: seq<Port>, k: Key, portID: string): seq<Port> {
    if ps == [] then []
    else (if SelectsPort(ps[0], k, portID) then [ps[0]] else []) + PortsFor(ps[1..], k, portID)
  }

  function FloatingIPsFor(fs: seq<FloatingIP>, k: Key, portID: string, fipID: string): seq<FloatingIP> {
    if fs == [] then []
    else
      (if SelectsFloatingIP(fs[0], k, portID, fipID) then [fs[0]] else []) + FloatingIPsFor(fs[1..], k, portID, fipID)
  }

  lemma {:induction false} PortsForExact(ps: seq<Port>, k: Key, portID: string)
    ensures forall p :: p in PortsFor(ps, k, portID) <==> p in ps && SelectsPort(p, k, portID)
  {
    if ps != [] {
      PortsForExact(ps[1..], k, portID);
    }
  }

  lemma {:induction false} FloatingIPsForExact(fs: seq<FloatingIP>, k: Key, portID: string, fipID: string)
    ensures forall f :: f in FloatingIPsFor(fs, k, portID, fipID) <==> f in fs && SelectsFloatingIP(f, k, portID, fipID)
  {
    if fs != [] {
      FloatingIPsForExact(fs[1..], k, portID, fipID);
    }
  }

  lemma PortsForSnoc(ps: seq<Port>, p: Port, k: Key, portID: string)
    ensures PortsFor(ps + [p], k, portID)
         == PortsFor(ps, k, portID) + (if SelectsPort(p, k, portID) then [p] else [])
  {
    if ps != [] {
      assert (ps + [p])[1..] == ps[1..] + [p];
      PortsForSnoc(ps[1..], p, k, portID);
    }
  }

  lemma FloatingIPsForSnoc(fs: seq<FloatingIP>, f: FloatingIP, k: Key, portID: string, fipID: string)
    ensures FloatingIPsFor(fs + [f], k, portID, fipID)
         == FloatingIPsFor(fs, k, portID, fipID) + (if SelectsFloatingIP(f, k, portID, fipID) then [f] else [])
  {
    if fs != [] {
      assert (fs + [f])[1..] == fs[1..] + [f];
      FloatingIPsForSnoc(fs[1..], f, k, portID, fipID);
    }
  }

  method IdentifyPortsToDelete(all: seq<Port>, k: Key, portID: string) returns (toDelete: seq<Port>)
    ensures toDelete == PortsFor(all, k, portID)
  {
    toDelete := [];
    for i := 0 to |all|
      invariant toDelete == PortsFor(all[..i], k, portID)
    {
      var port := all[i];
      var shouldDelete := false;
      if port.id == portID {
        shouldDelete := true;
      }
      if port.name == PortName(k) {
        shouldDelete := true;
      }
      if Contains(port.description, ServicePath(k)) {
        shouldDelete := true;
      }
      if Contains(port.description, OPERATOR) {
        if Contains(port.description, k.name) {
          shouldDelete := true;
        }
      }
      if shouldDelete {
        toDelete := toDelete + [port];
      }
      PortsForSnoc(all[..i], port, k, portID);
      assert all[..i + 1] == all[..i] + [port];
    }
    assert all[..|all|] == all;
  }

  method IdentifyFloatingIPsToDelete(all: seq<FloatingIP>, k: Key, portID: string, fipID: string)
    returns (toDelete: seq<FloatingIP>)
    ensures toDelete == FloatingIPsFor(all, k, portID, fipID)
  {
    toDelete := [];
    for i := 0 to |all|
      invariant toDelete == FloatingIPsFor(all[..i], k, portID, fipID)
    {
      var fip := all[i];
      var shouldDelete := false;
      if fip.id == fipID {
        shouldDelete := true;
      }
      if portID != "" && fip.portID == portID {
        shouldDelete := true;
      }
      if Contains(fip.description, ServicePath(k)) {
        shouldDelete := true;
      }
      if Contains(fip.description, OPERATOR) {
        if Contains(fip.description, k.name) {
          shouldDelete := true;
        }
      }
      if shouldDelete {
        toDelete := toDelete + [fip];
      }
      FloatingIPsForSnoc(all[..i], fip, k, portID, fipID);
      assert all[..i + 1] == all[..i] + [fip];
    }
    assert all[..|all|] == all;
  }
}
