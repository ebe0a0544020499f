/** Whose resources a cleanup selects: always the service's own, and exactly whose else. */
module Overlap {
  import opened Kube
  import opened Cloud
  import opened Text
  import opened Selection
  import opened Worlds
  import opened Orphans

  /** The description test comes down to whether the description mentions the bare name. */
  lemma DescribedIff(text: string, t: Key, s: Key)
    ensures var d := text + " " + ServicePath(t) + " " + OPERATOR; DescribedFor(d, s) <==> Contains(d, s.name)
  {
    hide Contains;
    var d := text + " " + ServicePath(t) + " " + OPERATOR;
    ContainsPart(text + " " + ServicePath(t) + " ", OPERATOR, OPERATOR);
    ContainsMiddle("", OPERATOR, "");
    assert "" + OPERATOR + "" == OPERATOR;
    if Contains(d, ServicePath(s)) {
      ContainsMiddle(s.namespace + "/", s.name, "");
      assert s.namespace + "/" + s.name + "" == ServicePath(s);
      ContainsTransitive(d, ServicePath(s), s.name);
    }
  }

  /** A port made for T is selected for S exactly when its id is S's record, the two port names
      coincide, or T's description mentions S's name. */
  lemma PortSelectedIff(p: Port, t: Key, s: Key, portID: string)
    requires p.name == PortName(t) && p.description == PortDescription(t)
    ensures SelectsPort(p, s, portID) <==>
      p.id == portID || PortName(s) == PortName(t) || Contains(PortDescription(t), s.name)
  {
    DescribedIff(PORT_TEXT, t, s);
  }

  /** A floating IP made for T is selected for S exactly when its id is S's record, it is bound to
      S's port, or T's description mentions S's name. */
  lemma FloatingIPSelectedIff(f: FloatingIP, t: Key, s: Key, portID: string, fipID: string)
    requires f.description == FloatingIPDescription(t)
    ensures SelectsFloatingIP(f, s, portID, fipID) <==>
      f.id == fipID || (portID != "" && f.portID == portID) || Contains(FloatingIPDescription(t), s.name)
  {
    DescribedIff(FLOATING_IP_TEXT, t, s);
  }

  /** Whether a cleanup for S takes a resource made for T for one of S's. */
  predicate Confuses(c: Neutron, svc: Service, id: string, t: Key) {
    || (id in c.ports && (id == Annotation(svc, PortID) || PortName(svc.key) == PortName(t)
                          || Contains(PortDescription(t), svc.key.name)))
    || (id in c.fips && (id == Annotation(svc, FloatingIPID)
                         || (Annotation(svc, PortID) != "" && c.fips[id].portID == Annotation(svc, PortID))
                         || Contains(FloatingIPDescription(t), svc.key.name)))
  }

  predicate Selects(c: Neutron, svc: Service, id: string) {
    || (id in c.ports && SelectsPort(c.ports[id], svc.key, Annotation(svc, PortID)))
    || (id in c.fips && SelectsFloatingIP(c.fips[id], svc.key, Annotation(svc, PortID), Annotation(svc, FloatingIPID)))
  }

  /** In every reachable world: of all the resources the operator made, a cleanup for a service
      selects those made for it and those it confuses with them, and no others.  So when it confuses
      none, the selection is exactly the service's own resources. */
  lemma SelectionExact(w: World, svc: Service, id: string)
    requires WF(w) && id in w.log.made && (id in w.cloud.ports || id in w.cloud.fips)
    ensures w.log.made[id].key == svc.key ==> Selects(w.cloud, svc, id)
    ensures Selects(w.cloud, svc, id) <==> Confuses(w.cloud, svc, id, w.log.made[id].key)
    ensures !(w.log.made[id].key != svc.key && Confuses(w.cloud, svc, id, w.log.made[id].key)) ==>
      (Selects(w.cloud, svc, id) <==> w.log.made[id].key == svc.key)
  {
    hide Valid, OneBound, PortName, PortDescription, FloatingIPDescription, DescribedFor, Contains;
    assert id in w.cloud.ports ==> w.cloud.ports[id].id == id;
    assert id in w.cloud.fips ==> w.cloud.fips[id].id == id;
    var t := w.log.made[id].key;
    if id in w.cloud.ports {
      PortSelectedIff(w.cloud.ports[id], t, svc.key, Annotation(svc, PortID));
    }
    if id in w.cloud.fips {
      FloatingIPSelectedIff(w.cloud.fips[id], t, svc.key, Annotation(svc, PortID), Annotation(svc, FloatingIPID));
    }
    OwnTextSelects(svc.key);
  }

  // ----- Overlap in terms of the names -----

  /** Where a description can mention a name that has no space and no slash in it: in the fixed
      text at either end, or within the namespace or the name of the service it was written for. */
  lemma MentionsIff(text: string, t: Key, name: string)
    requires name != "" && ' ' !in name && '/' !in name
    ensures Contains(text + " " + ServicePath(t) + " " + OPERATOR, name) <==>
      Contains(text, name) || Contains(OPERATOR, name) || Contains(t.namespace, name) || Contains(t.name, name)
  {
    hide Contains;
    ContainsApart(text + " " + ServicePath(t), ' ', OPERATOR, name);
    ContainsApart(text, ' ', ServicePath(t), name);
    ContainsApart(t.namespace, '/', t.name, name);
    assert text + " " + ServicePath(t) == text + [' '] + ServicePath(t);
    assert text + " " + ServicePath(t) + " " + OPERATOR == text + " " + ServicePath(t) + [' '] + OPERATOR;
    assert t.namespace + ['/'] + t.name == ServicePath(t);
  }

  /** So for S with such a name, as every Kubernetes service has, a port made for T is selected for
      S exactly when its id is S's record, the port names coincide, or S's name is part of the fixed
      text, of T's namespace or of T's name. */
  lemma PortSelectedByNameIff(p: Port, t: Key, s: Key, portID: string)
    requires p.name == PortName(t) && p.description == PortDescription(t)
    requires s.name != "" && ' ' !in s.name && '/' !in s.name
    ensures SelectsPort(p, s, portID) <==>
      || p.id == portID
      || PortName(s) == PortName(t)
      || Contains(PORT_TEXT, s.name) || Contains(OPERATOR, s.name)
      || Contains(t.namespace, s.name) || Contains(t.name, s.name)
  {
    hide Contains, SelectsPort, PortName;
    PortSelectedIff(p, t, s, portID);
    MentionsIff(PORT_TEXT, t, s.name);
  }

  lemma FloatingIPSelectedByNameIff(f: FloatingIP, t: Key, s: Key, portID: string, fipID: string)
    requires f.description == FloatingIPDescription(t)
    requires s.name != "" && ' ' !in s.name && '/' !in s.name
    ensures SelectsFloatingIP(f, s, portID, fipID) <==>
      || f.id == fipID
      || (portID != "" && f.portID == portID)
      || Contains(FLOATING_IP_TEXT, s.name) || Contains(OPERATOR, s.name)
      || Contains(t.namespace, s.name) || Contains(t.name, s.name)
  {
    hide Contains, SelectsFloatingIP;
    FloatingIPSelectedIff(f, t, s, portID, fipID);
    MentionsIff(FLOATING_IP_TEXT, t, s.name);
  }

  /** The sample services show why names must not overlap: a cleanup for `nginx` takes the port of
      `nginx2`, in whichever namespaces the two are. */
  lemma SampleOverlap(p: Port, s: Key, t: Key, portID: string)
    requires s.name == "nginx" && t.name == "nginx2" && p.name == PortName(t) && p.description == PortDescription(t)
    ensures SelectsPort(p, s, portID)
  {
    hide Contains, SelectsPort, PortName;
    ContainsMiddle("", "nginx", "2");
    assert "" + "nginx" + "2" == "nginx2";
    assert ' ' !in "nginx" && '/' !in "nginx";
    PortSelectedByNameIff(p, t, s, portID);
  }

  // ----- Port names -----

  /** Port names tell services apart as long as no namespace has a dash in it. */
  lemma PortNamesApart(s: Key, t: Key)
    requires '-' !in s.namespace && '-' !in t.namespace
    ensures PortName(s) == PortName(t) <==> s == t
  {
    if PortName(s) == PortName(t) {
      assert PortName(s)[7..] == s.namespace + "-" + s.name;
      assert PortName(t)[7..] == t.namespace + "-" + t.name;
      SplitsOneWay(s.namespace, '-', s.name, t.namespace, t.name);
    }
  }

  /** With dashes they do not: wherever a name has one, another service shares the port name. */
  lemma PortNamesClash(a: string, b: string, c: string)
    ensures PortName(Key(a + "-" + b, c)) == PortName(Key(a, b + "-" + c))
    ensures Key(a + "-" + b, c) != Key(a, b + "-" + c)
  {
    assert "k8s-lb-" + (a + "-" + b) + "-" + c == "k8s-lb-" + a + "-" + (b + "-" + c);
    assert |a + "-" + b| > |a|;
  }
}
