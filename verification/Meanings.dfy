/** The tests that decide which services are whose, in terms of the fields of the objects, and the texts
    that the operator writes, spelled out. */
module Meanings {
  import opened Kube
  import opened Cloud
  import opened Selection
  import opened Text
  import opened Worlds
  import opened Calls
  import opened Requests
  import opened Operator
  import opened Triggers

  /** The classes a service names: in its spec and in its annotation. */
  function Classes(svc: Service): set<string> {
    (match svc.spec.lbClass case None => {} case Some(c) => {c})
    + (if LoadBalancerClass in svc.annotations then {svc.annotations[LoadBalancerClass]} else {})
  }

  /** The resources a service records: what its two annotations say, when they say something. */
  function Records(svc: Service): set<string> {
    (set name | name in {PortID, FloatingIPID} && name in svc.annotations :: svc.annotations[name]) - {""}
  }

  lemma ClassMeans(svc: Service, className: string)
    ensures MatchesClass(svc, className) <==> className in Classes(svc)
  {
  }

  lemma RecordsMean(svc: Service)
    ensures HasResources(svc) <==> Records(svc) != {}
    ensures Records(svc) == {} <==>
      forall name :: name in {PortID, FloatingIPID} && name in svc.annotations ==> svc.annotations[name] == ""
  {
    var ids := set name | name in {PortID, FloatingIPID} && name in svc.annotations :: svc.annotations[name];
    forall name | name in {PortID, FloatingIPID} && name in svc.annotations && svc.annotations[name] != ""
      ensures svc.annotations[name] in Records(svc)
    {
      assert svc.annotations[name] in ids;
    }
    if Records(svc) != {} {
      var id :| id in Records(svc);
      assert id in ids;
    }
  }

  /** Some listed load balancer has a class that the service names. */
  predicate Claimed(svc: Service, lbs: seq<LoadBalancer>) {
    exists lb :: lb in lbs && lb.spec.className in Classes(svc)
  }

  lemma ClaimedMeans(svc: Service, lbs: seq<LoadBalancer>)
    ensures Claimed(svc, lbs) <==> FirstMatching(svc, lbs).Some?
    ensures Claimed(svc, lbs) <==> MatchingKeys(svc, lbs) != []
  {
    hide MatchesClass, Classes;
    MatchingKeysExact(svc, lbs);
    forall c ensures MatchesClass(svc, c) <==> c in Classes(svc) {
      ClassMeans(svc, c);
    }
    if MatchingKeys(svc, lbs) != [] {
      var k := MatchingKeys(svc, lbs)[0];
      assert k in MatchingKeys(svc, lbs);
    }
    if Claimed(svc, lbs) {
      var lb :| lb in lbs && lb.spec.className in Classes(svc);
      assert lb.key in MatchingKeys(svc, lbs);
    }
  }

  /** Which requests an event of a service leads to: one for each listed load balancer whose class it
      names, and one for the handler exactly when it carries the finalizer, records a resource, or names
      the class of a listed load balancer. */
  lemma RequestsMean(svc: Service, lbs: seq<LoadBalancer>, k: Key)
    ensures k in RequestsFor(svc, lbs) <==>
      || (exists lb :: lb in lbs && lb.spec.className in Classes(svc) && lb.key == k)
      || (&& k == Key(svc.key.namespace, "service-handler-" + svc.key.name)
          && (ServiceFinalizer in svc.finalizers || Records(svc) != {} || Claimed(svc, lbs)))
  {
    hide MatchesClass, HasResources, Classes, Records;
    RequestsExact(svc, lbs, k);
    RecordsMean(svc);
    ClaimedMeans(svc, lbs);
    forall c ensures MatchesClass(svc, c) <==> c in Classes(svc) {
      ClassMeans(svc, c);
    }
    hide MatchingKeys, Claimed;
  }

  /** The services a pass provisions, those a deletion cleans up for, those whose events are delivered,
      and those a handler pass has something to do for. */
  lemma TestsMean(svc: Service, lbs: seq<LoadBalancer>, className: string)
    ensures Eligible(svc, className) <==>
      && className in Classes(svc) && svc.spec.serviceType == LoadBalancerType && !svc.terminating
      && svc.status.ingress != [] && svc.status.ingress[0] != ""
    ensures Involved(svc, className) <==> className in Classes(svc) || Records(svc) != {}
    ensures Watched(svc) <==>
      svc.spec.serviceType == LoadBalancerType || ServiceFinalizer in svc.finalizers || Records(svc) != {}
    ensures Handles(svc, lbs) <==>
      if svc.terminating then ServiceFinalizer in svc.finalizers
      else
        && ServiceFinalizer !in svc.finalizers && svc.spec.serviceType == LoadBalancerType
        && (Claimed(svc, lbs) || Records(svc) != {})
  {
    hide MatchesClass, Classes, Records, MatchingKeys, FirstMatching, HasAnnotation, Claimed;
    ClassMeans(svc, className);
    RecordsMean(svc);
    ClaimedMeans(svc, lbs);
  }

  /** A service that names no class, records nothing and lacks the finalizer leads to no request at all,
      even when a load balancer's class is the empty text. */
  lemma UnrelatedService(svc: Service, lbs: seq<LoadBalancer>)
    requires svc.spec.lbClass.None? && LoadBalancerClass !in svc.annotations
    requires ServiceFinalizer !in svc.finalizers && Records(svc) == {}
    ensures RequestsFor(svc, lbs) == []
  {
    hide HasResources, Records;
    RecordsMean(svc);
    ClaimedMeans(svc, lbs);
    assert Classes(svc) == {};
    hide MatchingKeys;
  }

  // ----- Finalizers -----

  lemma RemoveFirst(fs: seq<Finalizer>, f: Finalizer)
    requires fs != []
    ensures RemoveFinalizer(fs, f) == (if fs[0] == f then [] else [fs[0]]) + RemoveFinalizer(fs[1..], f)
  {
  }

  /** Removing a finalizer takes out its occurrences and keeps the others, in their order: it works on
      each part of the list by itself, and on a single finalizer it is clear. */
  lemma {:induction false} RemovalKeepsOrder(a: seq<Finalizer>, b: seq<Finalizer>, f: Finalizer)
    ensures RemoveFinalizer(a + b, f) == RemoveFinalizer(a, f) + RemoveFinalizer(b, f)
    ensures |a| == 1 ==> RemoveFinalizer(a, f) == if a[0] == f then [] else a
  {
    hide RemoveFinalizer;
    if a == [] {
      assert a + b == b;
      RemoveNone(f);
    } else {
      assert (a + b)[1..] == a[1..] + b;
      RemovalKeepsOrder(a[1..], b, f);
      RemoveFirst(a + b, f);
      RemoveFirst(a, f);
      RemoveNone(f);
    }
  }

  lemma RemoveNone(f: Finalizer)
    ensures RemoveFinalizer([], f) == []
  {
  }

  // ----- Selection -----

  /** The text has the other somewhere within it. */
  ghost predicate Mentions(s: string, sub: string) {
    exists before, after :: s == before + sub + after
  }

  lemma MentionsIff(s: string, sub: string)
    ensures Contains(s, sub) <==> Mentions(s, sub)
  {
    if Contains(s, sub) {
      var i: nat :| i <= |s| && At(s, sub, i);
      assert s == s[..i] + sub + s[i + |sub|..];
    }
    if Mentions(s, sub) {
      var before, after :| s == before + sub + after;
      ContainsMiddle(before, sub, after);
    }
  }

  /** A resource is described as the service's: its description mentions namespace and name with a slash
      between them, or it mentions the operator and the name. */
  ghost predicate Described(description: string, k: Key) {
    || Mentions(description, k.namespace + "/" + k.name)
    || (Mentions(description, "by OpenStack LB Operator") && Mentions(description, k.name))
  }

  /** Which listed ports and floating IPs a cleanup selects, whoever made them. */
  lemma SelectionMeans(p: Port, f: FloatingIP, k: Key, portID: string, fipID: string)
    ensures SelectsPort(p, k, portID) <==>
      p.id == portID || p.name == "k8s-lb-" + k.namespace + "-" + k.name || Described(p.description, k)
    ensures SelectsFloatingIP(f, k, portID, fipID) <==>
      f.id == fipID || (portID != "" && f.portID == portID) || Described(f.description, k)
  {
    hide Contains, Mentions;
    forall s, sub ensures Contains(s, sub) <==> Mentions(s, sub) {
      MentionsIff(s, sub);
    }
  }

  // ----- Texts -----

  lemma SampleNames()
    ensures PortName(Key("ns", "web")) == "k8s-lb-ns-web"
    ensures ServiceRequest(Key("ns", "web")) == Key("ns", "service-handler-web")
  {
    assert "k8s-lb-" + "ns" == "k8s-lb-ns";
    assert "service-handler-" + "web" == "service-handler-web";
  }

  lemma PortDescriptionMeans(k: Key)
    ensures PortDescription(k)
         == "Port created for Kubernetes service " + k.namespace + "/" + k.name + " by OpenStack LB Operator"
  {
    var lead, tail := "Port created for Kubernetes service ", " by OpenStack LB Operator";
    assert PORT_TEXT + " " == lead;
    assert " " + OPERATOR == tail;
    Regroup(PORT_TEXT, k, OPERATOR, lead, tail);
  }

  lemma FloatingIPDescriptionMeans(k: Key)
    ensures FloatingIPDescription(k)
         == "Floating IP for Kubernetes service " + k.namespace + "/" + k.name + " by OpenStack LB Operator"
  {
    var lead, tail := "Floating IP for Kubernetes service ", " by OpenStack LB Operator";
    assert FLOATING_IP_TEXT + " " == lead;
    assert " " + OPERATOR == tail;
    Regroup(FLOATING_IP_TEXT, k, OPERATOR, lead, tail);
  }

  lemma Regroup(text: string, k: Key, end: string, lead: string, tail: string)
    requires text + " " == lead && " " + end == tail
    ensures text + " " + ServicePath(k) + " " + end == lead + k.namespace + "/" + k.name + tail
  {
    assert lead + ServicePath(k) == lead + k.namespace + "/" + k.name;
    assert lead + ServicePath(k) + " " + end == lead + ServicePath(k) + tail;
  }

  lemma SampleTags()
    ensures TagList(Owner(Key("ns", "web"), 1), "ports", "")
         == ["managed-by=openstack-lb-operator", "k8s-service-namespace=ns", "k8s-service-name=web",
             "resource-type=ports"]
  {
    assert "managed-by" + "=" == "managed-by=";
    assert "managed-by=" + "openstack-lb-operator" == "managed-by=openstack-lb-operator";
    assert "k8s-service-namespace" + "=" == "k8s-service-namespace=";
    assert "k8s-service-namespace=" + "ns" == "k8s-service-namespace=ns";
    assert "k8s-service-name" + "=" == "k8s-service-name=";
    assert "k8s-service-name=" + "web" == "k8s-service-name=web";
    assert "resource-type" + "=" == "resource-type=";
    assert "resource-type=" + "ports" == "resource-type=ports";
  }
}
