/** The exact notion of "belongs to this service": tags, and how it relates to the selection that
    cleanups go by. */
module Ownership {
  import opened Kube
  import opened Cloud
  import opened Text
  import opened Tags
  import opened Selection
  import opened Worlds
  import opened Calls
  import opened Orphans

  lemma TagsDiffer(n: string, v: string, m: string, u: string)
    requires '=' !in n && '=' !in m
    ensures Tag(n, v) == Tag(m, u) <==> n == m && v == u
  {
    if Tag(n, v) == Tag(m, u) {
      assert n + ['='] + v == m + ['='] + u;
      SplitsOneWay(n, '=', v, m, u);
    }
  }

  lemma TagLengths()
    ensures |MANAGED_BY| == 10 && |SERVICE_NAMESPACE| == 21 && |SERVICE_NAME| == 16 && |CLUSTER_NAME| == 16
    ensures |RESOURCE_TYPE| == 13
    ensures SERVICE_NAME[4] == 's' && CLUSTER_NAME[4] == 'c'
  {
  }

  /** No tag name has an equals sign in it, and the names differ. */
  lemma TagNames()
    ensures '=' !in MANAGED_BY && '=' !in SERVICE_NAMESPACE && '=' !in SERVICE_NAME && '=' !in CLUSTER_NAME
    ensures '=' !in RESOURCE_TYPE
    ensures |{MANAGED_BY, SERVICE_NAMESPACE, SERVICE_NAME, RESOURCE_TYPE}| == 4
    ensures |{MANAGED_BY, SERVICE_NAMESPACE, SERVICE_NAME, RESOURCE_TYPE, CLUSTER_NAME}| == 5
  {
    TagLengths();
  }

  function Names(cluster: string): set<string> {
    {MANAGED_BY, SERVICE_NAMESPACE, SERVICE_NAME, RESOURCE_TYPE} + if cluster != "" then {CLUSTER_NAME} else {}
  }

  lemma TableFacts(k: Key, resourceType: string, cluster: string)
    ensures var table := TagTable(k, resourceType, cluster);
      && table.Keys == Names(cluster) && |table| == |Names(cluster)| && (forall n :: n in table ==> '=' !in n)
      && table[MANAGED_BY] == MANAGED_BY_VALUE && table[SERVICE_NAMESPACE] == k.namespace
      && table[SERVICE_NAME] == k.name
  {
    TagNames();
    var table := TagTable(k, resourceType, cluster);
    assert table.Keys == Names(cluster);
    assert |table| == |table.Keys|;
  }

  /** A tag with a proper name is among the rendered tags exactly when the table says so. */
  lemma RenderedIff(tags: seq<string>, table: map<string, string>, n: string, v: string)
    requires Renders(tags, table) && '=' !in n && forall m :: m in table ==> '=' !in m
    ensures Tag(n, v) in tags <==> n in table && table[n] == v
  {
    forall m | m in table ensures Tag(n, v) == Tag(m, table[m]) <==> n == m && v == table[m] {
      TagsDiffer(n, v, m, table[m]);
    }
  }

  /** Tags built at creation, in whatever order, are recognised as the operator's, and as those of a
      service exactly when it is the one they were built for; the cluster name makes no difference. */
  lemma TagsIdentify(tags: seq<string>, k: Key, resourceType: string, cluster: string, other: Key)
    requires Renders(tags, TagTable(k, resourceType, cluster))
    ensures OwnedByOperator(tags) && (ForService(tags, other) <==> other == k)
  {
    hide TagTable, Tag, Renders;
    var table := TagTable(k, resourceType, cluster);
    TagNames();
    TableFacts(k, resourceType, cluster);
    RenderedIff(tags, table, MANAGED_BY, MANAGED_BY_VALUE);
    RenderedIff(tags, table, SERVICE_NAMESPACE, other.namespace);
    RenderedIff(tags, table, SERVICE_NAME, other.name);
  }

  /** However the entries of the table are written out, they say that the resource is the operator's and
      that it is for this service and no other. */
  ghost predicate Identifies(table: map<string, string>, k: Key) {
    forall tags :: Renders(tags, table) ==> OwnedByOperator(tags) && OnlyFor(tags, k)
  }

  ghost predicate OnlyFor(tags: seq<string>, k: Key) {
    forall other :: ForService(tags, other) <==> other == k
  }

  lemma TableIdentifies(k: Key, resourceType: string, cluster: string)
    ensures Identifies(TagTable(k, resourceType, cluster), k)
  {
    hide TagTable, Renders, OwnedByOperator, ForService;
    forall tags | Renders(tags, TagTable(k, resourceType, cluster)) ensures OwnedByOperator(tags) && OnlyFor(tags, k) {
      TagsIdentify(tags, k, resourceType, cluster, k);
      forall other ensures ForService(tags, other) <==> other == k {
        TagsIdentify(tags, k, resourceType, cluster, other);
      }
    }
  }

  /** The order in which the model visits the entries of a tag table. */
  function TagOrder(cluster: string): seq<string> {
    [MANAGED_BY, SERVICE_NAMESPACE, SERVICE_NAME, RESOURCE_TYPE] + if cluster != "" then [CLUSTER_NAME] else []
  }

  lemma DifferentNames(a: string, b: string, c: string, d: string, e: string)
    requires |a| == 10 && |b| == 21 && |c| == 16 && |d| == 13 && |e| == 16 && c[4] != e[4]
    ensures Distinct([a, b, c, d]) && Distinct([a, b, c, d] + [e])
    ensures forall n :: n in [a, b, c, d] <==> n in {a, b, c, d}
    ensures forall n :: n in [a, b, c, d] + [e] <==> n in {a, b, c, d} + {e}
  {
  }

  lemma TagOrderVisits(k: Key, resourceType: string, cluster: string)
    ensures Visits(TagOrder(cluster), TagTable(k, resourceType, cluster))
  {
    hide TagTable, Distinct;
    TagLengths();
    TableFacts(k, resourceType, cluster);
    DifferentNames(MANAGED_BY, SERVICE_NAMESPACE, SERVICE_NAME, RESOURCE_TYPE, CLUSTER_NAME);
    var order, table := TagOrder(cluster), TagTable(k, resourceType, cluster);
    assert cluster == "" ==> order == [MANAGED_BY, SERVICE_NAMESPACE, SERVICE_NAME, RESOURCE_TYPE];
    assert forall n :: n in order <==> n in Names(cluster);
    assert forall n :: n in table <==> n in table.Keys;
  }

  lemma TagListInOrder(owner: Owner, resourceType: string, cluster: string, tags: seq<string>)
    requires var order, table := TagOrder(cluster), TagTable(owner.key, resourceType, cluster);
      |tags| == |order| && forall i :: 0 <= i < |order| ==>
        order[i] in table && tags[i] == Tag(order[i], table[order[i]])
    ensures tags == TagList(owner, resourceType, cluster)
  {
    hide Tag;
    TableFacts(owner.key, resourceType, cluster);
    TagLengths();
    var order := TagOrder(cluster);
    assert order[0] == MANAGED_BY && order[1] == SERVICE_NAMESPACE && order[2] == SERVICE_NAME
      && order[3] == RESOURCE_TYPE;
    assert cluster != "" ==> order[4] == CLUSTER_NAME;
  }

  /** What the operator puts on a new resource is a rendering of its table. */
  lemma TagListRenders(owner: Owner, resourceType: string, cluster: string)
    ensures Renders(TagList(owner, resourceType, cluster), TagTable(owner.key, resourceType, cluster))
  {
    hide Renders, TagList, TagTable, Visits, Tag;
    var order, table := TagOrder(cluster), TagTable(owner.key, resourceType, cluster);
    TagOrderVisits(owner.key, resourceType, cluster);
    assert forall i :: 0 <= i < |order| ==> order[i] in table by {
      VisitsEntries(order, table);
    }
    var tags := seq(|order|, i requires 0 <= i < |order| => Tag(order[i], table[order[i]]));
    TagListInOrder(owner, resourceType, cluster, tags);
    InOrderRenders(tags, table, order);
  }

  lemma VisitsEntries(order: seq<string>, table: map<string, string>)
    requires Visits(order, table)
    ensures forall i :: 0 <= i < |order| ==> order[i] in table
  {
  }

  // ----- getManagedResources -----

  /** The listed resources that carry the operator's tags for the service; those whose tags cannot
      be read are passed over. */
  function Managed<T>(all: seq<T>, id: T -> string, tags: map<string, seq<string>>, k: Key): seq<T> {
    if all == [] then [] else
      var mine := id(all[0]) in tags && OwnedByOperator(tags[id(all[0])]) && ForService(tags[id(all[0])], k);
      (if mine then [all[0]] else []) + Managed(all[1..], id, tags, k)
  }

  predicate IsManaged(id: string, tags: map<string, seq<string>>, k: Key) {
    id in tags && OwnedByOperator(tags[id]) && ForService(tags[id], k)
  }

  lemma {:induction false} ManagedSnoc<T>(all: seq<T>, x: T, id: T -> string, tags: map<string, seq<string>>, k: Key)
    ensures Managed(all + [x], id, tags, k)
      == Managed(all, id, tags, k) + (if IsManaged(id(x), tags, k) then [x] else [])
  {
    hide OwnedByOperator, ForService;
    if all == [] {
      assert all + [x] == [x];
    } else {
      assert (all + [x])[1..] == all[1..] + [x];
      ManagedSnoc(all[1..], x, id, tags, k);
    }
  }

  /** `tags` holds what the tag calls return, for the resources whose tags can be read; `listed` is
      None when the listing fails. */
  method GetManagedResources<T>(listed: Option<seq<T>>, id: T -> string, tags: map<string, seq<string>>, k: Key)
    returns (managed: Option<seq<T>>)
    ensures managed == if listed.None? then None else Some(Managed(listed.value, id, tags, k))
  {
    if listed.None? {
      return None;
    }
    var all, mine := listed.value, [];
    for i := 0 to |all|
      invariant mine == Managed(all[..i], id, tags, k)
    {
      ManagedSnoc(all[..i], all[i], id, tags, k);
      assert all[..i + 1] == all[..i] + [all[i]];
      var resourceID := id(all[i]);
      if resourceID !in tags {
        continue;
      }
      var owned := IsResourceOwnedByOperator(tags[resourceID]);
      var ours := IsResourceForService(tags[resourceID], k);
      if owned && ours {
        mine := mine + [all[i]];
      }
    }
    assert all[..|all|] == all;
    return Some(mine);
  }

  /** Exactly the matching resources, in the order of the listing: where they stand in it. */
  lemma {:induction false} ManagedExact<T>(all: seq<T>, id: T -> string, tags: map<string,
      seq<string>>, k: Key)
    returns (at: seq<nat>)
    ensures |at| == |Managed(all, id, tags, k)|
    ensures forall i :: 0 <= i < |at| ==> at[i] < |all| && Managed(all, id, tags, k)[i] == all[at[i]]
    ensures forall i, j :: 0 <= i < j < |at| ==> at[i] < at[j]
    ensures forall p :: 0 <= p < |all| ==> (p in at <==> IsManaged(id(all[p]), tags, k))
  {
    hide OwnedByOperator, ForService;
    if all == [] {
      at := [];
    } else {
      var n := |all| - 1;
      assert all == all[..n] + [all[n]];
      ManagedSnoc(all[..n], all[n], id, tags, k);
      at := ManagedExact(all[..n], id, tags, k);
      assert n !in at;
      if IsManaged(id(all[n]), tags, k) {
        at := at + [n];
      }
    }
  }

  /** A managed resource of the operator's making is one a cleanup for the service selects: a port
      with the tags and the description the operator gave it for some service T, if its tags name
      S, was made for S and is selected for S. */
  lemma ManagedPortSelected(p: Port, t: Key, s: Key, cluster: string, portID: string)
    requires Renders(p.tags, TagTable(t, "ports", cluster)) && p.description == PortDescription(t)
    ensures ForService(p.tags, s) <==> t == s
    ensures ForService(p.tags, s) ==> SelectsPort(p, s, portID)
  {
    hide Renders, TagTable, ForService, OwnedByOperator, DescribedFor, PortDescription, FloatingIPDescription;
    TagsIdentify(p.tags, t, "ports", cluster, s);
    OwnTextSelects(s);
  }

  lemma ManagedFloatingIPSelected(f: FloatingIP, t: Key, s: Key, cluster: string, portID: string, fipID: string)
    requires Renders(f.tags, TagTable(t, "floatingips", cluster)) && f.description == FloatingIPDescription(t)
    ensures ForService(f.tags, s) <==> t == s
    ensures ForService(f.tags, s) ==> SelectsFloatingIP(f, s, portID, fipID)
  {
    hide Renders, TagTable, ForService, OwnedByOperator, DescribedFor, PortDescription, FloatingIPDescription;
    TagsIdentify(f.tags, t, "floatingips", cluster, s);
    OwnTextSelects(s);
  }
}
