/** Ownership tags: how the operator marks what it creates and recognises it again. */
module Tags {
  import opened Kube

  const MANAGED_BY := "managed-by"
  const MANAGED_BY_VALUE := "openstack-lb-operator"
  const SERVICE_NAMESPACE := "k8s-service-namespace"
  const SERVICE_NAME := "k8s-service-name"
  const CLUSTER_NAME := "k8s-cluster-name"
  const RESOURCE_TYPE := "resource-type"

  function Tag(name: string, value: string): string {
    name + "=" + value
  }

  predicate OwnedByOperator(tags: seq<string>) {
    Tag(MANAGED_BY, MANAGED_BY_VALUE) in tags
  }

  predicate ForService(tags: seq<string>, key: Key) {
    && Tag(SERVICE_NAMESPACE, key.namespace) in tags
    && Tag(SERVICE_NAME, key.name) in tags
  }

  /** The tag table that `CreatePort` and `CreateFloatingIP` build; an empty cluster name is left out. */
  function TagTable(key: Key, resourceType: string, cluster: string): map<string, string> {
    var common := map[
      MANAGED_BY := MANAGED_BY_VALUE,
      SERVICE_NAMESPACE := key.namespace,
      SERVICE_NAME := key.name,
      RESOURCE_TYPE := resourceType];
    if cluster != "" then common[CLUSTER_NAME := cluster] else common
  }

  /** `tags` lists the entries of the table, each once, in any order. */
  ghost predicate Renders(tags: seq<string>, table: map<string, string>) {
    && |tags| == |table|
    && (forall t :: t in tags <==> exists n :: n in table && t == Tag(n, table[n]))
  }

  // ----- The loops of pkg/openstack/common.go -----

  method IsResourceOwnedByOperator(tags: seq<string>) returns (owned: bool)
    ensures owned <==> OwnedByOperator(tags)
  {
    var ownershipTag := Tag(MANAGED_BY, MANAGED_BY_VALUE);
    for i := 0 to |tags|
      invariant ownershipTag !in tags[..i]
    {
      if tags[i] == ownershipTag {
        return true;
      }
    }
    return false;
  }

  method IsResourceForService(tags: seq<string>, key: Key) returns (found: bool)
    ensures found <==> ForService(tags, key)
  {
    var namespaceTag, nameTag := Tag(SERVICE_NAMESPACE, key.namespace), Tag(SERVICE_NAME, key.name);
    var hasNamespace, hasName := false, false;
    for i := 0 to |tags|
      invariant hasNamespace <==> namespaceTag in tags[..i]
      invariant hasName <==> nameTag in tags[..i]
    {
      if tags[i] == namespaceTag {
        hasNamespace := true;
      }
      if tags[i] == nameTag {
        hasName := true;
      }
    }
    return hasNamespace && hasName;
  }

  /** An order in which the entries of a table may be visited. */
  predicate Visits(order: seq<string>, table: map<string, string>) {
    Distinct(order) && (forall n :: n in order ==> n in table) && (forall n :: n in table ==> n in order)
  }

  lemma {:induction false} DistinctSize(order: seq<string>, names: set<string>)
    requires Distinct(order) && forall n :: n in names <==> n in order
    ensures |order| == |names|
  {
    if order == [] {
      assert names == {};
    } else {
      var last := |order| - 1;
      DistinctSize(order[..last], names - {order[last]});
    }
  }

  lemma InOrderRenders(tags: seq<string>, table: map<string, string>, order: seq<string>)
    requires Visits(order, table) && |tags| == |order|
    requires forall i :: 0 <= i < |order| ==> tags[i] == Tag(order[i], table[order[i]])
    ensures Renders(tags, table)
  {
    hide Tag;
    DistinctSize(order, table.Keys);
    assert |table| == |table.Keys|;
    forall n | n in table ensures Tag(n, table[n]) in tags {
      var i :| 0 <= i < |order| && order[i] == n;
      assert tags[i] == Tag(n, table[n]);
    }
  }

  /** The entries come in whatever order the runtime visits them. */
  method ConvertMapToTags(table: map<string, string>, order: seq<string>) returns (tags: seq<string>)
    requires Visits(order, table)
    ensures |tags| == |order| && forall i :: 0 <= i < |order| ==> tags[i] == Tag(order[i], table[order[i]])
    ensures Renders(tags, table)
  {
    hide Tag, Renders;
    tags := [];
    for i := 0 to |order|
      invariant |tags| == i && forall j :: 0 <= j < i ==> tags[j] == Tag(order[j], table[order[j]])
    {
      tags := tags + [Tag(order[i], table[order[i]])];
    }
    InOrderRenders(tags, table, order);
  }
}
