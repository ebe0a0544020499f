/** The helpers of internal/controller/utils.go that change state: get-modify-update loops and the
    condition list of a load balancer. */
module Helpers {
  import opened Kube
  import opened Worlds
  import opened Calls
  import opened Retry
  import opened Operator
  import opened Client

  /** updateServiceAnnotationWithRetry and updateMultipleServiceAnnotations */
  method UpdateServiceAnnotations(c: Cluster, k: Key, annotations: Annotations) returns (ok: bool)
    modifies c
    ensures Out(c.world, ok) == EditAnnotations(old(c.world), k, annotations, STEPS)
  {
    hide GetService, UpdateService;
    for i := 0 to STEPS
      invariant EditAnnotations(c.world, k, annotations, STEPS - i)
        == EditAnnotations(old(c.world), k, annotations, STEPS)
    {
      var got := GetService(c.world, k);
      c.world := got.w;
      match got.v {
        case Failed =>
        case Missing => return true;
        case Found(current) =>
          var put := UpdateService(c.world, current.(annotations := current.annotations + annotations));
          c.world := put.w;
          match put.v {
            case Written => return true;
            case Conflict =>
            case Rejected => return false;
          }
      }
    }
    return false;
  }

  /** updateServiceExternalIPs */
  method UpdateServiceExternalIPs(c: Cluster, k: Key, ip: string) returns (ok: bool)
    modifies c
    ensures Out(c.world, ok) == AddExternalIP(old(c.world), k, ip, STEPS)
  {
    hide GetService, UpdateService;
    for i := 0 to STEPS
      invariant AddExternalIP(c.world, k, ip, STEPS - i) == AddExternalIP(old(c.world), k, ip, STEPS)
    {
      var got := GetService(c.world, k);
      c.world := got.w;
      match got.v {
        case Failed =>
        case Missing => return true;
        case Found(current) =>
          var ipExists := false;
          for j := 0 to |current.spec.externalIPs|
            invariant c.world == got.w && !ipExists
            invariant ip !in current.spec.externalIPs[..j]
          {
            if current.spec.externalIPs[j] == ip {
              ipExists := true;
              break;
            }
          }
          if ipExists {
            return true;
          }
          var put := UpdateService(c.world,
            current.(spec := current.spec.(externalIPs := current.spec.externalIPs + [ip])));
          c.world := put.w;
          match put.v {
            case Written => return true;
            case Conflict =>
            case Rejected => return false;
          }
      }
    }
    return false;
  }

  /** updateResourceWithRetry, for a service */
  method UpdateServiceWithRetry(c: Cluster, svc: Service) returns (ok: bool)
    modifies c
    ensures Out(c.world, ok) == WriteService(old(c.world), svc, STEPS)
  {
    hide GetService, UpdateService;
    for i := 0 to STEPS
      invariant WriteService(c.world, svc, STEPS - i) == WriteService(old(c.world), svc, STEPS)
    {
      var got := GetService(c.world, svc.key);
      c.world := got.w;
      match got.v {
        case Failed =>
        case Missing => return true;
        case Found(current) =>
          var put := UpdateService(c.world, svc.(version := current.version));
          c.world := put.w;
          match put.v {
            case Written => return true;
            case Conflict =>
            case Rejected => return false;
          }
      }
    }
    return false;
  }

  /** updateResourceWithRetry, for a load balancer */
  method UpdateLBWithRetry(c: Cluster, lb: LoadBalancer) returns (ok: bool)
    modifies c
    ensures Out(c.world, ok) == WriteLB(old(c.world), lb, STEPS)
  {
    hide GetLB, UpdateLB;
    for i := 0 to STEPS
      invariant WriteLB(c.world, lb, STEPS - i) == WriteLB(old(c.world), lb, STEPS)
    {
      var got := GetLB(c.world, lb.key);
      c.world := got.w;
      match got.v {
        case Failed =>
        case Missing => return true;
        case Found(current) =>
          var put := UpdateLB(c.world, lb.(version := current.version));
          c.world := put.w;
          match put.v {
            case Written => return true;
            case Conflict =>
            case Rejected => return false;
          }
      }
    }
    return false;
  }

  /** updateStatusWithRetry */
  method UpdateStatusWithRetry(c: Cluster, lb: LoadBalancer) returns (ok: bool)
    modifies c
    ensures Out(c.world, ok) == WriteStatus(old(c.world), lb.key, lb.status, STEPS)
  {
    hide GetLB, UpdateLBStatus;
    for i := 0 to STEPS
      invariant WriteStatus(c.world, lb.key, lb.status, STEPS - i)
        == WriteStatus(old(c.world), lb.key, lb.status, STEPS)
    {
      var got := GetLB(c.world, lb.key);
      c.world := got.w;
      match got.v {
        case Failed =>
        case Missing => return true;
        case Found(current) =>
          var put := UpdateLBStatus(c.world, current.(status := lb.status));
          c.world := put.w;
          match put.v {
            case Written => return true;
            case Conflict =>
            case Rejected => return false;
          }
      }
    }
    return false;
  }

  /** Where the first condition of the kind stands, and what setting it does. */
  lemma {:induction false} SetConditionAt(cs: seq<Condition>, i: nat, next: Condition)
    requires i < |cs| && cs[i].kind == next.kind && forall j :: 0 <= j < i ==> cs[j].kind != next.kind
    ensures SetCondition(cs, next.kind, next.status, next.reason, next.detail, next.since)
         == if cs[i].status != next.status || cs[i].reason != next.reason || cs[i].detail != next.detail
            then cs[i := next]
            else cs
  {
    if i > 0 {
      SetConditionAt(cs[1..], i - 1, next);
      assert cs == [cs[0]] + cs[1..] && cs[i := next] == [cs[0]] + cs[1..][i - 1 := next];
    } else {
      assert cs[0 := next] == [next] + cs[1..];
    }
  }

  lemma {:induction false} SetConditionMissing(cs: seq<Condition>, next: Condition)
    requires forall j :: 0 <= j < |cs| ==> cs[j].kind != next.kind
    ensures SetCondition(cs, next.kind, next.status, next.reason, next.detail, next.since) == cs + [next]
  {
    if cs != [] {
      SetConditionMissing(cs[1..], next);
      assert cs + [next] == [cs[0]] + (cs[1..] + [next]);
    }
  }

  predicate SaysTheSame(x: Condition, y: Condition) {
    x.kind == y.kind && x.status == y.status && x.reason == y.reason && x.detail == y.detail
  }

  /** Setting a condition concerns one place only, that of the first condition of its kind or a new one
      at the end: it says what was asked for there, keeps its time iff it said so before, and every
      other condition stays. */
  lemma {:induction false} SetConditionExact(cs: seq<Condition>, next: Condition) returns (i: nat)
    ensures i <= |cs| && (forall j :: 0 <= j < i ==> cs[j].kind != next.kind) && (i < |cs| ==> cs[i].kind == next.kind)
    ensures var r := SetCondition(cs, next.kind, next.status, next.reason, next.detail, next.since);
      && |r| == (if i < |cs| then |cs| else |cs| + 1)
      && SaysTheSame(r[i], next)
      && r[i].since == (if i < |cs| && SaysTheSame(cs[i], next) then cs[i].since else next.since)
      && forall j :: 0 <= j < |cs| && j != i ==> r[j] == cs[j]
  {
    hide SetCondition;
    i := 0;
    while i < |cs| && cs[i].kind != next.kind
      invariant i <= |cs| && forall j :: 0 <= j < i ==> cs[j].kind != next.kind
    {
      i := i + 1;
    }
    if i < |cs| {
      SetConditionAt(cs, i, next);
    } else {
      SetConditionMissing(cs, next);
    }
  }

  /** The load balancer object a pass holds in memory, whose status the steps edit. */
  class Draft {
    var lb: LoadBalancer

    constructor (stored: LoadBalancer)
      ensures lb == stored
    {
      lb := stored;
    }
  }

  /** setCondition: the first condition of the kind is replaced in place if it says something else,
      and one is appended if there is none. */
  method SetConditionOn(d: Draft, kind: ConditionKind, status: bool, reason: Reason, detail: seq<string>, now: nat)
    modifies d
    ensures var before := old(d.lb);
      var after := SetCondition(before.status.conditions, kind, status, reason, detail, now);
      d.lb == before.(status := before.status.(conditions := after))
  {
    hide SetCondition;
    ghost var cs := d.lb.status.conditions;
    var entry := Condition(kind, status, reason, detail, now);
    for i := 0 to |d.lb.status.conditions|
      invariant d.lb == old(d.lb) && forall j :: 0 <= j < i ==> cs[j].kind != kind
    {
      var condition := d.lb.status.conditions[i];
      if condition.kind == kind {
        SetConditionAt(cs, i, entry);
        if condition.status != status || condition.reason != reason || condition.detail != detail {
          d.lb := d.lb.(status := d.lb.status.(conditions := d.lb.status.conditions[i := entry]));
        }
        return;
      }
    }
    SetConditionMissing(cs, entry);
    d.lb := d.lb.(status := d.lb.status.(conditions := d.lb.status.conditions + [entry]));
  }
}
