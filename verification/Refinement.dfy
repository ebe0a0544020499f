/** The get-modify-update helpers are atomic edits: whatever the others write in between and
    however old the object is that a read shows, a successful call changed the object stored at
    one moment, and only in the part it set out to change. */
module Refinement {
  import opened Kube
  import opened Cloud
  import opened Worlds
  import opened Calls
  import opened Retry
  import opened Evolution
  import opened Passes

  /** One edit of one stored service at the moment `mid`. */
  ghost predicate Commits(mid: World, after: World, k: Key, edited: Service) {
    && k in mid.services.objects
    && edited.key == k && edited.uid == mid.services.objects[k].uid
    && after == mid.(services := Replace(mid.services, edited))
  }

  lemma ReadWrite(w: World, k: Key, got: World)
    requires WF(w) && got == Tick(w)
    ensures WF(got) && Others(w, got) && WF(Tick(got)) && Others(got, Tick(got)) && Others(w, Tick(got))
  {
    hide WF, Others, Tick;
    TickOthers(w);
    TickOthers(got);
    OthersTransitive(w, got, Tick(got));
  }

  /** An update of a version the store has held goes through exactly on that version. */
  lemma UpdateCommits(w: World, base: Service, o: Service)
    requires WF(w) && Known(w.services, base) && o.key == base.key && o.version == base.version && o.uid == base.uid
    ensures var u, mid := UpdateService(w, o), Tick(w);
      if u.v == Written
      then base.key in mid.services.objects && mid.services.objects[base.key] == base
           && u.w == mid.(services := Replace(mid.services, Merge(base, o)))
      else u.w == mid
  {
    hide Tick, Flow, Marked, ValidCloud, OneBound, Replace, Drifts;
    TickOthers(w);
    OthersKnow(w, Tick(w), base);
  }

  /** The part of an annotation edit's contract that speaks of a call that wrote nothing. */
  ghost predicate Unwritten(mid: World, after: World, k: Key, current: bool) {
    after == mid && (current ==> k !in mid.services.objects)
  }

  function Annotated(o: Service, edits: Annotations): Service {
    o.(annotations := o.annotations + edits)
  }

  lemma {:induction false} EditAnnotationsAtomic(w: World, k: Key, edits: Annotations, n: nat) returns (mid: World)
    requires WF(w)
    ensures WF(mid) && Others(w, mid)
    ensures var r := EditAnnotations(w, k, edits, n);
      if r.v
      then || Unwritten(mid, r.w, k, Fresh(w.script))
           || (k in mid.services.objects && Commits(mid, r.w, k, Annotated(mid.services.objects[k], edits)))
      else r.w == mid
    decreases n
  {
    hide WF, Others, Tick, Flow, StoresEvolve, CloudEvolves, Spares, GetService, UpdateService, Replace, Fresh;
    if n == 0 {
      mid := w;
      OthersReflexive(w);
    } else {
      var got := GetService(w, k);
      GetServiceFacts(w, k, Scope({}, {}, {}, {}, false));
      ReadWrite(w, k, got.w);
      match got.v {
        case Failed =>
          mid := EditAnnotationsAtomic(got.w, k, edits, n - 1);
          OthersTransitive(w, got.w, mid);
          FlowRules(w, got.w);
        case Missing =>
          mid := got.w;
        case Found(o) =>
          UpdateCommits(got.w, o, Annotated(o, edits));
          var put := UpdateService(got.w, Annotated(o, edits));
          mid := Tick(got.w);
          if put.v == Conflict {
            mid := EditAnnotationsAtomic(put.w, k, edits, n - 1);
            OthersTransitive(w, put.w, mid);
            OthersFresh(w, put.w);
          }
      }
    }
  }

  lemma OthersReflexive(w: World)
    requires WF(w)
    ensures Others(w, w)
  {
    hide Valid, Marked, OneBound, Fresh, Quiet, TagsReadable, Moves;
    MovesReflexive(w.rules.services, w.services);
    MovesReflexive(w.rules.lbs, w.lbs);
  }

  lemma OthersFresh(a: World, b: World)
    requires Others(a, b)
    ensures Fresh(a.script) ==> Fresh(b.script)
    ensures a.rules == b.rules
  {
    hide Moves, Drifts, Fresh, Quiet, TagsReadable;
  }

  function Exposed(o: Service, ip: string): Service {
    o.(spec := o.spec.(externalIPs := o.spec.externalIPs + [ip]))
  }

  /** A call that adds an external IP writes nothing only when it was shown no object, or one
      that lists the IP already. */
  lemma {:induction false} AddExternalIPAtomic(w: World, k: Key, ip: string, n: nat) returns (mid: World)
    requires WF(w)
    ensures WF(mid) && Others(w, mid)
    ensures var r := AddExternalIP(w, k, ip, n);
      if r.v
      then || (r.w == mid && (Fresh(w.script) && k in mid.services.objects ==>
        ip in mid.services.objects[k].spec.externalIPs))
           || (&& k in mid.services.objects && ip !in mid.services.objects[k].spec.externalIPs
               && Commits(mid, r.w, k, Exposed(mid.services.objects[k], ip)))
      else r.w == mid
    decreases n
  {
    hide WF, Others, Tick, Flow, StoresEvolve, CloudEvolves, Spares, GetService, UpdateService, Replace, Fresh;
    if n == 0 {
      mid := w;
      OthersReflexive(w);
    } else {
      var got := GetService(w, k);
      GetServiceFacts(w, k, Scope({}, {}, {}, {}, false));
      ReadWrite(w, k, got.w);
      match got.v {
        case Failed =>
          mid := AddExternalIPAtomic(got.w, k, ip, n - 1);
          OthersTransitive(w, got.w, mid);
          FlowRules(w, got.w);
        case Missing =>
          mid := got.w;
        case Found(o) =>
          mid := got.w;
          if ip !in o.spec.externalIPs {
            UpdateCommits(got.w, o, Exposed(o, ip));
            var put := UpdateService(got.w, Exposed(o, ip));
            mid := Tick(got.w);
            if put.v == Conflict {
              mid := AddExternalIPAtomic(put.w, k, ip, n - 1);
              OthersTransitive(w, put.w, mid);
              OthersFresh(w, put.w);
            }
          }
      }
    }
  }

  /** The call ended because a read showed no object, so that it wrote nothing and reported success. */
  ghost predicate Missed(w: World, o: Service, n: nat)
    decreases n
  {
    n > 0 &&
      var got := GetService(w, o.key);
      match got.v {
        case Failed => Missed(got.w, o, n - 1)
        case Missing => true
        case Found(current) =>
          var put := UpdateService(got.w, o.(version := current.version));
          put.v == Conflict && Missed(put.w, o, n - 1)
      }
  }

  /** updateResourceWithRetry writes the caller's whole copy onto the object stored at one moment,
      which is the very object the copy was taken from; or a read showed no object. */
  lemma {:induction false} WriteServiceAtomic(w: World, o: Service, n: nat) returns (mid: World)
    requires WF(w)
    ensures WF(mid) && Others(w, mid)
    ensures var r := WriteService(w, o, n);
      if Missed(w, o, n) then r.v && Unwritten(mid, r.w, o.key, Fresh(w.script))
      else if r.v
      then && o.key in mid.services.objects && mid.services.objects[o.key].uid == o.uid
           && Commits(mid, r.w, o.key, Merge(mid.services.objects[o.key], o))
      else r.w == mid
    decreases n
  {
    hide WF, Others, Tick, Flow, StoresEvolve, CloudEvolves, Spares, GetService, UpdateService, Replace, Fresh;
    if n == 0 {
      mid := w;
      OthersReflexive(w);
    } else {
      var got := GetService(w, o.key);
      GetServiceFacts(w, o.key, Scope({}, {}, {}, {}, false));
      ReadWrite(w, o.key, got.w);
      match got.v {
        case Failed =>
          mid := WriteServiceAtomic(got.w, o, n - 1);
          OthersTransitive(w, got.w, mid);
          FlowRules(w, got.w);
        case Missing =>
          mid := got.w;
        case Found(current) =>
          var e := o.(version := current.version);
          var put := UpdateService(got.w, e);
          mid := Tick(got.w);
          UpdateWrites(got.w, e);
          if put.v == Conflict {
            mid := WriteServiceAtomic(put.w, o, n - 1);
            OthersTransitive(w, put.w, mid);
            OthersFresh(w, put.w);
          }
      }
    }
  }

  lemma UpdateWrites(w: World, e: Service)
    requires WF(w)
    ensures var u, mid := UpdateService(w, e), Tick(w);
      if u.v == Written
      then && e.key in mid.services.objects && mid.services.objects[e.key].uid == e.uid
           && mid.services.objects[e.key].key == e.key
           && u.w == mid.(services := Replace(mid.services, Merge(mid.services.objects[e.key], e)))
      else u.w == mid
  {
    hide Tick, Flow, Marked, ValidCloud, OneBound, Replace, Drifts, Moves, Valid;
  }

  /** One status write, or one full write, of one stored load balancer at the moment `mid`. */
  ghost predicate CommitsLB(mid: World, after: World, k: Key, edited: LoadBalancer) {
    && k in mid.lbs.objects
    && edited.key == k && edited.uid == mid.lbs.objects[k].uid
    && after == mid.(lbs := Replace(mid.lbs, edited))
  }

  lemma UpdateLBWrites(w: World, e: LoadBalancer)
    requires WF(w)
    ensures var u, mid := UpdateLB(w, e), Tick(w);
      if u.v == Written
      then && e.key in mid.lbs.objects && mid.lbs.objects[e.key].uid == e.uid && mid.lbs.objects[e.key].key == e.key
           && u.w == mid.(lbs := Replace(mid.lbs, Merge(mid.lbs.objects[e.key], e)))
      else u.w == mid
    ensures var u, mid := UpdateLBStatus(w, e), Tick(w);
      if u.v == Written
      then && e.key in mid.lbs.objects && mid.lbs.objects[e.key].uid == e.uid && mid.lbs.objects[e.key].key == e.key
           && u.w == mid.(lbs := Replace(mid.lbs, mid.lbs.objects[e.key].(status := e.status)))
      else u.w == mid
  {
    hide Tick, Flow, Marked, ValidCloud, OneBound, Replace, Drifts, Moves, Valid;
  }

  lemma {:induction false} WriteStatusAtomic(w: World, k: Key, status: LBStatus, n: nat) returns (mid: World)
    requires WF(w)
    ensures WF(mid) && Others(w, mid)
    ensures var r := WriteStatus(w, k, status, n);
      if r.v
      then || (r.w == mid && (Fresh(w.script) ==> k !in mid.lbs.objects))
           || (k in mid.lbs.objects && CommitsLB(mid, r.w, k, mid.lbs.objects[k].(status := status)))
      else r.w == mid
    decreases n
  {
    hide WF, Others, Tick, Flow, StoresEvolve, CloudEvolves, Spares, GetLB, UpdateLBStatus, Replace, Fresh;
    if n == 0 {
      mid := w;
      OthersReflexive(w);
    } else {
      var got := GetLB(w, k);
      GetLBFacts(w, k, Scope({}, {}, {}, {}, false));
      ReadWrite(w, k, got.w);
      match got.v {
        case Failed =>
          mid := WriteStatusAtomic(got.w, k, status, n - 1);
          OthersTransitive(w, got.w, mid);
          FlowRules(w, got.w);
        case Missing =>
          mid := got.w;
        case Found(current) =>
          var e := current.(status := status);
          var put := UpdateLBStatus(got.w, e);
          mid := Tick(got.w);
          UpdateLBWrites(got.w, e);
          if put.v == Conflict {
            mid := WriteStatusAtomic(put.w, k, status, n - 1);
            OthersTransitive(w, put.w, mid);
            OthersFresh(w, put.w);
          }
      }
    }
  }

  lemma {:induction false} WriteLBAtomic(w: World, o: LoadBalancer, n: nat) returns (mid: World)
    requires WF(w)
    ensures WF(mid) && Others(w, mid)
    ensures var r := WriteLB(w, o, n);
      if r.v
      then || (r.w == mid && (Fresh(w.script) ==> o.key !in mid.lbs.objects))
           || (&& o.key in mid.lbs.objects && mid.lbs.objects[o.key].uid == o.uid
               && CommitsLB(mid, r.w, o.key, Merge(mid.lbs.objects[o.key], o)))
      else r.w == mid
    decreases n
  {
    hide WF, Others, Tick, Flow, StoresEvolve, CloudEvolves, Spares, GetLB, UpdateLB, Replace, Fresh;
    if n == 0 {
      mid := w;
      OthersReflexive(w);
    } else {
      var got := GetLB(w, o.key);
      GetLBFacts(w, o.key, Scope({}, {}, {}, {}, false));
      ReadWrite(w, o.key, got.w);
      match got.v {
        case Failed =>
          mid := WriteLBAtomic(got.w, o, n - 1);
          OthersTransitive(w, got.w, mid);
          FlowRules(w, got.w);
        case Missing =>
          mid := got.w;
        case Found(current) =>
          var e := o.(version := current.version);
          var put := UpdateLB(got.w, e);
          mid := Tick(got.w);
          UpdateLBWrites(got.w, e);
          if put.v == Conflict {
            mid := WriteLBAtomic(put.w, o, n - 1);
            OthersTransitive(w, put.w, mid);
            OthersFresh(w, put.w);
          }
      }
    }
  }
}
