/** Port accounting: of the ports made for a service object that still lives, one is on record at
    most, and each of the others goes back to a creation whose reply failed or to a record that
    could not be written. */
module Accounting {
  import opened Kube
  import opened Cloud
  import opened Selection
  import opened Worlds
  import opened Calls
  import opened Retry
  import opened Operator
  import opened Evolution
  import opened Refinement

  /** The port is on record with the living object it was made for. */
  ghost predicate Records(w: World, id: string) {
    && id in w.log.made && Lives(w, w.log.made[id])
    && Annotation(w.services.objects[w.log.made[id].key], PortID) == id
  }

  /** Every live port made for a living object is on record with it or among its strays. */
  ghost predicate Accounted(w: World) {
    forall id :: id in w.log.made && id in w.cloud.ports && Lives(w, w.log.made[id]) ==>
      Records(w, id) || id in StraysOf(w.log, w.log.made[id])
  }

  /** No object has more strays than mishaps, but for one more where a port is being made. */
  ghost predicate Bounded(log: Log, making: set<Owner>) {
    forall o :: |StraysOf(log, o)| <= MishapsOf(log, o) + if o in making then 1 else 0
  }

  ghost predicate Dated(w: World, bound: nat) {
    bound <= w.services.clock && forall id :: id in w.log.made ==> w.log.made[id].uid <= bound
  }

  /** Nobody else edits the records. */
  ghost predicate Setting(w: World) {
    WF(w) && w.rules.services.annotations
  }

  ghost predicate Books(w: World, bound: nat, making: set<Owner>) {
    Setting(w) && Accounted(w) && Bounded(w.log, making) && Dated(w, bound)
  }

  // ----- Steps that make no port -----

  /** A step that keeps live records, strays and mishaps, and makes no port. */
  ghost predicate Tame(a: World, b: World) {
    && (forall id :: id in a.log.made && id in b.cloud.ports && Records(a, id) && Lives(b, a.log.made[id]) ==>
           Records(b, id))
    && (forall o :: StraysOf(b.log, o) == StraysOf(a.log, o) && MishapsOf(b.log, o) == MishapsOf(a.log, o))
    && (forall id :: id in b.log.made && id !in a.log.made ==> id !in b.cloud.ports)
  }

  /** A living object of old was living before. */
  lemma LivedBefore(a: World, b: World, sc: Scope, o: Owner)
    requires Evolves(a, b, sc) && Lives(b, o) && o.uid <= a.services.clock
    ensures Lives(a, o)
  {
    hide WF, Flow, CloudEvolves, Spares, KeepsFinalizers, KeepsRecords, KeepsStatus, SameOutside;
  }

  lemma LivePortBefore(a: World, b: World, sc: Scope, id: string)
    requires WF(a) && Evolves(a, b, sc) && id in a.log.made
    ensures id in b.log.made && b.log.made[id] == a.log.made[id] && (id in b.cloud.ports ==> id in a.cloud.ports)
    ensures a.services.clock <= b.services.clock
  {
    hide Valid, ValidCloud, OneBound, Flow, Spares, KeepsFinalizers, KeepsRecords, KeepsStatus, SameOutside, Unbinds;
    hide KeepsLive;
    hide PortName, PortDescription, FloatingIPDescription;
  }

  lemma TameTransitive(a: World, b: World, c: World, s1: Scope, s2: Scope, bound: nat)
    requires WF(a) && WF(b) && Dated(a, bound) && Evolves(a, b, s1) && Evolves(b, c, s2) && Tame(a, b) && Tame(b, c)
    ensures Tame(a, c)
  {
    hide WF, Evolves, StraysOf, MishapsOf;
    forall id | id in a.log.made && id in c.cloud.ports && Records(a, id) && Lives(c, a.log.made[id])
      ensures Records(c, id)
    {
      LivePortBefore(a, b, s1, id);
      LivePortBefore(b, c, s2, id);
      LivedBefore(b, c, s2, a.log.made[id]);
    }
    forall id | id in c.log.made && id !in a.log.made ensures id !in c.cloud.ports {
      if id in b.log.made {
        LivePortBefore(b, c, s2, id);
      }
    }
  }

  /** A tame step keeps the books. */
  lemma BooksStep(a: World, b: World, sc: Scope, bound: nat, making: set<Owner>)
    requires Books(a, bound, making) && Evolves(a, b, sc) && Tame(a, b) && forall o :: o in sc.owners ==> o.uid <= bound
    ensures Books(b, bound, making)
  {
    hide WF, Evolves, StraysOf, MishapsOf, Fresh;
    EvolvesSetting(a, b, sc);
    forall id | id in b.log.made && id in b.cloud.ports && Lives(b, b.log.made[id])
      ensures Records(b, id) || id in StraysOf(b.log, b.log.made[id])
    {
      LivePortBefore(a, b, sc, id);
      LivedBefore(a, b, sc, b.log.made[id]);
    }
    EvolvesDated(a, b, sc, bound);
  }

  lemma EvolvesSetting(a: World, b: World, sc: Scope)
    requires Setting(a) && Evolves(a, b, sc)
    ensures Setting(b)
  {
    hide WF, StoresEvolve, CloudEvolves, Spares, Fresh, Quiet, TagsReadable;
  }

  lemma EvolvesDated(a: World, b: World, sc: Scope, bound: nat)
    requires Evolves(a, b, sc) && Dated(a, bound) && forall o :: o in sc.owners ==> o.uid <= bound
    ensures Dated(b, bound)
  {
    hide WF, Flow, Spares, KeepsFinalizers, KeepsRecords, KeepsStatus, SameOutside, Unbinds, KeepsLive, Ages, StraysOf;
    hide MishapsOf;
  }

  /** A step that writes no service and makes nothing is tame. */
  lemma SilentTame(a: World, b: World, sc: Scope)
    requires Setting(a) && Evolves(a, b, sc) && sc.keys == {} && sc.owners == {}
    ensures Tame(a, b)
  {
    hide WF, Flow, Spares, KeepsFinalizers, KeepsStatus, SameOutside, Unbinds, KeepsLive, Ages, StraysOf, MishapsOf;
    hide SameOrNew, Quiet, Fresh;
  }

  lemma BooksSilent(a: World, b: World, sc: Scope, bound: nat, making: set<Owner>)
    requires Books(a, bound, making) && Evolves(a, b, sc) && sc.keys == {} && sc.owners == {}
    ensures Books(b, bound, making)
  {
    hide Setting, Accounted, Bounded, Dated, Evolves, Tame;
    SilentTame(a, b, sc);
    BooksStep(a, b, sc, bound, making);
  }

  // ----- Snapshots -----

  /** The snapshot still shows the record of the object stored, or that object is newer than
      anything made so far. */
  ghost predicate Tracks(w: World, svc: Service, bound: nat) {
    && svc.uid <= bound
    && (svc.key in w.services.objects ==>
          || (w.services.objects[svc.key].uid == svc.uid
                 && Annotation(w.services.objects[svc.key], PortID) == Annotation(svc, PortID))
          || w.services.objects[svc.key].uid > bound)
  }

  lemma TracksStays(a: World, b: World, sc: Scope, svc: Service, bound: nat)
    requires Setting(a) && Evolves(a, b, sc) && svc.key !in sc.keys && Dated(a, bound) && Tracks(a, svc, bound)
    ensures Tracks(b, svc, bound)
  {
    hide WF, Flow, Spares, KeepsFinalizers, KeepsStatus, SameOutside, CloudEvolves, Quiet, Fresh;
  }

  /** No live port is on record under the key. */
  ghost predicate Spent(w: World, k: Key) {
    forall id :: id in w.log.made && w.log.made[id].key == k && Records(w, id) ==> id !in w.cloud.ports
  }

  lemma TracksSpent(w: World, svc: Service, bound: nat)
    requires Tracks(w, svc, bound) && Dated(w, bound) && Annotation(svc, PortID) !in w.cloud.ports
    ensures Spent(w, svc.key)
  {
    hide Annotation;
  }

  lemma SpentStays(a: World, b: World, sc: Scope, k: Key, bound: nat)
    requires Setting(a) && Evolves(a, b, sc) && sc.keys == {} && sc.owners == {} && Dated(a, bound) && Spent(a, k)
    ensures Spent(b, k)
  {
    hide WF, Evolves, Annotation;
    forall id | id in b.log.made && b.log.made[id].key == k && Records(b, id) ensures id !in b.cloud.ports {
      assert id in a.log.made by { MadeBefore(a, b, sc, id); }
      LivePortBefore(a, b, sc, id);
      LivedBefore(a, b, sc, b.log.made[id]);
      SameRecord(a, b, sc, k);
    }
  }

  lemma MadeBefore(a: World, b: World, sc: Scope, id: string)
    requires Evolves(a, b, sc) && sc.owners == {} && id in b.log.made
    ensures id in a.log.made
  {
    hide WF, Flow, Spares, StoresEvolve, Unbinds, KeepsLive, Ages, StraysOf, MishapsOf;
  }

  lemma SameRecord(a: World, b: World, sc: Scope, k: Key)
    requires Setting(a) && Evolves(a, b, sc) && k !in sc.keys && k in a.services.objects && k in b.services.objects
    requires a.services.objects[k].uid == b.services.objects[k].uid
    ensures Annotation(a.services.objects[k], PortID) == Annotation(b.services.objects[k], PortID)
  {
    hide WF, Flow, Spares, KeepsFinalizers, KeepsStatus, SameOutside, CloudEvolves, SameOrNew, Quiet, Fresh;
  }

  // ----- Writes of a service -----

  /** One write that keeps the record, or finds none that matters. */
  lemma CommitTame(mid: World, edited: Service)
    requires WF(mid) && edited.key in mid.services.objects && edited.uid == mid.services.objects[edited.key].uid
    requires Annotation(edited, PortID) == Annotation(mid.services.objects[edited.key], PortID)
      || Spent(mid, edited.key)
    ensures Tame(mid, mid.(services := Replace(mid.services, edited)))
  {
    hide Valid, ValidCloud, Marked, OneBound, Replace, StraysOf, MishapsOf;
    ReplaceOutside(mid.services, edited, {edited.key});
    var after := mid.(services := Replace(mid.services, edited));
    forall id | id in mid.log.made && id in after.cloud.ports && Records(mid, id) && Lives(after, mid.log.made[id])
      ensures Records(after, id)
    {
      var k := mid.log.made[id].key;
      assert k != edited.key ==> Current(mid.services, k) == Current(after.services, k);
    }
  }

  lemma CommitTracks(mid: World, edited: Service, svc: Service, bound: nat)
    requires WF(mid) && edited.key in mid.services.objects && edited.uid == mid.services.objects[edited.key].uid
    requires Annotation(edited, PortID) == Annotation(mid.services.objects[edited.key], PortID)
    requires Tracks(mid, svc, bound)
    ensures Tracks(mid.(services := Replace(mid.services, edited)), svc, bound)
  {
    hide Valid, ValidCloud, Marked, OneBound, Replace;
    ReplaceOutside(mid.services, edited, {edited.key});
    assert svc.key != edited.key ==> Current(mid.services, svc.key) == Current(Replace(mid.services, edited), svc.key);
  }

  /** The others, then one write. */
  lemma WrittenTame(w: World, mid: World, edited: Service, bound: nat)
    requires Setting(w) && Dated(w, bound) && WF(mid) && Others(w, mid)
    requires edited.key in mid.services.objects && edited.uid == mid.services.objects[edited.key].uid
    requires mid.services.objects[edited.key].terminating ==> edited.terminating
    requires Annotation(edited, PortID) == Annotation(mid.services.objects[edited.key], PortID) || Spent(w, edited.key)
    ensures Tame(w, mid.(services := Replace(mid.services, edited)))
  {
    hide WF, Others, Evolves, Tame, Replace, Spent, Annotation;
    var none := Scope({}, {}, {}, {}, false);
    var sc := Scope({edited.key}, {edited.key}, {}, {}, false);
    OthersEvolve(w, mid, none);
    SilentTame(w, mid, none);
    if Spent(w, edited.key) {
      SpentStays(w, mid, none, edited.key, bound);
    }
    CommitTame(mid, edited);
    ServicesEvolve(mid, edited, sc);
    TameTransitive(w, mid, mid.(services := Replace(mid.services, edited)), none, sc, bound);
  }

  lemma OthersTame(w: World, mid: World, bound: nat)
    requires Setting(w) && Dated(w, bound) && WF(mid) && Others(w, mid)
    ensures Tame(w, mid) && forall svc :: Tracks(w, svc, bound) ==> Tracks(mid, svc, bound)
  {
    hide WF, Others, Evolves, Tame, Tracks;
    var none := Scope({}, {}, {}, {}, false);
    OthersEvolve(w, mid, none);
    SilentTame(w, mid, none);
    forall svc | Tracks(w, svc, bound) ensures Tracks(mid, svc, bound) {
      TracksStays(w, mid, none, svc, bound);
    }
  }

  lemma EditTame(w: World, k: Key, edits: Annotations, n: nat, bound: nat)
    requires Setting(w) && Dated(w, bound) && (PortID !in edits || Spent(w, k))
    ensures Tame(w, EditAnnotations(w, k, edits, n).w)
    ensures PortID !in edits ==> forall svc :: Tracks(w, svc, bound) ==>
      Tracks(EditAnnotations(w, k, edits, n).w, svc, bound)
  {
    hide WF, Others, EditAnnotations, Tame, Tracks, Replace, Spent, Fresh;
    var mid := EditAnnotationsAtomic(w, k, edits, n);
    var r := EditAnnotations(w, k, edits, n);
    OthersTame(w, mid, bound);
    if r.w != mid {
      var e := Annotated(mid.services.objects[k], edits);
      WrittenTame(w, mid, e, bound);
      if PortID !in edits {
        forall svc | Tracks(w, svc, bound) ensures Tracks(r.w, svc, bound) {
          CommitTracks(mid, e, svc, bound);
        }
      }
    }
  }

  lemma ExposeTame(w: World, k: Key, ip: string, n: nat, bound: nat)
    requires Setting(w) && Dated(w, bound)
    ensures Tame(w, AddExternalIP(w, k, ip, n).w)
  {
    hide WF, Others, AddExternalIP, Tame, Tracks, Replace, Spent, Fresh;
    var mid := AddExternalIPAtomic(w, k, ip, n);
    OthersTame(w, mid, bound);
    if AddExternalIP(w, k, ip, n).w != mid {
      WrittenTame(w, mid, Exposed(mid.services.objects[k], ip), bound);
    }
  }

  /** Writing a whole snapshot keeps the record, because the snapshot still shows it. */
  lemma WriteTame(w: World, o: Service, n: nat, bound: nat)
    requires Setting(w) && Dated(w, bound) && Tracks(w, o, bound)
    ensures Tame(w, WriteService(w, o, n).w) && Tracks(WriteService(w, o, n).w, o, bound)
  {
    hide WF, Others, WriteService, Tame, Replace, Spent, Fresh, Annotation;
    var mid := WriteServiceAtomic(w, o, n);
    OthersTame(w, mid, bound);
    if WriteService(w, o, n).w != mid {
      var e := Merge(mid.services.objects[o.key], o);
      assert Annotation(e, PortID) == Annotation(o, PortID) by { MergeRecord(mid.services.objects[o.key], o); }
      WrittenTame(w, mid, e, bound);
      CommitTracks(mid, e, o, bound);
    }
  }

  lemma MergeRecord(stored: Service, o: Service)
    ensures Annotation(Merge(stored, o), PortID) == Annotation(o, PortID)
  {
  }

  lemma ForcedTame(w: World, svc: Service, bound: nat)
    requires Setting(w) && Dated(w, bound)
    ensures Tame(w, Forced(w, svc).w)
  {
    hide WF, Others, Tame, Replace, Spent, Fresh, Tick, Tracks;
    TickOthers(w);
    var t := Tick(w);
    OthersTame(w, t, bound);
    TameReflexive(w);
    var f := Forced(w, svc);
    if svc.terminating {
      if f.v == DONE {
        WrittenTame(w, t, t.services.objects[svc.key].(finalizers := []), bound);
      } else {
        TameLog(w, t, f.w);
      }
    }
  }

  lemma TameReflexive(w: World)
    ensures Tame(w, w)
  {
  }

  lemma TameLog(w: World, t: World, f: World)
    requires Tame(w, t) && f.services == t.services && f.cloud == t.cloud && f.log.made == t.log.made
    requires f.log.strays == t.log.strays && f.log.mishaps == t.log.mishaps
    ensures Tame(w, f)
  {
  }
}
