/** The Kubernetes API server as the operator sees it: one store for each kind of object, with
    resource versions, unique ids, finalizers and annotations.  Every version of an object stays
    in `history`, because a client that reads through a lagging cache may still be shown it. */
module Kube {

  datatype Option<+T> = None | Some(value: T)

  datatype Key = Key(namespace: string, name: string)

  datatype Finalizer = ServiceFinalizer | LoadBalancerFinalizer | OtherFinalizer(name: string)

  datatype AnnotationName =
    | LoadBalancerClass
    | PortID
    | FloatingIPID
    | CredentialsSecretName
    | CredentialsSecretNamespace
    | OtherAnnotation(name: string)

  type Annotations = map<AnnotationName, string>

  datatype Object<+S, +T> = Object(
    key: Key,
    uid: nat,
    version: nat,
    terminating: bool,
    finalizers: seq<Finalizer>,
    annotations: Annotations,
    spec: S,
    status: T)

  /** The value of an annotation; a missing annotation reads as the empty string. */
  function Annotation<S, T>(o: Object<S, T>, name: AnnotationName): string {
    if name in o.annotations then o.annotations[name] else ""
  }

  function AddFinalizer(fs: seq<Finalizer>, f: Finalizer): seq<Finalizer> {
    if f in fs then fs else fs + [f]
  }

  function RemoveFinalizer(fs: seq<Finalizer>, f: Finalizer): (r: seq<Finalizer>)
    ensures f !in r
    ensures forall g :: g != f ==> (g in r <==> g in fs)
    ensures f !in fs ==> r == fs
  {
    if fs == [] then [] else
      var rest := RemoveFinalizer(fs[1..], f);
      if fs[0] == f then rest else [fs[0]] + rest
  }

  datatype Store<!S, !T> = Store(
    objects: map<Key, Object<S, T>>,
    names: seq<Key>,
    history: map<nat, Object<S, T>>,
    clock: nat)

  predicate Distinct<X(==)>(s: seq<X>) {
    forall i, j :: 0 <= i < j < |s| ==> s[i] != s[j]
  }

  ghost predicate Valid<S, T>(s: Store<S, T>) {
    && Distinct(s.names)
    && (forall k :: k in s.objects ==>
          && k in s.names
          && s.objects[k].key == k
          && s.objects[k].uid <= s.objects[k].version <= s.clock
          && s.objects[k].version in s.history
          && s.history[s.objects[k].version] == s.objects[k]
          && !(s.objects[k].terminating && s.objects[k].finalizers == []))
    && (forall v :: v in s.history ==> s.history[v].uid <= v <= s.clock && s.history[v].version == v)
  }

  // ----- Writes -----

  /** Stores an object under the next resource version. */
  function Put<S, T>(s: Store<S, T>, o: Object<S, T>): Store<S, T> {
    var stamped := o.(version := s.clock + 1);
    Store(
      s.objects[o.key := stamped],
      if o.key in s.names then s.names else s.names + [o.key],
      s.history[s.clock + 1 := stamped],
      s.clock + 1)
  }

  /** A terminating object disappears when its last finalizer goes. */
  function Settle<S, T>(s: Store<S, T>, o: Object<S, T>): Store<S, T> {
    if o.terminating && o.finalizers == [] then s.(objects := s.objects - {o.key}) else Put(s, o)
  }

  /** Replaces the stored object; writing back an identical object changes nothing. */
  function Replace<S(==), T(==)>(s: Store<S, T>, o: Object<S, T>): Store<S, T>
    requires o.key in s.objects
  {
    if s.objects[o.key] == o then s else Settle(s, o)
  }

  datatype Reply = Written | Conflict | Rejected

  /** What a full update keeps of the stored object and what it takes from the caller's copy:
      the status and the deletion mark are not the caller's to write. */
  function Merge<S, T>(stored: Object<S, T>, o: Object<S, T>): Object<S, T> {
    stored.(finalizers := o.finalizers, annotations := o.annotations, spec := o.spec)
  }

  /** `Update`: refused unless version and unique id are those of the stored object. */
  function Update<S(==), T(==)>(s: Store<S, T>, o: Object<S, T>): (Store<S, T>, Reply) {
    if o.key !in s.objects then (s, Rejected) else
      var stored := s.objects[o.key];
      if stored.version != o.version || stored.uid != o.uid || stored.key != o.key then (s, Conflict)
      else (Replace(s, Merge(stored, o)), Written)
  }

  /** `Status().Update`: writes the status and nothing else. */
  function UpdateStatus<S(==), T(==)>(s: Store<S, T>, o: Object<S, T>): (Store<S, T>, Reply) {
    if o.key !in s.objects then (s, Rejected) else
      var stored := s.objects[o.key];
      if stored.version != o.version || stored.uid != o.uid || stored.key != o.key then (s, Conflict)
      else (Replace(s, stored.(status := o.status)), Written)
  }

  /** The patch `{"metadata":{"finalizers":null}}`. */
  function ClearFinalizers<S(==), T(==)>(s: Store<S, T>, k: Key): (Store<S, T>, Reply) {
    if k !in s.objects || s.objects[k].key != k then (s, Rejected)
    else (Replace(s, s.objects[k].(finalizers := [])), Written)
  }

  // ----- Reads -----

  /** How far a cached read lags behind the store for one key. */
  datatype Lag = Unseen | AsOf(version: nat)

  type View = map<Key, Lag>

  function Current<S, T>(s: Store<S, T>, k: Key): Option<Object<S, T>> {
    if k in s.objects then Some(s.objects[k]) else None
  }

  function Read<S, T>(s: Store<S, T>, k: Key, view: View): Option<Object<S, T>> {
    if k !in view then Current(s, k)
    else match view[k] {
      case Unseen => None
      case AsOf(v) => if v in s.history && s.history[v].key == k then Some(s.history[v]) else Current(s, k)
    }
  }

  function Listing<S, T>(s: Store<S, T>, names: seq<Key>, view: View): seq<Object<S, T>> {
    if names == [] then [] else
      var rest := Listing(s, names[1..], view);
      match Read(s, names[0], view) {
        case None => rest
        case Some(o) => [o] + rest
      }
  }

  // ----- The other writers -----

  /** What the other writers of a store leave alone: one finalizer, the two resource annotations,
      the status. */
  datatype Guard = Guard(finalizer: Option<Finalizer>, annotations: bool, status: bool)

  /** The object carries the finalizer that the other writers never strip. */
  predicate Held<S, T>(g: Guard, o: Object<S, T>) {
    g.finalizer.Some? && g.finalizer.value in o.finalizers
  }

  predicate Respects<S, T(==)>(g: Guard, x: Object<S, T>, y: Object<S, T>) {
    && (Held(g, x) ==> Held(g, y))
    && (g.annotations ==>
          Annotation(x, PortID) == Annotation(y, PortID) && Annotation(x, FloatingIPID) == Annotation(y, FloatingIPID))
    && (g.status ==> x.status == y.status)
    && (x.terminating ==> y.terminating)
  }

  /** Somebody else creates or edits an object; edits outside the guard do not happen. */
  function UserPut<S(==), T(==)>(s: Store<S, T>, g: Guard, o: Object<S, T>): Store<S, T> {
    if o.key !in s.objects then
      Put(s, o.(uid := s.clock + 1, terminating := false))
    else
      var stored := s.objects[o.key];
      var edited := Merge(stored, o).(key := o.key, status := o.status);
      if Respects(g, stored, edited) then Replace(s, edited) else s
  }

  /** Somebody else deletes an object: it goes at once, or is marked while finalizers hold it. */
  function UserDelete<S(==), T(==)>(s: Store<S, T>, k: Key): Store<S, T> {
    if k !in s.objects then s
    else Replace(s, s.objects[k].(key := k, terminating := true))
  }

  /** How a store may have changed through the other writers alone. */
  ghost predicate Moves<S, T>(g: Guard, a: Store<S, T>, b: Store<S, T>) {
    && a.clock <= b.clock
    && (forall v :: v in a.history ==> v in b.history && b.history[v] == a.history[v])
    && (forall k :: k in a.objects && Held(g, a.objects[k]) ==>
          k in b.objects && b.objects[k].uid == a.objects[k].uid)
    && (forall k :: k in a.objects && k in b.objects && a.objects[k].uid == b.objects[k].uid ==>
          Respects(g, a.objects[k], b.objects[k]))
    && (forall k :: k in b.objects ==>
          b.objects[k].uid > a.clock || (k in a.objects && a.objects[k].uid == b.objects[k].uid))
  }

  // ----- Lemmas -----

  lemma PutValid<S, T>(s: Store<S, T>, o: Object<S, T>)
    requires Valid(s) && o.uid <= s.clock + 1 && !(o.terminating && o.finalizers == [])
    ensures Valid(Put(s, o))
  {
    var t := Put(s, o);
    forall k | k in t.objects
      ensures k in t.names && t.objects[k].version in t.history && t.history[t.objects[k].version] == t.objects[k]
    {
    }
  }

  lemma ReplaceValid<S, T>(s: Store<S, T>, o: Object<S, T>)
    requires Valid(s) && o.key in s.objects && o.uid == s.objects[o.key].uid
    ensures Valid(Replace(s, o))
  {
    if s.objects[o.key] != o && !(o.terminating && o.finalizers == []) {
      PutValid(s, o);
    }
  }

  lemma MovesReflexive<S, T>(g: Guard, s: Store<S, T>)
    ensures Moves(g, s, s)
  {
  }

  lemma MovesTransitive<S, T>(g: Guard, a: Store<S, T>, b: Store<S, T>, c: Store<S, T>)
    requires Valid(a) && Valid(b) && Moves(g, a, b) && Moves(g, b, c)
    ensures Moves(g, a, c)
  {
    forall k | k in a.objects && Held(g, a.objects[k])
      ensures k in c.objects && c.objects[k].uid == a.objects[k].uid
    {
      assert k in b.objects && Respects(g, a.objects[k], b.objects[k]);
    }
    forall k | k in a.objects && k in c.objects && a.objects[k].uid == c.objects[k].uid
      ensures Respects(g, a.objects[k], c.objects[k])
    {
      assert a.objects[k].uid <= a.clock;
      assert k in b.objects;
    }
  }

  lemma PutMoves<S, T>(g: Guard, s: Store<S, T>, o: Object<S, T>)
    requires Valid(s)
    requires o.key in s.objects ==> o.uid == s.objects[o.key].uid && Respects(g, s.objects[o.key], o)
    requires o.key !in s.objects ==> o.uid > s.clock
    ensures Moves(g, s, Put(s, o))
  {
    var t := Put(s, o);
    assert forall k :: k in s.objects && k != o.key ==> t.objects[k] == s.objects[k];
    assert t.objects[o.key] == o.(version := s.clock + 1);
  }

  /** One edit that respects the guard is a move. */
  lemma ReplaceMoves<S, T>(g: Guard, s: Store<S, T>, o: Object<S, T>)
    requires Valid(s) && o.key in s.objects && o.uid == s.objects[o.key].uid
    requires Respects(g, s.objects[o.key], o)
    ensures Moves(g, s, Replace(s, o)) && Valid(Replace(s, o))
  {
    hide Valid;
    ReplaceValid(s, o);
    if s.objects[o.key] == o {
      MovesReflexive(g, s);
    } else if o.terminating && o.finalizers == [] {
      assert !Held(g, s.objects[o.key]);
    } else {
      hide Moves;
      PutMoves(g, s, o);
    }
  }

  lemma UserPutMoves<S, T>(s: Store<S, T>, g: Guard, o: Object<S, T>)
    requires Valid(s)
    ensures Valid(UserPut(s, g, o)) && Moves(g, s, UserPut(s, g, o))
  {
    hide Valid, Moves;
    if o.key !in s.objects {
      PutValid(s, o.(uid := s.clock + 1, terminating := false));
      PutMoves(g, s, o.(uid := s.clock + 1, terminating := false));
    } else {
      var stored := s.objects[o.key];
      var edited := Merge(stored, o).(key := o.key, status := o.status);
      if Respects(g, stored, edited) {
        ReplaceMoves(g, s, edited);
      } else {
        MovesReflexive(g, s);
      }
    }
  }

  lemma UserDeleteMoves<S, T>(s: Store<S, T>, g: Guard, k: Key)
    requires Valid(s)
    ensures Valid(UserDelete(s, k)) && Moves(g, s, UserDelete(s, k))
  {
    if k in s.objects {
      ReplaceMoves(g, s, s.objects[k].(key := k, terminating := true));
    } else {
      MovesReflexive(g, s);
    }
  }

  /** A current listing shows each stored object once, and nothing else. */
  lemma {:induction false} ListingCurrent<S, T>(s: Store<S, T>, names: seq<Key>)
    requires Valid(s) && Distinct(names)
    ensures forall o :: o in Listing(s, names, map[]) ==>
              o.key in names && o.key in s.objects && s.objects[o.key] == o
    ensures forall k :: k in names && k in s.objects ==> s.objects[k] in Listing(s, names, map[])
    ensures forall i, j :: 0 <= i < j < |Listing(s, names, map[])| ==>
              Listing(s, names, map[])[i].key != Listing(s, names, map[])[j].key
  {
    if names != [] {
      var rest := names[1..];
      assert forall j :: 0 <= j < |rest| ==> rest[j] == names[j + 1];
      ListingCurrent(s, rest);
    }
  }
}
