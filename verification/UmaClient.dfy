/** The resource server's registration client, together with the authorization server it talks to.

    One task is one activation of `registerResource`. A task runs without interruption from one
    await to the next; each such stretch, and each request served, is one step of the relation. */
module UmaClient {
  import opened Rdf
  import opened RegistrationSpec

  const CONTAINS := "http://www.w3.org/ns/ldp#contains"

  /** The path configuration of the server, and the owner each set of credentials stands for. */
  datatype Env = Env(isRoot: string -> bool, parent: string -> string, isContainer: string -> bool,
                     depth: string -> nat, owner: string -> string, scopes: seq<string>)
  {
    /** Every chain of parents is finite and ends at a root; parents are containers. */
    ghost predicate Valid() {
      && scopes != []
      && (forall p :: isRoot(p) <==> depth(p) == 0)
      && (forall p :: !isRoot(p) ==> depth(parent(p)) < depth(p) && isContainer(parent(p)) && parent(p) != "")
    }
  }

  datatype Key = PathKey(path: string) | PatKey

  datatype Phase =
    | Ready                                             // about to run the first stretch
    | AwaitLock                                         // once(emitter, path)
    | AwaitConfig                                       // fetchUmaConfig; the lock on the path is held from here on
    | AwaitKnown                                        // umaIdStore.get(path)
    | PatEntry(known: Option<string>)                   // about to run the first stretch of getPat
    | AwaitPat(known: Option<string>)                   // once(emitter, PAT_EVENT)
    | FetchPat(known: Option<string>)                   // holds the PAT lock and requests a token
    | HavePat(known: Option<string>)
    | AwaitParent(known: Option<string>)                // umaIdStore.get(parent)
    | HaveParent(known: Option<string>, parentId: Option<string>)
    | Sent(known: Option<string>, parentId: Option<string>)
    | Replied(known: Option<string>, umaId: string)     // a success response is on its way
    | Storing(id: string)                               // umaIdStore.set(path, id)
    | Releasing
    | ParentWait                                        // once(emitter, parent).then(registerResource)
    | Stuck(pat: bool)                                  // failed: its locks are never released
    | Finished

  /** A task without a path only obtains a PAT, for a request of a ticket. */
  datatype Task = Task(path: string, credentials: string, phase: Phase)

  /** `inProgress` maps each key in the set of the same name to the task that put it there,
      and `created` collects the paths a POST succeeded for; no step reads either of these. */
  datatype World = World(
    inProgress: map<Key, nat>,
    ids: map<string, string>,
    pats: set<string>,
    tasks: seq<Task>,
    server: Stores,
    created: set<string>)

  function Lookup(ids: map<string, string>, path: string): Option<string> {
    if path in ids then Some(ids[path]) else None
  }

  // ----- wake-ups -----

  function WakeTask(e: Env, t: Task, key: Key): Task {
    match t.phase
    case AwaitLock => if key == PathKey(t.path) then t.(phase := Ready) else t
    case ParentWait => if key == PathKey(e.parent(t.path)) then t.(phase := Ready) else t
    case AwaitPat(known) => if key == PatKey then t.(phase := PatEntry(known)) else t
    case _ => t
  }

  /** Every listener on the event becomes runnable. */
  function Emit(e: Env, tasks: seq<Task>, key: Key): seq<Task> {
    seq(|tasks|, i requires 0 <= i < |tasks| => WakeTask(e, tasks[i], key))
  }

  // ----- steps -----

  function Move(w: World, i: nat, phase: Phase): World
    requires i < |w.tasks|
  {
    w.(tasks := w.tasks[i := w.tasks[i].(phase := phase)])
  }

  function Enter(w: World, i: nat): World
    requires i < |w.tasks|
  {
    var key := PathKey(w.tasks[i].path);
    if key in w.inProgress then Move(w, i, AwaitLock)
    else Move(w, i, AwaitConfig).(inProgress := w.inProgress[key := i])
  }

  /** `cached` tells whether a stored token is still fresh according to the clock. */
  function EnterPat(w: World, i: nat, known: Option<string>, cached: bool): World
    requires i < |w.tasks|
  {
    if cached && w.tasks[i].credentials in w.pats then Move(w, i, HavePat(known))
    else if PatKey in w.inProgress then Move(w, i, AwaitPat(known))
    else Move(w, i, FetchPat(known)).(inProgress := w.inProgress[PatKey := i])
  }

  function StorePat(e: Env, w: World, i: nat, known: Option<string>): World
    requires i < |w.tasks|
  {
    w.(pats := w.pats + {w.tasks[i].credentials},
       inProgress := w.inProgress - {PatKey},
       tasks := Emit(e, w.tasks[i := w.tasks[i].(phase := HavePat(known))], PatKey))
  }

  /** A registration that takes the lock at once. */
  function Launch(w: World, path: string, credentials: string): World {
    w.(tasks := w.tasks + [Task(path, credentials, AwaitConfig)],
       inProgress := w.inProgress[PathKey(path) := |w.tasks|])
  }

  /** A registration that starts when the one of its parent is finished. */
  function WaitForParent(w: World, path: string, credentials: string): World {
    w.(tasks := w.tasks + [Task(path, credentials, ParentWait)])
  }

  /** Sends the request. Without a parent id, a registration of the parent is started if there is none
      in progress, and this resource will be registered again after it. */
  function Send(e: Env, w: World, i: nat, known: Option<string>, parentId: Option<string>): World
    requires i < |w.tasks|
  {
    var t := w.tasks[i];
    var sent := Move(w, i, Sent(known, parentId));
    if e.isRoot(t.path) || parentId.Some? then sent else
    var launched := if PathKey(e.parent(t.path)) in w.inProgress then sent
                    else Launch(sent, e.parent(t.path), t.credentials);
    WaitForParent(launched, t.path, t.credentials)
  }

  function Body(e: Env, path: string, parentId: Option<string>): ResourceDescription {
    ResourceDescription(
      Some(path),
      e.scopes,
      if e.isContainer(path) then Some(Links(map[CONTAINS := e.scopes], map[])) else None,
      if parentId.Some? then Some(Links(map[], map[CONTAINS := [parentId.value]])) else None,
      [])
  }

  /** The server's answer to the request of a task; a POST names its resource, so no random id is needed. */
  function Answer(e: Env, w: World, t: Task): (Status, Stores)
    requires t.phase.Sent?
  {
    var body := Body(e, t.path, t.phase.parentId);
    match t.phase.known
    case None => Post(w.server, e.owner(t.credentials), body, "")
    case Some(id) => Put(w.server, e.owner(t.credentials), id, body)
  }

  function Deliver(e: Env, w: World, i: nat): World
    requires i < |w.tasks| && w.tasks[i].phase.Sent?
  {
    var t := w.tasks[i];
    var (status, server) := Answer(e, w, t);
    if status.Accepted()
    then Move(w, i, Replied(t.phase.known, if status.Created? then status.id else "")).(server := server,
           created := if t.phase.known.None? then w.created + {t.path} else w.created)
    else Move(w, i, Stuck(false))
  }

  function Release(e: Env, w: World, i: nat): World
    requires i < |w.tasks|
  {
    var key := PathKey(w.tasks[i].path);
    w.(inProgress := w.inProgress - {key},
       tasks := Emit(e, w.tasks[i := w.tasks[i].(phase := Finished)], key))
  }

  function StoreId(w: World, i: nat, id: string): World
    requires i < |w.tasks|
  {
    Move(w, i, Releasing).(ids := w.ids[w.tasks[i].path := id])
  }

  predicate Runnable(phase: Phase) {
    !(phase.AwaitLock? || phase.AwaitPat? || phase.ParentWait? || phase.Stuck? || phase.Finished?)
  }

  /** The next stretch of task `i`. */
  function Run(e: Env, w: World, i: nat, cached: bool): World
    requires i < |w.tasks| && Runnable(w.tasks[i].phase)
  {
    var t := w.tasks[i];
    match t.phase
    case Ready => Enter(w, i)
    case AwaitConfig => Move(w, i, AwaitKnown)
    case AwaitKnown => Move(w, i, PatEntry(Lookup(w.ids, t.path)))
    case PatEntry(known) => EnterPat(w, i, known, cached)
    case FetchPat(known) => StorePat(e, w, i, known)
    case HavePat(known) =>
      if t.path == "" then Move(w, i, Finished)
      else if e.isRoot(t.path) then Send(e, w, i, known, None) else Move(w, i, AwaitParent(known))
    case AwaitParent(known) => Move(w, i, HaveParent(known, Lookup(w.ids, e.parent(t.path))))
    case HaveParent(known, parentId) => Send(e, w, i, known, parentId)
    case Sent(_, _) => Deliver(e, w, i)
    case Replied(known, umaId) => if known.Some? then Release(e, w, i) else Move(w, i, Storing(umaId))
    case Storing(id) => StoreId(w, i, id)
    case Releasing => Release(e, w, i)
  }

  /** A failure of whatever the task is awaiting, or of the response to its request. */
  predicate MayFail(phase: Phase) {
    Runnable(phase) && !phase.Ready? && !phase.Releasing?
  }

  function Fail(w: World, i: nat): World
    requires i < |w.tasks|
  {
    Move(w, i, Stuck(w.tasks[i].phase.FetchPat?))
  }

  /** A new call of `registerResource`. */
  function Call(w: World, path: string, credentials: string): World {
    w.(tasks := w.tasks + [Task(path, credentials, Ready)])
  }

  /** A new call of `getPat` outside of any registration. */
  function Obtain(w: World, credentials: string): World {
    w.(tasks := w.tasks + [Task("", credentials, PatEntry(None))])
  }

  /** `deleteResource`: the client forgets nothing. */
  function Unregister(e: Env, w: World, path: string, credentials: string): World
    requires path in w.ids
  {
    w.(server := RegistrationSpec.Remove(w.server, e.owner(credentials), w.ids[path]).1)
  }

  // ----- runs -----

  datatype Event =
    | Step(task: nat, cached: bool)
    | Failure(task: nat)
    | NewCall(path: string, credentials: string)
    | PatCall(credentials: string)
    | Deletion(path: string, credentials: string)

  predicate Enabled(w: World, ev: Event) {
    match ev
    case Step(i, _) => i < |w.tasks| && Runnable(w.tasks[i].phase)
    case Failure(i) => i < |w.tasks| && MayFail(w.tasks[i].phase)
    case NewCall(path, _) => path != ""
    case PatCall(_) => true
    case Deletion(path, _) => path in w.ids
  }

  function Apply(e: Env, w: World, ev: Event): World
    requires Enabled(w, ev)
  {
    match ev
    case Step(i, cached) => Run(e, w, i, cached)
    case Failure(i) => Fail(w, i)
    case NewCall(path, credentials) => Call(w, path, credentials)
    case PatCall(credentials) => Obtain(w, credentials)
    case Deletion(path, credentials) => Unregister(e, w, path, credentials)
  }

  const Start := World(map[], map[], {}, [], Empty, {})

  ghost predicate IsRun(e: Env, w: World, events: seq<Event>)
    decreases |events|
  {
    events != [] ==> Enabled(w, events[0]) && IsRun(e, Apply(e, w, events[0]), events[1..])
  }

  function After(e: Env, w: World, events: seq<Event>): World
    requires IsRun(e, w, events)
    decreases |events|
  {
    if events == [] then w else After(e, Apply(e, w, events[0]), events[1..])
  }
}
