/** Finitely many registrations cause finitely many steps, although one may start others. */
module UmaClientTermination {
  import opened Rdf
  import opened RegistrationSpec
  import opened RegistrationTheory
  import opened UmaClient
  import opened UmaClientSafety
  import opened UmaClientAgreement

  /** The stretches a registration goes through when it never waits and starts nothing. */
  const FULL := 12

  function Rank(phase: Phase): nat {
    match phase
    case Ready => FULL
    case AwaitLock => FULL
    case ParentWait => FULL
    case AwaitConfig => 11
    case AwaitKnown => 10
    case PatEntry(_) => 9
    case AwaitPat(_) => 9
    case FetchPat(_) => 8
    case HavePat(_) => 7
    case AwaitParent(_) => 6
    case HaveParent(_, _) => 5
    case Sent(_, _) => 4
    case Replied(_, _) => 3
    case Storing(_) => 2
    case Releasing => 1
    case Stuck(_) => 0
    case Finished => 0
  }

  /** Everything a registration of `path` may cause, given the ids known so far. */
  function Cost(e: Env, ids: map<string, string>, path: string): nat
    requires e.Valid()
    decreases e.depth(path)
  {
    FULL + if e.isRoot(path) || e.parent(path) in ids then 0 else FULL + Cost(e, ids, e.parent(path))
  }

  /** What the task may still start: a second registration, and one of its parent. */
  function Debt(e: Env, ids: map<string, string>, t: Task): nat
    requires e.Valid()
  {
    if e.isRoot(t.path) then 0 else
    match t.phase
    case HaveParent(_, parentId) => if parentId.Some? then 0 else FULL + Cost(e, ids, e.parent(t.path))
    case ParentWait => 0
    case Sent(_, _) => 0
    case Replied(_, _) => 0
    case Storing(_) => 0
    case Releasing => 0
    case Stuck(_) => 0
    case Finished => 0
    case _ => if e.parent(t.path) in ids then 0 else FULL + Cost(e, ids, e.parent(t.path))
  }

  function Weight(e: Env, ids: map<string, string>, t: Task): nat
    requires e.Valid()
  {
    Rank(t.phase) + Debt(e, ids, t)
  }

  function Total(e: Env, ids: map<string, string>, tasks: seq<Task>): nat
    requires e.Valid()
  {
    if tasks == [] then 0
    else Total(e, ids, tasks[..|tasks| - 1]) + Weight(e, ids, tasks[|tasks| - 1])
  }

  predicate Asks(phase: Phase) {
    phase.Ready? || phase.PatEntry?
  }

  /** The tasks about to ask for a lock: the only ones that can move without making progress. */
  function Asking(tasks: seq<Task>): nat {
    if tasks == [] then 0
    else Asking(tasks[..|tasks| - 1]) + (if Asks(tasks[|tasks| - 1].phase) then 1 else 0)
  }

  function Measure(e: Env, w: World): nat
    requires e.Valid()
  {
    var total := Total(e, w.ids, w.tasks);
    total * (total + 1) + Asking(w.tasks)
  }

  // ----- sums -----

  lemma {:induction false} AskingBounded(e: Env, ids: map<string, string>, tasks: seq<Task>)
    requires e.Valid()
    ensures Asking(tasks) <= Total(e, ids, tasks)
  {
    if tasks != [] { AskingBounded(e, ids, tasks[..|tasks| - 1]); }
  }

  lemma {:induction false} CostShrinks(e: Env, ids: map<string, string>, more: map<string, string>, path: string)
    requires e.Valid() && ids.Keys <= more.Keys
    ensures Cost(e, more, path) <= Cost(e, ids, path)
    decreases e.depth(path)
  {
    if !e.isRoot(path) { CostShrinks(e, ids, more, e.parent(path)); }
  }

  lemma WeightShrinks(e: Env, ids: map<string, string>, more: map<string, string>, t: Task)
    requires e.Valid() && ids.Keys <= more.Keys
    ensures Weight(e, more, t) <= Weight(e, ids, t)
  {
    if !e.isRoot(t.path) { CostShrinks(e, ids, more, e.parent(t.path)); }
  }

  /** Pointwise comparison, with the position of a strict drop if there is one. */
  lemma {:induction false} TotalCompare(e: Env, ids: map<string, string>, more: map<string, string>,
                                        tasks: seq<Task>, next: seq<Task>, i: nat)
    requires e.Valid() && |tasks| == |next|
    requires forall j | 0 <= j < |tasks| :: Weight(e, more, next[j]) <= Weight(e, ids, tasks[j])
    ensures Total(e, more, next) <= Total(e, ids, tasks)
    ensures i < |tasks| && Weight(e, more, next[i]) < Weight(e, ids, tasks[i])
            ==> Total(e, more, next) < Total(e, ids, tasks)
  {
    if tasks != [] {
      var n := |tasks| - 1;
      TotalCompare(e, ids, more, tasks[..n], next[..n], i);
    }
  }

  lemma {:induction false} TotalUpdate(e: Env, ids: map<string, string>, tasks: seq<Task>, i: nat, t: Task)
    requires e.Valid() && i < |tasks|
    ensures Total(e, ids, tasks[i := t]) == Total(e, ids, tasks) - Weight(e, ids, tasks[i]) + Weight(e, ids, t)
    ensures Asking(tasks[i := t]) ==
      Asking(tasks) - (if Asks(tasks[i].phase) then 1 else 0) + (if Asks(t.phase) then 1 else 0)
  {
    var n := |tasks| - 1;
    if i == n {
      assert tasks[i := t][..n] == tasks[..n];
    } else {
      TotalUpdate(e, ids, tasks[..n], i, t);
      assert tasks[i := t][..n] == tasks[..n][i := t];
    }
  }

  lemma TotalAppend(e: Env, ids: map<string, string>, tasks: seq<Task>, t: Task)
    requires e.Valid()
    ensures Total(e, ids, tasks + [t]) == Total(e, ids, tasks) + Weight(e, ids, t)
  {
    assert (tasks + [t])[..|tasks|] == tasks;
  }

  // ----- each step -----

  /** Progress: a smaller total, or the same total and one task fewer asking. */
  ghost predicate Drops(e: Env, w: World, v: World)
    requires e.Valid()
  {
    || Total(e, v.ids, v.tasks) < Total(e, w.ids, w.tasks)
    || (Total(e, v.ids, v.tasks) == Total(e, w.ids, w.tasks) && Asking(v.tasks) < Asking(w.tasks))
  }

  lemma MoveDrops(e: Env, w: World, v: World, i: nat)
    requires e.Valid() && i < |w.tasks| && v.ids == w.ids && |v.tasks| == |w.tasks|
      && v.tasks == w.tasks[i := v.tasks[i]]
    requires
      || Weight(e, w.ids, v.tasks[i]) < Weight(e, w.ids, w.tasks[i])
      || (Weight(e, w.ids, v.tasks[i]) == Weight(e, w.ids, w.tasks[i])
          && Asks(w.tasks[i].phase) && !Asks(v.tasks[i].phase))
    ensures Drops(e, w, v)
  {
    hide Total, Asking, Weight;
    TotalUpdate(e, w.ids, w.tasks, i, v.tasks[i]);
  }

  /** Waking tasks up costs nothing: a registration that waits for its parent wakes when the parent has an id. */
  lemma EmitDrops(e: Env, w: World, v: World, i: nat, t: Task, key: Key)
    requires e.Valid() && i < |w.tasks| && v.ids == w.ids && v.tasks == Emit(e, w.tasks[i := t], key)
    requires Weight(e, w.ids, t) < Weight(e, w.ids, w.tasks[i])
    requires !(t.phase.AwaitLock? || t.phase.AwaitPat? || t.phase.ParentWait?)
    requires key.PathKey? ==> key.path in w.ids
    ensures Drops(e, w, v)
  {
    TotalCompare(e, w.ids, w.ids, w.tasks, v.tasks, i);
  }

  lemma StoreIdDrops(e: Env, w: World, i: nat, id: string)
    requires e.Valid() && i < |w.tasks| && w.tasks[i].phase == Storing(id)
    ensures Drops(e, w, StoreId(w, i, id))
  {
    hide Total, Asking, Cost;
    var v := StoreId(w, i, id);
    assert Weight(e, v.ids, v.tasks[i]) < Weight(e, w.ids, w.tasks[i]);
    hide Weight;
    forall j | 0 <= j < |w.tasks| ensures Weight(e, v.ids, w.tasks[j]) <= Weight(e, w.ids, w.tasks[j]) {
      WeightShrinks(e, w.ids, v.ids, w.tasks[j]);
    }
    TotalCompare(e, w.ids, v.ids, w.tasks, v.tasks, i);
  }

  lemma SendDrops(e: Env, w: World, i: nat, known: Option<string>, parentId: Option<string>)
    requires e.Valid() && i < |w.tasks|
    requires w.tasks[i].phase == HaveParent(known, parentId)
          || (w.tasks[i].phase == HavePat(known) && e.isRoot(w.tasks[i].path) && parentId.None?)
    ensures Drops(e, w, Send(e, w, i, known, parentId))
  {
    hide Total, Asking;
    var t := w.tasks[i];
    var sent := Move(w, i, Sent(known, parentId));
    TotalUpdate(e, w.ids, w.tasks, i, sent.tasks[i]);
    if !e.isRoot(t.path) && parentId.None? {
      var parent := e.parent(t.path);
      var first, second := Task(parent, t.credentials, AwaitConfig), Task(t.path, t.credentials, ParentWait);
      var launched := if PathKey(parent) in w.inProgress then sent else Launch(sent, parent, t.credentials);
      TotalAppend(e, w.ids, sent.tasks, first);
      TotalAppend(e, w.ids, launched.tasks, second);
      assert Weight(e, w.ids, first) < Cost(e, w.ids, parent);
      assert Weight(e, w.ids, t) == 5 + FULL + Cost(e, w.ids, parent);
    }
  }

  lemma EnterDrops(e: Env, w: World, i: nat)
    requires e.Valid() && i < |w.tasks| && w.tasks[i].phase.Ready?
    ensures Drops(e, w, Enter(w, i))
  {
    MoveDrops(e, w, Enter(w, i), i);
  }

  lemma EnterPatDrops(e: Env, w: World, i: nat, known: Option<string>, cached: bool)
    requires e.Valid() && i < |w.tasks| && w.tasks[i].phase == PatEntry(known)
    ensures Drops(e, w, EnterPat(w, i, known, cached))
  {
    MoveDrops(e, w, EnterPat(w, i, known, cached), i);
  }

  lemma DeliverDrops(e: Env, w: World, i: nat)
    requires e.Valid() && i < |w.tasks| && w.tasks[i].phase.Sent?
    ensures Drops(e, w, Deliver(e, w, i))
  {
    hide Answer;
    MoveDrops(e, w, Deliver(e, w, i), i);
  }

  lemma StorePatDrops(e: Env, w: World, i: nat, known: Option<string>)
    requires e.Valid() && i < |w.tasks| && w.tasks[i].phase == FetchPat(known)
    ensures Drops(e, w, StorePat(e, w, i, known))
  {
    EmitDrops(e, w, StorePat(e, w, i, known), i, w.tasks[i].(phase := HavePat(known)), PatKey);
  }

  lemma ReleaseDrops(e: Env, w: World, i: nat)
    requires e.Valid() && i < |w.tasks| && w.tasks[i].path in w.ids
    requires w.tasks[i].phase.Releasing? || w.tasks[i].phase.Replied?
    ensures Drops(e, w, Release(e, w, i))
  {
    EmitDrops(e, w, Release(e, w, i), i, w.tasks[i].(phase := Finished), PathKey(w.tasks[i].path));
  }

  lemma RunDrops(e: Env, w: World, i: nat, cached: bool)
    requires e.Valid() && Inv(e, w) && i < |w.tasks| && Runnable(w.tasks[i].phase)
    ensures Drops(e, w, Run(e, w, i, cached))
  {
    var t := w.tasks[i];
    assert t.phase.Releasing? || (t.phase.Replied? && t.phase.known.Some?) ==> t.path in w.ids by {
      assert TaskOk(e, w, i);
    }
    hide Inv, TaskOk, Drops, Enter, EnterPat, StorePat, Send, Deliver, StoreId, Release, Move;
    match t.phase
    case Ready => EnterDrops(e, w, i);
    case AwaitConfig => PhaseDrops(e, w, i, AwaitKnown);
    case AwaitKnown => PhaseDrops(e, w, i, PatEntry(Lookup(w.ids, t.path)));
    case PatEntry(known) => EnterPatDrops(e, w, i, known, cached);
    case FetchPat(known) => StorePatDrops(e, w, i, known);
    case HavePat(known) =>
      if t.path == "" { PhaseDrops(e, w, i, Finished); }
      else if e.isRoot(t.path) { SendDrops(e, w, i, known, None); }
      else { PhaseDrops(e, w, i, AwaitParent(known)); }
    case AwaitParent(known) => PhaseDrops(e, w, i, HaveParent(known, Lookup(w.ids, e.parent(t.path))));
    case HaveParent(known, parentId) => SendDrops(e, w, i, known, parentId);
    case Sent(_, _) => DeliverDrops(e, w, i);
    case Replied(known, umaId) =>
      if known.Some? { ReleaseDrops(e, w, i); } else { PhaseDrops(e, w, i, Storing(umaId)); }
    case Storing(id) => StoreIdDrops(e, w, i, id);
    case Releasing => ReleaseDrops(e, w, i);
  }

  lemma PhaseDrops(e: Env, w: World, i: nat, phase: Phase)
    requires e.Valid() && i < |w.tasks|
    requires var now := w.tasks[i].phase;
      || (now.AwaitConfig? && phase.AwaitKnown?)
      || (now.AwaitKnown? && phase.PatEntry?)
      || (now.HavePat? && (phase.AwaitParent? || phase.Finished?))
      || (now.AwaitParent? && phase == HaveParent(now.known, Lookup(w.ids, e.parent(w.tasks[i].path))))
      || (now.Replied? && phase.Storing?)
    ensures Drops(e, w, Move(w, i, phase))
  {
    MoveDrops(e, w, Move(w, i, phase), i);
  }

  lemma SquaresGrow(a: nat, b: nat)
    requires a < b
    ensures a * (a + 1) + a < b * (b + 1)
  {
    assert (a + 1) * (a + 1) <= b * b by {
      assert (a + 1) * (a + 1) <= (a + 1) * b <= b * b;
    }
  }

  lemma MeasureDrops(e: Env, w: World, v: World)
    requires e.Valid() && Drops(e, w, v)
    ensures Measure(e, v) < Measure(e, w)
  {
    hide Total, Asking;
    AskingBounded(e, v.ids, v.tasks);
    var a, b := Total(e, v.ids, v.tasks), Total(e, w.ids, w.tasks);
    if a < b { SquaresGrow(a, b); }
  }

  // ----- every run -----

  predicate OnlySteps(events: seq<Event>) {
    forall k | 0 <= k < |events| :: events[k].Step?
  }

  /** However the tasks are interleaved, they take no more steps than the measure allows. */
  lemma {:induction false} RunsAreBounded(e: Env, w: World, events: seq<Event>)
    requires e.Valid() && Inv(e, w) && IsRun(e, w, events) && OnlySteps(events)
    ensures |events| + Measure(e, After(e, w, events)) <= Measure(e, w)
    decreases |events|
  {
    if events != [] {
      var v := Apply(e, w, events[0]);
      ApplyKeepsInv(e, w, events[0]);
      RunDrops(e, w, events[0].task, events[0].cached);
      MeasureDrops(e, w, v);
      RunsAreBounded(e, v, events[1..]);
    }
  }
}
