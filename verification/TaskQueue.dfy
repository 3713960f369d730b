/**
 The task queue of the tenant manager: dispatch, the single worker loop, retries and the dead letter
 queue. The worker awaits while a task runs, so picking a task and settling it are separate steps
 with dispatches in between.
 */
module TaskQueue {
  import opened Wrappers

  datatype Status = Queued | Running | Succeeded | Failed

  datatype Task = Task(id: nat, status: Status, attempts: nat)

  datatype State = State(tasks: seq<Task>, dlq: seq<Task>)

  const EMPTY := State([], [])
  const MAX_ATTEMPTS := 3

  /** Index of the first task with a status; `getPending()[0]` for `Queued`. */
  function First(tasks: seq<Task>, status: Status): (k: nat)
    ensures k <= |tasks|
    ensures k < |tasks| ==> tasks[k].status == status
    ensures forall i :: 0 <= i < k ==> tasks[i].status != status
  {
    if tasks == [] || tasks[0].status == status then 0 else First(tasks[1..], status) + 1
  }

  function WithoutId(tasks: seq<Task>, id: nat): seq<Task>
    decreases |tasks|
  {
    if tasks == [] then [] else (if tasks[0].id == id then [] else [tasks[0]]) + WithoutId(tasks[1..], id)
  }

  function Started(s: State, k: nat): State
    requires k < |s.tasks|
  {
    s.(tasks := s.tasks[k := Task(s.tasks[k].id, Running, s.tasks[k].attempts + 1)])
  }

  lemma PickStep(s: State, k: nat)
    requires !Busy(s) && k == First(s.tasks, Queued) < |s.tasks|
    ensures Step(s, Pick) == Started(s, k)
  {
  }

  lemma WithoutIdNext(tasks: seq<Task>, i: nat, id: nat)
    requires i < |tasks|
    ensures forall kept :: kept + WithoutId(tasks[i..], id)
              == (if tasks[i].id == id then kept else kept + [tasks[i]]) + WithoutId(tasks[i + 1..], id)
  {
    assert tasks[i..][1..] == tasks[i + 1..];
  }

  datatype Event = Dispatch(id: nat) | Pick | Settle(ok: bool)

  predicate Busy(s: State) {
    First(s.tasks, Running) < |s.tasks|
  }

  /** `Pick` does nothing while a task is running or when none is pending, `Settle` only ends a running one. */
  function Step(s: State, e: Event): State {
    match e
    case Dispatch(id) => s.(tasks := s.tasks + [Task(id, Queued, 0)])
    case Pick =>
      var k := First(s.tasks, Queued);
      if Busy(s) || k == |s.tasks| then s
      else Started(s, k)
    case Settle(ok) =>
      if !Busy(s) then s
      else
        var k := First(s.tasks, Running);
        var t := s.tasks[k];
        if ok then s.(tasks := s.tasks[k := t.(status := Succeeded)])
        else if t.attempts < MAX_ATTEMPTS then s.(tasks := s.tasks[k := t.(status := Queued)])
        else State(WithoutId(s.tasks[k := t.(status := Failed)], t.id), s.dlq + [t.(status := Failed)])
  }

  /** A task that now fails has used up its attempts: it is moved to the dead letter queue, and listeners are told. */
  predicate DeadLetters(s: State, ok: bool) {
    Busy(s) && !ok && s.tasks[First(s.tasks, Running)].attempts >= MAX_ATTEMPTS
  }

  lemma DeadLettersIff(s: State, ok: bool)
    ensures DeadLetters(s, ok) <==> |Step(s, Settle(ok)).dlq| == |s.dlq| + 1
  {
  }

  function Run(s: State, events: seq<Event>): State
    decreases |events|
  {
    if events == [] then s else Run(Step(s, events[0]), events[1..])
  }

  // ---------------------------------------------------------------- the objects

  class TaskObject {
    const id: nat
    var status: Status
    var attempts: nat

    function Value(): Task
      reads this
    {
      Task(id, status, attempts)
    }

    constructor (id: nat)
      ensures Value() == Task(id, Queued, 0) && this.id == id
    {
      this.id := id;
      status, attempts := Queued, 0;
    }
  }

  function Values(ts: seq<TaskObject>): (r: seq<Task>)
    reads ts
  {
    seq(|ts|, i requires 0 <= i < |ts| reads ts => ts[i].Value())
  }

  /** The worker and its queue. `processing` is the task the worker awaits, as a local of `processTask`. */
  class QueueWorker {
    var tasks: seq<TaskObject>
    var dlq: seq<TaskObject>
    var processing: Option<TaskObject>

    ghost function View(): State
      reads this, tasks, dlq
    {
      State(Values(tasks), Values(dlq))
    }

    /** Ids are fresh, so no task object is queued twice. */
    ghost predicate Valid()
      reads this, tasks, dlq
    {
      && (forall i, j :: 0 <= i < j < |tasks| ==> tasks[i].id != tasks[j].id)
      && (forall i, j :: 0 <= i < |tasks| && 0 <= j < |dlq| ==> tasks[i] != dlq[j])
      && (match processing
          case None => forall t :: t in tasks ==> t.status != Running
          case Some(p) => p in tasks && forall t :: t in tasks ==> (t.status == Running <==> t == p))
    }

    constructor ()
      ensures Valid() && View() == EMPTY
    {
      tasks, dlq, processing := [], [], None;
    }

    method DispatchTask(id: nat) returns (task: TaskObject)
      requires Valid() && forall t :: t in tasks ==> t.id != id
      modifies this`tasks
      ensures Valid() && View() == Step(old(View()), Dispatch(id))
    {
      task := new TaskObject(id);
      tasks := tasks + [task];
    }

    method GetPending() returns (k: nat)
      ensures k == First(Values(tasks), Queued)
    {
      k := 0;
      ghost var vs := Values(tasks);
      while k < |tasks| && tasks[k].status != Queued
        invariant 0 <= k <= |tasks|
        invariant k + First(vs[k..], Queued) == First(vs, Queued)
      {
        assert vs[k..][1..] == vs[k + 1..];
        k := k + 1;
      }
    }

    /** `runLoop` up to the await inside `processTask`. */
    method PickTask()
      requires Valid()
      modifies this`processing, tasks
      ensures Valid() && tasks == old(tasks) && dlq == old(dlq)
      ensures View() == Step(old(View()), Pick)
    {
      BusyIffProcessing();
      if processing.Some? {
        return;
      }
      var k := GetPending();
      if k < |tasks| {
        PickStep(View(), k);
        BeginTask(k);
      }
    }

    method BeginTask(k: nat)
      requires Valid() && processing.None? && k < |tasks|
      modifies this`processing, tasks
      ensures Valid() && tasks == old(tasks) && dlq == old(dlq)
      ensures View() == Started(old(View()), k)
    {
      var task := tasks[k];
      task.attempts := task.attempts + 1;
      task.status := Running;
      processing := Some(task);
      assert Values(tasks) == old(Values(tasks))[k := task.Value()];
      assert Values(dlq) == old(Values(dlq));
    }

    lemma BusyIffProcessing()
      requires Valid()
      ensures Busy(View()) <==> processing.Some?
      ensures processing.Some? ==> tasks[First(Values(tasks), Running)] == processing.value
    {
      var vs := Values(tasks);
      if processing.Some? {
        var i :| 0 <= i < |tasks| && tasks[i] == processing.value;
        assert vs[i].status == Running;
        var k := First(vs, Running);
        assert tasks[k] in tasks && vs[k].status == Running;
      } else {
        forall i | 0 <= i < |tasks| ensures vs[i].status != Running {
          assert tasks[i] in tasks;
        }
      }
    }

    /**
     The rest of `processTask` once the action has succeeded or thrown. An exception of a listener of
     the failure event gets out, and then `runLoop` sets no timer for a next iteration.
     */
    method SettleTask(ok: bool, listenerThrows: bool) returns (thrown: bool)
      requires Valid() && processing.Some?
      modifies this, tasks
      ensures Valid() && View() == Step(old(View()), Settle(ok))
      ensures thrown == (DeadLetters(old(View()), ok) && listenerThrows)
    {
      BusyIffProcessing();
      var task := processing.value;
      ghost var k := First(Values(tasks), Running);
      ghost var before := Values(tasks);
      processing := None;
      thrown := false;
      if ok {
        task.status := Succeeded;
        assert Values(tasks) == before[k := task.Value()];
        assert Values(dlq) == old(Values(dlq));
      } else if task.attempts < MAX_ATTEMPTS {
        task.status := Queued;
        assert Values(tasks) == before[k := task.Value()];
        assert Values(dlq) == old(Values(dlq));
      } else {
        task.status := Failed;
        assert Values(tasks) == before[k := task.Value()];
        assert Values(dlq) == old(Values(dlq));
        MoveToDLQ(task);
        thrown := listenerThrows;
      }
    }

    method MoveToDLQ(task: TaskObject)
      requires task !in dlq && task in tasks
      requires forall i, j :: 0 <= i < j < |tasks| ==> tasks[i].id != tasks[j].id
      requires forall i, j :: 0 <= i < |tasks| && 0 <= j < |dlq| ==> tasks[i] != dlq[j]
      requires forall t :: t in tasks ==> t.status != Running
      requires processing.None?
      modifies this`tasks, this`dlq
      ensures View() == State(WithoutId(old(Values(tasks)), task.id), old(Values(dlq)) + [task.Value()])
      ensures Valid()
    {
      dlq := dlq + [task];
      assert Values(dlq) == old(Values(dlq)) + [task.Value()];
      var kept := Others(task.id);
      forall i, j | 0 <= i < |kept| && 0 <= j < |dlq| ensures kept[i] != dlq[j] {
        assert kept[i] in tasks;
      }
      tasks := kept;
    }

    /** `tasks.filter(t => t.id !== id)`. */
    method Others(id: nat) returns (kept: seq<TaskObject>)
      requires forall i, j :: 0 <= i < j < |tasks| ==> tasks[i].id != tasks[j].id
      ensures Values(kept) == WithoutId(Values(tasks), id)
      ensures forall i :: 0 <= i < |kept| ==> kept[i] in tasks && kept[i].id != id
      ensures forall i, j :: 0 <= i < j < |kept| ==> kept[i].id != kept[j].id
    {
      kept := [];
      var i := 0;
      while i < |tasks|
        invariant 0 <= i <= |tasks|
        invariant Values(kept) + WithoutId(Values(tasks)[i..], id) == WithoutId(Values(tasks), id)
        invariant forall a :: 0 <= a < |kept| ==> kept[a] in tasks[..i] && kept[a].id != id
        invariant forall a, b :: 0 <= a < b < |kept| ==> kept[a].id != kept[b].id
      {
        WithoutIdNext(Values(tasks), i, id);
        if tasks[i].id != id {
          assert Values(kept + [tasks[i]]) == Values(kept) + [tasks[i].Value()];
          kept := kept + [tasks[i]];
        }
        i := i + 1;
      }
    }
  }

  // ---------------------------------------------------------------- the ledger

  /**
   All tasks in the order of their dispatch: those that are final, at most one that has been started
   and is not final, and those that were never started. Nothing else is possible: a task is retried
   before any later one is looked at.
   */
  datatype Ledger = Ledger(done: seq<Task>, current: Option<Task>, unstarted: seq<Task>)

  function Order(l: Ledger): seq<Task> {
    l.done + Open(l) + l.unstarted
  }

  function Open(l: Ledger): seq<Task> {
    if l.current.Some? then [l.current.value] else []
  }

  function LedgerStep(l: Ledger, e: Event): Ledger {
    match e
    case Dispatch(id) => l.(unstarted := l.unstarted + [Task(id, Queued, 0)])
    case Pick =>
      if l.current.Some? then
        (if l.current.value.status == Running then l
         else l.(current := Some(l.current.value.(status := Running, attempts := l.current.value.attempts + 1))))
      else if l.unstarted == [] then l
      else
        l.(current := Some(Task(l.unstarted[0].id, Running, l.unstarted[0].attempts + 1)),
           unstarted := l.unstarted[1..])
    case Settle(ok) =>
      if l.current.None? || l.current.value.status != Running then l
      else
        var t := l.current.value;
        if ok then Ledger(l.done + [t.(status := Succeeded)], None, l.unstarted)
        else if t.attempts < MAX_ATTEMPTS then l.(current := Some(t.(status := Queued)))
        else Ledger(l.done + [t.(status := Failed)], None, l.unstarted)
  }

  function LedgerRun(l: Ledger, events: seq<Event>): Ledger
    decreases |events|
  {
    if events == [] then l else LedgerRun(LedgerStep(l, events[0]), events[1..])
  }

  function Keep(ts: seq<Task>, failed: bool): seq<Task>
    decreases |ts|
  {
    if ts == [] then [] else (if (ts[0].status == Failed) == failed then [ts[0]] else []) + Keep(ts[1..], failed)
  }

  predicate Final(t: Task) {
    (t.status == Succeeded && 1 <= t.attempts <= MAX_ATTEMPTS) || (t.status == Failed && t.attempts == MAX_ATTEMPTS)
  }

  ghost predicate WellFormed(l: Ledger) {
    && (forall i :: 0 <= i < |l.done| ==> Final(l.done[i]))
    && (forall i :: 0 <= i < |l.unstarted| ==> l.unstarted[i].status == Queued && l.unstarted[i].attempts == 0)
    && (l.current.Some? ==>
          var t := l.current.value;
          || (t.status == Running && 1 <= t.attempts <= MAX_ATTEMPTS)
          || (t.status == Queued && 1 <= t.attempts < MAX_ATTEMPTS))
    && DistinctIds(Order(l))
  }

  ghost predicate DistinctIds(ts: seq<Task>) {
    forall i, j :: 0 <= i < j < |ts| ==> ts[i].id != ts[j].id
  }

  /** The two lists of the queue are the ledger, split by failure, each in dispatch order. */
  ghost predicate Represents(s: State, l: Ledger) {
    && WellFormed(l)
    && s.tasks == Keep(l.done, false) + Open(l) + l.unstarted
    && s.dlq == Keep(l.done, true)
  }

  lemma {:induction false} KeepConcat(a: seq<Task>, b: seq<Task>, failed: bool)
    ensures Keep(a + b, failed) == Keep(a, failed) + Keep(b, failed)
    decreases |a|
  {
    if a == [] {
      assert a + b == b;
    } else {
      KeepConcat(a[1..], b, failed);
      assert (a + b)[0] == a[0] && (a + b)[1..] == a[1..] + b;
      var head := if (a[0].status == Failed) == failed then [a[0]] else [];
      assert head + (Keep(a[1..], failed) + Keep(b, failed)) == (head + Keep(a[1..], failed)) + Keep(b, failed);
    }
  }

  lemma {:induction false} KeepElements(ts: seq<Task>, failed: bool, t: Task)
    ensures t in Keep(ts, failed) <==> t in ts && (t.status == Failed) == failed
    decreases |ts|
  {
    if ts == [] {
    } else {
      KeepElements(ts[1..], failed, t);
    }
  }

  lemma {:induction false} FirstAfter(a: seq<Task>, b: seq<Task>, status: Status)
    requires forall i :: 0 <= i < |a| ==> a[i].status != status
    ensures First(a + b, status) == |a| + First(b, status)
    decreases |a|
  {
    if a == [] {
      assert a + b == b;
    } else {
      FirstAfter(a[1..], b, status);
      assert (a + b)[1..] == a[1..] + b;
    }
  }

  lemma {:induction false} WithoutIdKeeps(a: seq<Task>, id: nat)
    requires forall i :: 0 <= i < |a| ==> a[i].id != id
    ensures WithoutId(a, id) == a
    decreases |a|
  {
    if a == [] {
    } else {
      WithoutIdKeeps(a[1..], id);
    }
  }

  lemma {:induction false} WithoutIdConcat(a: seq<Task>, b: seq<Task>, id: nat)
    ensures WithoutId(a + b, id) == WithoutId(a, id) + WithoutId(b, id)
    decreases |a|
  {
    if a == [] {
      assert a + b == b;
    } else {
      WithoutIdConcat(a[1..], b, id);
      assert (a + b)[0] == a[0] && (a + b)[1..] == a[1..] + b;
      Assoc(if a[0].id == id then [] else [a[0]], WithoutId(a[1..], id), WithoutId(b, id));
    }
  }

  /** In the pending list, nothing before the open task is queued or running. */
  lemma Locate(s: State, l: Ledger)
    requires Represents(s, l)
    ensures var n := |Keep(l.done, false)|;
            && (Busy(s) <==> l.current.Some? && l.current.value.status == Running)
            && (Busy(s) ==> First(s.tasks, Running) == n)
            && (!Busy(s) && (l.current.Some? || l.unstarted != []) ==> First(s.tasks, Queued) == n)
            && (!Busy(s) && l.current.None? && l.unstarted == [] ==> First(s.tasks, Queued) == |s.tasks|)
  {
    var kept := Keep(l.done, false);
    forall i | 0 <= i < |kept| ensures kept[i].status == Succeeded {
      KeepElements(l.done, false, kept[i]);
      assert kept[i] in kept;
      var j :| 0 <= j < |l.done| && l.done[j] == kept[i];
    }
    assert s.tasks == kept + (Open(l) + l.unstarted);
    FirstAfter(kept, Open(l) + l.unstarted, Running);
    FirstAfter(kept, Open(l) + l.unstarted, Queued);
    var rest := Open(l) + l.unstarted;
    if l.current.Some? {
      assert rest[0] == l.current.value;
    } else {
      assert rest == l.unstarted;
    }
    assert forall i :: 0 <= i < |l.unstarted| ==> l.unstarted[i].status != Running;
    assert First(rest, Running) < |rest| ==> rest[First(rest, Running)].status == Running;
  }

  lemma DispatchRepresents(s: State, l: Ledger, id: nat)
    requires Represents(s, l) && forall t :: t in Order(l) ==> t.id != id
    ensures Represents(Step(s, Dispatch(id)), LedgerStep(l, Dispatch(id)))
  {
    var t := Task(id, Queued, 0);
    var m := LedgerStep(l, Dispatch(id));
    assert Order(m) == Order(l) + [t];
    assert forall i :: 0 <= i < |Order(l)| ==> Order(l)[i] in Order(l);
    assert s.tasks + [t] == Keep(l.done, false) + Open(l) + (l.unstarted + [t]);
  }

  lemma PickRepresents(s: State, l: Ledger)
    requires Represents(s, l)
    ensures Represents(Step(s, Pick), LedgerStep(l, Pick))
  {
    Locate(s, l);
    var m := LedgerStep(l, Pick);
    var kept := Keep(l.done, false);
    if !Busy(s) && (l.current.Some? || l.unstarted != []) {
      assert s.tasks[|kept|].id == m.current.value.id;
      assert Step(s, Pick).tasks == kept + Open(m) + m.unstarted;
      SameIdsDistinct(Order(l), Order(m));
    }
  }

  lemma SameIdsDistinct(a: seq<Task>, b: seq<Task>)
    requires DistinctIds(a) && |a| == |b| && forall i :: 0 <= i < |a| ==> a[i].id == b[i].id
    ensures DistinctIds(b)
  {
  }

  lemma SettleRepresents(s: State, l: Ledger, ok: bool)
    requires Represents(s, l)
    ensures Represents(Step(s, Settle(ok)), LedgerStep(l, Settle(ok)))
  {
    Locate(s, l);
    if Busy(s) {
      var t := l.current.value;
      assert s.tasks[First(s.tasks, Running)] == t;
      if ok {
        SuccessRepresents(s, l);
      } else if t.attempts < MAX_ATTEMPTS {
        RetryRepresents(s, l);
      } else {
        FailureRepresents(s, l);
      }
    }
  }

  lemma KeepOne(ts: seq<Task>, u: Task)
    ensures Keep(ts + [u], false) == Keep(ts, false) + (if u.status == Failed then [] else [u])
    ensures Keep(ts + [u], true) == Keep(ts, true) + (if u.status == Failed then [u] else [])
  {
    KeepConcat(ts, [u], false);
    KeepConcat(ts, [u], true);
    assert [u][1..] == [];
  }

  lemma SuccessRepresents(s: State, l: Ledger)
    requires Represents(s, l) && l.current.Some? && l.current.value.status == Running
    requires Busy(s) && First(s.tasks, Running) == |Keep(l.done, false)|
    ensures Represents(Step(s, Settle(true)), LedgerStep(l, Settle(true)))
  {
    var u := l.current.value.(status := Succeeded);
    KeepOne(l.done, u);
    SameIdsDistinct(Order(l), Order(LedgerStep(l, Settle(true))));
    assert s.tasks[|Keep(l.done, false)| := u] == Keep(l.done + [u], false) + [] + l.unstarted;
  }

  lemma RetryRepresents(s: State, l: Ledger)
    requires Represents(s, l) && l.current.Some? && l.current.value.status == Running
    requires l.current.value.attempts < MAX_ATTEMPTS
    requires Busy(s) && First(s.tasks, Running) == |Keep(l.done, false)|
    ensures Represents(Step(s, Settle(false)), LedgerStep(l, Settle(false)))
  {
    var u := l.current.value.(status := Queued);
    SameIdsDistinct(Order(l), Order(LedgerStep(l, Settle(false))));
    assert s.tasks[|Keep(l.done, false)| := u] == Keep(l.done, false) + [u] + l.unstarted;
  }

  lemma FailureRepresents(s: State, l: Ledger)
    requires Represents(s, l) && l.current.Some? && l.current.value.status == Running
    requires l.current.value.attempts == MAX_ATTEMPTS
    requires Busy(s) && First(s.tasks, Running) == |Keep(l.done, false)|
    ensures Represents(Step(s, Settle(false)), LedgerStep(l, Settle(false)))
  {
    var u := l.current.value.(status := Failed);
    KeepOne(l.done, u);
    SameIdsDistinct(Order(l), Order(LedgerStep(l, Settle(false))));
    assert s.tasks[|Keep(l.done, false)| := u] == Keep(l.done, false) + ([u] + l.unstarted);
    OthersKeepTheirIds(l, u.id);
    RemoveBetween(Keep(l.done, false), u, l.unstarted);
    assert Keep(l.done, false) + l.unstarted == Keep(l.done, false) + [] + l.unstarted;
  }

  lemma OthersKeepTheirIds(l: Ledger, id: nat)
    requires WellFormed(l) && l.current.Some? && id == l.current.value.id
    ensures forall i :: 0 <= i < |Keep(l.done, false)| ==> Keep(l.done, false)[i].id != id
    ensures forall i :: 0 <= i < |l.unstarted| ==> l.unstarted[i].id != id
  {
    var kept := Keep(l.done, false);
    var o := Order(l);
    assert o[|l.done|] == l.current.value;
    forall i | 0 <= i < |kept| ensures kept[i].id != id {
      KeepElements(l.done, false, kept[i]);
      var j :| 0 <= j < |l.done| && l.done[j] == kept[i];
      assert o[j] == l.done[j];
    }
    forall i | 0 <= i < |l.unstarted| ensures l.unstarted[i].id != id {
      assert o[|l.done| + 1 + i] == l.unstarted[i];
    }
  }

  lemma RemoveBetween(a: seq<Task>, u: Task, b: seq<Task>)
    requires forall i :: 0 <= i < |a| ==> a[i].id != u.id
    requires forall i :: 0 <= i < |b| ==> b[i].id != u.id
    ensures WithoutId(a + ([u] + b), u.id) == a + b
  {
    WithoutIdConcat(a, [u] + b, u.id);
    WithoutIdKeeps(a, u.id);
    RemoveHead(u, b);
  }

  lemma RemoveHead(u: Task, b: seq<Task>)
    requires forall i :: 0 <= i < |b| ==> b[i].id != u.id
    ensures WithoutId([u] + b, u.id) == b
  {
    WithoutIdKeeps(b, u.id);
    var ub := [u] + b;
    assert ub[0] == u && ub[1..] == b;
    assert WithoutId(ub, u.id) == [] + WithoutId(ub[1..], u.id);
  }

  function Dispatched(events: seq<Event>): seq<nat>
    decreases |events|
  {
    if events == [] then [] else (if events[0].Dispatch? then [events[0].id] else []) + Dispatched(events[1..])
  }

  function IdsOf(ts: seq<Task>): seq<nat> {
    seq(|ts|, i requires 0 <= i < |ts| => ts[i].id)
  }

  ghost predicate Distinct(ids: seq<nat>) {
    forall i, j :: 0 <= i < j < |ids| ==> ids[i] != ids[j]
  }

  lemma StepOrder(l: Ledger, e: Event)
    ensures IdsOf(Order(LedgerStep(l, e))) == IdsOf(Order(l)) + (if e.Dispatch? then [e.id] else [])
  {
  }

  lemma {:induction false} RunRepresents(s: State, l: Ledger, events: seq<Event>)
    requires Represents(s, l) && Distinct(IdsOf(Order(l)) + Dispatched(events))
    ensures Represents(Run(s, events), LedgerRun(l, events))
    ensures IdsOf(Order(LedgerRun(l, events))) == IdsOf(Order(l)) + Dispatched(events)
    decreases |events|
  {
    if events == [] {
      assert IdsOf(Order(l)) + Dispatched(events) == IdsOf(Order(l));
    } else {
      StepIds(l, events);
      StepRepresents(s, l, events);
      RunRepresents(Step(s, events[0]), LedgerStep(l, events[0]), events[1..]);
    }
  }

  /** The ids still to come move into the order as they are dispatched. */
  lemma StepIds(l: Ledger, events: seq<Event>)
    requires events != []
    ensures IdsOf(Order(LedgerStep(l, events[0]))) + Dispatched(events[1..]) == IdsOf(Order(l)) + Dispatched(events)
  {
    StepOrder(l, events[0]);
    Assoc(IdsOf(Order(l)), if events[0].Dispatch? then [events[0].id] else [], Dispatched(events[1..]));
  }

  lemma Assoc<T>(a: seq<T>, b: seq<T>, c: seq<T>)
    ensures (a + b) + c == a + (b + c)
  {
  }

  lemma StepRepresents(s: State, l: Ledger, events: seq<Event>)
    requires events != [] && Represents(s, l) && Distinct(IdsOf(Order(l)) + Dispatched(events))
    ensures Represents(Step(s, events[0]), LedgerStep(l, events[0]))
  {
    match events[0] {
      case Dispatch(id) =>
        FreshId(l, events);
        DispatchRepresents(s, l, id);
      case Pick => PickRepresents(s, l);
      case Settle(ok) => SettleRepresents(s, l, ok);
    }
  }

  lemma FreshId(l: Ledger, events: seq<Event>)
    requires events != [] && events[0].Dispatch? && Distinct(IdsOf(Order(l)) + Dispatched(events))
    ensures forall t :: t in Order(l) ==> t.id != events[0].id
  {
    var all := IdsOf(Order(l)) + Dispatched(events);
    assert all[|Order(l)|] == events[0].id;
    forall t | t in Order(l) ensures t.id != events[0].id {
      var i :| 0 <= i < |Order(l)| && Order(l)[i] == t;
      assert all[i] == t.id;
    }
  }

  // ---------------------------------------------------------------- the properties

  /**
   Conservation and order over every run with fresh ids: the queue always is the ledger of the
   dispatched ids in dispatch order, its final tasks first. Hence every dispatched task is in exactly
   one of the two lists, and in the dead letter queue exactly when it failed with all its attempts.
   */
  lemma QueueIsTheLedger(events: seq<Event>)
    requires Distinct(Dispatched(events))
    ensures var s, l := Run(EMPTY, events), LedgerRun(Ledger([], None, []), events);
            && Represents(s, l)
            && IdsOf(Order(l)) == Dispatched(events)
  {
    var l := Ledger([], None, []);
    assert IdsOf(Order(l)) + Dispatched(events) == Dispatched(events);
    assert Keep([], false) + Open(l) + l.unstarted == [];
    RunRepresents(EMPTY, l, events);
  }

  lemma Conservation(events: seq<Event>, id: nat)
    requires Distinct(Dispatched(events))
    ensures var s := Run(EMPTY, events);
            && (id in Dispatched(events) <==> id in IdsOf(s.tasks) || id in IdsOf(s.dlq))
            && !(id in IdsOf(s.tasks) && id in IdsOf(s.dlq))
            && (forall t :: t in s.dlq ==> t.status == Failed && t.attempts == 3)
            && (forall t :: t in s.tasks ==> t.status != Failed)
  {
    QueueIsTheLedger(events);
    var s, l := Run(EMPTY, events), LedgerRun(Ledger([], None, []), events);
    SplitByFailure(s, l);
    IdsMember(Order(l), id);
    IdsMember(s.tasks, id);
    IdsMember(s.dlq, id);
    OneTaskPerId(Order(l));
  }

  lemma SplitByFailure(s: State, l: Ledger)
    requires Represents(s, l)
    ensures forall t :: t in s.dlq <==> t in Order(l) && t.status == Failed
    ensures forall t :: t in s.tasks <==> t in Order(l) && t.status != Failed
    ensures forall t :: t in s.dlq ==> t.attempts == MAX_ATTEMPTS
  {
    assert forall t :: t in Order(l) <==> t in l.done || t in Open(l) || t in l.unstarted;
    forall t ensures t in s.dlq <==> t in l.done && t.status == Failed {
      KeepElements(l.done, true, t);
    }
    forall t ensures t in Keep(l.done, false) <==> t in l.done && t.status != Failed {
      KeepElements(l.done, false, t);
    }
  }

  lemma OneTaskPerId(ts: seq<Task>)
    requires DistinctIds(ts)
    ensures forall t, u :: t in ts && u in ts && t.id == u.id ==> t == u
  {
    forall t, u | t in ts && u in ts && t.id == u.id ensures t == u {
      var i :| 0 <= i < |ts| && ts[i] == t;
      var j :| 0 <= j < |ts| && ts[j] == u;
    }
  }

  lemma IdsMember(ts: seq<Task>, id: nat)
    ensures id in IdsOf(ts) <==> exists t :: t in ts && t.id == id
  {
    if id in IdsOf(ts) {
      var i :| 0 <= i < |ts| && IdsOf(ts)[i] == id;
      assert ts[i] in ts;
    }
    if t :| t in ts && t.id == id {
      var i :| 0 <= i < |ts| && ts[i] == t;
      assert IdsOf(ts)[i] == id;
    }
  }

  /**
   First in, first out: whenever a task is picked, every task dispatched before it has succeeded or
   has failed with all its attempts.
   */
  lemma PickedInDispatchOrder(events: seq<Event>)
    requires Distinct(Dispatched(events))
    ensures var s, l := Run(EMPTY, events), LedgerRun(Ledger([], None, []), events);
            var k := First(s.tasks, Queued);
            !Busy(s) && k < |s.tasks| ==>
              && |l.done| < |Order(l)| == |Dispatched(events)|
              && s.tasks[k] == Order(l)[|l.done|]
              && Dispatched(events)[|l.done|] == s.tasks[k].id
              && forall i :: 0 <= i < |l.done| ==> Final(Order(l)[i]) && Dispatched(events)[i] == Order(l)[i].id
  {
    QueueIsTheLedger(events);
    var s, l := Run(EMPTY, events), LedgerRun(Ledger([], None, []), events);
    Locate(s, l);
    assert |IdsOf(Order(l))| == |Order(l)|;
    assert forall i :: 0 <= i < |Order(l)| ==> IdsOf(Order(l))[i] == Order(l)[i].id;
  }

  // ---------------------------------------------------------------- the fate of one task

  predicate IsRunning(s: State, id: nat) {
    Busy(s) && s.tasks[First(s.tasks, Running)].id == id
  }

  /** How the attempts of one task ended, in order. */
  function Outcomes(s: State, events: seq<Event>, id: nat): seq<bool>
    decreases |events|
  {
    if events == [] then []
    else
      (if events[0].Settle? && IsRunning(s, id) then [events[0].ok] else [])
      + Outcomes(Step(s, events[0]), events[1..], id)
  }

  /** What the outcomes of its attempts make of a task. */
  predicate Fated(t: Task, outcomes: seq<bool>) {
    match t.status
    case Queued => t.attempts == |outcomes| < 3 && true !in outcomes
    case Running => t.attempts == |outcomes| + 1 <= 3 && true !in outcomes
    case Succeeded =>
      1 <= t.attempts == |outcomes| <= 3 && outcomes[t.attempts - 1] && true !in outcomes[..t.attempts - 1]
    case Failed => t.attempts == 3 && outcomes == [false, false, false]
  }

  /** The task with the id, if there is one, has its fate; before it is dispatched there are no outcomes. */
  ghost predicate FateOf(l: Ledger, id: nat, outcomes: seq<bool>) {
    && (forall t :: t in Order(l) && t.id == id ==> Fated(t, outcomes))
    && ((forall t :: t in Order(l) ==> t.id != id) ==> outcomes == [])
  }

  lemma RunningIff(s: State, l: Ledger, id: nat)
    requires Represents(s, l)
    ensures IsRunning(s, id) <==> l.current.Some? && l.current.value.status == Running && l.current.value.id == id
  {
    Locate(s, l);
    if Busy(s) {
      assert s.tasks[|Keep(l.done, false)|] == l.current.value;
    }
  }

  lemma OrderMembers(l: Ledger, t: Task)
    ensures t in Order(l) <==> t in l.done || t in Open(l) || t in l.unstarted
  {
  }

  lemma DispatchFate(l: Ledger, x: nat, id: nat, prior: seq<bool>)
    requires FateOf(l, id, prior) && forall t :: t in Order(l) ==> t.id != x
    ensures FateOf(LedgerStep(l, Dispatch(x)), id, prior)
  {
    var m := LedgerStep(l, Dispatch(x));
    forall t ensures t in Order(m) <==> t in Order(l) || t == Task(x, Queued, 0) {
      OrderMembers(l, t);
      OrderMembers(m, t);
    }
    if forall t :: t in Order(m) ==> t.id != id {
      assert forall t :: t in Order(l) ==> t in Order(m);
    }
  }

  /** The open task changes and no other. */
  lemma CurrentFate(l: Ledger, m: Ledger, u: Task, v: Task, id: nat, prior: seq<bool>, now: seq<bool>)
    requires FateOf(l, id, prior) && u in Order(l) && v in Order(m) && u.id == v.id
    requires forall t :: t in Order(m) <==> t == v || (t in Order(l) && t != u)
    requires forall t :: t in Order(l) && t.id == u.id ==> t == u
    requires now == if u.id == id then now else prior
    requires u.id == id && Fated(u, prior) ==> Fated(v, now)
    ensures FateOf(m, id, now)
  {
    if u.id != id && forall t :: t in Order(m) ==> t.id != id {
      forall t | t in Order(l) ensures t.id != id {
        assert t == u || t in Order(m);
      }
    }
  }

  lemma OneTaskById(l: Ledger, u: Task)
    requires WellFormed(l) && u in Order(l)
    ensures forall t :: t in Order(l) && t.id == u.id ==> t == u
  {
    OneTaskPerId(Order(l));
  }

  lemma PickFate(l: Ledger, id: nat, prior: seq<bool>)
    requires WellFormed(l) && FateOf(l, id, prior)
    ensures FateOf(LedgerStep(l, Pick), id, prior)
  {
    var m := LedgerStep(l, Pick);
    if m != l {
      var u := if l.current.Some? then l.current.value else l.unstarted[0];
      var v := m.current.value;
      OrderMembers(l, u);
      OneTaskById(l, u);
      OrderAfter(l, m, u, v);
      CurrentFate(l, m, u, v, id, prior, prior);
    }
  }

  lemma SettleFate(l: Ledger, ok: bool, id: nat, prior: seq<bool>)
    requires WellFormed(l) && FateOf(l, id, prior)
    ensures var settled := l.current.Some? && l.current.value.status == Running && l.current.value.id == id;
            FateOf(LedgerStep(l, Settle(ok)), id, prior + if settled then [ok] else [])
  {
    var m := LedgerStep(l, Settle(ok));
    if l.current.Some? && l.current.value.status == Running {
      var u := l.current.value;
      var v := u.(status := if ok then Succeeded else if u.attempts < 3 then Queued else Failed);
      OrderMembers(l, u);
      OneTaskById(l, u);
      OrderAfter(l, m, u, v);
      if u.id == id {
        OneOutcomeMore(u, v, prior, ok);
        CurrentFate(l, m, u, v, id, prior, prior + [ok]);
      } else {
        CurrentFate(l, m, u, v, id, prior, prior);
        assert prior + [] == prior;
      }
    } else {
      assert prior + [] == prior;
    }
  }

  lemma OneOutcomeMore(u: Task, v: Task, prior: seq<bool>, ok: bool)
    requires u.status == Running && Fated(u, prior)
    requires v == u.(status := if ok then Succeeded else if u.attempts < 3 then Queued else Failed)
    ensures Fated(v, prior + [ok])
  {
    var now := prior + [ok];
    assert now[..|prior|] == prior;
    assert forall i :: 0 <= i < |prior| ==> prior[i] in prior;
    if v.status == Failed {
      assert !prior[0] && !prior[1];
      assert now == [prior[0], prior[1], false];
    }
  }

  /** A step on the open task, or on the first one not started, replaces it in the order and nothing else. */
  lemma OrderAfter(l: Ledger, m: Ledger, u: Task, v: Task)
    requires WellFormed(l) && u in Order(l) && u.id == v.id && u != v
    requires || (l.current == Some(u) && m.unstarted == l.unstarted
                 && ((m.current == Some(v) && m.done == l.done) || (m.current == None && m.done == l.done + [v])))
             || (l.current.None? && l.unstarted != [] && l.unstarted[0] == u && m.done == l.done
                 && m.current == Some(v) && m.unstarted == l.unstarted[1..])
    ensures v in Order(m) && forall t :: t in Order(m) <==> t == v || (t in Order(l) && t != u)
  {
    var i := |l.done|;
    assert Order(l)[i] == u;
    assert Order(m) == Order(l)[i := v];
    forall t ensures t in Order(m) <==> t == v || (t in Order(l) && t != u) {
      if t in Order(m) && t != v {
        var j :| 0 <= j < |Order(m)| && Order(m)[j] == t;
        assert j != i && Order(l)[j] == t && Order(l)[j].id != Order(l)[i].id;
      }
      if t in Order(l) && t != u {
        var j :| 0 <= j < |Order(l)| && Order(l)[j] == t;
        assert Order(m)[j] == t;
      }
      assert Order(m)[i] == v;
    }
  }

  lemma {:induction false} RunFate(s: State, l: Ledger, events: seq<Event>, id: nat, prior: seq<bool>)
    requires Represents(s, l) && Distinct(IdsOf(Order(l)) + Dispatched(events)) && FateOf(l, id, prior)
    ensures FateOf(LedgerRun(l, events), id, prior + Outcomes(s, events, id))
    decreases |events|
  {
    if events == [] {
      assert prior + [] == prior;
    } else {
      var e := events[0];
      var one := if e.Settle? && IsRunning(s, id) then [e.ok] else [];
      StepIds(l, events);
      StepRepresents(s, l, events);
      StepFate(s, l, events, id, prior);
      RunFate(Step(s, e), LedgerStep(l, e), events[1..], id, prior + one);
      Assoc(prior, one, Outcomes(Step(s, e), events[1..], id));
    }
  }

  lemma StepFate(s: State, l: Ledger, events: seq<Event>, id: nat, prior: seq<bool>)
    requires events != [] && Represents(s, l) && Distinct(IdsOf(Order(l)) + Dispatched(events)) && FateOf(l, id, prior)
    ensures var one := if events[0].Settle? && IsRunning(s, id) then [events[0].ok] else [];
            FateOf(LedgerStep(l, events[0]), id, prior + one)
  {
    RunningIff(s, l, id);
    assert prior + [] == prior;
    match events[0] {
      case Dispatch(x) =>
        FreshId(l, events);
        DispatchFate(l, x, id, prior);
      case Pick => PickFate(l, id, prior);
      case Settle(ok) => SettleFate(l, ok, id, prior);
    }
  }

  /**
   The fate of every task over every run: it has succeeded when its last attempt did, after at most two
   that failed; it has failed, and is in the dead letter queue, when three attempts did; and as long
   as fewer have failed it is pending, or running the next one.
   */
  lemma TaskFate(events: seq<Event>, id: nat, t: Task)
    requires Distinct(Dispatched(events))
    requires var s := Run(EMPTY, events); t.id == id && (t in s.tasks || t in s.dlq)
    ensures Fated(t, Outcomes(EMPTY, events, id))
    ensures t in Run(EMPTY, events).dlq <==> Outcomes(EMPTY, events, id) == [false, false, false]
  {
    var l := Ledger([], None, []);
    assert IdsOf(Order(l)) + Dispatched(events) == Dispatched(events);
    assert Keep([], false) + Open(l) + l.unstarted == [];
    assert Order(l) == [];
    RunFate(EMPTY, l, events, id, []);
    assert [] + Outcomes(EMPTY, events, id) == Outcomes(EMPTY, events, id);
    QueueIsTheLedger(events);
    SplitByFailure(Run(EMPTY, events), LedgerRun(l, events));
  }

  // ---------------------------------------------------------------- termination

  /** Attempts left before the worker runs out of work, when it is not in the middle of a task. */
  function Remaining(tasks: seq<Task>): nat
    decreases |tasks|
  {
    if tasks == [] then 0
    else (if tasks[0].status == Queued && tasks[0].attempts < MAX_ATTEMPTS then MAX_ATTEMPTS - tasks[0].attempts else 0)
         + Remaining(tasks[1..])
  }

  lemma {:induction false} RemainingOfFresh(ts: seq<Task>)
    requires forall i :: 0 <= i < |ts| ==> ts[i].status == Queued && ts[i].attempts == 0
    ensures Remaining(ts) == MAX_ATTEMPTS * |ts|
    decreases |ts|
  {
    if ts == [] {
    } else {
      RemainingOfFresh(ts[1..]);
    }
  }

  /** One iteration of the loop: pick, await, settle. */
  function Iterate(l: Ledger, ok: bool): Ledger {
    LedgerStep(LedgerStep(l, Pick), Settle(ok))
  }

  function Work(l: Ledger): nat {
    Remaining(Open(l)) + Remaining(l.unstarted)
  }

  lemma IterationDecreasesWork(l: Ledger, ok: bool)
    requires WellFormed(l) && (l.current.Some? ==> l.current.value.status == Queued)
    ensures var m := Iterate(l, ok);
            && (m.current.Some? ==> m.current.value.status == Queued)
            && (if Work(l) == 0 then m == l else Work(m) < Work(l))
            && WellFormed(m)
  {
    var m := Iterate(l, ok);
    RemainingOfFresh(l.unstarted);
    if l.current.Some? {
      assert [l.current.value][1..] == [];
      assert Remaining([l.current.value]) == MAX_ATTEMPTS - l.current.value.attempts;
    } else if l.unstarted != [] {
      RemainingOfFresh(l.unstarted[1..]);
    }
    if m.current.Some? {
      assert [m.current.value][1..] == [];
      assert Remaining([m.current.value]) == MAX_ATTEMPTS - m.current.value.attempts;
    }
    SameIdsDistinct(Order(l), Order(m));
  }

  lemma {:induction false} RemainingConcat(a: seq<Task>, b: seq<Task>)
    ensures Remaining(a + b) == Remaining(a) + Remaining(b)
    decreases |a|
  {
    if a == [] {
      assert a + b == b;
    } else {
      RemainingConcat(a[1..], b);
      assert (a + b)[0] == a[0] && (a + b)[1..] == a[1..] + b;
    }
  }

  lemma {:induction false} NoneRemaining(ts: seq<Task>)
    requires forall i :: 0 <= i < |ts| ==> ts[i].status != Queued
    ensures Remaining(ts) == 0
    decreases |ts|
  {
    if ts == [] {
    } else {
      NoneRemaining(ts[1..]);
    }
  }

  function CountQueued(tasks: seq<Task>): nat
    decreases |tasks|
  {
    if tasks == [] then 0 else (if tasks[0].status == Queued then 1 else 0) + CountQueued(tasks[1..])
  }

  lemma {:induction false} RemainingBounded(tasks: seq<Task>)
    ensures Remaining(tasks) <= MAX_ATTEMPTS * CountQueued(tasks)
    decreases |tasks|
  {
    if tasks == [] {
    } else {
      RemainingBounded(tasks[1..]);
    }
  }

  /** The attempts left in the pending list are those of the open task and of the tasks never started. */
  lemma WorkIsRemaining(s: State, l: Ledger)
    requires Represents(s, l)
    ensures Work(l) == Remaining(s.tasks)
  {
    var kept := Keep(l.done, false);
    forall i | 0 <= i < |kept| ensures kept[i].status != Queued {
      KeepElements(l.done, false, kept[i]);
      var j :| 0 <= j < |l.done| && l.done[j] == kept[i];
    }
    NoneRemaining(kept);
    RemainingConcat(kept + Open(l), l.unstarted);
    RemainingConcat(kept, Open(l));
  }

  // ---------------------------------------------------------------- the loop

  /** How the task of an iteration ends, and whether a listener of its failure event would throw. */
  datatype Turn = Turn(ok: bool, listenerThrows: bool)

  function Iterated(s: State, ok: bool): State {
    Step(Step(s, Pick), Settle(ok))
  }

  predicate Thrown(s: State, t: Turn) {
    DeadLetters(Step(s, Pick), t.ok) && t.listenerThrows
  }

  /** What the loop does in so many iterations; after an exception there is no next one. */
  function LoopEvents(s: State, turns: seq<Turn>): seq<Event>
    decreases |turns|
  {
    if turns == [] then []
    else
      [Pick, Settle(turns[0].ok)]
      + if Thrown(s, turns[0]) then [] else LoopEvents(Iterated(s, turns[0].ok), turns[1..])
  }

  /** A listener throws when there are tasks left to do. */
  predicate EndsEarly(s: State, turns: seq<Turn>)
    decreases |turns|
  {
    turns != [] &&
      if Thrown(s, turns[0]) then Remaining(Iterated(s, turns[0].ok).tasks) > 0
      else EndsEarly(Iterated(s, turns[0].ok), turns[1..])
  }

  predicate Idle(l: Ledger) {
    l.current.Some? ==> l.current.value.status == Queued
  }

  lemma PendingIff(s: State, l: Ledger)
    requires Represents(s, l) && Idle(l)
    ensures !Busy(s) && (First(s.tasks, Queued) == |s.tasks| <==> Remaining(s.tasks) == 0)
  {
    Locate(s, l);
    WorkIsRemaining(s, l);
    RemainingOfFresh(l.unstarted);
    assert forall t: Task :: [t][1..] == [];
  }

  lemma IterationRepresents(s: State, l: Ledger, ok: bool)
    requires Represents(s, l) && Idle(l)
    ensures Represents(Iterated(s, ok), Iterate(l, ok)) && Idle(Iterate(l, ok))
    ensures Remaining(s.tasks) == 0 || Remaining(Iterated(s, ok).tasks) < Remaining(s.tasks)
    ensures Remaining(s.tasks) == 0 ==> Remaining(Iterated(s, ok).tasks) == 0
  {
    PickRepresents(s, l);
    SettleRepresents(Step(s, Pick), LedgerStep(l, Pick), ok);
    IterationDecreasesWork(l, ok);
    WorkIsRemaining(s, l);
    WorkIsRemaining(Iterated(s, ok), Iterate(l, ok));
  }

  lemma RunTwo(s: State, ok: bool, rest: seq<Event>)
    ensures Run(s, [Pick, Settle(ok)] + rest) == Run(Iterated(s, ok), rest)
  {
    var es := [Pick, Settle(ok)] + rest;
    assert es[1..] == [Settle(ok)] + rest && es[1..][1..] == rest;
  }

  lemma {:induction false} LoopDrainsIff(s: State, l: Ledger, turns: seq<Turn>)
    requires Represents(s, l) && Idle(l) && |turns| >= Remaining(s.tasks)
    ensures var t := Run(s, LoopEvents(s, turns));
            !Busy(t) && (First(t.tasks, Queued) == |t.tasks| <==> !EndsEarly(s, turns))
    decreases |turns|
  {
    if turns == [] {
      PendingIff(s, l);
    } else {
      var t, m := Iterated(s, turns[0].ok), Iterate(l, turns[0].ok);
      IterationRepresents(s, l, turns[0].ok);
      RunTwo(s, turns[0].ok, if Thrown(s, turns[0]) then [] else LoopEvents(t, turns[1..]));
      if Thrown(s, turns[0]) {
        PendingIff(t, m);
      } else {
        LoopDrainsIff(t, m, turns[1..]);
      }
    }
  }

  lemma {:induction false} QuietNeverEndsEarly(s: State, turns: seq<Turn>)
    requires forall t :: t in turns ==> !t.listenerThrows
    ensures !EndsEarly(s, turns)
    decreases |turns|
  {
    if turns == [] {
    } else {
      assert turns[0] in turns;
      QuietNeverEndsEarly(Iterated(s, turns[0].ok), turns[1..]);
    }
  }

  /**
   Draining. In every reachable state in which no task is running, with final tasks, retries and
   tasks never started in any mixture, as many turns as there are attempts left leave nothing
   pending, whatever their outcomes, exactly when no listener throws at a dead letter with tasks left
   to do; for `n` pending tasks these are at most `3n` turns.
   */
  lemma DrainsWithinThreeN(events: seq<Event>, turns: seq<Turn>)
    requires Distinct(Dispatched(events)) && !Busy(Run(EMPTY, events))
    ensures var s := Run(EMPTY, events);
            var t := Run(s, LoopEvents(s, turns));
            && Remaining(s.tasks) <= 3 * CountQueued(s.tasks)
            && (|turns| >= Remaining(s.tasks) ==>
                  !Busy(t) && (First(t.tasks, Queued) == |t.tasks| <==> !EndsEarly(s, turns)))
            && ((forall u :: u in turns ==> !u.listenerThrows) ==> !EndsEarly(s, turns))
  {
    var s, l := Run(EMPTY, events), LedgerRun(Ledger([], None, []), events);
    QueueIsTheLedger(events);
    Locate(s, l);
    RemainingBounded(s.tasks);
    if |turns| >= Remaining(s.tasks) {
      LoopDrainsIff(s, l, turns);
    }
    if forall u :: u in turns ==> !u.listenerThrows {
      QuietNeverEndsEarly(s, turns);
    }
  }

  /** Two tasks, of which the first fails three times and its failure has a throwing listener: the second never runs. */
  lemma ThrowingListenerStopsTheLoop(more: seq<Turn>)
    ensures var s := State([Task(1, Queued, 2), Task(2, Queued, 0)], []);
            Run(s, LoopEvents(s, [Turn(false, true)] + more)) == State([Task(2, Queued, 0)], [Task(1, Failed, 3)])
  {
    var s := State([Task(1, Queued, 2), Task(2, Queued, 0)], []);
    var p := Step(s, Pick);
    assert p.tasks == [Task(1, Running, 3), Task(2, Queued, 0)] && First(p.tasks, Running) == 0;
    assert p.tasks[0 := Task(1, Failed, 3)] == [Task(1, Failed, 3)] + [Task(2, Queued, 0)];
    RemoveHead(Task(1, Failed, 3), [Task(2, Queued, 0)]);
    assert ([Turn(false, true)] + more)[0] == Turn(false, true);
    RunTwo(s, false, []);
  }
}
