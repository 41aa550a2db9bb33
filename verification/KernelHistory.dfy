/** What a whole history of runs keeps: requests are answered at most once, inputs
    are taken in the order they came, and none is lost from sight. */
module KernelHistory {
  import opened Common
  import opened KernelModels
  import opened ToolUnits
  import opened ToolExecution
  import opened KernelSteps

  // ---- tasks and requests are distinct ---------------------------------------------------

  predicate DistinctIds(tasks: seq<Task>) {
    forall i, j | 0 <= i < j < |tasks| :: tasks[i].id != tasks[j].id
  }

  ghost predicate DistinctTasks(s: Session) {
    && (forall a :: DistinctIds(TasksOf(s, a)))
    && (forall a, b, t, u {:trigger t in TasksOf(s, a), u in TasksOf(s, b)} ::
          a != b && t in TasksOf(s, a) && u in TasksOf(s, b) ==> t.id != u.id)
  }

  predicate WaitsFor(t: Task, r: nat) {
    t.state.status.Paused? && t.request.Some? && t.request.value.id == r
  }

  /** No two tasks wait for the same request. */
  ghost predicate UniqueWaiting(s: Session) {
    forall a, b, t, u, r: nat {:trigger t in TasksOf(s, a), u in TasksOf(s, b), WaitsFor(t, r)} ::
      t in TasksOf(s, a) && u in TasksOf(s, b) && WaitsFor(t, r) && WaitsFor(u, r) ==> t.id == u.id
  }

  /** No task waits for an answered request. */
  ghost predicate WaitingUnanswered(s: State) {
    forall a, t, r: nat, d {:trigger t in TasksOf(s.session, a), Answered(r, d)} ::
      t in TasksOf(s.session, a) && WaitsFor(t, r) ==> Answered(r, d) !in s.log
  }

  /** Every request is answered at most once and raised at most once, every input
      arrives once. */
  predicate OnceEach(log: seq<Entry>) {
    forall i, j | 0 <= i < j < |log| ::
      && (log[i].Answered? && log[j].Answered? ==> log[i].request != log[j].request)
      && (log[i].Raised? && log[j].Raised? ==> log[i].request != log[j].request)
      && (log[i].Arrived? && log[j].Arrived? ==> log[i].input.id != log[j].input.id)
  }

  predicate EntryKnown(next: nat, e: Entry) {
    (e.Answered? || e.Raised? ==> e.request < next) && (e.Arrived? ==> e.input.id < next)
  }

  ghost predicate IdsKnown(s: State) {
    && (forall e :: e in s.log ==> EntryKnown(s.next, e))
    && (forall a, t {:trigger t in TasksOf(s.session, a)} :: t in TasksOf(s.session, a) ==>
          t.id < s.next && (t.request.Some? ==> t.request.value.id < s.next))
  }

  ghost predicate RequestsOk(s: State) {
    DistinctTasks(s.session) && UniqueWaiting(s.session) && WaitingUnanswered(s) && OnceEach(s.log) && IdsKnown(s)
  }

  predicate FreshEntry(next: nat, e: Entry) {
    !e.Answered? && (e.Raised? ==> e.request >= next) && (e.Arrived? ==> e.input.id >= next)
  }

  /** The log grew by entries that answer nothing and raise at most what is new. */
  ghost predicate Appended(s: State, s': State, more: seq<Entry>) {
    && s'.log == s.log + more && s.next <= s'.next
    && |more| <= 1 && forall e :: e in more ==> EntryKnown(s'.next, e) && FreshEntry(s.next, e)
  }

  lemma {:induction false} LogGrows(s: State, s': State, more: seq<Entry>)
    requires OnceEach(s.log) && Appended(s, s', more) && forall e :: e in s.log ==> EntryKnown(s.next, e)
    ensures OnceEach(s'.log) && forall e :: e in s'.log ==> EntryKnown(s'.next, e)
  {
    forall i, j | 0 <= i < j < |s'.log|
      ensures (s'.log[i].Answered? && s'.log[j].Answered? ==> s'.log[i].request != s'.log[j].request)
           && (s'.log[i].Raised? && s'.log[j].Raised? ==> s'.log[i].request != s'.log[j].request)
           && (s'.log[i].Arrived? && s'.log[j].Arrived? ==> s'.log[i].input.id != s'.log[j].input.id)
    {
      assert s'.log[i] == s.log[i] && s.log[i] in s.log;
      if j == |s.log| {
        assert s'.log[j] in more;
      }
    }
  }

  /** Tasks are only dropped. */
  lemma {:induction false} RequestsShrink(s: State, s': State, more: seq<Entry>)
    requires RequestsOk(s) && Appended(s, s', more)
    requires DistinctTasks(s'.session)
    requires forall a, t {:trigger t in TasksOf(s'.session, a)} :: t in TasksOf(s'.session, a) ==> t in TasksOf(s.session, a)
    ensures RequestsOk(s')
  {
    hide OnceEach, EntryKnown, DistinctTasks;
    LogGrows(s, s', more);
    forall a, x, r: nat, d | x in TasksOf(s'.session, a) && WaitsFor(x, r) ensures Answered(r, d) !in s'.log {
      assert Answered(r, d) !in more;
    }
  }

  /** One task is replaced: it goes on running, or waits for a new request. */
  lemma {:induction false} RequestsSet(s: State, s': State, more: seq<Entry>, agent: string, k: nat, t: Task)
    requires RequestsOk(s) && Appended(s, s', more) && k < |TasksOf(s.session, agent)|
    requires s'.session.tasks == SetTask(s.session, agent, k, t).tasks && t.id == TasksOf(s.session, agent)[k].id
    requires t.request.Some? ==> t.request.value.id < s'.next
    requires t.state.status.Paused? && t.request.Some? ==> t.request.value.id >= s.next
    ensures RequestsOk(s')
  {
    hide OnceEach, EntryKnown, DistinctTasks, UniqueWaiting, WaitingUnanswered;
    LogGrows(s, s', more);
    assert TasksOf(s.session, agent)[k] in TasksOf(s.session, agent);
    TasksSetDistinct(s.session, s'.session, agent, k, t);
    forall a, x | x in TasksOf(s'.session, a) ensures OldOrNew(s.session, a, x, agent, t) {
      SetMembers(s.session, s'.session, agent, k, t, a, x);
    }
    WaitingSet(s, s', agent, t);
    UnansweredSet(s, s', more, agent, t);
  }

  predicate OldOrNew(s: Session, a: string, x: Task, agent: string, t: Task) {
    (x in TasksOf(s, a) && (a != agent || x.id != t.id)) || (a == agent && x == t)
  }

  lemma {:induction false} SetMembers(s: Session, s': Session, agent: string, k: nat, t: Task, a: string, x: Task)
    requires DistinctTasks(s) && k < |TasksOf(s, agent)| && x in TasksOf(s', a)
    requires s'.tasks == SetTask(s, agent, k, t).tasks && t.id == TasksOf(s, agent)[k].id
    ensures OldOrNew(s, a, x, agent, t)
  {
    assert DistinctIds(TasksOf(s, agent));
    if a == agent {
      var j :| 0 <= j < |TasksOf(s', a)| && TasksOf(s', a)[j] == x;
      if j != k {
        assert TasksOf(s, a)[j] == x && TasksOf(s, a)[j].id != TasksOf(s, a)[k].id;
      }
    }
  }

  /** The old waiting requests are smaller than a new one. */
  lemma {:induction false} WaitingSet(s: State, s': State, agent: string, t: Task)
    requires UniqueWaiting(s.session) && IdsKnown(s)
    requires forall a, x :: x in TasksOf(s'.session, a) ==> OldOrNew(s.session, a, x, agent, t)
    requires t.state.status.Paused? && t.request.Some? ==> t.request.value.id >= s.next
    ensures UniqueWaiting(s'.session)
  {
    forall a, b, x, y, r: nat | x in TasksOf(s'.session, a) && y in TasksOf(s'.session, b) && WaitsFor(x, r) && WaitsFor(y, r)
      ensures x.id == y.id
    {
      assert OldOrNew(s.session, a, x, agent, t) && OldOrNew(s.session, b, y, agent, t);
      assert x == t || (x in TasksOf(s.session, a) && r < s.next);
      assert y == t || (y in TasksOf(s.session, b) && r < s.next);
    }
  }

  lemma {:induction false} UnansweredSet(s: State, s': State, more: seq<Entry>, agent: string, t: Task)
    requires WaitingUnanswered(s) && IdsKnown(s) && Appended(s, s', more)
    requires forall a, x :: x in TasksOf(s'.session, a) ==> OldOrNew(s.session, a, x, agent, t)
    requires t.state.status.Paused? && t.request.Some? ==> t.request.value.id >= s.next
    ensures WaitingUnanswered(s')
  {
    forall a, x, r: nat, d | x in TasksOf(s'.session, a) && WaitsFor(x, r) ensures Answered(r, d) !in s'.log {
      assert OldOrNew(s.session, a, x, agent, t);
      assert Answered(r, d) in s.log ==> EntryKnown(s.next, Answered(r, d));
      assert Answered(r, d) !in more;
    }
  }

  lemma {:induction false} TasksSetDistinct(s: Session, s': Session, agent: string, k: nat, t: Task)
    requires DistinctTasks(s) && k < |TasksOf(s, agent)|
    requires s'.tasks == SetTask(s, agent, k, t).tasks && t.id == TasksOf(s, agent)[k].id
    ensures DistinctTasks(s')
  {
    forall a ensures DistinctIds(TasksOf(s', a)) {
      assert DistinctIds(TasksOf(s, a));
    }
    forall a, b, x, y | a != b && x in TasksOf(s', a) && y in TasksOf(s', b) ensures x.id != y.id {
      var x' := if a == agent && x == t then TasksOf(s, a)[k] else x;
      var y' := if b == agent && y == t then TasksOf(s, b)[k] else y;
      assert x' in TasksOf(s, a) && y' in TasksOf(s, b);
    }
  }

  /** A new task with a new id joins a list. */
  lemma {:induction false} RequestsStart(s: State, s': State, more: seq<Entry>, agent: string, t: Task)
    requires RequestsOk(s) && Appended(s, s', more)
    requires s'.session.tasks == s.session.tasks[agent := TasksOf(s.session, agent) + [t]]
    requires s.next <= t.id < s'.next && t.request.None?
    ensures RequestsOk(s')
  {
    hide OnceEach, EntryKnown;
    LogGrows(s, s', more);
    forall a, x | x in TasksOf(s'.session, a) ensures x in TasksOf(s.session, a) || (a == agent && x == t) {
    }
    forall a ensures DistinctIds(TasksOf(s'.session, a)) {
      assert DistinctIds(TasksOf(s.session, a));
      forall i | 0 <= i < |TasksOf(s.session, a)| ensures TasksOf(s.session, a)[i].id < s.next {
        assert TasksOf(s.session, a)[i] in TasksOf(s.session, a);
      }
    }
  }

  /** The waiting task is answered: its request is used up. */
  lemma {:induction false} RequestsAnswered(s: State, s': State, agent: string, k: nat, t: Task, r: nat, d: ResponseData)
    requires RequestsOk(s) && k < |TasksOf(s.session, agent)| && WaitsFor(TasksOf(s.session, agent)[k], r)
    requires s'.session.tasks == SetTask(s.session, agent, k, t).tasks && t.id == TasksOf(s.session, agent)[k].id
    requires !t.state.status.Paused? && t.request.Some? && t.request.value.id == r
    requires s'.log == s.log + [Answered(r, d)] && s'.next == s.next
    ensures RequestsOk(s')
  {
    hide OnceEach, EntryKnown, DistinctTasks, WaitingUnanswered;
    var was := TasksOf(s.session, agent)[k];
    assert was in TasksOf(s.session, agent);
    TasksSetDistinct(s.session, s'.session, agent, k, t);
    AnswerLogged(s, s', agent, was, r, d);
    forall a, x | x in TasksOf(s'.session, a) ensures OldOrNew(s.session, a, x, agent, t) {
      SetMembers(s.session, s'.session, agent, k, t, a, x);
    }
    WaitingSet(s, s', agent, t);
    UsedUp(s, s', agent, was, t, r, d);
  }

  lemma {:induction false} UsedUp(s: State, s': State, agent: string, was: Task, t: Task, r: nat, d: ResponseData)
    requires UniqueWaiting(s.session) && WaitingUnanswered(s) && DistinctTasks(s.session)
    requires was in TasksOf(s.session, agent) && WaitsFor(was, r) && t.id == was.id && !t.state.status.Paused?
    requires forall a, x :: x in TasksOf(s'.session, a) ==> OldOrNew(s.session, a, x, agent, t)
    requires s'.log == s.log + [Answered(r, d)]
    ensures WaitingUnanswered(s')
  {
    forall a, x, q: nat, e | x in TasksOf(s'.session, a) && WaitsFor(x, q) ensures Answered(q, e) !in s'.log {
      assert OldOrNew(s.session, a, x, agent, t);
      assert x in TasksOf(s.session, a) && x.id != was.id;
      assert q != r;
    }
  }

  lemma {:induction false} AnswerLogged(s: State, s': State, agent: string, t: Task, r: nat, d: ResponseData)
    requires RequestsOk(s) && t in TasksOf(s.session, agent) && WaitsFor(t, r)
    requires s'.log == s.log + [Answered(r, d)] && s'.next == s.next
    ensures OnceEach(s'.log) && forall e :: e in s'.log ==> EntryKnown(s'.next, e)
  {
    forall i, j | 0 <= i < j < |s'.log|
      ensures (s'.log[i].Answered? && s'.log[j].Answered? ==> s'.log[i].request != s'.log[j].request)
           && (s'.log[i].Raised? && s'.log[j].Raised? ==> s'.log[i].request != s'.log[j].request)
           && (s'.log[i].Arrived? && s'.log[j].Arrived? ==> s'.log[i].input.id != s'.log[j].input.id)
    {
      assert s'.log[i] == s.log[i] && s.log[i] in s.log;
      if s.log[i].Answered? {
        assert Answered(r, s.log[i].data) !in s.log;
      }
    }
  }

  // ---- arrival order ------------------------------------------------------------------------

  /** User inputs in the order they arrived. */
  function ArrivedUsers(log: seq<Entry>): seq<Input> {
    if log == [] then []
    else
      var e := log[|log| - 1];
      ArrivedUsers(log[..|log| - 1]) + if e.Arrived? && e.input.event.UserInput? then [e.input] else []
  }

  /** User inputs in the order they left the queue: each started a task, or was
      discarded when a run was finished. */
  function TakenUsers(log: seq<Entry>): seq<Input> {
    if log == [] then []
    else
      var e := log[|log| - 1];
      TakenUsers(log[..|log| - 1]) + if (e.Started? || e.Discarded?) && e.input.event.UserInput? then [e.input] else []
  }

  function QueuedUsers(queue: seq<Input>): seq<Input> {
    if queue == [] then []
    else
      var i := queue[|queue| - 1];
      QueuedUsers(queue[..|queue| - 1]) + if i.event.UserInput? then [i] else []
  }

  /** First in, first out: what has arrived is what was taken, then what is queued. */
  predicate InOrder(s: State) {
    ArrivedUsers(s.log) == TakenUsers(s.log) + QueuedUsers(s.session.inputQueue)
  }

  lemma {:induction false} UsersConcat(log: seq<Entry>, more: seq<Entry>)
    ensures ArrivedUsers(log + more) == ArrivedUsers(log) + ArrivedUsers(more)
    ensures TakenUsers(log + more) == TakenUsers(log) + TakenUsers(more)
  {
    if more == [] {
      assert log + more == log;
    } else {
      var front := more[..|more| - 1];
      assert (log + more)[..|log + more| - 1] == log + front;
      UsersConcat(log, front);
    }
  }

  lemma {:induction false} QueuedHead(queue: seq<Input>)
    requires queue != []
    ensures QueuedUsers(queue) == (if queue[0].event.UserInput? then [queue[0]] else []) + QueuedUsers(queue[1..])
  {
    if |queue| > 1 {
      var front := queue[..|queue| - 1];
      QueuedHead(front);
      assert front[1..] == queue[1..][..|queue| - 2];
    }
  }

  lemma {:induction false} DiscardsUsers(queue: seq<Input>)
    ensures ArrivedUsers(Discards(queue)) == [] && TakenUsers(Discards(queue)) == QueuedUsers(queue)
  {
    if queue != [] {
      DiscardsUsers(queue[..|queue| - 1]);
      var d := Discards(queue);
      assert d[..|d| - 1] == Discards(queue[..|queue| - 1]);
    }
  }

  lemma {:induction false} AbandonsUsers(tasks: seq<Task>)
    ensures ArrivedUsers(Abandons(tasks)) == [] && TakenUsers(Abandons(tasks)) == []
  {
    if tasks != [] {
      var last := tasks[|tasks| - 1];
      AbandonsUsers(tasks[..|tasks| - 1]);
      UsersConcat(Abandons(tasks[..|tasks| - 1]), if last.state.status.Paused? then [] else [Abandoned(last.startInput)]);
      assert ArrivedUsers([Abandoned(last.startInput)]) == [] && TakenUsers([Abandoned(last.startInput)]) == [];
    }
  }

  // ---- accounting -----------------------------------------------------------------------------

  /** Where an accepted user input can be found. */
  ghost predicate Accounted(s: State, i: Input) {
    || i in s.session.inputQueue
    || (exists a, t :: t in TasksOf(s.session, a) && t.startInput == i)
    || (exists owner :: InputArtifact(owner, i) in s.session.history)
    || Discarded(i) in s.log || Abandoned(i) in s.log
  }

  ghost predicate AllAccounted(s: State) {
    forall i :: Arrived(i) in s.log && i.event.UserInput? ==> Accounted(s, i)
  }

  /** Inputs found in `s` are found in `s'`. */
  ghost predicate Holds(s: State, s': State) {
    && (forall i :: i in s.session.inputQueue && i.event.UserInput? ==> Accounted(s', i))
    && (forall a, t {:trigger t in TasksOf(s.session, a)} :: t in TasksOf(s.session, a) ==> Accounted(s', t.startInput))
    && (forall x :: x in s.session.history ==> x in s'.session.history)
    && (forall e :: e in s.log ==> e in s'.log)
  }

  lemma {:induction false} AccountedKept(s: State, s': State)
    requires AllAccounted(s) && Holds(s, s')
    requires forall i :: Arrived(i) in s'.log && i.event.UserInput? ==> Arrived(i) in s.log || i in s'.session.inputQueue
    ensures AllAccounted(s')
  {
    forall i | Arrived(i) in s'.log && i.event.UserInput? ensures Accounted(s', i) {
      if Arrived(i) in s.log {
        assert Accounted(s, i);
        if i in s.session.inputQueue {
        } else if exists a, t :: t in TasksOf(s.session, a) && t.startInput == i {
          var a, t :| t in TasksOf(s.session, a) && t.startInput == i;
          assert Accounted(s', t.startInput);
        } else if exists owner :: InputArtifact(owner, i) in s.session.history {
          var owner :| InputArtifact(owner, i) in s.session.history;
          assert InputArtifact(owner, i) in s'.session.history;
        }
      }
    }
  }
}
