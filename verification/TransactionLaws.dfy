/** Who owns a client, and what runs on it, in every run of transactions and queries. */
module TransactionLaws {
  import opened Basics
  import opened Transactions

  // ---------------------------------------------------------------- the invariant

  /** A statement in the queue: a call on the chain of the transaction, still waiting for its answer. */
  ghost predicate Pending(command: Command, tasks: seq<Task>, t: nat) {
    && command.Statement? && command.task < |tasks| && command.task != t
    && !tasks[command.task].isTransaction && tasks[command.task].context == Some(t)
    && tasks[command.task].client == None
    && tasks[command.task].phase == Awaiting(command, None)
  }

  ghost predicate AllPending(queue: seq<Command>, tasks: seq<Task>, t: nat) {
    && (forall i | 0 <= i < |queue| :: Pending(queue[i], tasks, t))
    && (forall i, j | 0 <= i < j < |queue| :: queue[i].task != queue[j].task)
  }

  /** Statements of the callback, and after them one last command. */
  ghost predicate EndsWith(queue: seq<Command>, last: Command, tasks: seq<Task>, t: nat) {
    queue != [] && queue[|queue| - 1] == last && AllPending(queue[..|queue| - 1], tasks, t)
  }

  ghost predicate HolderOk(client: Client, tasks: seq<Task>, t: nat)
    requires t < |tasks|
  {
    var task := tasks[t];
    if !task.isTransaction then
      && task.context == None && !client.open
      && task.phase.Awaiting? && task.phase.command == Statement(t)
      && client.queue == if task.phase.answer.None? then [Statement(t)] else []
    else
      match task.phase
      case Running => task.begun && client.open && AllPending(client.queue, tasks, t)
      case Awaiting(Begin(b), answer) =>
        && b == t && !task.begun
        && client.queue == (if answer.None? then [Begin(t)] else [])
        && (if answer == Some(true) then client.open else answer.None? ==> !client.open)
      case Awaiting(Commit(b), answer) =>
        && b == t && task.begun
        && (match answer
            case None => client.open && EndsWith(client.queue, Commit(t), tasks, t)
            case Some(ok) => client.queue == [] && (ok ==> !client.open))
      case Awaiting(Rollback(b), answer) =>
        && b == t && task.begun
        && (match answer
            case None => EndsWith(client.queue, Rollback(t), tasks, t) && (|client.queue| > 1 ==> client.open)
            case Some(ok) => client.queue == [] && (ok ==> !client.open))
      case _ => false
  }

  ghost predicate ClientOk(client: Client, c: nat, tasks: seq<Task>) {
    match client.lease
    case Idle => !client.open && client.queue == []
    case Gone => client.queue == []
    case Held(t) => t < |tasks| && tasks[t].client == Some(c) && HolderOk(client, tasks, t)
  }

  ghost predicate TaskOk(task: Task, t: nat, clients: seq<Client>) {
    && task.releases == (if task.phase.Finished? && task.client.Some? then 1 else 0)
    && (task.phase.Connecting? ==> task.client == None && !task.begun && task.context == None)
    && (task.context.Some? ==>
          task.client == None && (task.isTransaction ==> task.phase == Finished(false) && !task.begun))
    && (task.client.Some? && !task.phase.Finished? ==>
          task.client.value < |clients| && clients[task.client.value].lease == Held(t))
    && (task.client == None && !task.phase.Finished? && !task.phase.Connecting? ==>
          !task.isTransaction && task.context.Some? && task.phase.Awaiting? && task.phase.command == Statement(t))
  }

  /** A statement of a callback ran inside its own transaction, any other one outside all transactions. */
  ghost predicate ExecutionOk(x: Execution, tasks: seq<Task>) {
    && x.task < |tasks| && !tasks[x.task].isTransaction
    && (match tasks[x.task].context
        case Some(t) => x.holder == Some(t) && x.inside
        case None => x.holder == Some(x.task) && !x.inside)
  }

  ghost predicate ClientsOk(clients: seq<Client>, tasks: seq<Task>) {
    forall c: nat | c < |clients| :: ClientOk(clients[c], c, tasks)
  }

  ghost predicate TasksOk(tasks: seq<Task>, clients: seq<Client>) {
    forall t: nat | t < |tasks| :: TaskOk(tasks[t], t, clients)
  }

  ghost predicate ExecutionsOk(executed: seq<Execution>, tasks: seq<Task>) {
    forall i | 0 <= i < |executed| :: ExecutionOk(executed[i], tasks)
  }

  ghost predicate Holds(s: State) {
    ClientsOk(s.clients, s.tasks) && TasksOk(s.tasks, s.clients) && ExecutionsOk(s.executed, s.tasks)
  }

  // ---------------------------------------------------------------- frames

  /** Tasks other than `u` are as before, and `u` is in no queue but that of transaction `except`. */
  ghost predicate Kept(tasks: seq<Task>, tasks': seq<Task>, u: nat) {
    |tasks| <= |tasks'| && forall t: nat | t < |tasks| && t != u :: tasks'[t] == tasks[t]
  }

  /** A client that neither belongs to `u` nor has it in its queue does not notice a change of `u`. */
  lemma ClientStays(client: Client, c: nat, tasks: seq<Task>, tasks': seq<Task>, u: nat)
    requires ClientOk(client, c, tasks) && Kept(tasks, tasks', u)
    requires client.lease != Held(u)
    requires forall i | 0 <= i < |client.queue| :: client.queue[i].task != u
    ensures ClientOk(client, c, tasks')
  {
    if client.lease.Held? {
      var t := client.lease.task;
      assert tasks'[t] == tasks[t];
      PendingStays(client.queue, tasks, tasks', t, u);
      if client.queue != [] {
        PendingStays(client.queue[..|client.queue| - 1], tasks, tasks', t, u);
      }
    }
  }

  lemma PendingStays(queue: seq<Command>, tasks: seq<Task>, tasks': seq<Task>, t: nat, u: nat)
    requires Kept(tasks, tasks', u)
    requires forall i | 0 <= i < |queue| :: queue[i].task != u
    ensures AllPending(queue, tasks, t) ==> AllPending(queue, tasks', t)
  {
  }

  /** Whose commands a queue can hold: the holder's, and those of calls on its chain. */
  lemma QueueTasks(client: Client, c: nat, tasks: seq<Task>, i: nat)
    requires ClientOk(client, c, tasks) && i < |client.queue|
    ensures client.lease.Held? && client.queue[i].task < |tasks|
    ensures client.queue[i].task == client.lease.task || Pending(client.queue[i], tasks, client.lease.task)
    ensures tasks[client.queue[i].task].phase == Awaiting(client.queue[i], None)
  {
  }

  /** Nobody's queue holds a task that is not waiting for an answer. */
  lemma NotQueued(s: State, u: nat, c: nat)
    requires Holds(s) && c < |s.clients|
    requires u < |s.tasks| ==> !s.tasks[u].phase.Awaiting? || s.tasks[u].phase.answer.Some?
    ensures forall i | 0 <= i < |s.clients[c].queue| :: s.clients[c].queue[i].task != u
  {
    forall i | 0 <= i < |s.clients[c].queue| ensures s.clients[c].queue[i].task != u {
      QueueTasks(s.clients[c], c, s.tasks, i);
    }
  }

  /** A client has one holder, and a task one client. */
  lemma OneHolder(s: State, t: nat, c: nat, c': nat)
    requires Holds(s) && c < |s.clients| && c' < |s.clients|
    requires s.clients[c].lease == Held(t) && s.clients[c'].lease == Held(t)
    ensures c == c'
  {
    assert ClientOk(s.clients[c], c, s.tasks) && ClientOk(s.clients[c'], c', s.tasks);
  }

  // ---------------------------------------------------------------- steps

  lemma AppendKeeps(s: State, task: Task)
    requires Holds(s) && TaskOk(task, |s.tasks|, s.clients)
    ensures Holds(s.(tasks := s.tasks + [task]))
  {
    var tasks := s.tasks + [task];
    forall c: nat | c < |s.clients| ensures ClientOk(s.clients[c], c, tasks) {
      NotQueued(s, |s.tasks|, c);
      ClientStays(s.clients[c], c, s.tasks, tasks, |s.tasks|);
    }
  }

  lemma StartQueryKeeps(s: State, context: Option<nat>, hookThrows: bool)
    requires Holds(s)
    ensures Holds(StartQueryStep(s, context, hookThrows))
  {
    if ContextExists(s, context) {
      var task := Task(false, context, None, false, 0, Connecting);
      if context.None? {
        AppendKeeps(s, task);
      } else if !Active(s, context.value) || hookThrows {
        AppendKeeps(s, task.(phase := Finished(false)));
      } else {
        StatementQueued(s, context.value);
      }
    }
  }

  /** A statement of an active callback queues up behind the earlier ones. */
  lemma StatementQueued(s: State, t: nat)
    requires Holds(s) && t < |s.tasks| && s.tasks[t].begun && Active(s, t)
    ensures Holds(StartQueryStep(s, Some(t), false))
  {
    var q := |s.tasks|;
    var c := s.tasks[t].client.value;
    var s' := StartQueryStep(s, Some(t), false);
    var task := Task(false, Some(t), None, false, 0, Awaiting(Statement(q), None));
    assert s'.tasks == s.tasks + [task];
    assert TaskOk(s.tasks[t], t, s.clients);
    forall k: nat | k < |s.clients| ensures ClientOk(s'.clients[k], k, s'.tasks) {
      NotQueued(s, q, k);
      ClientStays(s.clients[k], k, s.tasks, s'.tasks, q);
    }
    forall k: nat | k < |s'.tasks| ensures TaskOk(s'.tasks[k], k, s'.clients) {
      if k < q { assert TaskOk(s.tasks[k], k, s.clients); }
    }
  }

  lemma ConnectKeeps(s: State, t: nat, c: nat, hookThrows: bool)
    requires Holds(s)
    ensures Holds(ConnectStep(s, t, c, hookThrows))
  {
    if t < |s.tasks| && s.tasks[t].phase.Connecting? && c < |s.clients| && s.clients[c].lease.Idle? {
      var s' := ConnectStep(s, t, c, hookThrows);
      assert TaskOk(s.tasks[t], t, s.clients) && ClientOk(s.clients[c], c, s.tasks);
      forall k: nat | k < |s.clients| ensures ClientOk(s'.clients[k], k, s'.tasks) {
        NotQueued(s, t, k);
        assert ClientOk(s.clients[k], k, s.tasks);
        if k != c { ClientStays(s.clients[k], k, s.tasks, s'.tasks, t); }
      }
      forall k: nat | k < |s'.tasks| ensures TaskOk(s'.tasks[k], k, s'.clients) {
        assert TaskOk(s.tasks[k], k, s.clients);
      }
      PastKept(s, s', t);
    }
  }

  /** What ran stays as it was when neither the calls' contexts nor their kinds change. */
  lemma PastKept(s: State, s': State, u: nat)
    requires Holds(s) && s'.executed == s.executed && |s'.tasks| == |s.tasks| && Kept(s.tasks, s'.tasks, u)
    requires u < |s.tasks| ==>
      s'.tasks[u].context == s.tasks[u].context && s'.tasks[u].isTransaction == s.tasks[u].isTransaction
    ensures ExecutionsOk(s'.executed, s'.tasks)
  {
    forall i | 0 <= i < |s.executed| ensures ExecutionOk(s'.executed[i], s'.tasks) {
      assert ExecutionOk(s.executed[i], s.tasks);
    }
  }

  lemma ConnectFailsKeeps(s: State, t: nat)
    requires Holds(s)
    ensures Holds(ConnectFailsStep(s, t))
  {
    if t < |s.tasks| && s.tasks[t].phase.Connecting? {
      var s' := ConnectFailsStep(s, t);
      assert TaskOk(s.tasks[t], t, s.clients);
      forall k: nat | k < |s.clients| ensures ClientOk(s'.clients[k], k, s'.tasks) {
        NotQueued(s, t, k);
        assert ClientOk(s.clients[k], k, s.tasks);
        ClientStays(s.clients[k], k, s.tasks, s'.tasks, t);
      }
      forall k: nat | k < |s'.tasks| ensures TaskOk(s'.tasks[k], k, s'.clients) {
        assert TaskOk(s.tasks[k], k, s.clients);
      }
      PastKept(s, s', t);
    }
  }

  lemma CallbackEndsKeeps(s: State, t: nat, ok: bool)
    requires Holds(s)
    ensures Holds(CallbackEndsStep(s, t, ok))
  {
    if Active(s, t) {
      var s' := CallbackEndsStep(s, t, ok);
      var c := s.tasks[t].client.value;
      var last := if ok then Commit(t) else Rollback(t);
      assert TaskOk(s.tasks[t], t, s.clients);
      assert ClientOk(s.clients[c], c, s.tasks);
      assert (s.clients[c].queue + [last])[..|s.clients[c].queue|] == s.clients[c].queue;
      forall k: nat | k < |s.clients| ensures ClientOk(s'.clients[k], k, s'.tasks) {
        NotQueued(s, t, k);
        if k != c {
          if s.clients[k].lease == Held(t) { OneHolder(s, t, c, k); }
          ClientStays(s.clients[k], k, s.tasks, s'.tasks, t);
        } else {
          PendingStays(s.clients[c].queue, s.tasks, s'.tasks, t, t);
        }
      }
      forall k: nat | k < |s'.tasks| ensures TaskOk(s'.tasks[k], k, s'.clients) {
        assert TaskOk(s.tasks[k], k, s.clients);
      }
      PastKept(s, s', t);
    }
  }

  lemma ResumeKeeps(s: State, t: nat)
    requires Holds(s)
    ensures Holds(ResumeStep(s, t))
  {
    if CanResume(s, t) {
      var s' := ResumeStep(s, t);
      assert TaskOk(s.tasks[t], t, s.clients);
      var client := s.tasks[t].client;
      if client.Some? { assert ClientOk(s.clients[client.value], client.value, s.tasks); }
      forall k: nat | k < |s.clients| ensures ClientOk(s'.clients[k], k, s'.tasks) {
        NotQueued(s, t, k);
        if client != Some(k) {
          assert ClientOk(s.clients[k], k, s.tasks);
          ClientStays(s.clients[k], k, s.tasks, s'.tasks, t);
        }
      }
      forall k: nat | k < |s'.tasks| ensures TaskOk(s'.tasks[k], k, s'.clients) {
        assert TaskOk(s.tasks[k], k, s.clients);
      }
      PastKept(s, s', t);
    }
  }

  lemma ReplyKeeps(s: State, c: nat, ok: bool, unclear: bool)
    requires Holds(s)
    ensures Holds(ReplyStep(s, c, ok, unclear))
  {
    if c < |s.clients| && s.clients[c].queue != [] && s.clients[c].queue[0].task < |s.tasks| {
      var s' := ReplyStep(s, c, ok, unclear);
      var client := s.clients[c];
      var command := client.queue[0];
      QueueTasks(client, c, s.tasks, 0);
      ReplyKeepsClient(s, c, ok, unclear);
      forall k: nat | k < |s.clients| ensures ClientOk(s'.clients[k], k, s'.tasks) {
        if k != c {
          QueuedOnce(s, c, k);
          ClientStays(s.clients[k], k, s.tasks, s'.tasks, command.task);
        }
      }
      forall k: nat | k < |s'.tasks| ensures TaskOk(s'.tasks[k], k, s'.clients) {
        assert TaskOk(s.tasks[k], k, s.clients);
      }
      PastKept(s, s'.(executed := s.executed), command.task);
    }
  }

  /** The task of the command at the head belongs to this client alone. */
  lemma QueuedOnce(s: State, c: nat, k: nat)
    requires Holds(s) && c < |s.clients| && k < |s.clients| && k != c && s.clients[c].queue != []
    ensures s.clients[k].lease != Held(s.clients[c].queue[0].task)
    ensures forall i | 0 <= i < |s.clients[k].queue| :: s.clients[k].queue[i].task != s.clients[c].queue[0].task
  {
    QueueTasks(s.clients[c], c, s.tasks, 0);
    var u := s.clients[c].queue[0].task;
    assert ClientOk(s.clients[c], c, s.tasks) && ClientOk(s.clients[k], k, s.tasks);
    forall i | 0 <= i < |s.clients[k].queue| ensures s.clients[k].queue[i].task != u {
      QueueTasks(s.clients[k], k, s.tasks, i);
    }
  }

  lemma ReplyKeepsClient(s: State, c: nat, ok: bool, unclear: bool)
    requires Holds(s) && c < |s.clients| && s.clients[c].queue != [] && s.clients[c].queue[0].task < |s.tasks|
    ensures
      var s' := ReplyStep(s, c, ok, unclear);
      && ClientOk(s'.clients[c], c, s'.tasks)
      && (s.clients[c].queue[0].Statement? ==>
            ExecutionOk(Execution(s.clients[c].queue[0].task, Holder(s.clients[c]), s.clients[c].open), s'.tasks))
  {
    var s' := ReplyStep(s, c, ok, unclear);
    var client := s.clients[c];
    var queue := client.queue;
    assert ClientOk(client, c, s.tasks);
    QueueTasks(client, c, s.tasks, 0);
    var t := client.lease.task;
    if queue[0].task != t {
      assert s'.tasks[t] == s.tasks[t];
      if s.tasks[t].phase.Running? {
        HeadLeaves(queue, s.tasks, s'.tasks, t);
      } else {
        HeadLeavesFront(queue, s.tasks[t].phase.command, s.tasks, s'.tasks, t);
      }
    }
  }

  lemma HeadLeaves(queue: seq<Command>, tasks: seq<Task>, tasks': seq<Task>, t: nat)
    requires queue != [] && Kept(tasks, tasks', queue[0].task) && AllPending(queue, tasks, t)
    ensures AllPending(queue[1..], tasks', t)
  {
  }

  lemma HeadLeavesFront(queue: seq<Command>, last: Command, tasks: seq<Task>, tasks': seq<Task>, t: nat)
    requires |queue| > 1 && Kept(tasks, tasks', queue[0].task) && EndsWith(queue, last, tasks, t)
    ensures EndsWith(queue[1..], last, tasks', t)
  {
    HeadLeaves(queue[..|queue| - 1], tasks, tasks', t);
    assert queue[..|queue| - 1][1..] == queue[1..][..|queue[1..]| - 1];
  }

  lemma StepKeeps(s: State, event: Event)
    requires Holds(s)
    ensures Holds(Apply(s, event))
  {
    match event
    case StartTransaction(context, optionsValid) =>
      if ContextExists(s, context) {
        var phase := if context.Some? || !optionsValid then Finished(false) else Connecting;
        AppendKeeps(s, Task(true, context, None, false, 0, phase));
      }
    case StartQuery(context, hookThrows) => StartQueryKeeps(s, context, hookThrows);
    case Connect(t, c, hookThrows) => ConnectKeeps(s, t, c, hookThrows);
    case Grow => GrowKeeps(s);
    case ConnectFails(t) => ConnectFailsKeeps(s, t);
    case Reply(c, ok, unclear) => ReplyKeeps(s, c, ok, unclear);
    case CallbackEnds(t, ok) => CallbackEndsKeeps(s, t, ok);
    case Resume(t) => ResumeKeeps(s, t);
  }

  lemma GrowKeeps(s: State)
    requires Holds(s)
    ensures Holds(Apply(s, Grow))
  {
    var clients := s.clients + [Client(Idle, false, [])];
    forall t: nat | t < |s.tasks| ensures TaskOk(s.tasks[t], t, clients) {
      assert TaskOk(s.tasks[t], t, s.clients);
    }
  }

  lemma {:induction false} RunKeeps(events: seq<Event>)
    ensures Holds(After(events))
  {
    if events != [] {
      RunKeeps(events[..|events| - 1]);
      StepKeeps(After(events[..|events| - 1]), events[|events| - 1]);
    }
  }

  // ---------------------------------------------------------------- main results

  /** However BEGIN, callback, COMMIT and ROLLBACK turn out, an acquired client is given back once, at the end. */
  lemma ReleasedExactlyOnce(events: seq<Event>, t: nat)
    requires t < |After(events).tasks|
    ensures
      var task := After(events).tasks[t];
      task.releases == if task.phase.Finished? && task.client.Some? then 1 else 0
  {
    RunKeeps(events);
    assert TaskOk(After(events).tasks[t], t, After(events).clients);
  }

  /** A client that is out belongs to one call, which has not ended. When all calls ended, none is missing. */
  lemma NoClientLeaks(events: seq<Event>, c: nat)
    requires c < |After(events).clients| && After(events).clients[c].lease.Held?
    ensures
      var s := After(events);
      var t := s.clients[c].lease.task;
      && t < |s.tasks| && s.tasks[t].client == Some(c) && !s.tasks[t].phase.Finished?
      && forall c': nat | c' < |s.clients| && s.clients[c'].lease == Held(t) :: c' == c
  {
    RunKeeps(events);
    var s := After(events);
    assert ClientOk(s.clients[c], c, s.tasks);
    forall c': nat | c' < |s.clients| && s.clients[c'].lease == s.clients[c].lease ensures c' == c {
      OneHolder(s, s.clients[c].lease.task, c, c');
    }
  }

  /** A client comes back for reuse only with no transaction open on the server and nothing left to do. */
  lemma ReuseIsClean(events: seq<Event>, c: nat)
    requires c < |After(events).clients| && After(events).clients[c].lease.Idle?
    ensures !After(events).clients[c].open && After(events).clients[c].queue == []
  {
    RunKeeps(events);
    assert ClientOk(After(events).clients[c], c, After(events).tasks);
  }

  /**
   * Every statement the server carried out for a callback ran on the client of that callback's transaction
   * while the transaction was open. Every other statement ran on a client of its own, in no transaction.
   */
  lemma StatementsRunWhereTheyBelong(events: seq<Event>, i: nat)
    requires i < |After(events).executed|
    ensures
      var s, x := After(events), After(events).executed[i];
      && x.task < |s.tasks| && !s.tasks[x.task].isTransaction
      && (match s.tasks[x.task].context
          case Some(t) => x.holder == Some(t) && x.inside
          case None => x.holder == Some(x.task) && !x.inside)
  {
    RunKeeps(events);
    assert ExecutionOk(After(events).executed[i], After(events).tasks);
  }

  /** No transaction asked for on the chain of another one ever gets a client, or has anything sent for it. */
  lemma NestedNeverStarts(events: seq<Event>, t: nat)
    requires
      var s := After(events);
      t < |s.tasks| && s.tasks[t].isTransaction && s.tasks[t].context.Some?
    ensures
      var s := After(events);
      && s.tasks[t].phase == Finished(false) && s.tasks[t].client == None
      && forall c: nat | c < |s.clients| ::
           s.clients[c].lease != Held(t) && forall i | 0 <= i < |s.clients[c].queue| :: s.clients[c].queue[i].task != t
  {
    RunKeeps(events);
    var s := After(events);
    assert TaskOk(s.tasks[t], t, s.clients);
    forall c: nat | c < |s.clients|
      ensures s.clients[c].lease != Held(t)
      ensures forall i | 0 <= i < |s.clients[c].queue| :: s.clients[c].queue[i].task != t
    {
      assert ClientOk(s.clients[c], c, s.tasks);
      NotQueued(s, t, c);
    }
  }

  /** A call that ended stays as it ended, and nothing is carried out for it any more. */
  ghost predicate StaysEnded(s: State, s': State, t: nat)
    requires t < |s.tasks|
  {
    && t < |s'.tasks| && s'.tasks[t] == s.tasks[t] && |s.executed| <= |s'.executed|
    && (forall i | 0 <= i < |s.executed| :: s'.executed[i] == s.executed[i])
    && (forall i | |s.executed| <= i < |s'.executed| :: s'.executed[i].task != t)
  }

  lemma StepStaysEnded(s: State, event: Event, t: nat)
    requires Holds(s) && t < |s.tasks| && s.tasks[t].phase.Finished?
    ensures StaysEnded(s, Apply(s, event), t)
  {
    match event
    case Reply(c, ok, unclear) =>
      if c < |s.clients| { NotQueued(s, t, c); }
    case _ =>
  }

  lemma {:induction false} RunStaysEnded(events: seq<Event>, more: seq<Event>, t: nat)
    requires t < |After(events).tasks| && After(events).tasks[t].phase.Finished?
    ensures StaysEnded(After(events), After(events + more), t)
  {
    if more == [] {
      assert events + more == events;
    } else {
      var front := more[..|more| - 1];
      RunStaysEnded(events, front, t);
      RunKeeps(events + front);
      assert (events + more)[..|events + more| - 1] == events + front;
      StepStaysEnded(After(events + front), more[|more| - 1], t);
    }
  }

  /** A query made on the chain of a transaction whose callback is over is refused, and never runs in any later run. */
  lemma LateQueryNeverRuns(events: seq<Event>, t: nat, hookThrows: bool, more: seq<Event>)
    requires t < |After(events).tasks| && After(events).tasks[t].begun && !After(events).tasks[t].phase.Running?
    ensures
      var q, s := |After(events).tasks|, After(events + [StartQuery(Some(t), hookThrows)] + more);
      && q < |s.tasks| && s.tasks[q].phase == Finished(false)
      && forall i | 0 <= i < |s.executed| :: s.executed[i].task != q
  {
    RunKeeps(events);
    var s := After(events);
    var asked := events + [StartQuery(Some(t), hookThrows)];
    assert asked[..|events|] == events;
    var q := |s.tasks|;
    assert After(asked).tasks[q].phase == Finished(false) && After(asked).executed == s.executed;
    forall i | 0 <= i < |s.executed| ensures s.executed[i].task != q {
      assert ExecutionOk(s.executed[i], s.tasks);
    }
    RunStaysEnded(asked, more, q);
  }

  /** While the callback runs, answers of its client carry out what is queued, in order and one by one. */
  lemma {:induction false} AnswersDrain(events: seq<Event>, t: nat, c: nat, answers: seq<Event>)
    requires
      var s := After(events);
      && t < |s.tasks| && s.tasks[t].phase.Running? && s.tasks[t].client == Some(c)
      && c < |s.clients| && |answers| <= |s.clients[c].queue|
    requires forall i | 0 <= i < |answers| :: answers[i].Reply? && answers[i].c == c
    ensures
      var s, s' := After(events), After(events + answers);
      && |s'.tasks| == |s.tasks| && s'.tasks[t] == s.tasks[t]
      && c < |s'.clients| && s'.clients[c].queue == s.clients[c].queue[|answers|..]
      && |s'.executed| == |s.executed| + |answers|
      && forall i | 0 <= i < |answers| :: s'.executed[|s.executed| + i] == Execution(s.clients[c].queue[i].task, Some(t), true)
  {
    if answers == [] {
      assert events + answers == events;
    } else {
      var front, last := answers[..|answers| - 1], answers[|answers| - 1];
      AnswersDrain(events, t, c, front);
      RunKeeps(events + front);
      assert (events + answers)[..|events + answers| - 1] == events + front;
      AnswerCarriesOut(After(events + front), t, c, last.ok, last.unclear);
    }
  }

  lemma AnswerCarriesOut(s: State, t: nat, c: nat, ok: bool, unclear: bool)
    requires Holds(s) && t < |s.tasks| && s.tasks[t].phase.Running? && s.tasks[t].client == Some(c)
    requires c < |s.clients| && s.clients[c].queue != []
    ensures
      var s', queue := ReplyStep(s, c, ok, unclear), s.clients[c].queue;
      && |s'.tasks| == |s.tasks| && s'.tasks[t] == s.tasks[t]
      && |s'.clients| == |s.clients| && s'.clients[c].queue == queue[1..]
      && s'.executed == s.executed + [Execution(queue[0].task, Some(t), true)]
  {
    assert TaskOk(s.tasks[t], t, s.clients) && ClientOk(s.clients[c], c, s.tasks);
    QueueTasks(s.clients[c], c, s.tasks, 0);
  }

  /** A query of a callback waits for its answer, its statement being queued on the transaction's client. */
  ghost predicate Underway(s: State, q: nat, t: nat) {
    && q < |s.tasks| && t < |s.tasks| && !s.tasks[q].isTransaction && s.tasks[q].context == Some(t)
    && s.tasks[q].phase == Awaiting(Statement(q), None)
    && s.tasks[t].client.Some? && s.tasks[t].client.value < |s.clients|
    && s.clients[s.tasks[t].client.value].lease == Held(t)
    && Statement(q) in s.clients[s.tasks[t].client.value].queue
  }

  ghost predicate CarriedOut(s: State, q: nat, t: nat) { Execution(q, Some(t), true) in s.executed }

  /** A query on the chain of a running callback is refused if its hook throws, and queued on the transaction's client else. */
  lemma QueryIsQueued(s: State, t: nat, hookThrows: bool)
    requires Holds(s) && t < |s.tasks| && s.tasks[t].phase.Running?
    ensures
      var q, s' := |s.tasks|, StartQueryStep(s, Some(t), hookThrows);
      && s.tasks[t].client.Some? && s.tasks[t].client.value < |s.clients| == |s'.clients|
      && q < |s'.tasks| && s'.tasks[t] == s.tasks[t] && s'.executed == s.executed
      && (s'.tasks[q].phase == Finished(false) <==> hookThrows)
      && (!hookThrows ==>
            && Underway(s', q, t)
            && var c := s.tasks[t].client.value; s'.clients[c].queue == s.clients[c].queue + [Statement(q)])
  {
    assert TaskOk(s.tasks[t], t, s.clients);
    var c, q := s.tasks[t].client.value, |s.tasks|;
    assert ClientOk(s.clients[c], c, s.tasks);
    if !hookThrows {
      assert StartQueryStep(s, Some(t), false).clients[c].queue[|s.clients[c].queue|] == Statement(q);
    }
  }

  /** The client of the transaction keeps what it has queued, and neither call is touched but for the callback's end. */
  lemma UnderwayStays(s: State, s': State, q: nat, t: nat)
    requires Underway(s, q, t) && q < |s'.tasks| && t < |s'.tasks|
    requires s'.tasks[q] == s.tasks[q] && s'.tasks[t].client == s.tasks[t].client
    requires
      var c := s.tasks[t].client.value;
      c < |s'.clients| && s'.clients[c].lease == s.clients[c].lease && s.clients[c].queue <= s'.clients[c].queue
    ensures Underway(s', q, t)
  {
    var c := s.tasks[t].client.value;
    var i :| 0 <= i < |s.clients[c].queue| && s.clients[c].queue[i] == Statement(q);
    assert s'.clients[c].queue[i] == Statement(q);
  }

  /** Only the client of the transaction has the statement in its queue, and the query has no client of its own. */
  lemma UnderwayIsApart(s: State, q: nat, t: nat, c: nat)
    requires Holds(s) && Underway(s, q, t) && c < |s.clients|
    ensures q != t && s.clients[c].lease != Held(q)
    ensures forall i | 0 <= i < |s.clients[c].queue| && s.clients[c].queue[i].task == q ::
              s.tasks[t].client == Some(c) && s.clients[c].queue[i] == Statement(q)
  {
    assert TaskOk(s.tasks[q], q, s.clients) && ClientOk(s.clients[c], c, s.tasks);
    forall i | 0 <= i < |s.clients[c].queue| && s.clients[c].queue[i].task == q
      ensures s.tasks[t].client == Some(c) && s.clients[c].queue[i] == Statement(q)
    {
      QueueTasks(s.clients[c], c, s.tasks, i);
    }
  }

  lemma AnswerMovesOn(s: State, c: nat, ok: bool, unclear: bool, q: nat, t: nat)
    requires Holds(s) && Underway(s, q, t)
    ensures var s' := ReplyStep(s, c, ok, unclear); Underway(s', q, t) || CarriedOut(s', q, t)
  {
    if c < |s.clients| && s.clients[c].queue != [] && s.clients[c].queue[0].task < |s.tasks| {
      var s', head := ReplyStep(s, c, ok, unclear), s.clients[c].queue[0];
      UnderwayIsApart(s, q, t, c);
      if head.task == q {
        ReplyKeepsClient(s, c, ok, unclear);
        assert s'.executed[|s.executed|] == Execution(q, Some(t), true);
      } else if s.tasks[t].client == Some(c) {
        var i :| 0 <= i < |s.clients[c].queue| && s.clients[c].queue[i] == Statement(q);
        assert s'.clients[c].queue[i - 1] == Statement(q);
      } else {
        UnderwayStays(s, s', q, t);
      }
    }
  }

  lemma ResumeMovesOn(s: State, u: nat, q: nat, t: nat)
    requires Holds(s) && Underway(s, q, t)
    ensures Underway(ResumeStep(s, u), q, t)
  {
    if CanResume(s, u) {
      var c := s.tasks[t].client.value;
      assert TaskOk(s.tasks[u], u, s.clients) && ClientOk(s.clients[c], c, s.tasks);
      assert u != q && u != t;
      UnderwayStays(s, ResumeStep(s, u), q, t);
    }
  }

  lemma OthersMoveOn(s: State, event: Event, q: nat, t: nat)
    requires Holds(s) && Underway(s, q, t) && !event.Reply? && !event.Resume?
    ensures Underway(Apply(s, event), q, t)
  {
    var c := s.tasks[t].client.value;
    assert TaskOk(s.tasks[t], t, s.clients);
    match event
    case CallbackEnds(u, _) =>
      if Active(s, u) { assert TaskOk(s.tasks[u], u, s.clients); }
    case Connect(u, _, _) =>
      if u < |s.tasks| { assert TaskOk(s.tasks[u], u, s.clients); }
    case _ =>
    UnderwayStays(s, Apply(s, event), q, t);
  }

  lemma LastOfRun(events: seq<Event>, more: seq<Event>)
    requires more != []
    ensures After(events + more) == Apply(After(events + more[..|more| - 1]), more[|more| - 1])
  {
    assert (events + more)[..|events + more| - 1] == events + more[..|more| - 1];
  }

  ghost predicate OnItsWay(s: State, q: nat, t: nat) { Underway(s, q, t) || CarriedOut(s, q, t) }

  lemma {:induction false} RunMovesOn(events: seq<Event>, more: seq<Event>, q: nat, t: nat)
    requires OnItsWay(After(events), q, t)
    ensures OnItsWay(After(events + more), q, t)
  {
    if more == [] {
      assert events + more == events;
    } else {
      var front, last := more[..|more| - 1], more[|more| - 1];
      RunMovesOn(events, front, q, t);
      RunKeeps(events + front);
      LastOfRun(events, more);
      StepMovesOn(After(events + front), last, q, t);
    }
  }

  lemma StepMovesOn(s: State, event: Event, q: nat, t: nat)
    requires Holds(s) && OnItsWay(s, q, t)
    ensures OnItsWay(Apply(s, event), q, t)
  {
    if CarriedOut(s, q, t) {
      var i :| 0 <= i < |s.executed| && s.executed[i] == Execution(q, Some(t), true);
      assert Apply(s, event).executed[i] == s.executed[i] by { StepKeepsPast(s, event); }
    } else {
      match event
      case Reply(c, ok, unclear) => AnswerMovesOn(s, c, ok, unclear, q, t);
      case Resume(u) => ResumeMovesOn(s, u, q, t);
      case _ => OthersMoveOn(s, event, q, t);
    }
  }

  lemma StepKeepsPast(s: State, event: Event)
    ensures s.executed <= Apply(s, event).executed
  {}

  lemma CarriedOutExists(s: State, q: nat, t: nat)
    requires Holds(s) && OnItsWay(s, q, t)
    ensures q < |s.tasks|
  {
    if CarriedOut(s, q, t) {
      var i :| 0 <= i < |s.executed| && s.executed[i] == Execution(q, Some(t), true);
      assert ExecutionOk(s.executed[i], s.tasks);
    }
  }

  /**
   * A query made while the callback of its transaction runs is refused at once if its hook throws, and never runs.
   * Otherwise, whatever happens next, it is waiting with its statement on the transaction's client, or it was carried out
   * there, inside the transaction. So it does not end without having been carried out.
   */
  lemma ActiveQueryRuns(events: seq<Event>, t: nat, hookThrows: bool, more: seq<Event>)
    requires t < |After(events).tasks| && After(events).tasks[t].phase.Running?
    ensures
      var q, s := |After(events).tasks|, After(events + [StartQuery(Some(t), hookThrows)] + more);
      && q < |s.tasks|
      && if hookThrows then
           s.tasks[q].phase == Finished(false) && forall i | 0 <= i < |s.executed| :: s.executed[i].task != q
         else
           && OnItsWay(s, q, t)
           && (s.tasks[q].phase.Finished? ==> CarriedOut(s, q, t))
  {
    RunKeeps(events);
    var s := After(events);
    var q, asked := |s.tasks|, events + [StartQuery(Some(t), hookThrows)];
    assert asked[..|events|] == events;
    QueryIsQueued(s, t, hookThrows);
    if hookThrows {
      forall i | 0 <= i < |s.executed| ensures s.executed[i].task != q {
        assert ExecutionOk(s.executed[i], s.tasks);
      }
      RunStaysEnded(asked, more, q);
    } else {
      RunMovesOn(asked, more, q, t);
      RunKeeps(asked + more);
      CarriedOutExists(After(asked + more), q, t);
    }
  }
}
