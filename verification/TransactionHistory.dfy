/** What becomes of one transaction in a run of all calls: its commands in order, its callback, its one release and its end. */
module TransactionHistory {
  import opened Basics
  import opened Transactions
  import opened TransactionLaws

  /** A command the server answered. */
  datatype Answer = Answer(sql: Sql, ok: bool)

  /** What was seen of one transaction: its answered commands, how its callback ended, and whether each release destroyed. */
  datatype Past = Past(answers: seq<Answer>, callback: Option<bool>, releases: seq<bool>)

  const NOTHING: Past := Past([], None, [])

  /** The command of `t` that the event answers. */
  function Answered(s: State, event: Event, t: nat): seq<Answer> {
    if !event.Reply? || event.c >= |s.clients| || s.clients[event.c].queue == [] then []
    else
      match s.clients[event.c].queue[0]
      case Begin(u) => if u == t then [Answer(BeginSql, event.ok)] else []
      case Commit(u) => if u == t then [Answer(CommitSql, event.ok)] else []
      case Rollback(u) => if u == t then [Answer(RollbackSql, event.ok)] else []
      case Statement(_) => []
  }

  predicate HoldsClient(s: State, t: nat) {
    && t < |s.tasks| && s.tasks[t].client.Some? && s.tasks[t].client.value < |s.clients|
    && s.clients[s.tasks[t].client.value].lease == Held(t)
  }

  /** Whether the client that `t` held is gone from the pool, if `t` has just given it back. */
  function Returned(s: State, s': State, t: nat): seq<bool> {
    if HoldsClient(s, t) && s.tasks[t].client.value < |s'.clients| && s'.clients[s.tasks[t].client.value].lease != Held(t)
    then [s'.clients[s.tasks[t].client.value].lease.Gone?]
    else []
  }

  function Observed(past: Past, s: State, event: Event, t: nat): Past {
    Past(past.answers + Answered(s, event, t),
         if event.CallbackEnds? && event.t == t && Active(s, t) then Some(event.ok) else past.callback,
         past.releases + Returned(s, Apply(s, event), t))
  }

  function PastOf(events: seq<Event>, t: nat): Past {
    if events == [] then NOTHING
    else
      var before := events[..|events| - 1];
      Observed(PastOf(before, t), After(before), events[|events| - 1], t)
  }

  /** How the statements turned out; what was never asked did not succeed. */
  function FateOf(past: Past): Fate {
    Fate(Answer(BeginSql, true) in past.answers, past.callback == Some(true),
         Answer(CommitSql, true) in past.answers, Answer(RollbackSql, true) in past.answers, false)
  }

  function Outcome(fate: Fate, sql: Sql): bool {
    match sql
    case BeginSql => fate.begin
    case CommitSql => fate.commit
    case RollbackSql => fate.rollback
  }

  /**
   * The commands carried out are, in order and with these answers, the ones asked for the fate; the callback ran if BEGIN
   * succeeded; the one release destroys the client for the fates that do; and the call succeeded if everything else did.
   */
  ghost predicate ByItsFate(past: Past, ok: bool) {
    var fate := FateOf(past);
    && |past.answers| == |Asked(fate)|
    && (forall i | 0 <= i < |past.answers| :: past.answers[i] == Answer(Asked(fate)[i], Outcome(fate, Asked(fate)[i])))
    && past.callback == (if fate.begin then Some(fate.callback) else None)
    && past.releases == [Destroys(fate)]
    && ok == (fate.begin && fate.callback && fate.commit)
  }

  ghost predicate Course(task: Task, past: Past) {
    match task.phase
    case Connecting => past == NOTHING
    case Running => past == Past([Answer(BeginSql, true)], None, [])
    case Awaiting(Begin(_), None) => past == NOTHING
    case Awaiting(Begin(_), Some(ok)) => past == Past([Answer(BeginSql, ok)], None, [])
    case Awaiting(Commit(_), None) => past == Past([Answer(BeginSql, true)], Some(true), [])
    case Awaiting(Commit(_), Some(ok)) => past == Past([Answer(BeginSql, true), Answer(CommitSql, ok)], Some(true), [])
    case Awaiting(Rollback(_), answer) =>
      var last := if answer.None? then [] else [Answer(RollbackSql, answer.value)];
      || past == Past([Answer(BeginSql, true)] + last, Some(false), [])
      || past == Past([Answer(BeginSql, true), Answer(CommitSql, false)] + last, Some(true), [])
    case Awaiting(Statement(_), _) => false
    case Finished(ok) => if task.client.None? then past == NOTHING && !ok else ByItsFate(past, ok)
  }

  ghost predicate OnCourse(s: State, t: nat, past: Past) {
    if t < |s.tasks| then s.tasks[t].isTransaction ==> Course(s.tasks[t], past) else past == NOTHING
  }

  // ---------------------------------------------------------------- one step

  /** An event that leaves the transaction, its client's lease and its commands alone. */
  lemma Unmoved(s: State, event: Event, t: nat, past: Past)
    requires OnCourse(s, t, past) && Answered(s, event, t) == [] && Returned(s, Apply(s, event), t) == []
    requires !(event.CallbackEnds? && event.t == t && Active(s, t))
    requires t < |s.tasks| ==> t < |Apply(s, event).tasks| && Apply(s, event).tasks[t] == s.tasks[t]
    requires t >= |s.tasks| && t < |Apply(s, event).tasks| ==>
      var task := Apply(s, event).tasks[t];
      task.isTransaction ==> task.client.None? && (task.phase.Connecting? || task.phase == Finished(false))
    ensures OnCourse(Apply(s, event), t, Observed(past, s, event, t))
  {
    assert past.answers + [] == past.answers && past.releases + [] == past.releases;
  }

  lemma ConnectOnCourse(s: State, u: nat, c: nat, hookThrows: bool, t: nat, past: Past)
    requires Holds(s) && OnCourse(s, t, past)
    ensures OnCourse(ConnectStep(s, u, c, hookThrows), t, Observed(past, s, Connect(u, c, hookThrows), t))
  {
    var event := Connect(u, c, hookThrows);
    if u < |s.tasks| { assert TaskOk(s.tasks[u], u, s.clients); }
    assert past.answers + [] == past.answers && past.releases + [] == past.releases;
  }

  lemma ConnectFailsOnCourse(s: State, u: nat, t: nat, past: Past)
    requires Holds(s) && OnCourse(s, t, past)
    ensures OnCourse(ConnectFailsStep(s, u), t, Observed(past, s, ConnectFails(u), t))
  {
    if u < |s.tasks| { assert TaskOk(s.tasks[u], u, s.clients); }
    assert past.answers + [] == past.answers && past.releases + [] == past.releases;
  }

  function SqlOf(command: Command): Sql
    requires !command.Statement?
  {
    match command
    case Begin(_) => BeginSql
    case Commit(_) => CommitSql
    case Rollback(_) => RollbackSql
  }

  lemma AnswerNoted(task: Task, past: Past, ok: bool)
    requires task.phase.Awaiting? && !task.phase.command.Statement? && task.phase.answer.None? && Course(task, past)
    ensures
      var command := task.phase.command;
      Course(task.(phase := Awaiting(command, Some(ok))), past.(answers := past.answers + [Answer(SqlOf(command), ok)]))
  {}

  lemma AnsweredOnCourse(s: State, c: nat, ok: bool, unclear: bool, t: nat, past: Past)
    requires Holds(s) && OnCourse(s, t, past) && t < |s.tasks| && s.tasks[t].isTransaction
    requires c < |s.clients| && s.clients[c].queue != [] && s.clients[c].queue[0].task == t
    ensures OnCourse(ReplyStep(s, c, ok, unclear), t, Observed(past, s, Reply(c, ok, unclear), t))
  {
    var event, head := Reply(c, ok, unclear), s.clients[c].queue[0];
    assert ClientOk(s.clients[c], c, s.tasks);
    QueueTasks(s.clients[c], c, s.tasks, 0);
    AnswerNoted(s.tasks[t], past, ok);
    assert Returned(s, Apply(s, event), t) == [];
    assert past.releases + [] == past.releases;
  }

  lemma AnswerOnCourse(s: State, c: nat, ok: bool, unclear: bool, t: nat, past: Past)
    requires Holds(s) && OnCourse(s, t, past)
    ensures OnCourse(ReplyStep(s, c, ok, unclear), t, Observed(past, s, Reply(c, ok, unclear), t))
  {
    if c < |s.clients| && s.clients[c].queue != [] {
      QueueTasks(s.clients[c], c, s.tasks, 0);
    }
    if t < |s.tasks| && s.tasks[t].isTransaction && c < |s.clients| && s.clients[c].queue != [] && s.clients[c].queue[0].task == t {
      AnsweredOnCourse(s, c, ok, unclear, t, past);
    } else if t >= |s.tasks| || s.tasks[t].isTransaction {
      Unmoved(s, Reply(c, ok, unclear), t, past);
    }
  }

  lemma CallbackOnCourse(s: State, u: nat, ok: bool, t: nat, past: Past)
    requires Holds(s) && OnCourse(s, t, past)
    ensures OnCourse(CallbackEndsStep(s, u, ok), t, Observed(past, s, CallbackEnds(u, ok), t))
  {
    if Active(s, u) && u == t {
      assert past.answers + [] == past.answers && past.releases + [] == past.releases;
    } else {
      Unmoved(s, CallbackEnds(u, ok), t, past);
    }
  }

  lemma ResumeOnCourse(s: State, u: nat, t: nat, past: Past)
    requires Holds(s) && OnCourse(s, t, past)
    ensures OnCourse(ResumeStep(s, u), t, Observed(past, s, Resume(u), t))
  {
    if CanResume(s, u) {
      assert TaskOk(s.tasks[u], u, s.clients);
    }
    if CanResume(s, t) && u == t && s.tasks[t].isTransaction {
      ResumedOnCourse(s, t, past);
    } else if u == t && t < |s.tasks| && !s.tasks[t].isTransaction {
    } else {
      Unmoved(s, Resume(u), t, past);
    }
  }

  lemma BeginFailed()
    ensures ByItsFate(Past([Answer(BeginSql, false)], None, [true]), false)
  {}

  lemma Committed()
    ensures ByItsFate(Past([Answer(BeginSql, true), Answer(CommitSql, true)], Some(true), [false]), true)
  {}

  lemma RolledBack(ok: bool)
    ensures ByItsFate(Past([Answer(BeginSql, true), Answer(RollbackSql, ok)], Some(false), [!ok]), false)
    ensures ByItsFate(Past([Answer(BeginSql, true), Answer(CommitSql, false), Answer(RollbackSql, ok)], Some(true), [!ok]), false)
  {}

  lemma BegunOnCourse(s: State, t: nat, past: Past)
    requires Holds(s) && OnCourse(s, t, past) && CanResume(s, t) && s.tasks[t].isTransaction
    requires s.tasks[t].phase.command.Begin?
    ensures OnCourse(ResumeStep(s, t), t, Observed(past, s, Resume(t), t))
  {
    assert TaskOk(s.tasks[t], t, s.clients) && past.answers + [] == past.answers;
    BeginFailed();
  }

  lemma CommittedOnCourse(s: State, t: nat, past: Past)
    requires Holds(s) && OnCourse(s, t, past) && CanResume(s, t) && s.tasks[t].isTransaction
    requires s.tasks[t].phase.command.Commit?
    ensures OnCourse(ResumeStep(s, t), t, Observed(past, s, Resume(t), t))
  {
    assert TaskOk(s.tasks[t], t, s.clients) && past.answers + [] == past.answers;
    Committed();
  }

  lemma RolledBackOnCourse(s: State, t: nat, past: Past)
    requires Holds(s) && OnCourse(s, t, past) && CanResume(s, t) && s.tasks[t].isTransaction
    requires s.tasks[t].phase.command.Rollback?
    ensures OnCourse(ResumeStep(s, t), t, Observed(past, s, Resume(t), t))
  {
    assert TaskOk(s.tasks[t], t, s.clients) && past.answers + [] == past.answers;
    var ok := s.tasks[t].phase.answer.value;
    RolledBack(ok);
    assert [Answer(BeginSql, true)] + [Answer(RollbackSql, ok)] == [Answer(BeginSql, true), Answer(RollbackSql, ok)];
    assert [Answer(BeginSql, true), Answer(CommitSql, false)] + [Answer(RollbackSql, ok)]
        == [Answer(BeginSql, true), Answer(CommitSql, false), Answer(RollbackSql, ok)];
  }

  lemma ResumedOnCourse(s: State, t: nat, past: Past)
    requires Holds(s) && OnCourse(s, t, past) && CanResume(s, t) && s.tasks[t].isTransaction
    ensures OnCourse(ResumeStep(s, t), t, Observed(past, s, Resume(t), t))
  {
    match s.tasks[t].phase.command
    case Begin(_) => BegunOnCourse(s, t, past);
    case Commit(_) => CommittedOnCourse(s, t, past);
    case Rollback(_) => RolledBackOnCourse(s, t, past);
  }

  lemma StepOnCourse(s: State, event: Event, t: nat, past: Past)
    requires Holds(s) && OnCourse(s, t, past)
    ensures OnCourse(Apply(s, event), t, Observed(past, s, event, t))
  {
    match event
    case Connect(u, c, hookThrows) => ConnectOnCourse(s, u, c, hookThrows, t, past);
    case Reply(c, ok, unclear) => AnswerOnCourse(s, c, ok, unclear, t, past);
    case CallbackEnds(u, ok) => CallbackOnCourse(s, u, ok, t, past);
    case Resume(u) => ResumeOnCourse(s, u, t, past);
    case ConnectFails(u) => ConnectFailsOnCourse(s, u, t, past);
    case _ => Unmoved(s, event, t, past);
  }

  lemma {:induction false} RunOnCourse(events: seq<Event>, t: nat)
    ensures OnCourse(After(events), t, PastOf(events, t))
  {
    if events != [] {
      var before := events[..|events| - 1];
      RunOnCourse(before, t);
      RunKeeps(before);
      StepOnCourse(After(before), events[|events| - 1], t, PastOf(before, t));
    }
  }

  // ---------------------------------------------------------------- main results

  /** A transaction that ended with a client did what its fate asks for; one that ended without asked and released nothing. */
  lemma EndsByItsFate(events: seq<Event>, t: nat)
    requires
      var s := After(events);
      t < |s.tasks| && s.tasks[t].isTransaction && s.tasks[t].phase.Finished?
    ensures
      var task, past := After(events).tasks[t], PastOf(events, t);
      if task.client.None? then past == NOTHING && !task.phase.ok else ByItsFate(past, task.phase.ok)
  {
    RunOnCourse(events, t);
  }

  /** COMMIT is on its way only after the callback succeeded, ROLLBACK only after the callback or COMMIT failed. */
  lemma CallbackDecides(events: seq<Event>, t: nat)
    requires
      var s := After(events);
      t < |s.tasks| && s.tasks[t].isTransaction && s.tasks[t].phase.Awaiting? && !s.tasks[t].phase.command.Begin?
    ensures
      var command, past := After(events).tasks[t].phase.command, PastOf(events, t);
      && (command.Commit? ==> past.callback == Some(true))
      && (command.Rollback? ==>
            past.callback == Some(false) || (past.callback == Some(true) && Answer(CommitSql, false) in past.answers))
      && past.releases == [] && past.answers != [] && past.answers[0] == Answer(BeginSql, true)
  {
    RunOnCourse(events, t);
  }
}
