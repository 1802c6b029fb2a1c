/**
 * Pooled clients, transactions and queries, as the steps that run between two awaits.
 * Steps of different calls interleave in any order; a client works off its own statements first come, first served.
 */
module Transactions {
  import opened Basics

  // ---------------------------------------------------------------- one call on its own

  datatype Sql = BeginSql | CommitSql | RollbackSql

  /** A pooled client as `withTransaction` uses it: what it was asked, and how it was given back. */
  class PoolClient {
    var open: bool
    var asked: seq<Sql>
    var releases: seq<bool>

    constructor ()
      ensures !open && asked == [] && releases == []
    {
      open, asked, releases := false, [], [];
    }

    /** The server answers; after an error nobody knows whether a transaction is open, here `unclear`. */
    method Query(sql: Sql, succeeds: bool, unclear: bool) returns (ok: bool)
      modifies this
      ensures ok == succeeds
      ensures open == if succeeds then sql.BeginSql? else unclear
      ensures asked == old(asked) + [sql] && releases == old(releases)
    {
      asked := asked + [sql];
      open := if succeeds then sql.BeginSql? else unclear;
      ok := succeeds;
    }

    method Release(destroy: bool)
      modifies this`releases
      ensures releases == old(releases) + [destroy]
    {
      releases := releases + [destroy];
    }
  }

  /** The context of one transaction, which its callback and the tasks that outlive it keep. */
  class TransactionContext {
    var active: bool
    var client: PoolClient?

    constructor (owner: PoolClient)
      ensures active && client == owner
    {
      active, client := true, owner;
    }

    method Close()
      modifies this
      ensures !active && client == null
    {
      active, client := false, null;
    }
  }

  /** How the statements of one call turn out. */
  datatype Fate = Fate(begin: bool, callback: bool, commit: bool, rollback: bool, unclear: bool)

  function Asked(fate: Fate): seq<Sql> {
    if !fate.begin then [BeginSql]
    else if !fate.callback then [BeginSql, RollbackSql]
    else if !fate.commit then [BeginSql, CommitSql, RollbackSql]
    else [BeginSql, CommitSql]
  }

  predicate Destroys(fate: Fate) { !fate.begin || (!(fate.callback && fate.commit) && !fate.rollback) }

  /** The try, catch and finally of `withTransaction` once it has a client. */
  method RunTransaction(client: PoolClient, fate: Fate) returns (ok: bool, context: TransactionContext?)
    modifies client
    ensures ok == (fate.begin && fate.callback && fate.commit)
    ensures client.asked == old(client.asked) + Asked(fate)
    ensures client.releases == old(client.releases) + [Destroys(fate)]
    ensures !Destroys(fate) ==> !client.open
    ensures context == null <==> !fate.begin
    ensures context != null ==> fresh(context) && !context.active && context.client == null
  {
    var begun, destroyClient := false, false;
    context := null;
    ok := client.Query(BeginSql, fate.begin, fate.unclear);
    if ok {
      begun := true;
      var current := new TransactionContext(client);
      ok := fate.callback;
      current.Close();
      context := current;
      if ok {
        ok := client.Query(CommitSql, fate.commit, fate.unclear);
      }
    }
    if !ok {
      if begun {
        var rolledBack := client.Query(RollbackSql, fate.rollback, fate.unclear);
        if !rolledBack {
          destroyClient := true;
        }
      } else {
        destroyClient := true;
      }
    }
    client.Release(destroyClient);
  }

  // ---------------------------------------------------------------- all calls together

  datatype Lease = Idle | Held(task: nat) | Gone

  datatype Command = Begin(task: nat) | Commit(task: nat) | Rollback(task: nat) | Statement(task: nat)

  /** `open` is the server's side: whether a transaction is open on the connection. */
  datatype Client = Client(lease: Lease, open: bool, queue: seq<Command>)

  datatype Phase =
    | Connecting
    | Awaiting(command: Command, answer: Option<bool>)
    | Running
    | Finished(ok: bool)

  /** `context` is the transaction whose async call chain the call was made on. */
  datatype Task = Task(isTransaction: bool, context: Option<nat>, client: Option<nat>, begun: bool,
                       releases: nat, phase: Phase)

  /** A statement the server carried out: whose, who held the client if anyone, and whether a transaction was open. */
  datatype Execution = Execution(task: nat, holder: Option<nat>, inside: bool)

  datatype State = State(clients: seq<Client>, tasks: seq<Task>, executed: seq<Execution>)

  const START: State := State([], [], [])

  function WithTask(s: State, t: nat, task: Task): State
    requires t < |s.tasks|
  {
    s.(tasks := s.tasks[t := task])
  }

  function Enqueue(s: State, c: nat, command: Command): State
    requires c < |s.clients|
  {
    s.(clients := s.clients[c := s.clients[c].(queue := s.clients[c].queue + [command])])
  }

  /** The task sends a command on a client and waits for the answer. */
  function Send(s: State, t: nat, c: nat, command: Command): State
    requires t < |s.tasks| && c < |s.clients|
  {
    Enqueue(WithTask(s, t, s.tasks[t].(phase := Awaiting(command, None))), c, command)
  }

  /** The task gives its client back, for reuse or to be destroyed, and ends. */
  function Release(s: State, t: nat, c: nat, destroy: bool, ok: bool): State
    requires t < |s.tasks| && c < |s.clients|
  {
    WithTask(s, t, s.tasks[t].(releases := s.tasks[t].releases + 1, phase := Finished(ok))).(
      clients := s.clients[c := s.clients[c].(lease := if destroy then Gone else Idle)])
  }

  datatype Event =
    | StartTransaction(context: Option<nat>, optionsValid: bool)
    | StartQuery(context: Option<nat>, hookThrows: bool)
    | Connect(t: nat, c: nat, hookThrows: bool)
    | Grow                                              // the pool opens one more connection
    | ConnectFails(t: nat)
    | Reply(c: nat, ok: bool, unclear: bool)
    | CallbackEnds(t: nat, ok: bool)
    | Resume(t: nat)

  predicate ContextExists(s: State, context: Option<nat>) {
    context.Some? ==> context.value < |s.tasks| && s.tasks[context.value].begun
  }

  predicate Active(s: State, t: nat) {
    t < |s.tasks| && s.tasks[t].phase.Running? && s.tasks[t].client.Some? && s.tasks[t].client.value < |s.clients|
  }

  function StartTransactionStep(s: State, context: Option<nat>, optionsValid: bool): State {
    if !ContextExists(s, context) then s
    else
      var phase := if context.Some? || !optionsValid then Finished(false) else Connecting;
      s.(tasks := s.tasks + [Task(true, context, None, false, 0, phase)])
  }

  function StartQueryStep(s: State, context: Option<nat>, hookThrows: bool): State {
    if !ContextExists(s, context) then s
    else
      var q := |s.tasks|;
      var task := Task(false, context, None, false, 0, Connecting);
      if context.None? then s.(tasks := s.tasks + [task])
      else if !Active(s, context.value) || hookThrows then s.(tasks := s.tasks + [task.(phase := Finished(false))])
      else Send(s.(tasks := s.tasks + [task]), q, s.tasks[context.value].client.value, Statement(q))
  }

  /** The pool hands over an idle client, and the call goes on to its first statement. */
  function ConnectStep(s: State, t: nat, c: nat, hookThrows: bool): State {
    if !(t < |s.tasks| && s.tasks[t].phase.Connecting? && c < |s.clients| && s.clients[c].lease.Idle?) then s
    else
      var task := s.tasks[t].(client := Some(c));
      if !task.isTransaction && hookThrows then
        // Given back at once: the client stays as it was.
        s.(tasks := s.tasks[t := task.(releases := task.releases + 1, phase := Finished(false))])
      else
        var command := if task.isTransaction then Begin(t) else Statement(t);
        s.(tasks := s.tasks[t := task.(phase := Awaiting(command, None))],
           clients := s.clients[c := s.clients[c].(lease := Held(t), queue := s.clients[c].queue + [command])])
  }

  function ConnectFailsStep(s: State, t: nat): State {
    if t < |s.tasks| && s.tasks[t].phase.Connecting?
    then WithTask(s, t, s.tasks[t].(phase := Finished(false)))
    else s
  }

  /** What a command leaves open. An error of BEGIN, COMMIT or ROLLBACK leaves it unclear. */
  function OpenAfter(command: Command, open: bool, ok: bool, unclear: bool): bool {
    if command.Statement? then open else if ok then command.Begin? else unclear
  }

  function Holder(client: Client): Option<nat> { if client.lease.Held? then Some(client.lease.task) else None }

  function ReplyStep(s: State, c: nat, ok: bool, unclear: bool): State {
    if !(c < |s.clients| && s.clients[c].queue != [] && s.clients[c].queue[0].task < |s.tasks|) then s
    else
      var client := s.clients[c];
      var command := client.queue[0];
      var s' := WithTask(s, command.task, s.tasks[command.task].(phase := Awaiting(command, Some(ok)))).(
        clients := s.clients[c := client.(open := OpenAfter(command, client.open, ok, unclear), queue := client.queue[1..])]);
      if command.Statement?
      then s'.(executed := s.executed + [Execution(command.task, Holder(client), client.open)])
      else s'
  }

  /** The callback settles: its context closes, and COMMIT or ROLLBACK is on its way at once. */
  function CallbackEndsStep(s: State, t: nat, ok: bool): State {
    if !Active(s, t) then s
    else Send(s, t, s.tasks[t].client.value, if ok then Commit(t) else Rollback(t))
  }

  predicate CanResume(s: State, t: nat) {
    && t < |s.tasks| && s.tasks[t].phase.Awaiting? && s.tasks[t].phase.answer.Some?
    && (s.tasks[t].client.Some? ==> s.tasks[t].client.value < |s.clients|)
  }

  function ResumeStep(s: State, t: nat): State {
    if !CanResume(s, t) then s
    else
      var task := s.tasks[t];
      var ok := task.phase.answer.value;
      match task.client
      case None => WithTask(s, t, task.(phase := Finished(ok)))
      case Some(c) =>
        match task.phase.command
        case Statement(_) => Release(s, t, c, false, ok)
        case Begin(_) =>
          if ok then WithTask(s, t, task.(begun := true, phase := Running)) else Release(s, t, c, true, false)
        case Commit(_) => if ok then Release(s, t, c, false, true) else Send(s, t, c, Rollback(t))
        case Rollback(_) => Release(s, t, c, !ok, false)
  }

  function Apply(s: State, event: Event): State {
    match event
    case StartTransaction(context, optionsValid) => StartTransactionStep(s, context, optionsValid)
    case StartQuery(context, hookThrows) => StartQueryStep(s, context, hookThrows)
    case Connect(t, c, hookThrows) => ConnectStep(s, t, c, hookThrows)
    case Grow => s.(clients := s.clients + [Client(Idle, false, [])])
    case ConnectFails(t) => ConnectFailsStep(s, t)
    case Reply(c, ok, unclear) => ReplyStep(s, c, ok, unclear)
    case CallbackEnds(t, ok) => CallbackEndsStep(s, t, ok)
    case Resume(t) => ResumeStep(s, t)
  }

  /** The state after a run. Every interleaving is a sequence of events. */
  function After(events: seq<Event>): State {
    if events == [] then START else Apply(After(events[..|events| - 1]), events[|events| - 1])
  }
}
