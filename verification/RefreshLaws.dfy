/** What holds in every run of the refresh protocol, whatever the interleaving. */
module RefreshLaws {
  import opened Basics
  import opened Refresh

  // ---------------------------------------------------------------- one flight per session

  /** An unsettled execution is the registered one of its session. */
  ghost predicate FlightsHold(s: State) {
    && (forall e: nat | Unsettled(s, e) :: s.executions[e].id in s.flights && s.flights[s.executions[e].id] == e)
    && (forall id | id in s.flights :: s.flights[id] < |s.executions| && s.executions[s.flights[id]].id == id)
    && (forall c | 0 <= c < |s.callers| ::
          s.callers[c].execution < |s.executions| && s.executions[s.callers[c].execution].id == s.callers[c].id)
  }

  lemma AskKeepsFlights(s: State, id: Id)
    requires FlightsHold(s)
    ensures FlightsHold(AskStep(s, id))
  {
    var s' := AskStep(s, id);
    if id in s.flights {
      assert s'.executions == s.executions && s'.flights == s.flights;
      forall k: nat | Unsettled(s', k)
        ensures s'.executions[k].id in s'.flights && s'.flights[s'.executions[k].id] == k
      {
        assert Unsettled(s, k);
      }
    } else {
      forall k: nat | Unsettled(s', k)
        ensures s'.executions[k].id in s'.flights && s'.flights[s'.executions[k].id] == k
      {
        if k < |s.executions| { assert Unsettled(s, k); }
      }
    }
  }

  lemma TidyKeepsFlights(s: State, e: nat)
    requires FlightsHold(s)
    ensures FlightsHold(TidyStep(s, e))
  {
    var s' := TidyStep(s, e);
    forall k: nat | Unsettled(s', k)
      ensures s'.executions[k].id in s'.flights && s'.flights[s'.executions[k].id] == k
    {
      assert Unsettled(s, k);
    }
  }

  /** The execution whose turn it is, if the event belongs to one. */
  function Turn(event: Event): nat {
    match event
    case Fetch(e) => e
    case Proceed(e) => e
    case Expire(e) => e
    case UseGrant(e, _, _) => e
    case Store(e) => e
    case Clear(e) => e
    case _ => 0
  }

  /** At most one unsettled execution moves, and it keeps its session. */
  ghost predicate OnlyMoves(s: State, s': State, e: nat) {
    && s'.callers == s.callers
    && (|| s'.executions == s.executions
        || (&& Unsettled(s, e) && |s'.executions| == |s.executions|
            && s'.executions == s.executions[e := s.executions[e].(phase := s'.executions[e].phase)]))
  }

  /** The steps that are no execution's turn move none. */
  predicate IsBystander(event: Event) {
    event.Tick? || event.LogIn? || event.Drop? || event.GrantEnds? || event.Tidy?
    || event.Look? || event.LookFetch? || event.LookEnd? || event.LookDelete?
  }

  lemma BystanderMovesNone(cfg: Config, s: State, event: Event)
    requires IsBystander(event)
    ensures
      var s' := Apply(cfg, s, event);
      s'.executions == s.executions && s'.callers == s.callers && (!event.Tidy? ==> s'.flights == s.flights)
  {
    match event
    case LogIn(id, session) => LogInMovesNone(cfg, s, id, session);
    case GrantEnds(g, result) => GrantEndsMovesNone(cfg, s, g, result);
    case LookFetch(r) => LookFetchMovesNone(s, r);
    case LookEnd(r) => LookEndOnlyReads(cfg, s, r);
    case LookDelete(r) => LookDeleteMovesNone(s, r);
    case _ =>
  }

  /** The end of a read changes the reader, and may hand out a session. */
  lemma LookEndOnlyReads(cfg: Config, s: State, r: nat)
    ensures
      var s' := LookEndStep(cfg, s, r);
      s.served <= s'.served && s' == s.(readers := s'.readers, served := s'.served)
  {
    if r < |s.readers| && s.readers[r].phase.Found? && s.readers[r].phase.snapshot.Some? {
      var session := s.readers[r].phase.snapshot.value;
      var finished := SetReader(s, r, Finished);
      assert finished == s.(readers := finished.readers);
    }
  }

  ghost predicate MovesNone(s: State, s': State) {
    s'.executions == s.executions && s'.callers == s.callers && s'.flights == s.flights
  }

  lemma LookFetchMovesNone(s: State, r: nat)
    ensures MovesNone(s, LookFetchStep(s, r))
  {}

  lemma LookDeleteMovesNone(s: State, r: nat)
    ensures MovesNone(s, LookDeleteStep(s, r))
  {}

  lemma LogInMovesNone(cfg: Config, s: State, id: Id, session: Session)
    ensures MovesNone(s, LogInStep(cfg, s, id, session))
  {}

  lemma GrantEndsMovesNone(cfg: Config, s: State, g: nat, result: GrantResult)
    ensures MovesNone(s, GrantEndsStep(cfg, s, g, result))
  {}

  lemma StepOnlyMoves(cfg: Config, s: State, event: Event)
    requires !event.Ask?
    ensures OnlyMoves(s, Apply(cfg, s, event), Turn(event))
    ensures !event.Tidy? ==> Apply(cfg, s, event).flights == s.flights
  {
    if IsBystander(event) {
      BystanderMovesNone(cfg, s, event);
    } else {
      match event
      case Proceed(e) => ProceedOnlyMoves(cfg, s, e);
      case UseGrant(e, freshId, freshCsrf) => UseGrantOnlyMoves(cfg, s, e, freshId, freshCsrf);
      case Store(e) => StoreOnlyMoves(s, e);
      case Fetch(e) => ReadOnlyMoves(s, e);
      case Expire(e) => ReadOnlyMoves(s, e);
      case Clear(e) => ReadOnlyMoves(s, e);
    }
  }

  lemma StartGrantOnlyMoves(s: State, e: nat, session: Session)
    requires Unsettled(s, e)
    ensures OnlyMoves(s, StartGrant(s, e, session), e) && StartGrant(s, e, session).flights == s.flights
  {
  }

  lemma ProceedOnlyMoves(cfg: Config, s: State, e: nat)
    ensures OnlyMoves(s, ProceedStep(cfg, s, e), e) && ProceedStep(cfg, s, e).flights == s.flights
  {
    if e < |s.executions| && s.executions[e].phase.Fetched? && s.executions[e].phase.snapshot.Some? {
      var session := s.executions[e].phase.snapshot.value;
      StartGrantOnlyMoves(s.(served := s.served + [Served(session, s.now)]), e, session);
    }
  }

  lemma ReadOnlyMoves(s: State, e: nat)
    ensures OnlyMoves(s, FetchStep(s, e), e) && FetchStep(s, e).flights == s.flights
    ensures OnlyMoves(s, ExpireStep(s, e), e) && ExpireStep(s, e).flights == s.flights
    ensures OnlyMoves(s, ClearStep(s, e), e) && ClearStep(s, e).flights == s.flights
  {
  }

  lemma UseGrantOnlyMoves(cfg: Config, s: State, e: nat, freshId: Id, freshCsrf: nat)
    ensures OnlyMoves(s, UseGrantStep(cfg, s, e, freshId, freshCsrf), e)
    ensures UseGrantStep(cfg, s, e, freshId, freshCsrf).flights == s.flights
  {
  }

  lemma StoreOnlyMoves(s: State, e: nat)
    ensures OnlyMoves(s, StoreStep(s, e), e) && StoreStep(s, e).flights == s.flights
  {
  }

  lemma MovesKeepFlights(s: State, s': State, e: nat)
    requires FlightsHold(s) && OnlyMoves(s, s', e) && s'.flights == s.flights
    ensures FlightsHold(s')
  {
    forall k: nat | Unsettled(s', k)
      ensures s'.executions[k].id in s'.flights && s'.flights[s'.executions[k].id] == k
    {
      assert Unsettled(s, k);
    }
  }

  lemma StepKeepsFlights(cfg: Config, s: State, event: Event)
    requires FlightsHold(s)
    ensures FlightsHold(Apply(cfg, s, event))
  {
    match event
    case Ask(id) => AskKeepsFlights(s, id);
    case Tidy(e) => TidyKeepsFlights(s, e);
    case _ =>
      StepOnlyMoves(cfg, s, event);
      MovesKeepFlights(s, Apply(cfg, s, event), Turn(event));
  }

  lemma {:induction false} RunKeepsFlights(cfg: Config, now: int, events: seq<Event>)
    ensures FlightsHold(After(cfg, now, events))
  {
    if events != [] {
      RunKeepsFlights(cfg, now, events[..|events| - 1]);
      StepKeepsFlights(cfg, After(cfg, now, events[..|events| - 1]), events[|events| - 1]);
    }
  }

  /** Never two unsettled executions for one session. */
  lemma OneExecutionPerSession(cfg: Config, now: int, events: seq<Event>, e1: nat, e2: nat)
    requires Unsettled(After(cfg, now, events), e1) && Unsettled(After(cfg, now, events), e2)
    requires After(cfg, now, events).executions[e1].id == After(cfg, now, events).executions[e2].id
    ensures e1 == e2
  {
    RunKeepsFlights(cfg, now, events);
  }

  /** How an execution goes on: its session stays, and once it has an outcome nothing changes it. */
  ghost predicate Continues(s: State, s': State) {
    && |s.executions| <= |s'.executions| && |s.callers| <= |s'.callers|
    && (forall e | 0 <= e < |s.executions| ::
          && s'.executions[e].id == s.executions[e].id
          && (s.executions[e].phase.Settled? ==> s'.executions[e] == s.executions[e]))
    && (forall c | 0 <= c < |s.callers| :: s'.callers[c] == s.callers[c])
  }

  lemma StepContinues(cfg: Config, s: State, event: Event)
    ensures Continues(s, Apply(cfg, s, event))
  {
    if !event.Ask? {
      StepOnlyMoves(cfg, s, event);
    }
  }

  lemma ContinuesOn(s: State, s': State, s'': State)
    requires Continues(s, s') && Continues(s', s'')
    ensures Continues(s, s'')
  {
  }

  lemma {:induction false} RunContinues(cfg: Config, now: int, events: seq<Event>, more: seq<Event>)
    ensures Continues(After(cfg, now, events), After(cfg, now, events + more))
  {
    if more == [] {
      assert events + more == events;
    } else {
      var front := more[..|more| - 1];
      RunContinues(cfg, now, events, front);
      LastStepContinues(cfg, now, events + front, more[|more| - 1]);
      assert events + more == events + front + [more[|more| - 1]];
      ContinuesOn(After(cfg, now, events), After(cfg, now, events + front), After(cfg, now, events + more));
    }
  }

  lemma LastStepContinues(cfg: Config, now: int, events: seq<Event>, event: Event)
    ensures Continues(After(cfg, now, events), After(cfg, now, events + [event]))
  {
    assert (events + [event])[..|events|] == events;
    StepContinues(cfg, After(cfg, now, events), event);
  }

  function Answer(s: State, c: nat): Option<Outcome>
    requires c < |s.callers|
  {
    if s.callers[c].execution < |s.executions| && s.executions[s.callers[c].execution].phase.Settled?
    then Some(s.executions[s.callers[c].execution].phase.outcome)
    else None
  }

  /**
   * A request that comes while an execution of its session is unsettled joins it, and at any later time
   * it has exactly the answer of every other request that joined: none yet, or the same outcome.
   */
  lemma JoinedCallersShareOutcome(cfg: Config, now: int, events: seq<Event>, e: nat, more: seq<Event>)
    requires Unsettled(After(cfg, now, events), e)
    ensures
      var s, id := After(cfg, now, events), After(cfg, now, events).executions[e].id;
      var asked := After(cfg, now, events + [Ask(id)] + more);
      && |s.callers| < |asked.callers| && asked.callers[|s.callers|] == Caller(id, e)
      && forall c | 0 <= c < |s.callers| && s.callers[c].execution == e ::
           Answer(asked, c) == Answer(asked, |s.callers|)
  {
    RunKeepsFlights(cfg, now, events);
    var s := After(cfg, now, events);
    var id := s.executions[e].id;
    assert (events + [Ask(id)])[..|events|] == events;
    assert After(cfg, now, events + [Ask(id)]) == AskStep(s, id);
    RunContinues(cfg, now, events + [Ask(id)], more);
  }

  /** An answer, once given, is the same after any further events. */
  lemma AnswersAreFinal(cfg: Config, now: int, events: seq<Event>, c: nat, more: seq<Event>)
    requires c < |After(cfg, now, events).callers| && Answer(After(cfg, now, events), c).Some?
    ensures c < |After(cfg, now, events + more).callers|
    ensures Answer(After(cfg, now, events + more), c) == Answer(After(cfg, now, events), c)
  {
    RunContinues(cfg, now, events, more);
  }

  // ---------------------------------------------------------------- the absolute deadline

  /** With an absolute lifetime configured, the session carries the time its login was first stored. */
  ghost predicate Dated(cfg: Config, born: seq<int>, session: Session) {
    session.login < |born| && (cfg.absoluteTtl.Some? ==> session.createdAt == Some(born[session.login]))
  }

  ghost predicate PhaseDated(cfg: Config, born: seq<int>, phase: Phase) {
    match phase
    case Fetched(snapshot) => snapshot.Some? ==> Dated(cfg, born, snapshot.value)
    case Granting(session, _) => Dated(cfg, born, session)
    case Storing(_, updated) => Dated(cfg, born, updated)
    case Clearing(_, updated) => Dated(cfg, born, updated)
    case _ => true
  }

  ghost predicate ReaderDated(cfg: Config, born: seq<int>, phase: ReaderPhase) {
    phase.Found? && phase.snapshot.Some? ==> Dated(cfg, born, phase.snapshot.value)
  }

  ghost predicate ServedInTime(cfg: Config, born: seq<int>, served: Served) {
    && Dated(cfg, born, served.session)
    && (cfg.absoluteTtl.Some? ==> served.time < born[served.session.login] + cfg.absoluteTtl.value)
  }

  ghost predicate StoreDated(cfg: Config, s: State) { forall id | id in s.store :: Dated(cfg, s.born, s.store[id]) }

  ghost predicate ExecutionsDated(cfg: Config, s: State) {
    forall e | 0 <= e < |s.executions| :: PhaseDated(cfg, s.born, s.executions[e].phase)
  }

  ghost predicate ReadersDated(cfg: Config, s: State) {
    forall r | 0 <= r < |s.readers| :: ReaderDated(cfg, s.born, s.readers[r].phase)
  }

  ghost predicate AllInTime(cfg: Config, s: State) {
    forall i | 0 <= i < |s.served| :: ServedInTime(cfg, s.born, s.served[i])
  }

  ghost predicate DatesHold(cfg: Config, s: State) {
    StoreDated(cfg, s) && ExecutionsDated(cfg, s) && ReadersDated(cfg, s) && AllInTime(cfg, s)
  }

  lemma LogInKeepsDates(cfg: Config, s: State, id: Id, session: Session)
    requires DatesHold(cfg, s)
    ensures DatesHold(cfg, LogInStep(cfg, s, id, session))
  {
    var s' := LogInStep(cfg, s, id, session);
    if s' != s {
      assert s'.born == s.born + [s.now];
      forall x | Dated(cfg, s.born, x) ensures Dated(cfg, s'.born, x) {}
      assert s'.executions == s.executions && s'.readers == s.readers && s'.served == s.served;
    }
  }

  lemma StartGrantKeepsDates(cfg: Config, s: State, e: nat, session: Session)
    requires DatesHold(cfg, s) && e < |s.executions| && Dated(cfg, s.born, session)
    ensures DatesHold(cfg, StartGrant(s, e, session))
  {
    var s' := StartGrant(s, e, session);
    assert s'.store == s.store && s'.readers == s.readers && s'.served == s.served && s'.born == s.born;
  }

  /** Handing out a session before its deadline is in time. */
  lemma ServeKeepsDates(cfg: Config, s: State, session: Session)
    requires DatesHold(cfg, s) && Dated(cfg, s.born, session) && !PastDeadline(cfg, session, s.now)
    ensures DatesHold(cfg, s.(served := s.served + [Served(session, s.now)]))
  {
  }

  lemma SetReaderKeepsDates(cfg: Config, s: State, r: nat, phase: ReaderPhase)
    requires DatesHold(cfg, s) && r < |s.readers| && ReaderDated(cfg, s.born, phase)
    ensures DatesHold(cfg, SetReader(s, r, phase))
  {
  }

  lemma ProceedKeepsDates(cfg: Config, s: State, e: nat)
    requires DatesHold(cfg, s)
    ensures DatesHold(cfg, ProceedStep(cfg, s, e))
  {
    if e < |s.executions| && s.executions[e].phase.Fetched? {
      assert PhaseDated(cfg, s.born, s.executions[e].phase);
      match s.executions[e].phase.snapshot
      case None =>
      case Some(session) =>
        if !PastDeadline(cfg, session, s.now) {
          ServeKeepsDates(cfg, s, session);
          StartGrantKeepsDates(cfg, s.(served := s.served + [Served(session, s.now)]), e, session);
        }
    }
  }

  lemma UseGrantKeepsDates(cfg: Config, s: State, e: nat, freshId: Id, freshCsrf: nat)
    requires DatesHold(cfg, s)
    ensures DatesHold(cfg, UseGrantStep(cfg, s, e, freshId, freshCsrf))
  {
  }

  lemma StoreKeepsDates(cfg: Config, s: State, e: nat)
    requires DatesHold(cfg, s)
    ensures DatesHold(cfg, StoreStep(s, e))
  {
  }

  lemma ReadKeepsDates(cfg: Config, s: State, e: nat)
    requires DatesHold(cfg, s)
    ensures DatesHold(cfg, FetchStep(s, e)) && DatesHold(cfg, ExpireStep(s, e)) && DatesHold(cfg, ClearStep(s, e))
  {
  }

  lemma LookKeepsDates(cfg: Config, s: State, r: nat)
    requires DatesHold(cfg, s)
    ensures DatesHold(cfg, LookFetchStep(s, r)) && DatesHold(cfg, LookDeleteStep(s, r))
  {
  }

  lemma LookEndKeepsDates(cfg: Config, s: State, r: nat)
    requires DatesHold(cfg, s)
    ensures DatesHold(cfg, LookEndStep(cfg, s, r))
  {
    if r < |s.readers| && s.readers[r].phase.Found? {
      assert ReaderDated(cfg, s.born, s.readers[r].phase);
      SetReaderKeepsDates(cfg, s, r, Finished);
      match s.readers[r].phase.snapshot
      case None =>
      case Some(session) =>
        if PastDeadline(cfg, session, s.now) {
          SetReaderKeepsDates(cfg, s, r, Deleting);
        } else {
          ServeKeepsDates(cfg, SetReader(s, r, Finished), session);
        }
    }
  }

  lemma GrantEndsKeepsDates(cfg: Config, s: State, g: nat, result: GrantResult)
    requires DatesHold(cfg, s)
    ensures DatesHold(cfg, GrantEndsStep(cfg, s, g, result))
  {
    var s' := GrantEndsStep(cfg, s, g, result);
    assert s'.store == s.store && s'.executions == s.executions && s'.readers == s.readers;
    assert s'.served == s.served && s'.born == s.born;
  }

  lemma StepKeepsDates(cfg: Config, s: State, event: Event)
    requires DatesHold(cfg, s)
    ensures DatesHold(cfg, Apply(cfg, s, event))
  {
    match event
    case LogIn(id, session) => LogInKeepsDates(cfg, s, id, session);
    case Proceed(e) => ProceedKeepsDates(cfg, s, e);
    case GrantEnds(g, result) => GrantEndsKeepsDates(cfg, s, g, result);
    case UseGrant(e, freshId, freshCsrf) => UseGrantKeepsDates(cfg, s, e, freshId, freshCsrf);
    case Store(e) => StoreKeepsDates(cfg, s, e);
    case Fetch(e) => ReadKeepsDates(cfg, s, e);
    case Expire(e) => ReadKeepsDates(cfg, s, e);
    case Clear(e) => ReadKeepsDates(cfg, s, e);
    case LookFetch(r) => LookKeepsDates(cfg, s, r);
    case LookEnd(r) => LookEndKeepsDates(cfg, s, r);
    case LookDelete(r) => LookKeepsDates(cfg, s, r);
    case _ =>
  }

  lemma {:induction false} RunKeepsDates(cfg: Config, now: int, events: seq<Event>)
    ensures DatesHold(cfg, After(cfg, now, events))
  {
    if events != [] {
      RunKeepsDates(cfg, now, events[..|events| - 1]);
      StepKeepsDates(cfg, After(cfg, now, events[..|events| - 1]), events[|events| - 1]);
    }
  }

  /**
   * Whatever was refreshed and rotated in between, a session is handed out only before the lifetime
   * counted from the first store of its login is over.
   */
  lemma DeadlineIsFinal(cfg: Config, now: int, events: seq<Event>, i: nat)
    requires cfg.absoluteTtl.Some? && i < |After(cfg, now, events).served|
    ensures
      var s := After(cfg, now, events);
      var served := s.served[i];
      && served.session.login < |s.born|
      && served.session.createdAt == Some(s.born[served.session.login])
      && served.time < s.born[served.session.login] + cfg.absoluteTtl.value
  {
    RunKeepsDates(cfg, now, events);
    assert ServedInTime(cfg, After(cfg, now, events).born, After(cfg, now, events).served[i]);
  }

  ghost predicate KeepsHistory(s: State, s': State) {
    s.born <= s'.born && s.served <= s'.served && s.redeemed <= s'.redeemed && s.now <= s'.now
  }

  lemma HistoryGoesOn(s: State, s': State, s'': State)
    requires KeepsHistory(s, s') && KeepsHistory(s', s'')
    ensures KeepsHistory(s, s'')
  {
  }

  lemma LastStepKeepsHistory(cfg: Config, now: int, events: seq<Event>, event: Event)
    ensures KeepsHistory(After(cfg, now, events), After(cfg, now, events + [event]))
  {
    assert (events + [event])[..|events|] == events;
    StepKeepsHistory(cfg, After(cfg, now, events), event);
  }

  /** The first-store times and the past readings never change, and the clock never goes back. */
  lemma {:induction false} HistoryIsKept(cfg: Config, now: int, events: seq<Event>, more: seq<Event>)
    ensures KeepsHistory(After(cfg, now, events), After(cfg, now, events + more))
  {
    if more == [] {
      assert events + more == events;
    } else {
      var front, last := more[..|more| - 1], more[|more| - 1];
      HistoryIsKept(cfg, now, events, front);
      LastStepKeepsHistory(cfg, now, events + front, last);
      assert events + more == events + front + [last];
      HistoryGoesOn(After(cfg, now, events), After(cfg, now, events + front), After(cfg, now, events + more));
    }
  }

  /**
   * Along any run the stamp of a login never changes: every copy of its session that is stored at some time and every
   * copy stored later, under whatever id and after however many refreshes, carry the same `createdAt`.
   */
  lemma StampNeverChanges(cfg: Config, now: int, events: seq<Event>, more: seq<Event>, id: Id, later: Id)
    requires cfg.absoluteTtl.Some?
    requires id in After(cfg, now, events).store && later in After(cfg, now, events + more).store
    requires After(cfg, now, events).store[id].login == After(cfg, now, events + more).store[later].login
    ensures After(cfg, now, events).store[id].createdAt.Some?
    ensures After(cfg, now, events + more).store[later].createdAt == After(cfg, now, events).store[id].createdAt
  {
    RunKeepsDates(cfg, now, events);
    RunKeepsDates(cfg, now, events + more);
    HistoryIsKept(cfg, now, events, more);
    var s, s' := After(cfg, now, events), After(cfg, now, events + more);
    assert Dated(cfg, s.born, s.store[id]) && Dated(cfg, s'.born, s'.store[later]);
  }

  lemma StartGrantKeepsHistory(s: State, e: nat, session: Session)
    requires e < |s.executions|
    ensures
      var s' := StartGrant(s, e, session);
      s'.born == s.born && s.served == s'.served && s'.redeemed == s.redeemed && s'.now == s.now
  {
  }

  lemma ProceedKeepsHistory(cfg: Config, s: State, e: nat)
    ensures
      var s' := ProceedStep(cfg, s, e);
      s'.born == s.born && s.served <= s'.served && s'.redeemed == s.redeemed && s'.now == s.now
  {
    if e < |s.executions| && s.executions[e].phase.Fetched? && s.executions[e].phase.snapshot.Some? {
      var session := s.executions[e].phase.snapshot.value;
      StartGrantKeepsHistory(s.(served := s.served + [Served(session, s.now)]), e, session);
    }
  }

  lemma LookEndKeepsHistory(cfg: Config, s: State, r: nat)
    ensures
      var s' := LookEndStep(cfg, s, r);
      s'.born == s.born && s.served <= s'.served && s'.redeemed == s.redeemed && s'.now == s.now
  {
    LookEndOnlyReads(cfg, s, r);
  }

  lemma GrantEndsKeepsHistory(cfg: Config, s: State, g: nat, result: GrantResult)
    ensures
      var s' := GrantEndsStep(cfg, s, g, result);
      s'.born == s.born && s'.served == s.served && s.redeemed <= s'.redeemed && s'.now == s.now
  {
  }

  lemma LogInKeepsHistory(cfg: Config, s: State, id: Id, session: Session)
    ensures
      var s' := LogInStep(cfg, s, id, session);
      s.born <= s'.born && s'.served == s.served && s'.redeemed == s.redeemed && s'.now == s.now
  {
  }

  /** The other steps of an execution write no history but the owners of tokens and the ids in use. */
  lemma ExecutionKeepsHistory(cfg: Config, s: State, event: Event)
    requires event.Fetch? || event.Expire? || event.UseGrant? || event.Store? || event.Clear?
    ensures
      var s' := Apply(cfg, s, event);
      s'.born == s.born && s'.served == s.served && s'.redeemed == s.redeemed && s'.now == s.now
  {
  }

  lemma StepKeepsHistory(cfg: Config, s: State, event: Event)
    ensures KeepsHistory(s, Apply(cfg, s, event))
  {
    if event.Fetch? || event.Expire? || event.UseGrant? || event.Store? || event.Clear? {
      ExecutionKeepsHistory(cfg, s, event);
    } else {
      match event
      case LogIn(id, session) => LogInKeepsHistory(cfg, s, id, session);
      case Proceed(e) => ProceedKeepsHistory(cfg, s, e);
      case GrantEnds(g, result) => GrantEndsKeepsHistory(cfg, s, g, result);
      case LookEnd(r) => LookEndKeepsHistory(cfg, s, r);
      case _ =>
    }
  }
}
