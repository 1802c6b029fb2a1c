/** One grant at a time for a refresh token, in every run of the refresh protocol and with any identity provider. */
module RefreshGrants {
  import opened Basics
  import opened Refresh
  import opened RefreshLaws

  type InFlight = map<Token, nat>

  // ---------------------------------------------------------------- the invariant

  /** The execution that started the grant still waits for it. */
  ghost predicate Awaited(grant: Grant, g: nat, executions: seq<Execution>) {
    && grant.execution < |executions|
    && executions[grant.execution].phase.Granting?
    && executions[grant.execution].phase.grant == g
  }

  ghost predicate GrantsAwaited(grants: seq<Grant>, executions: seq<Execution>) {
    forall g: nat | g < |grants| && grants[g].result.None? :: Awaited(grants[g], g, executions)
  }

  /** An execution waits for a grant of its own token; the one that started the grant keeps it registered. */
  ghost predicate WaitsWell(phase: Phase, e: nat, grants: seq<Grant>, inFlight: InFlight) {
    match phase
    case Granting(session, g) =>
      && g < |grants| && session.refresh == Some(grants[g].token)
      && (grants[g].execution == e ==> grants[g].token in inFlight && inFlight[grants[g].token] == g)
    case _ => true
  }

  ghost predicate AllWaitWell(executions: seq<Execution>, grants: seq<Grant>, inFlight: InFlight) {
    forall e: nat | e < |executions| :: WaitsWell(executions[e].phase, e, grants, inFlight)
  }

  ghost predicate Registered(inFlight: InFlight, grants: seq<Grant>) {
    forall token | token in inFlight :: inFlight[token] < |grants| && grants[inFlight[token]].token == token
  }

  ghost predicate Coalesced(executions: seq<Execution>, grants: seq<Grant>, inFlight: InFlight) {
    AllWaitWell(executions, grants, inFlight) && GrantsAwaited(grants, executions) && Registered(inFlight, grants)
  }

  ghost predicate GrantsHold(s: State) { Coalesced(s.executions, s.grants, s.inFlightGrants) }

  // ---------------------------------------------------------------- steps that start and answer no grant

  /** An execution that waits for a grant goes on waiting, and no other begins to. */
  ghost predicate SameWaits(executions: seq<Execution>, executions': seq<Execution>) {
    && |executions| <= |executions'|
    && forall e: nat | e < |executions'| ::
         if e < |executions| && executions[e].phase.Granting? then executions'[e] == executions[e]
         else !executions'[e].phase.Granting?
  }

  ghost predicate SameGrants(s: State, s': State) {
    s'.grants == s.grants && s'.inFlightGrants == s.inFlightGrants && SameWaits(s.executions, s'.executions)
  }

  lemma SameWaitsCoalesce(executions: seq<Execution>, executions': seq<Execution>, grants: seq<Grant>, inFlight: InFlight)
    requires Coalesced(executions, grants, inFlight) && SameWaits(executions, executions')
    ensures Coalesced(executions', grants, inFlight)
  {
    forall e: nat | e < |executions'| ensures WaitsWell(executions'[e].phase, e, grants, inFlight) {
      assert e < |executions| ==> WaitsWell(executions[e].phase, e, grants, inFlight);
    }
    forall g: nat | g < |grants| && grants[g].result.None? ensures Awaited(grants[g], g, executions') {
      assert Awaited(grants[g], g, executions);
    }
  }

  lemma SameGrantsHold(s: State, s': State)
    requires GrantsHold(s) && SameGrants(s, s')
    ensures GrantsHold(s')
  {
    SameWaitsCoalesce(s.executions, s'.executions, s.grants, s.inFlightGrants);
  }

  predicate TouchesGrants(event: Event) { event.Proceed? || event.GrantEnds? || event.UseGrant? }

  lemma StoreSameGrants(s: State, e: nat)
    ensures SameGrants(s, StoreStep(s, e))
  {
    StoreOnlyMoves(s, e);
  }

  lemma FetchSameGrants(s: State, e: nat)
    ensures SameGrants(s, FetchStep(s, e))
  {}

  lemma ExpireSameGrants(s: State, e: nat)
    ensures SameGrants(s, ExpireStep(s, e))
  {}

  lemma ClearSameGrants(s: State, e: nat)
    ensures SameGrants(s, ClearStep(s, e))
  {}

  lemma StepSameGrants(cfg: Config, s: State, event: Event)
    requires !TouchesGrants(event)
    ensures SameGrants(s, Apply(cfg, s, event))
  {
    match event
    case LogIn(id, session) => LogInMovesNone(cfg, s, id, session);
    case LookEnd(r) => LookEndOnlyReads(cfg, s, r);
    case Fetch(e) => FetchSameGrants(s, e);
    case Expire(e) => ExpireSameGrants(s, e);
    case Store(e) => StoreSameGrants(s, e);
    case Clear(e) => ClearSameGrants(s, e);
    case _ =>
  }

  // ---------------------------------------------------------------- joining, starting and answering a grant

  function WithPhase(executions: seq<Execution>, e: nat, phase: Phase): seq<Execution>
    requires e < |executions|
  {
    executions[e := executions[e].(phase := phase)]
  }

  lemma JoinCoalesces(executions: seq<Execution>, grants: seq<Grant>, inFlight: InFlight, e: nat, session: Session, token: Token)
    requires Coalesced(executions, grants, inFlight) && e < |executions| && !executions[e].phase.Granting?
    requires session.refresh == Some(token) && token in inFlight
    ensures Coalesced(WithPhase(executions, e, Granting(session, inFlight[token])), grants, inFlight)
  {
    var executions' := WithPhase(executions, e, Granting(session, inFlight[token]));
    forall k: nat | k < |executions'| ensures WaitsWell(executions'[k].phase, k, grants, inFlight) {
      assert WaitsWell(executions[k].phase, k, grants, inFlight);
    }
    forall k: nat | k < |grants| && grants[k].result.None? ensures Awaited(grants[k], k, executions') {
      assert Awaited(grants[k], k, executions);
    }
  }

  lemma StartCoalesces(executions: seq<Execution>, grants: seq<Grant>, inFlight: InFlight, e: nat, session: Session, token: Token)
    requires Coalesced(executions, grants, inFlight) && e < |executions| && !executions[e].phase.Granting?
    requires session.refresh == Some(token) && token !in inFlight
    ensures
      Coalesced(WithPhase(executions, e, Granting(session, |grants|)), grants + [Grant(token, e, None)],
                inFlight[token := |grants|])
  {
    var executions', grants' := WithPhase(executions, e, Granting(session, |grants|)), grants + [Grant(token, e, None)];
    forall k: nat | k < |executions'| ensures WaitsWell(executions'[k].phase, k, grants', inFlight[token := |grants|]) {
      assert WaitsWell(executions[k].phase, k, grants, inFlight);
    }
    forall k: nat | k < |grants'| && grants'[k].result.None? ensures Awaited(grants'[k], k, executions') {
      if k < |grants| { assert Awaited(grants[k], k, executions); }
    }
  }

  lemma AnswerCoalesces(executions: seq<Execution>, grants: seq<Grant>, inFlight: InFlight, g: nat, result: GrantResult)
    requires Coalesced(executions, grants, inFlight) && g < |grants|
    ensures Coalesced(executions, grants[g := grants[g].(result := Some(result))], inFlight)
  {
    var grants' := grants[g := grants[g].(result := Some(result))];
    forall k: nat | k < |executions| ensures WaitsWell(executions[k].phase, k, grants', inFlight) {
      assert WaitsWell(executions[k].phase, k, grants, inFlight);
    }
    forall k: nat | k < |grants'| && grants'[k].result.None? ensures Awaited(grants'[k], k, executions) {
      assert Awaited(grants[k], k, executions);
    }
  }

  /** The map without the grant that execution `e` waits for, if `e` started it. */
  function Unregistered(executions: seq<Execution>, grants: seq<Grant>, inFlight: InFlight, e: nat): InFlight
    requires e < |executions| && executions[e].phase.Granting? && executions[e].phase.grant < |grants|
  {
    var grant := grants[executions[e].phase.grant];
    if grant.execution == e then inFlight - {grant.token} else inFlight
  }

  /** Taking a grant out of the map takes out no grant that another execution started. */
  lemma UseCoalesces(executions: seq<Execution>, grants: seq<Grant>, inFlight: InFlight, e: nat, phase: Phase)
    requires Coalesced(executions, grants, inFlight) && e < |executions| && executions[e].phase.Granting?
    requires executions[e].phase.grant < |grants| && grants[executions[e].phase.grant].result.Some? && !phase.Granting?
    ensures Coalesced(WithPhase(executions, e, phase), grants, Unregistered(executions, grants, inFlight, e))
  {
    var executions', inFlight' := WithPhase(executions, e, phase), Unregistered(executions, grants, inFlight, e);
    assert WaitsWell(executions[e].phase, e, grants, inFlight);
    forall k: nat | k < |executions'| ensures WaitsWell(executions'[k].phase, k, grants, inFlight') {
      assert WaitsWell(executions[k].phase, k, grants, inFlight);
    }
    forall k: nat | k < |grants| && grants[k].result.None? ensures Awaited(grants[k], k, executions') {
      assert Awaited(grants[k], k, executions);
    }
  }

  lemma StartGrantKeepsGrants(s: State, e: nat, session: Session)
    requires GrantsHold(s) && e < |s.executions| && s.executions[e].phase.Fetched?
    ensures GrantsHold(StartGrant(s, e, session))
  {
    match session.refresh
    case None => SameGrantsHold(s, StartGrant(s, e, session));
    case Some(token) =>
      if token in s.inFlightGrants {
        JoinCoalesces(s.executions, s.grants, s.inFlightGrants, e, session, token);
      } else {
        StartCoalesces(s.executions, s.grants, s.inFlightGrants, e, session, token);
      }
  }

  lemma ProceedKeepsGrants(cfg: Config, s: State, e: nat)
    requires GrantsHold(s)
    ensures GrantsHold(ProceedStep(cfg, s, e))
  {
    if e < |s.executions| && s.executions[e].phase.Fetched? {
      match s.executions[e].phase.snapshot
      case None => SameGrantsHold(s, Move(s, e, Settled(NoSession)));
      case Some(session) =>
        if PastDeadline(cfg, session, s.now) {
          SameGrantsHold(s, Move(s, e, Expiring));
        } else {
          StartGrantKeepsGrants(s.(served := s.served + [Served(session, s.now)]), e, session);
        }
    }
  }

  lemma AnswerKeepsGrants(cfg: Config, s: State, g: nat, result: GrantResult)
    requires GrantsHold(s)
    ensures GrantsHold(GrantEndsStep(cfg, s, g, result))
  {
    if g < |s.grants| {
      AnswerCoalesces(s.executions, s.grants, s.inFlightGrants, g, result);
    }
  }

  lemma UseKeepsGrants(cfg: Config, s: State, e: nat, freshId: Id, freshCsrf: nat)
    requires GrantsHold(s)
    ensures GrantsHold(UseGrantStep(cfg, s, e, freshId, freshCsrf))
  {
    var s' := UseGrantStep(cfg, s, e, freshId, freshCsrf);
    if GrantReady(s, e) && freshId !in s.usedIds {
      UseGrantOnlyMoves(cfg, s, e, freshId, freshCsrf);
      UseCoalesces(s.executions, s.grants, s.inFlightGrants, e, s'.executions[e].phase);
    }
  }

  lemma StepKeepsGrants(cfg: Config, s: State, event: Event)
    requires GrantsHold(s)
    ensures GrantsHold(Apply(cfg, s, event))
  {
    match event
    case Proceed(e) => ProceedKeepsGrants(cfg, s, e);
    case GrantEnds(g, result) => AnswerKeepsGrants(cfg, s, g, result);
    case UseGrant(e, freshId, freshCsrf) => UseKeepsGrants(cfg, s, e, freshId, freshCsrf);
    case _ =>
      StepSameGrants(cfg, s, event);
      SameGrantsHold(s, Apply(cfg, s, event));
  }

  lemma {:induction false} RunKeepsGrants(cfg: Config, now: int, events: seq<Event>)
    ensures GrantsHold(After(cfg, now, events))
  {
    if events != [] {
      RunKeepsGrants(cfg, now, events[..|events| - 1]);
      StepKeepsGrants(cfg, After(cfg, now, events[..|events| - 1]), events[|events| - 1]);
    }
  }

  // ---------------------------------------------------------------- main results

  /** Whether or not the provider rotates refresh tokens, no token ever has two grants that wait for an answer. */
  lemma OneOpenGrantPerToken(cfg: Config, now: int, events: seq<Event>, g1: nat, g2: nat)
    requires
      var grants := After(cfg, now, events).grants;
      && g1 < |grants| && g2 < |grants| && grants[g1].token == grants[g2].token
      && grants[g1].result.None? && grants[g2].result.None?
    ensures g1 == g2
  {
    RunKeepsGrants(cfg, now, events);
    var s := After(cfg, now, events);
    assert Awaited(s.grants[g1], g1, s.executions) && Awaited(s.grants[g2], g2, s.executions);
    var e1, e2 := s.grants[g1].execution, s.grants[g2].execution;
    assert WaitsWell(s.executions[e1].phase, e1, s.grants, s.inFlightGrants);
    assert WaitsWell(s.executions[e2].phase, e2, s.grants, s.inFlightGrants);
  }
}
