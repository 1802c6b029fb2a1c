/** What a refreshed session carries: the tokens of a grant for the refresh token it was presented with. */
module RefreshCarries {
  import opened Basics
  import opened Refresh

  /** `session` holds what grant `g` gave, its expiry counted from `at`; a new stamp was put on it at the same time. */
  ghost predicate Carries(cfg: Config, session: Session, grants: seq<Grant>, g: nat, before: Session, at: int) {
    && g < |grants| && before.refresh == Some(grants[g].token)
    && grants[g].result.Some? && grants[g].result.value.Granted?
    && var tokens := grants[g].result.value.tokens;
    && session.login == before.login
    && session.access == tokens.access
    && session.refresh == Some(if tokens.refresh.Some? then tokens.refresh.value else grants[g].token)
    && session.idToken == (if tokens.idToken.Some? then tokens.idToken else before.idToken)
    && (if cfg.rotateId && cfg.csrfEnabled then session.csrf.Some? else session.csrf == before.csrf)
    && session.createdAt == (if cfg.absoluteTtl.Some? && before.createdAt.None? then Some(at) else before.createdAt)
    && session.expiresAt
       == (if tokens.expiresIn.Some? && tokens.expiresIn.value > 0 then Some(at + tokens.expiresIn.value) else before.expiresAt)
  }

  ghost predicate FromGrant(cfg: Config, session: Session, grants: seq<Grant>, now: int) {
    exists g, before, at | at <= now :: Carries(cfg, session, grants, g, before, at)
  }

  ghost predicate PhaseCarries(cfg: Config, phase: Phase, grants: seq<Grant>, now: int) {
    match phase
    case Granting(session, g) => g < |grants| && session.refresh == Some(grants[g].token)
    case Storing(rotated, updated) => (rotated.Some? <==> cfg.rotateId) && FromGrant(cfg, updated, grants, now)
    case Clearing(_, updated) => FromGrant(cfg, updated, grants, now)
    case _ => true
  }

  ghost predicate AllCarry(cfg: Config, executions: seq<Execution>, grants: seq<Grant>, now: int) {
    forall e | 0 <= e < |executions| :: PhaseCarries(cfg, executions[e].phase, grants, now)
  }

  ghost predicate Filed(inFlight: map<Token, nat>, grants: seq<Grant>) {
    forall token | token in inFlight :: inFlight[token] < |grants| && grants[inFlight[token]].token == token
  }

  ghost predicate Holds(cfg: Config, s: State) { AllCarry(cfg, s.executions, s.grants, s.now) && Filed(s.inFlightGrants, s.grants) }

  /** Grants keep their tokens and, once they have one, their results. */
  ghost predicate Grown(grants: seq<Grant>, grants': seq<Grant>) {
    |grants| <= |grants'| && forall g | 0 <= g < |grants| ::
      grants'[g].token == grants[g].token && (grants[g].result.Some? ==> grants'[g].result == grants[g].result)
  }

  lemma StillCarries(cfg: Config, phase: Phase, grants: seq<Grant>, grants': seq<Grant>, now: int, now': int)
    requires PhaseCarries(cfg, phase, grants, now) && Grown(grants, grants') && now <= now'
    ensures PhaseCarries(cfg, phase, grants', now')
  {
    if phase.Storing? || phase.Clearing? {
      var g, before, at :| at <= now && Carries(cfg, phase.updated, grants, g, before, at);
      assert Carries(cfg, phase.updated, grants', g, before, at);
    }
  }

  /** One execution goes on to a phase that carries, and the others stay. */
  lemma OneMoves(cfg: Config, s: State, s': State, e: nat)
    requires Holds(cfg, s) && Grown(s.grants, s'.grants) && s.now <= s'.now && Filed(s'.inFlightGrants, s'.grants)
    requires |s.executions| <= |s'.executions| <= |s.executions| + 1
    requires forall k: nat | k < |s.executions| && k != e :: s'.executions[k].phase == s.executions[k].phase
    requires forall k: nat | k < |s'.executions| && (k == e || k >= |s.executions|) ::
      PhaseCarries(cfg, s'.executions[k].phase, s'.grants, s'.now)
    ensures Holds(cfg, s')
  {
    forall k | 0 <= k < |s'.executions| ensures PhaseCarries(cfg, s'.executions[k].phase, s'.grants, s'.now) {
      if k < |s.executions| && k != e {
        assert PhaseCarries(cfg, s.executions[k].phase, s.grants, s.now);
        StillCarries(cfg, s.executions[k].phase, s.grants, s'.grants, s.now, s'.now);
      }
    }
  }

  lemma UpdatedCarries(cfg: Config, before: Session, grants: seq<Grant>, g: nat, now: int, freshCsrf: nat)
    requires g < |grants| && before.refresh == Some(grants[g].token)
    requires grants[g].result.Some? && grants[g].result.value.Granted?
    ensures
      var updated := Updated(before, grants[g].result.value.tokens, now);
      var rotated := if cfg.rotateId && cfg.csrfEnabled then updated.(csrf := Some(freshCsrf)) else updated;
      Carries(cfg, Stamped(cfg, rotated, now), grants, g, before, now)
  {}

  lemma UseCarries(cfg: Config, s: State, e: nat, freshId: Id, freshCsrf: nat)
    requires Holds(cfg, s)
    ensures Holds(cfg, UseGrantStep(cfg, s, e, freshId, freshCsrf))
  {
    if GrantReady(s, e) && freshId !in s.usedIds {
      var before, g := s.executions[e].phase.session, s.executions[e].phase.grant;
      assert PhaseCarries(cfg, s.executions[e].phase, s.grants, s.now);
      if s.grants[g].result.value.Granted? {
        UpdatedCarries(cfg, before, s.grants, g, s.now, freshCsrf);
      }
      OneMoves(cfg, s, UseGrantStep(cfg, s, e, freshId, freshCsrf), e);
    }
  }

  lemma StartCarries(cfg: Config, s: State, e: nat, session: Session)
    requires Holds(cfg, s) && e < |s.executions|
    ensures Holds(cfg, StartGrant(s, e, session))
  {
    OneMoves(cfg, s, StartGrant(s, e, session), e);
  }

  lemma SettleCarries(cfg: Config, s: State, e: nat, phase: Phase)
    requires Holds(cfg, s) && e < |s.executions| && !phase.Granting? && !phase.Storing? && !phase.Clearing?
    ensures Holds(cfg, Move(s, e, phase))
  {
    OneMoves(cfg, s, Move(s, e, phase), e);
  }

  lemma ProceedCarries(cfg: Config, s: State, e: nat)
    requires Holds(cfg, s)
    ensures Holds(cfg, ProceedStep(cfg, s, e))
  {
    if e < |s.executions| && s.executions[e].phase.Fetched? {
      match s.executions[e].phase.snapshot
      case None => SettleCarries(cfg, s, e, Settled(NoSession));
      case Some(session) =>
        if PastDeadline(cfg, session, s.now) {
          SettleCarries(cfg, s, e, Expiring);
        } else {
          StartCarries(cfg, s.(served := s.served + [Served(session, s.now)]), e, session);
        }
    }
  }

  lemma StoreCarries(cfg: Config, s: State, e: nat)
    requires Holds(cfg, s)
    ensures Holds(cfg, StoreStep(s, e))
  {
    if e < |s.executions| {
      assert PhaseCarries(cfg, s.executions[e].phase, s.grants, s.now);
      OneMoves(cfg, s, StoreStep(s, e), e);
    }
  }

  lemma AnswerCarries(cfg: Config, s: State, g: nat, result: GrantResult)
    requires Holds(cfg, s)
    ensures Holds(cfg, GrantEndsStep(cfg, s, g, result))
  {
    OneMoves(cfg, s, GrantEndsStep(cfg, s, g, result), |s.executions|);
  }

  lemma AskCarries(cfg: Config, s: State, id: Id)
    requires Holds(cfg, s)
    ensures Holds(cfg, AskStep(s, id))
  {
    OneMoves(cfg, s, AskStep(s, id), |s.executions|);
  }

  lemma MovesCarry(cfg: Config, s: State, event: Event)
    requires Holds(cfg, s) && (event.Fetch? || event.Expire? || event.Clear?)
    ensures Holds(cfg, Apply(cfg, s, event))
  {
    if event.e < |s.executions| {
      assert PhaseCarries(cfg, s.executions[event.e].phase, s.grants, s.now);
      OneMoves(cfg, s, Apply(cfg, s, event), event.e);
    }
  }

  /** Events that leave executions and grants alone. */
  lemma OthersCarry(cfg: Config, s: State, s': State)
    requires Holds(cfg, s) && SameWork(s, s')
    ensures Holds(cfg, s')
  {
    OneMoves(cfg, s, s', |s.executions|);
  }

  predicate TouchesExecutions(event: Event) {
    || event.Ask? || event.Proceed? || event.GrantEnds? || event.UseGrant? || event.Store? || event.Fetch?
    || event.Expire? || event.Clear?
  }

  ghost predicate SameWork(s: State, s': State) {
    s'.executions == s.executions && s'.grants == s.grants && s'.inFlightGrants == s.inFlightGrants && s.now <= s'.now
  }

  lemma LogInSameWork(cfg: Config, s: State, id: Id, session: Session)
    ensures SameWork(s, LogInStep(cfg, s, id, session))
  {}

  lemma LookEndSameWork(cfg: Config, s: State, r: nat)
    ensures SameWork(s, LookEndStep(cfg, s, r))
  {}

  lemma OtherSteps(cfg: Config, s: State, event: Event)
    requires !TouchesExecutions(event)
    ensures SameWork(s, Apply(cfg, s, event))
  {
    match event
    case LogIn(id, session) => LogInSameWork(cfg, s, id, session);
    case LookEnd(r) => LookEndSameWork(cfg, s, r);
    case _ =>
  }

  lemma StepCarries(cfg: Config, s: State, event: Event)
    requires Holds(cfg, s)
    ensures Holds(cfg, Apply(cfg, s, event))
  {
    match event
    case Ask(id) => AskCarries(cfg, s, id);
    case Proceed(e) => ProceedCarries(cfg, s, e);
    case GrantEnds(g, result) => AnswerCarries(cfg, s, g, result);
    case UseGrant(e, freshId, freshCsrf) => UseCarries(cfg, s, e, freshId, freshCsrf);
    case Store(e) => StoreCarries(cfg, s, e);
    case Fetch(_) => MovesCarry(cfg, s, event);
    case Expire(_) => MovesCarry(cfg, s, event);
    case Clear(_) => MovesCarry(cfg, s, event);
    case _ =>
      OtherSteps(cfg, s, event);
      OthersCarry(cfg, s, Apply(cfg, s, event));
  }

  lemma {:induction false} RunCarries(cfg: Config, now: int, events: seq<Event>)
    ensures Holds(cfg, After(cfg, now, events))
  {
    if events != [] {
      RunCarries(cfg, now, events[..|events| - 1]);
      StepCarries(cfg, After(cfg, now, events[..|events| - 1]), events[|events| - 1]);
    }
  }

  /**
   * What an execution stores carries what the identity provider granted for the refresh token of the session it read: the
   * access token, the new refresh and ID tokens or else the old ones, and an expiry counted from when it used the answer;
   * a new CSRF token if the session gets a new id and has one, and else everything that session had.
   */
  lemma StoresWhatWasGranted(cfg: Config, now: int, events: seq<Event>, e: nat)
    requires e < |After(cfg, now, events).executions| && After(cfg, now, events).executions[e].phase.Storing?
    ensures
      var s := After(cfg, now, events);
      var rotated := s.executions[e].phase.rotated;
      var target := if rotated.Some? then rotated.value else s.executions[e].id;
      var s' := Apply(cfg, s, Store(e));
      (rotated.Some? <==> cfg.rotateId) && target in s'.store && FromGrant(cfg, s'.store[target], s.grants, s.now)
  {
    RunCarries(cfg, now, events);
    assert PhaseCarries(cfg, After(cfg, now, events).executions[e].phase, After(cfg, now, events).grants, After(cfg, now, events).now);
  }
}
