/** A refresh token is good for one grant, in every run with an identity provider that rotates them. */
module RefreshTokens {
  import opened Basics
  import opened Refresh
  import opened RefreshLaws
  import opened RefreshGrants

  type Owners = map<Token, Owner>

  // ---------------------------------------------------------------- who holds a token

  ghost predicate Owns(owners: Owners, owner: Owner, token: Token) { token in owners && owners[token] == owner }

  ghost predicate Unspent(owners: Owners, redeemed: seq<Token>, owner: Owner, token: Token) {
    Owns(owners, owner, token) && token !in redeemed
  }

  /** The execution got its grant and has not come to its end. */
  ghost predicate PastGrant(executions: seq<Execution>, grants: seq<Grant>, e: nat) {
    && e < |executions|
    && match executions[e].phase
       case Granting(_, g) => g < |grants| && grants[g].result.Some? && grants[g].result.value.Granted?
       case Storing(_, _) => true
       case Clearing(_, _) => true
       case _ => false
  }

  /** A spent token is in the store only while the execution that spent it is about to replace or clear it. */
  ghost predicate EntryHolds(session: Session, id: Id, flights: map<Id, nat>, executions: seq<Execution>,
                             grants: seq<Grant>, owners: Owners, redeemed: seq<Token>) {
    session.refresh.Some? ==>
      && Owns(owners, OwnedBy(id), session.refresh.value)
      && (session.refresh.value in redeemed ==> id in flights && PastGrant(executions, grants, flights[id]))
  }

  ghost predicate GrantHolds(result: Option<GrantResult>, token: Token, e: nat, owners: Owners, redeemed: seq<Token>) {
    match result
    case Some(Granted(tokens)) => tokens.refresh.Some? && Unspent(owners, redeemed, HeldBy(e), tokens.refresh.value)
    case _ => token !in redeemed
  }

  ghost predicate PhaseHolds(phase: Phase, id: Id, e: nat, grants: seq<Grant>, owners: Owners, redeemed: seq<Token>) {
    match phase
    case Fetched(snapshot) =>
      snapshot.Some? && snapshot.value.refresh.Some? ==>
        Unspent(owners, redeemed, OwnedBy(id), snapshot.value.refresh.value)
    case Granting(session, g) =>
      && g < |grants| && grants[g].execution == e
      && session.refresh == Some(grants[g].token)
      && Owns(owners, OwnedBy(id), grants[g].token)
      && GrantHolds(grants[g].result, grants[g].token, e, owners, redeemed)
    case Storing(_, updated) => updated.refresh.Some? && Unspent(owners, redeemed, HeldBy(e), updated.refresh.value)
    case _ => true
  }

  ghost predicate StoreHolds(store: map<Id, Session>, flights: map<Id, nat>, executions: seq<Execution>,
                             grants: seq<Grant>, owners: Owners, redeemed: seq<Token>) {
    forall id | id in store :: EntryHolds(store[id], id, flights, executions, grants, owners, redeemed)
  }

  ghost predicate PhasesHold(executions: seq<Execution>, grants: seq<Grant>, owners: Owners, redeemed: seq<Token>) {
    forall e: nat | e < |executions| :: PhaseHolds(executions[e].phase, executions[e].id, e, grants, owners, redeemed)
  }

  ghost predicate InFlightHolds(inFlightGrants: map<Token, nat>, grants: seq<Grant>, executions: seq<Execution>) {
    forall token | token in inFlightGrants ::
      && inFlightGrants[token] < |grants|
      && grants[inFlightGrants[token]].token == token
      && Awaited(grants[inFlightGrants[token]], inFlightGrants[token], executions)
  }

  ghost predicate LedgerHolds(owners: Owners, issued: set<Token>, redeemed: seq<Token>) {
    Distinct(redeemed) && (forall token <- redeemed :: token in owners) && owners.Keys <= issued
  }

  ghost predicate TokensHold(s: State) {
    && FlightsHold(s)
    && StoreHolds(s.store, s.flights, s.executions, s.grants, s.owner, s.redeemed)
    && PhasesHold(s.executions, s.grants, s.owner, s.redeemed)
    && GrantsAwaited(s.grants, s.executions)
    && InFlightHolds(s.inFlightGrants, s.grants, s.executions)
    && LedgerHolds(s.owner, s.issued, s.redeemed)
  }

  // ---------------------------------------------------------------- steps

  /** Readers, the clock and deletions leave the tokens where they are. */
  lemma Unconcerned(s: State, s': State)
    requires TokensHold(s) && FlightsHold(s')
    requires s'.store.Keys <= s.store.Keys && forall id | id in s'.store :: s'.store[id] == s.store[id]
    requires s'.flights == s.flights && s'.executions == s.executions && s'.grants == s.grants
    requires s'.inFlightGrants == s.inFlightGrants
    requires s'.owner == s.owner && s'.issued == s.issued && s'.redeemed == s.redeemed
    ensures TokensHold(s')
  {
    forall id | id in s'.store
      ensures EntryHolds(s'.store[id], id, s'.flights, s'.executions, s'.grants, s'.owner, s'.redeemed)
    {
      assert EntryHolds(s.store[id], id, s.flights, s.executions, s.grants, s.owner, s.redeemed);
    }
  }

  ghost predicate SameTokens(s: State, s': State) {
    && s'.store == s.store && s'.flights == s.flights && s'.executions == s.executions && s'.grants == s.grants
    && s'.inFlightGrants == s.inFlightGrants
    && s'.owner == s.owner && s'.issued == s.issued && s'.redeemed == s.redeemed
  }

  lemma Untouched(s: State, s': State)
    requires TokensHold(s) && FlightsHold(s') && SameTokens(s, s')
    ensures TokensHold(s')
  {
    Unconcerned(s, s');
  }

  lemma LogInKeepsTokens(cfg: Config, s: State, id: Id, session: Session)
    requires TokensHold(s)
    ensures TokensHold(LogInStep(cfg, s, id, session))
  {
    StepKeepsFlights(cfg, s, LogIn(id, session));
    if id !in s.usedIds && session.refresh.Some? && session.refresh.value !in s.issued {
      NewOwner(s, session.refresh.value, OwnedBy(id));
    }
  }

  /** Owning a new token says nothing about the others. */
  lemma NewOwner(s: State, token: Token, owner: Owner)
    requires TokensHold(s) && token !in s.issued
    ensures token !in s.redeemed
    ensures StoreHolds(s.store, s.flights, s.executions, s.grants, s.owner[token := owner], s.redeemed)
    ensures PhasesHold(s.executions, s.grants, s.owner[token := owner], s.redeemed)
    ensures LedgerHolds(s.owner[token := owner], s.issued + {token}, s.redeemed)
  {
    var owners := s.owner[token := owner];
    forall e: nat | e < |s.executions|
      ensures PhaseHolds(s.executions[e].phase, s.executions[e].id, e, s.grants, owners, s.redeemed)
    {
      assert PhaseHolds(s.executions[e].phase, s.executions[e].id, e, s.grants, s.owner, s.redeemed);
    }
  }

  /** A new execution that has read nothing concerns no token. */
  lemma NewcomerKeepsTokens(s: State, id: Id)
    requires TokensHold(s)
    ensures
      var executions := s.executions + [Execution(id, Reading)];
      && StoreHolds(s.store, s.flights, executions, s.grants, s.owner, s.redeemed)
      && PhasesHold(executions, s.grants, s.owner, s.redeemed)
      && GrantsAwaited(s.grants, executions)
      && InFlightHolds(s.inFlightGrants, s.grants, executions)
  {
    var executions := s.executions + [Execution(id, Reading)];
    forall e: nat | e < |executions|
      ensures PhaseHolds(executions[e].phase, executions[e].id, e, s.grants, s.owner, s.redeemed)
    {
      if e < |s.executions| {
        assert executions[e] == s.executions[e];
      }
    }
  }

  lemma JoinKeepsTokens(s: State, id: Id)
    requires TokensHold(s) && id in s.flights && FlightsHold(AskStep(s, id))
    ensures TokensHold(AskStep(s, id))
  {
    assert SameTokens(s, AskStep(s, id));
    Untouched(s, AskStep(s, id));
  }

  lemma RegisteringKeepsEntries(s: State, id: Id, executions: seq<Execution>, next: nat)
    requires id !in s.flights && StoreHolds(s.store, s.flights, executions, s.grants, s.owner, s.redeemed)
    ensures StoreHolds(s.store, s.flights[id := next], executions, s.grants, s.owner, s.redeemed)
  {
    forall k | k in s.store
      ensures EntryHolds(s.store[k], k, s.flights[id := next], executions, s.grants, s.owner, s.redeemed)
    {
      assert EntryHolds(s.store[k], k, s.flights, executions, s.grants, s.owner, s.redeemed);
    }
  }

  lemma AskKeepsTokens(s: State, id: Id)
    requires TokensHold(s)
    ensures TokensHold(AskStep(s, id))
  {
    AskKeepsFlights(s, id);
    if id in s.flights {
      JoinKeepsTokens(s, id);
    } else {
      NewcomerKeepsTokens(s, id);
      RegisteringKeepsEntries(s, id, s.executions + [Execution(id, Reading)], |s.executions|);
    }
  }

  /** Another phase for an execution that is neither past its grant nor waiting for one. */
  lemma PhaseChange(s: State, e: nat, phase: Phase)
    requires TokensHold(s) && e < |s.executions|
    requires !s.executions[e].phase.Granting? && !PastGrant(s.executions, s.grants, e)
    requires PhaseHolds(phase, s.executions[e].id, e, s.grants, s.owner, s.redeemed)
    ensures
      var executions := Move(s, e, phase).executions;
      && StoreHolds(s.store, s.flights, executions, s.grants, s.owner, s.redeemed)
      && PhasesHold(executions, s.grants, s.owner, s.redeemed)
      && GrantsAwaited(s.grants, executions)
      && InFlightHolds(s.inFlightGrants, s.grants, executions)
  {
    var executions := Move(s, e, phase).executions;
    forall k | k in s.store
      ensures EntryHolds(s.store[k], k, s.flights, executions, s.grants, s.owner, s.redeemed)
    {
      assert EntryHolds(s.store[k], k, s.flights, s.executions, s.grants, s.owner, s.redeemed);
    }
  }

  lemma FetchKeepsTokens(s: State, e: nat)
    requires TokensHold(s)
    ensures TokensHold(FetchStep(s, e))
  {
    ReadOnlyMoves(s, e);
    MovesKeepFlights(s, FetchStep(s, e), e);
    if e < |s.executions| && s.executions[e].phase.Reading? {
      var id := s.executions[e].id;
      assert Unsettled(s, e);
      if id in s.store {
        assert EntryHolds(s.store[id], id, s.flights, s.executions, s.grants, s.owner, s.redeemed);
      }
      PhaseChange(s, e, Fetched(Lookup(s, id)));
    }
  }

  lemma StartGrantKeepsTokens(s: State, e: nat, session: Session)
    requires TokensHold(s) && e < |s.executions| && s.executions[e].phase == Fetched(Some(session))
    ensures TokensHold(StartGrant(s, e, session))
  {
    assert PhaseHolds(s.executions[e].phase, s.executions[e].id, e, s.grants, s.owner, s.redeemed);
    match session.refresh
    case None => PhaseChange(s, e, Settled(NoRefreshToken));
    case Some(token) =>
      assert Unsettled(s, e);
      NoOtherUser(s, e, token);
      GrantAppended(s, e, session, token);
  }

  /** No grant is in flight for a token that another execution has just read. */
  lemma NoOtherUser(s: State, e: nat, token: Token)
    requires TokensHold(s) && Unsettled(s, e) && s.executions[e].phase.Fetched?
    requires Owns(s.owner, OwnedBy(s.executions[e].id), token)
    ensures token !in s.inFlightGrants
  {
    if token in s.inFlightGrants {
      var other := s.grants[s.inFlightGrants[token]].execution;
      assert PhaseHolds(s.executions[other].phase, s.executions[other].id, other, s.grants, s.owner, s.redeemed);
      assert Unsettled(s, other);
    }
  }

  lemma GrantAppended(s: State, e: nat, session: Session, token: Token)
    requires TokensHold(s) && e < |s.executions| && s.executions[e].phase == Fetched(Some(session))
    requires session.refresh == Some(token) && token !in s.inFlightGrants
    ensures
      var g := |s.grants|;
      var executions := Move(s, e, Granting(session, g)).executions;
      var grants := s.grants + [Grant(token, e, None)];
      && StoreHolds(s.store, s.flights, executions, grants, s.owner, s.redeemed)
      && PhasesHold(executions, grants, s.owner, s.redeemed)
      && GrantsAwaited(grants, executions)
      && InFlightHolds(s.inFlightGrants[token := g], grants, executions)
  {
    var g := |s.grants|;
    var executions := Move(s, e, Granting(session, g)).executions;
    var grants := s.grants + [Grant(token, e, None)];
    forall k | k in s.store ensures EntryHolds(s.store[k], k, s.flights, executions, grants, s.owner, s.redeemed) {
      assert EntryHolds(s.store[k], k, s.flights, s.executions, s.grants, s.owner, s.redeemed);
    }
    forall k: nat | k < |executions|
      ensures PhaseHolds(executions[k].phase, executions[k].id, k, grants, s.owner, s.redeemed)
    {
      assert PhaseHolds(s.executions[k].phase, s.executions[k].id, k, s.grants, s.owner, s.redeemed);
    }
    forall k: nat | k < |grants| && grants[k].result.None? ensures Awaited(grants[k], k, executions) {
      if k < g { assert Awaited(s.grants[k], k, s.executions); }
    }
  }

  lemma ProceedKeepsTokens(cfg: Config, s: State, e: nat)
    requires TokensHold(s)
    ensures TokensHold(ProceedStep(cfg, s, e))
  {
    ProceedOnlyMoves(cfg, s, e);
    MovesKeepFlights(s, ProceedStep(cfg, s, e), e);
    if e < |s.executions| && s.executions[e].phase.Fetched? {
      match s.executions[e].phase.snapshot
      case None => PhaseChange(s, e, Settled(NoSession));
      case Some(session) =>
        if PastDeadline(cfg, session, s.now) {
          PhaseChange(s, e, Expiring);
        } else {
          var served := s.(served := s.served + [Served(session, s.now)]);
          assert FlightsHold(served) by { MovesKeepFlights(s, served, e); }
          StartGrantKeepsTokens(served, e, session);
        }
    }
  }

  /** Deleting an entry takes no token from anybody else. */
  lemma ExpireKeepsTokens(s: State, e: nat)
    requires TokensHold(s)
    ensures TokensHold(ExpireStep(s, e))
  {
    ReadOnlyMoves(s, e);
    MovesKeepFlights(s, ExpireStep(s, e), e);
    if e < |s.executions| && s.executions[e].phase.Expiring? {
      PhaseChange(s, e, Settled(NoSession));
    }
  }

  lemma TidyKeepsTokens(s: State, e: nat)
    requires TokensHold(s)
    ensures TokensHold(TidyStep(s, e))
  {
    TidyKeepsFlights(s, e);
    var s' := TidyStep(s, e);
    forall id | id in s.store
      ensures EntryHolds(s.store[id], id, s'.flights, s.executions, s.grants, s.owner, s.redeemed)
    {
      assert EntryHolds(s.store[id], id, s.flights, s.executions, s.grants, s.owner, s.redeemed);
    }
  }

  // ---------------------------------------------------------------- the grant

  /** Only the awaiting execution can use the token of a pending grant. */
  lemma GrantedOnce(s: State, g: nat)
    requires TokensHold(s) && g < |s.grants| && s.grants[g].result.None?
    ensures
      var e, token := s.grants[g].execution, s.grants[g].token;
      && Awaited(s.grants[g], g, s.executions) && Unsettled(s, e)
      && s.flights[s.executions[e].id] == e
      && Unspent(s.owner, s.redeemed, OwnedBy(s.executions[e].id), token)
  {
    var e := s.grants[g].execution;
    assert Awaited(s.grants[g], g, s.executions);
    assert PhaseHolds(s.executions[e].phase, s.executions[e].id, e, s.grants, s.owner, s.redeemed);
    assert Unsettled(s, e);
  }

  lemma RefusalKeepsTokens(cfg: Config, s: State, g: nat)
    requires TokensHold(s)
    ensures TokensHold(GrantEndsStep(cfg, s, g, Refused))
  {
    StepKeepsFlights(cfg, s, GrantEnds(g, Refused));
    if g < |s.grants| && s.grants[g].result.None? {
      var grants := s.grants[g := s.grants[g].(result := Some(Refused))];
      forall e: nat | e < |s.executions|
        ensures PhaseHolds(s.executions[e].phase, s.executions[e].id, e, grants, s.owner, s.redeemed)
      {
        assert PhaseHolds(s.executions[e].phase, s.executions[e].id, e, s.grants, s.owner, s.redeemed);
      }
      forall id | id in s.store
        ensures EntryHolds(s.store[id], id, s.flights, s.executions, grants, s.owner, s.redeemed)
      {
        assert EntryHolds(s.store[id], id, s.flights, s.executions, s.grants, s.owner, s.redeemed);
      }
    }
  }

  lemma GrantKeepsStore(s: State, g: nat, tokens: Tokens, token: Token)
    requires TokensHold(s) && g < |s.grants| && s.grants[g].result.None?
    requires tokens.refresh == Some(token) && token !in s.issued
    ensures
      StoreHolds(s.store, s.flights, s.executions, s.grants[g := s.grants[g].(result := Some(Granted(tokens)))],
                 s.owner[token := HeldBy(s.grants[g].execution)], s.redeemed + [s.grants[g].token])
  {
    GrantedOnce(s, g);
    var grants := s.grants[g := s.grants[g].(result := Some(Granted(tokens)))];
    var owners := s.owner[token := HeldBy(s.grants[g].execution)];
    var redeemed := s.redeemed + [s.grants[g].token];
    forall id | id in s.store
      ensures EntryHolds(s.store[id], id, s.flights, s.executions, grants, owners, redeemed)
    {
      assert EntryHolds(s.store[id], id, s.flights, s.executions, s.grants, s.owner, s.redeemed);
    }
  }

  lemma GrantKeepsPhase(s: State, g: nat, tokens: Tokens, token: Token, k: nat)
    requires TokensHold(s) && g < |s.grants| && s.grants[g].result.None?
    requires tokens.refresh == Some(token) && token !in s.issued
    requires k < |s.executions|
    ensures
      PhaseHolds(s.executions[k].phase, s.executions[k].id, k, s.grants[g := s.grants[g].(result := Some(Granted(tokens)))],
                 s.owner[token := HeldBy(s.grants[g].execution)], s.redeemed + [s.grants[g].token])
  {
    GrantedOnce(s, g);
    var e := s.grants[g].execution;
    assert PhaseHolds(s.executions[k].phase, s.executions[k].id, k, s.grants, s.owner, s.redeemed);
    if Unsettled(s, k) && s.executions[k].id == s.executions[e].id {
      assert k == e;
    }
  }

  lemma GrantEndsKeepsTokens(cfg: Config, s: State, g: nat, result: GrantResult)
    requires TokensHold(s) && cfg.idpRotates
    ensures TokensHold(GrantEndsStep(cfg, s, g, result))
  {
    if g < |s.grants| && s.grants[g].result.None? && ResultAllowed(cfg, s, result) {
      match result
      case Refused => RefusalKeepsTokens(cfg, s, g);
      case Granted(tokens) =>
        StepKeepsFlights(cfg, s, GrantEnds(g, result));
        var token := tokens.refresh.value;
        GrantedOnce(s, g);
        GrantKeepsStore(s, g, tokens, token);
        forall k: nat | k < |s.executions|
          ensures
            PhaseHolds(s.executions[k].phase, s.executions[k].id, k,
                       s.grants[g := s.grants[g].(result := Some(Granted(tokens)))],
                       s.owner[token := HeldBy(s.grants[g].execution)], s.redeemed + [s.grants[g].token])
        {
          GrantKeepsPhase(s, g, tokens, token, k);
        }
    }
  }

  /** Handing out the answer of a grant ends its time in the map, and of no other. */
  lemma AnswerUsed(s: State, e: nat, phase: Phase)
    requires TokensHold(s) && GrantReady(s, e) && !phase.Granting?
    ensures
      var executions := Move(s, e, phase).executions;
      GrantsAwaited(s.grants, executions) && InFlightHolds(WithoutGrant(s, e), s.grants, executions)
  {
    assert PhaseHolds(s.executions[e].phase, s.executions[e].id, e, s.grants, s.owner, s.redeemed);
    var executions := Move(s, e, phase).executions;
    forall token | token in WithoutGrant(s, e)
      ensures Awaited(s.grants[s.inFlightGrants[token]], s.inFlightGrants[token], executions)
    {
      assert Awaited(s.grants[s.inFlightGrants[token]], s.inFlightGrants[token], s.executions);
    }
    forall g: nat | g < |s.grants| && s.grants[g].result.None? ensures Awaited(s.grants[g], g, executions) {
      assert Awaited(s.grants[g], g, s.executions);
    }
  }

  /** An execution that stays past its grant, or never was, may move on. */
  lemma EntriesStay(s: State, e: nat, phase: Phase)
    requires TokensHold(s) && e < |s.executions|
    requires PastGrant(s.executions, s.grants, e) ==> PastGrant(Move(s, e, phase).executions, s.grants, e)
    ensures StoreHolds(s.store, s.flights, Move(s, e, phase).executions, s.grants, s.owner, s.redeemed)
  {
    forall id | id in s.store
      ensures EntryHolds(s.store[id], id, s.flights, Move(s, e, phase).executions, s.grants, s.owner, s.redeemed)
    {
      assert EntryHolds(s.store[id], id, s.flights, s.executions, s.grants, s.owner, s.redeemed);
    }
  }

  lemma UseGrantKeepsTokens(cfg: Config, s: State, e: nat, freshId: Id, freshCsrf: nat)
    requires TokensHold(s)
    ensures TokensHold(UseGrantStep(cfg, s, e, freshId, freshCsrf))
  {
    var s' := UseGrantStep(cfg, s, e, freshId, freshCsrf);
    UseGrantOnlyMoves(cfg, s, e, freshId, freshCsrf);
    MovesKeepFlights(s, s', e);
    if GrantReady(s, e) && freshId !in s.usedIds {
      assert PhaseHolds(s.executions[e].phase, s.executions[e].id, e, s.grants, s.owner, s.redeemed);
      var phase := s'.executions[e].phase;
      assert s'.executions == Move(s, e, phase).executions;
      AnswerUsed(s, e, phase);
      EntriesStay(s, e, phase);
      assert PhaseHolds(phase, s.executions[e].id, e, s.grants, s.owner, s.redeemed);
    }
  }

  /** The execution that holds a token alone may give it to a session. */
  lemma HandOver(s: State, e: nat, k: nat, token: Token, owner: Owner)
    requires TokensHold(s) && k != e && k < |s.executions|
    requires Owns(s.owner, HeldBy(e), token)
    ensures PhaseHolds(s.executions[k].phase, s.executions[k].id, k, s.grants, s.owner[token := owner], s.redeemed)
  {
    assert PhaseHolds(s.executions[k].phase, s.executions[k].id, k, s.grants, s.owner, s.redeemed);
  }

  lemma StoreKeepsPhases(s: State, e: nat)
    requires TokensHold(s) && e < |s.executions| && s.executions[e].phase.Storing?
    ensures var s' := StoreStep(s, e); PhasesHold(s'.executions, s.grants, s'.owner, s.redeemed)
  {
    var s' := StoreStep(s, e);
    assert PhaseHolds(s.executions[e].phase, s.executions[e].id, e, s.grants, s.owner, s.redeemed);
    var token := s.executions[e].phase.updated.refresh.value;
    forall k: nat | k < |s.executions|
      ensures PhaseHolds(s'.executions[k].phase, s'.executions[k].id, k, s.grants, s'.owner, s.redeemed)
    {
      if k != e { HandOver(s, e, k, token, s'.owner[token]); }
    }
  }

  lemma StoreKeepsEntries(s: State, e: nat)
    requires TokensHold(s) && e < |s.executions| && s.executions[e].phase.Storing?
    ensures var s' := StoreStep(s, e); StoreHolds(s'.store, s.flights, s'.executions, s.grants, s'.owner, s.redeemed)
  {
    var s' := StoreStep(s, e);
    assert PhaseHolds(s.executions[e].phase, s.executions[e].id, e, s.grants, s.owner, s.redeemed);
    forall k | k in s'.store
      ensures EntryHolds(s'.store[k], k, s.flights, s'.executions, s.grants, s'.owner, s.redeemed)
    {
      if k in s.store { assert EntryHolds(s.store[k], k, s.flights, s.executions, s.grants, s.owner, s.redeemed); }
    }
  }

  lemma StoreKeepsWaiting(s: State, e: nat)
    requires TokensHold(s) && e < |s.executions| && s.executions[e].phase.Storing?
    ensures var s' := StoreStep(s, e); GrantsAwaited(s.grants, s'.executions) && InFlightHolds(s.inFlightGrants, s.grants, s'.executions)
  {
  }

  lemma StoreKeepsTokens(s: State, e: nat)
    requires TokensHold(s)
    ensures TokensHold(StoreStep(s, e))
  {
    StoreOnlyMoves(s, e);
    MovesKeepFlights(s, StoreStep(s, e), e);
    if e < |s.executions| && s.executions[e].phase.Storing? {
      assert PhaseHolds(s.executions[e].phase, s.executions[e].id, e, s.grants, s.owner, s.redeemed);
      StoreKeepsPhases(s, e);
      StoreKeepsEntries(s, e);
      StoreKeepsWaiting(s, e);
    }
  }

  lemma ClearKeepsTokens(s: State, e: nat)
    requires TokensHold(s)
    ensures TokensHold(ClearStep(s, e))
  {
    var s' := ClearStep(s, e);
    ReadOnlyMoves(s, e);
    MovesKeepFlights(s, s', e);
    if e < |s.executions| && s.executions[e].phase.Clearing? {
      forall k | k in s'.store
        ensures EntryHolds(s'.store[k], k, s.flights, s'.executions, s.grants, s.owner, s.redeemed)
      {
        assert EntryHolds(s.store[k], k, s.flights, s.executions, s.grants, s.owner, s.redeemed);
      }
    }
  }

  predicate IsRead(event: Event) { event.Tick? || event.Look? || event.LookFetch? || event.LookEnd? }

  lemma ReadIsUnconcerned(cfg: Config, s: State, event: Event)
    requires IsRead(event)
    ensures SameTokens(s, Apply(cfg, s, event))
  {
    if event.LookEnd? {
      LookEndOnlyReads(cfg, s, event.r);
    }
  }

  /** The clock and the reads, up to the deletion of what they found expired. */
  lemma ReadKeepsTokens(cfg: Config, s: State, event: Event)
    requires TokensHold(s) && IsRead(event)
    ensures TokensHold(Apply(cfg, s, event))
  {
    StepKeepsFlights(cfg, s, event);
    ReadIsUnconcerned(cfg, s, event);
    Untouched(s, Apply(cfg, s, event));
  }

  lemma DropKeepsTokens(cfg: Config, s: State, id: Id)
    requires TokensHold(s)
    ensures TokensHold(Apply(cfg, s, Drop(id)))
  {
    StepKeepsFlights(cfg, s, Drop(id));
    Unconcerned(s, s.(store := s.store - {id}));
  }

  lemma LookDeleteKeepsTokens(cfg: Config, s: State, r: nat)
    requires TokensHold(s)
    ensures TokensHold(LookDeleteStep(s, r))
  {
    StepKeepsFlights(cfg, s, LookDelete(r));
    Unconcerned(s, LookDeleteStep(s, r));
  }

  lemma StepKeepsTokens(cfg: Config, s: State, event: Event)
    requires TokensHold(s) && cfg.idpRotates
    ensures TokensHold(Apply(cfg, s, event))
  {
    if IsRead(event) {
      ReadKeepsTokens(cfg, s, event);
    } else if event.LogIn? || event.Drop? || event.LookDelete? || event.Tidy? {
      match event
      case LogIn(id, session) => LogInKeepsTokens(cfg, s, id, session);
      case Drop(id) => DropKeepsTokens(cfg, s, id);
      case LookDelete(r) => LookDeleteKeepsTokens(cfg, s, r);
      case Tidy(e) => TidyKeepsTokens(s, e);
    } else {
      ExecutionKeepsTokens(cfg, s, event);
    }
  }

  /** The steps of an execution and of its grant. */
  lemma ExecutionKeepsTokens(cfg: Config, s: State, event: Event)
    requires TokensHold(s) && cfg.idpRotates
    requires event.Ask? || event.Fetch? || event.Proceed? || event.Expire? || event.GrantEnds? || event.UseGrant?
          || event.Store? || event.Clear?
    ensures TokensHold(Apply(cfg, s, event))
  {
    match event
    case Ask(id) => AskKeepsTokens(s, id);
    case Fetch(e) => FetchKeepsTokens(s, e);
    case Proceed(e) => ProceedKeepsTokens(cfg, s, e);
    case Expire(e) => ExpireKeepsTokens(s, e);
    case GrantEnds(g, result) => GrantEndsKeepsTokens(cfg, s, g, result);
    case UseGrant(e, freshId, freshCsrf) => UseGrantKeepsTokens(cfg, s, e, freshId, freshCsrf);
    case Store(e) => StoreKeepsTokens(s, e);
    case Clear(e) => ClearKeepsTokens(s, e);
  }

  lemma {:induction false} RunKeepsTokens(cfg: Config, now: int, events: seq<Event>)
    requires cfg.idpRotates
    ensures TokensHold(After(cfg, now, events))
  {
    if events != [] {
      RunKeepsTokens(cfg, now, events[..|events| - 1]);
      StepKeepsTokens(cfg, After(cfg, now, events[..|events| - 1]), events[|events| - 1]);
    }
  }

  /**
   * No refresh token is successfully redeemed twice, with or without rotation of session ids, whatever the
   * interleaving: the identity provider of the model would accept a used token again, and never gets one.
   */
  lemma NoTokenRedeemedTwice(cfg: Config, now: int, events: seq<Event>, i: nat, j: nat)
    requires cfg.idpRotates
    requires i < j < |After(cfg, now, events).redeemed|
    ensures After(cfg, now, events).redeemed[i] != After(cfg, now, events).redeemed[j]
  {
    RunKeepsTokens(cfg, now, events);
  }

  /** Outside a refresh of its session, the store holds no token that was used up. */
  lemma RestingTokenIsUnspent(cfg: Config, now: int, events: seq<Event>, id: Id)
    requires cfg.idpRotates
    requires
      var s := After(cfg, now, events);
      && id in s.store && s.store[id].refresh.Some?
      && forall e: nat | Unsettled(s, e) :: s.executions[e].id != id
    ensures After(cfg, now, events).store[id].refresh.value !in After(cfg, now, events).redeemed
  {
    RunKeepsTokens(cfg, now, events);
    var s := After(cfg, now, events);
    assert EntryHolds(s.store[id], id, s.flights, s.executions, s.grants, s.owner, s.redeemed);
    if id in s.flights {
      assert !Unsettled(s, s.flights[id]);
    }
  }

  /** In every run, no grant is in flight, or without an answer, for a token that an execution has just read. */
  lemma OtherUser(cfg: Config, now: int, events: seq<Event>, e: nat, token: Token)
    requires cfg.idpRotates
    requires
      var s := After(cfg, now, events);
      && e < |s.executions| && s.executions[e].phase.Fetched? && s.executions[e].phase.snapshot.Some?
      && s.executions[e].phase.snapshot.value.refresh == Some(token)
    ensures token !in After(cfg, now, events).inFlightGrants
    ensures
      var grants := After(cfg, now, events).grants;
      forall g | 0 <= g < |grants| && grants[g].result.None? :: grants[g].token != token
  {
    RunKeepsTokens(cfg, now, events);
    var s := After(cfg, now, events);
    assert PhaseHolds(s.executions[e].phase, s.executions[e].id, e, s.grants, s.owner, s.redeemed);
    assert Unsettled(s, e);
    NoOtherUser(s, e, token);
    forall g | 0 <= g < |s.grants| && s.grants[g].result.None? ensures s.grants[g].token != token {
      GrantedOnce(s, g);
    }
  }
}
