/**
 * Refreshing OIDC sessions: the single flight per session, the coalesced grants and the session store,
 * as the steps that run between two awaits. Steps of different requests interleave in any order.
 */
module Refresh {
  import opened Basics

  type Id = nat
  type Token = nat

  /** `absoluteTtl` is `sessionAbsoluteTtl`; `idpRotates` says that every grant carries a new refresh token. */
  datatype Config = Config(rotateId: bool, csrfEnabled: bool, absoluteTtl: Option<int>, clockTolerance: int, idpRotates: bool)

  /** `login` stands for the user data that every copy of the session carries along unchanged. */
  datatype Session = Session(login: nat, access: nat, refresh: Option<Token>, idToken: Option<nat>,
                             expiresAt: Option<int>, csrf: Option<nat>, createdAt: Option<int>)

  datatype Tokens = Tokens(access: nat, refresh: Option<Token>, idToken: Option<nat>, expiresIn: Option<nat>)

  datatype Outcome = NoSession | NoRefreshToken | Refreshed(id: Id, expiresAt: Option<int>, csrf: Option<nat>) | Rejected

  // ---------------------------------------------------------------- the single flight

  function Joined(inFlight: map<Id, nat>, key: Id, next: nat): map<Id, nat> {
    if key in inFlight then inFlight else inFlight[key := next]
  }

  /** Only the entry of this execution goes away. */
  function Left<K>(inFlight: map<K, nat>, key: K, execution: nat): map<K, nat> {
    if key in inFlight && inFlight[key] == execution then inFlight - {key} else inFlight
  }

  /** Executions are told apart by number, as promises are by identity. */
  class RefreshSingleFlight {
    var inFlight: map<Id, nat>

    constructor ()
      ensures inFlight == map[]
    {
      inFlight := map[];
    }

    /** The execution to wait for: the running one, or `next`, which is then registered. */
    method Run(key: Id, next: nat) returns (execution: nat, started: bool)
      modifies this
      ensures started == (key !in old(inFlight))
      ensures inFlight == Joined(old(inFlight), key, next)
      ensures key in inFlight && execution == inFlight[key]
    {
      if key in inFlight {
        return inFlight[key], false;
      }
      inFlight := inFlight[key := next];
      return next, true;
    }

    /** The `finally` of an execution, after it fulfilled or rejected. */
    method Settle(key: Id, execution: nat)
      modifies this
      ensures inFlight == Left(old(inFlight), key, execution)
    {
      if key in inFlight && inFlight[key] == execution {
        inFlight := inFlight - {key};
      }
    }
  }

  // ---------------------------------------------------------------- values of one refresh

  predicate PastDeadline(cfg: Config, session: Session, now: int) {
    cfg.absoluteTtl.Some? && session.createdAt.Some? && now >= session.createdAt.value + cfg.absoluteTtl.value
  }

  /** What `storeSession` writes. */
  function Stamped(cfg: Config, session: Session, now: int): Session {
    if cfg.absoluteTtl.Some? && session.createdAt.None? then session.(createdAt := Some(now)) else session
  }

  function Updated(session: Session, tokens: Tokens, now: int): Session {
    session.(
      access := tokens.access,
      refresh := if tokens.refresh.Some? then tokens.refresh else session.refresh,
      idToken := if tokens.idToken.Some? then tokens.idToken else session.idToken,
      expiresAt := match tokens.expiresIn
                   case Some(seconds) => if seconds != 0 then Some(now + seconds) else session.expiresAt
                   case None => session.expiresAt)
  }

  predicate IdleExpired(cfg: Config, session: Session, now: int) {
    session.expiresAt.Some? && session.expiresAt.value <= now - cfg.clockTolerance
  }

  // ---------------------------------------------------------------- state

  /** Where one execution of `executeSessionRefresh` waits. */
  datatype Phase =
    | Reading
    | Fetched(snapshot: Option<Session>)
    | Expiring
    | Granting(session: Session, grant: nat)
    | Storing(rotated: Option<Id>, updated: Session)
    | Clearing(target: Id, updated: Session)
    | Settled(outcome: Outcome)

  datatype Execution = Execution(id: Id, phase: Phase)

  datatype GrantResult = Granted(tokens: Tokens) | Refused

  /** A grant sent to the identity provider by `execution`. */
  datatype Grant = Grant(token: Token, execution: nat, result: Option<GrantResult>)

  datatype Caller = Caller(id: Id, execution: nat)

  /** A request that only reads a session, by `getSession` or as cookie authentication. */
  datatype Reader = Reader(id: Id, byCookie: bool, phase: ReaderPhase)

  datatype ReaderPhase = Looking | Found(snapshot: Option<Session>) | Deleting | Finished

  datatype Served = Served(session: Session, time: int)

  /** Who may present a refresh token: the session that holds it, or the execution that was just granted it. */
  datatype Owner = OwnedBy(id: Id) | HeldBy(execution: nat)

  datatype State = State(
    now: int,
    store: map<Id, Session>,
    flights: map<Id, nat>,           // RefreshSingleFlight.inFlight
    executions: seq<Execution>,
    grants: seq<Grant>,
    inFlightGrants: map<Token, nat>, // inFlightRefreshes
    callers: seq<Caller>,
    readers: seq<Reader>,
    // history, which no step reads for a decision of the program
    usedIds: set<Id>,
    issued: set<Token>,
    owner: map<Token, Owner>,
    redeemed: seq<Token>,            // refresh tokens of successful grants
    born: seq<int>,                  // first-store time of each login
    served: seq<Served>)             // sessions handed out, with the time

  function Initial(now: int): State {
    State(now, map[], map[], [], [], map[], [], [], {}, {}, map[], [], [], [])
  }

  function Move(s: State, e: nat, phase: Phase): State
    requires e < |s.executions|
  {
    s.(executions := s.executions[e := s.executions[e].(phase := phase)])
  }

  predicate Unsettled(s: State, e: nat) { e < |s.executions| && !s.executions[e].phase.Settled? }

  // ---------------------------------------------------------------- steps

  datatype Event =
    | Tick(now: int)
    | LogIn(id: Id, session: Session)
    | Drop(id: Id)                     // expiry in the store, or a logout
    | Ask(id: Id)
    | Fetch(e: nat)
    | Proceed(e: nat)
    | Expire(e: nat)
    | GrantEnds(g: nat, result: GrantResult)
    | UseGrant(e: nat, freshId: Id, freshCsrf: nat)
    | Store(e: nat)
    | Clear(e: nat)
    | Tidy(e: nat)
    | Look(id: Id, byCookie: bool)
    | LookFetch(r: nat)
    | LookEnd(r: nat)
    | LookDelete(r: nat)

  /** A sign-in stores a session under a new id; its refresh token is new too. */
  function LogInStep(cfg: Config, s: State, id: Id, session: Session): State {
    if id in s.usedIds || (session.refresh.Some? && session.refresh.value in s.issued) then s
    else
      var first := session.(login := |s.born|, createdAt := None);
      var s' := s.(store := s.store[id := Stamped(cfg, first, s.now)], usedIds := s.usedIds + {id}, born := s.born + [s.now]);
      match session.refresh
      case None => s'
      case Some(token) => s'.(issued := s.issued + {token}, owner := s.owner[token := OwnedBy(id)])
  }

  function AskStep(s: State, id: Id): State {
    var next := |s.executions|;
    var flights := Joined(s.flights, id, next);
    var s' := s.(flights := flights, callers := s.callers + [Caller(id, flights[id])]);
    if id in s.flights then s' else s'.(executions := s.executions + [Execution(id, Reading)])
  }

  function Lookup(s: State, id: Id): Option<Session> { if id in s.store then Some(s.store[id]) else None }

  function FetchStep(s: State, e: nat): State {
    if e < |s.executions| && s.executions[e].phase.Reading?
    then Move(s, e, Fetched(Lookup(s, s.executions[e].id)))
    else s
  }

  /** `getSession` returns, and the rest runs up to the grant. */
  function ProceedStep(cfg: Config, s: State, e: nat): State {
    if !(e < |s.executions| && s.executions[e].phase.Fetched?) then s
    else
      match s.executions[e].phase.snapshot
      case None => Move(s, e, Settled(NoSession))
      case Some(session) =>
        if PastDeadline(cfg, session, s.now) then Move(s, e, Expiring)
        else StartGrant(s.(served := s.served + [Served(session, s.now)]), e, session)
  }

  function StartGrant(s: State, e: nat, session: Session): State
    requires e < |s.executions|
  {
    match session.refresh
    case None => Move(s, e, Settled(NoRefreshToken))
    case Some(token) =>
      if token in s.inFlightGrants then Move(s, e, Granting(session, s.inFlightGrants[token]))
      else
        var g := |s.grants|;
        Move(s, e, Granting(session, g)).(
          grants := s.grants + [Grant(token, e, None)], inFlightGrants := s.inFlightGrants[token := g])
  }

  function ExpireStep(s: State, e: nat): State {
    if e < |s.executions| && s.executions[e].phase.Expiring?
    then Move(s.(store := s.store - {s.executions[e].id}), e, Settled(NoSession))
    else s
  }

  /** The identity provider answers. A refresh token it sends is new; one that rotates always sends one. */
  predicate ResultAllowed(cfg: Config, s: State, result: GrantResult) {
    match result
    case Refused => true
    case Granted(tokens) =>
      match tokens.refresh
      case None => !cfg.idpRotates
      case Some(token) => token !in s.issued
  }

  function GrantEndsStep(cfg: Config, s: State, g: nat, result: GrantResult): State {
    if !(g < |s.grants| && s.grants[g].result.None? && ResultAllowed(cfg, s, result)) then s
    else
      var s' := s.(grants := s.grants[g := s.grants[g].(result := Some(result))]);
      match result
      case Refused => s'
      case Granted(tokens) =>
        var s'' := s'.(redeemed := s.redeemed + [s.grants[g].token]);
        match tokens.refresh
        case None => s''
        case Some(token) =>
          s''.(issued := s.issued + {token}, owner := s.owner[token := HeldBy(s.grants[g].execution)])
  }

  predicate GrantReady(s: State, e: nat) {
    && e < |s.executions| && s.executions[e].phase.Granting?
    && s.executions[e].phase.grant < |s.grants| && s.grants[s.executions[e].phase.grant].result.Some?
  }

  /** Only the caller that started the grant takes it out of the map. */
  function WithoutGrant(s: State, e: nat): map<Token, nat>
    requires GrantReady(s, e)
  {
    var grant := s.grants[s.executions[e].phase.grant];
    if grant.execution == e then s.inFlightGrants - {grant.token} else s.inFlightGrants
  }

  function UseGrantStep(cfg: Config, s: State, e: nat, freshId: Id, freshCsrf: nat): State {
    if !GrantReady(s, e) || freshId in s.usedIds then s
    else
      var session := s.executions[e].phase.session;
      var s' := s.(inFlightGrants := WithoutGrant(s, e));
      match s.grants[s.executions[e].phase.grant].result.value
      case Refused => Move(s', e, Settled(Rejected))
      case Granted(tokens) =>
        var updated := Updated(session, tokens, s.now);
        if cfg.rotateId then
          var rotated := if cfg.csrfEnabled then updated.(csrf := Some(freshCsrf)) else updated;
          Move(s', e, Storing(Some(freshId), Stamped(cfg, rotated, s.now))).(usedIds := s.usedIds + {freshId})
        else Move(s', e, Storing(None, Stamped(cfg, updated, s.now)))
  }

  function Success(target: Id, updated: Session): Phase {
    Settled(Refreshed(target, updated.expiresAt, updated.csrf))
  }

  /** The updated session goes under the new id, and the old one is cleared next, or it stays under its id. */
  function StoreStep(s: State, e: nat): State {
    if !(e < |s.executions| && s.executions[e].phase.Storing?) then s
    else
      var Storing(rotated, updated) := s.executions[e].phase;
      var target := match rotated case Some(id) => id case None => s.executions[e].id;
      var phase := if rotated.Some? then Clearing(target, updated) else Success(target, updated);
      var s' := Move(s.(store := s.store[target := updated]), e, phase);
      match updated.refresh
      case None => s'
      case Some(token) => s'.(owner := s.owner[token := OwnedBy(target)])
  }

  function ClearStep(s: State, e: nat): State {
    if e < |s.executions| && s.executions[e].phase.Clearing? then
      var Clearing(target, updated) := s.executions[e].phase;
      Move(s.(store := s.store - {s.executions[e].id}), e, Success(target, updated))
    else s
  }

  function TidyStep(s: State, e: nat): State {
    if e < |s.executions| && s.executions[e].phase.Settled?
    then s.(flights := Left(s.flights, s.executions[e].id, e))
    else s
  }

  function SetReader(s: State, r: nat, phase: ReaderPhase): State
    requires r < |s.readers|
  {
    s.(readers := s.readers[r := s.readers[r].(phase := phase)])
  }

  function LookEndStep(cfg: Config, s: State, r: nat): State {
    if !(r < |s.readers| && s.readers[r].phase.Found?) then s
    else
      match s.readers[r].phase.snapshot
      case None => SetReader(s, r, Finished)
      case Some(session) =>
        if PastDeadline(cfg, session, s.now) then SetReader(s, r, Deleting)
        else if s.readers[r].byCookie && IdleExpired(cfg, session, s.now) then SetReader(s, r, Finished)
        else SetReader(s, r, Finished).(served := s.served + [Served(session, s.now)])
  }

  function LookFetchStep(s: State, r: nat): State {
    if r < |s.readers| && s.readers[r].phase.Looking? then SetReader(s, r, Found(Lookup(s, s.readers[r].id))) else s
  }

  function LookDeleteStep(s: State, r: nat): State {
    if r < |s.readers| && s.readers[r].phase.Deleting?
    then SetReader(s.(store := s.store - {s.readers[r].id}), r, Finished)
    else s
  }

  /** One step. A step whose turn it is not leaves the state alone. */
  function Apply(cfg: Config, s: State, event: Event): State {
    match event
    case Tick(now) => if s.now <= now then s.(now := now) else s
    case LogIn(id, session) => LogInStep(cfg, s, id, session)
    case Drop(id) => s.(store := s.store - {id})
    case Ask(id) => AskStep(s, id)
    case Fetch(e) => FetchStep(s, e)
    case Proceed(e) => ProceedStep(cfg, s, e)
    case Expire(e) => ExpireStep(s, e)
    case GrantEnds(g, result) => GrantEndsStep(cfg, s, g, result)
    case UseGrant(e, freshId, freshCsrf) => UseGrantStep(cfg, s, e, freshId, freshCsrf)
    case Store(e) => StoreStep(s, e)
    case Clear(e) => ClearStep(s, e)
    case Tidy(e) => TidyStep(s, e)
    case Look(id, byCookie) => s.(readers := s.readers + [Reader(id, byCookie, Looking)])
    case LookFetch(r) => LookFetchStep(s, r)
    case LookEnd(r) => LookEndStep(cfg, s, r)
    case LookDelete(r) => LookDeleteStep(s, r)
  }

  /** The state after a run. Every interleaving of the steps is a sequence of events. */
  function After(cfg: Config, now: int, events: seq<Event>): State {
    if events == [] then Initial(now) else Apply(cfg, After(cfg, now, events[..|events| - 1]), events[|events| - 1])
  }
}
