/** One refresh as the program writes it, and the run of the protocol it is when nothing comes in between. */
module RefreshAlone {
  import opened Basics
  import opened Refresh

  type Store = map<Id, Session>

  /** What `executeSessionRefresh` returns and leaves in the store when no other request interferes. */
  function Refreshing(cfg: Config, store: Store, id: Id, grant: GrantResult, readAt: int, usedAt: int,
                      freshId: Id, freshCsrf: nat): (Outcome, Store) {
    if id !in store then (NoSession, store)
    else if PastDeadline(cfg, store[id], readAt) then (NoSession, store - {id})
    else if store[id].refresh.None? then (NoRefreshToken, store)
    else
      match grant
      case Refused => (Rejected, store)
      case Granted(tokens) =>
        var updated := Updated(store[id], tokens, usedAt);
        if cfg.rotateId then
          var rotated := Stamped(cfg, if cfg.csrfEnabled then updated.(csrf := Some(freshCsrf)) else updated, usedAt);
          (Refreshed(freshId, rotated.expiresAt, rotated.csrf), store[freshId := rotated] - {id})
        else
          var kept := Stamped(cfg, updated, usedAt);
          (Refreshed(id, kept.expiresAt, kept.csrf), store[id := kept])
  }

  /** The session methods of the provider over its store. */
  class SessionProvider {
    const cfg: Config
    var store: Store

    constructor (cfg: Config)
      ensures this.cfg == cfg && store == map[]
    {
      this.cfg := cfg;
      store := map[];
    }

    method StoreSession(id: Id, session: Session, now: int)
      modifies this
      ensures store == old(store)[id := Stamped(cfg, session, now)]
    {
      var toStore := session;
      if cfg.absoluteTtl.Some? && session.createdAt.None? {
        toStore := session.(createdAt := Some(now));
      }
      store := store[id := toStore];
    }

    /** A session past its deadline is reported absent, and is gone for every later read. */
    method GetSession(id: Id, now: int) returns (session: Option<Session>)
      modifies this
      ensures session.Some? ==> id in old(store) && session.value == old(store)[id] && !PastDeadline(cfg, session.value, now)
      ensures session.None? ==> id !in store && (id in old(store) ==> PastDeadline(cfg, old(store)[id], now))
      ensures store == if session.Some? then old(store) else old(store) - {id}
    {
      if id !in store {
        return None;
      }
      var found := store[id];
      if PastDeadline(cfg, found, now) {
        ClearSession(id);
        return None;
      }
      return Some(found);
    }

    method ClearSession(id: Id)
      modifies this
      ensures store == old(store) - {id}
    {
      store := store - {id};
    }

    /** `grant` is what the identity provider answers, should it be asked. */
    method ExecuteSessionRefresh(id: Id, grant: GrantResult, readAt: int, usedAt: int, freshId: Id, freshCsrf: nat)
      returns (outcome: Outcome)
      modifies this
      ensures (outcome, store) == Refreshing(cfg, old(store), id, grant, readAt, usedAt, freshId, freshCsrf)
    {
      var session := GetSession(id, readAt);
      if session.None? {
        assert id !in old(store) ==> old(store) - {id} == old(store);
        return NoSession;
      }
      if session.value.refresh.None? {
        return NoRefreshToken;
      }
      if grant.Refused? {
        return Rejected;
      }
      var updated := Updated(session.value, grant.tokens, usedAt);
      if cfg.rotateId {
        if cfg.csrfEnabled {
          updated := updated.(csrf := Some(freshCsrf));
        }
        StoreSession(freshId, updated, usedAt);
        ClearSession(id);
        return Refreshed(freshId, updated.expiresAt, updated.csrf);
      }
      StoreSession(id, updated, usedAt);
      return Refreshed(id, updated.expiresAt, updated.csrf);
    }
  }

  /** The steps of an execution up to the grant. */
  function Asking(cfg: Config, s: State, e: nat): State {
    Apply(cfg, Apply(cfg, Apply(cfg, s, Fetch(e)), Proceed(e)), Expire(e))
  }

  /** The steps after the answer of the identity provider, if the execution asked it. */
  function Finishing(cfg: Config, s: State, e: nat, g: nat, grant: GrantResult, freshId: Id, freshCsrf: nat): State {
    Apply(cfg, Apply(cfg, Apply(cfg, Apply(cfg, s, GrantEnds(g, grant)), UseGrant(e, freshId, freshCsrf)), Store(e)), Clear(e))
  }

  lemma AskingAlone(cfg: Config, s: State, e: nat)
    requires e < |s.executions| && s.executions[e].phase.Reading? && s.inFlightGrants == map[]
    ensures
      var id, s' := s.executions[e].id, Asking(cfg, s, e);
      && |s'.executions| == |s.executions| && s'.executions[e].id == id
      && s'.issued == s.issued && s'.usedIds == s.usedIds && s'.now == s.now
      && (if id !in s.store then s'.executions[e].phase == Settled(NoSession) && s'.store == s.store && s'.grants == s.grants
          else if PastDeadline(cfg, s.store[id], s.now) then
            s'.executions[e].phase == Settled(NoSession) && s'.store == s.store - {id} && s'.grants == s.grants
          else if s.store[id].refresh.None? then
            s'.executions[e].phase == Settled(NoRefreshToken) && s'.store == s.store && s'.grants == s.grants
          else
            && s'.executions[e].phase == Granting(s.store[id], |s.grants|) && s'.store == s.store
            && s'.grants == s.grants + [Grant(s.store[id].refresh.value, e, None)])
  {
    var s1 := FetchStep(s, e);
    assert s1.executions[e].phase == Fetched(Lookup(s, s.executions[e].id)) && s1.store == s.store;
    var s2 := ProceedStep(cfg, s1, e);
    assert |s2.executions| == |s.executions|;
  }

  lemma FinishingAlone(cfg: Config, s: State, e: nat, session: Session, g: nat, grant: GrantResult,
                       readAt: int, freshId: Id, freshCsrf: nat)
    requires e < |s.executions| && s.executions[e].phase == Granting(session, g)
    requires g < |s.grants| && s.grants[g].result.None?
    requires ResultAllowed(cfg, s, grant) && freshId !in s.usedIds
    requires s.executions[e].id in s.store && s.store[s.executions[e].id] == session && session.refresh.Some?
    requires !PastDeadline(cfg, session, readAt)
    ensures
      var s' := Finishing(cfg, s, e, g, grant, freshId, freshCsrf);
      && |s'.executions| == |s.executions| && s'.executions[e].phase.Settled?
      && (s'.executions[e].phase.outcome, s'.store)
         == Refreshing(cfg, s.store, s.executions[e].id, grant, readAt, s.now, freshId, freshCsrf)
  {
    AnswerAlone(cfg, s, e, session, g, grant, freshId, freshCsrf);
    var s2 := Apply(cfg, Apply(cfg, s, GrantEnds(g, grant)), UseGrant(e, freshId, freshCsrf));
    if grant.Granted? {
      StoringAlone(cfg, s2, e);
    } else {
      assert StoreStep(s2, e) == s2 && ClearStep(s2, e) == s2;
    }
  }

  /** What an execution is about to store when it has its answer. */
  function Pending(cfg: Config, session: Session, tokens: Tokens, now: int, freshId: Id, freshCsrf: nat): Phase {
    var updated := Updated(session, tokens, now);
    if cfg.rotateId
    then Storing(Some(freshId), Stamped(cfg, if cfg.csrfEnabled then updated.(csrf := Some(freshCsrf)) else updated, now))
    else Storing(None, Stamped(cfg, updated, now))
  }

  /** The answer of the identity provider changes its own grant and leaves the execution and the store alone. */
  lemma AnsweredAlone(cfg: Config, s: State, g: nat, grant: GrantResult)
    requires g < |s.grants| && s.grants[g].result.None? && ResultAllowed(cfg, s, grant)
    ensures
      var s' := GrantEndsStep(cfg, s, g, grant);
      && s'.executions == s.executions && s'.store == s.store && s'.now == s.now && s'.usedIds == s.usedIds
      && |s'.grants| == |s.grants| && s'.grants[g].result == Some(grant)
  {}

  lemma UsedAlone(cfg: Config, s: State, e: nat, session: Session, g: nat, grant: GrantResult, freshId: Id, freshCsrf: nat)
    requires e < |s.executions| && s.executions[e].phase == Granting(session, g)
    requires g < |s.grants| && s.grants[g].result == Some(grant) && freshId !in s.usedIds
    ensures
      var s' := UseGrantStep(cfg, s, e, freshId, freshCsrf);
      && |s'.executions| == |s.executions| && s'.executions[e].id == s.executions[e].id && s'.store == s.store
      && s'.executions[e].phase
         == match grant
            case Refused => Settled(Rejected)
            case Granted(tokens) => Pending(cfg, session, tokens, s.now, freshId, freshCsrf)
  {}

  lemma AnswerAlone(cfg: Config, s: State, e: nat, session: Session, g: nat, grant: GrantResult, freshId: Id, freshCsrf: nat)
    requires e < |s.executions| && s.executions[e].phase == Granting(session, g)
    requires g < |s.grants| && s.grants[g].result.None?
    requires ResultAllowed(cfg, s, grant) && freshId !in s.usedIds
    ensures
      var s' := Apply(cfg, Apply(cfg, s, GrantEnds(g, grant)), UseGrant(e, freshId, freshCsrf));
      && |s'.executions| == |s.executions| && s'.executions[e].id == s.executions[e].id && s'.store == s.store
      && s'.executions[e].phase
         == match grant
            case Refused => Settled(Rejected)
            case Granted(tokens) => Pending(cfg, session, tokens, s.now, freshId, freshCsrf)
  {
    var s1 := Apply(cfg, s, GrantEnds(g, grant));
    AnsweredAlone(cfg, s, g, grant);
    UsedAlone(cfg, s1, e, session, g, grant, freshId, freshCsrf);
  }

  lemma StoredAlone(s: State, e: nat)
    requires e < |s.executions| && s.executions[e].phase.Storing?
    ensures
      var Storing(rotated, updated) := s.executions[e].phase;
      var target := if rotated.Some? then rotated.value else s.executions[e].id;
      var s' := StoreStep(s, e);
      && |s'.executions| == |s.executions| && s'.executions[e].id == s.executions[e].id
      && s'.executions[e].phase == (if rotated.Some? then Clearing(target, updated) else Success(target, updated))
      && s'.store == s.store[target := updated]
  {}

  lemma ClearedAlone(s: State, e: nat)
    requires e < |s.executions|
    ensures
      var execution, s' := s.executions[e], ClearStep(s, e);
      if execution.phase.Clearing? then
        && |s'.executions| == |s.executions| && s'.store == s.store - {execution.id}
        && s'.executions[e].phase == Success(execution.phase.target, execution.phase.updated)
      else s' == s
  {}

  /** Storing, and clearing the old entry after a rotation. */
  lemma StoringAlone(cfg: Config, s: State, e: nat)
    requires e < |s.executions| && s.executions[e].phase.Storing?
    ensures
      var Storing(rotated, updated) := s.executions[e].phase;
      var id := s.executions[e].id;
      var s' := Apply(cfg, Apply(cfg, s, Store(e)), Clear(e));
      && |s'.executions| == |s.executions|
      && s'.executions[e].phase == Success(if rotated.Some? then rotated.value else id, updated)
      && s'.store == if rotated.Some? then s.store[rotated.value := updated] - {id} else s.store[id := updated]
  {
    StoredAlone(s, e);
    ClearedAlone(Apply(cfg, s, Store(e)), e);
  }

  lemma SettledStays(cfg: Config, s: State, e: nat, g: nat, grant: GrantResult, freshId: Id, freshCsrf: nat)
    requires e < |s.executions| && s.executions[e].phase.Settled? && g >= |s.grants|
    ensures Finishing(cfg, s, e, g, grant, freshId, freshCsrf) == s
  {
  }

  /** Left alone, the steps of an execution give the outcome and the store of the program text. */
  lemma UndisturbedRefresh(cfg: Config, s: State, e: nat, grant: GrantResult, usedAt: int, freshId: Id, freshCsrf: nat)
    requires e < |s.executions| && s.executions[e].phase.Reading? && s.inFlightGrants == map[]
    requires ResultAllowed(cfg, s, grant) && freshId !in s.usedIds && s.now <= usedAt
    ensures
      var s' := Finishing(cfg, Apply(cfg, Asking(cfg, s, e), Tick(usedAt)), e, |s.grants|, grant, freshId, freshCsrf);
      && |s'.executions| == |s.executions| && s'.executions[e].phase.Settled?
      && (s'.executions[e].phase.outcome, s'.store)
         == Refreshing(cfg, s.store, s.executions[e].id, grant, s.now, usedAt, freshId, freshCsrf)
  {
    AskingAlone(cfg, s, e);
    var asked := Apply(cfg, Asking(cfg, s, e), Tick(usedAt));
    assert asked == Asking(cfg, s, e).(now := usedAt);
    var id := s.executions[e].id;
    if asked.executions[e].phase.Settled? {
      SettledStays(cfg, asked, e, |s.grants|, grant, freshId, freshCsrf);
    } else {
      FinishingAlone(cfg, asked, e, s.store[id], |s.grants|, grant, s.now, freshId, freshCsrf);
    }
  }
}
