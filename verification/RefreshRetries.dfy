/** A refresh token is presented again only after the program saw its earlier grant fail. */
module RefreshRetries {
  import opened Basics
  import opened Refresh
  import opened RefreshLaws
  import opened RefreshGrants
  import opened RefreshTokens

  /** What was granted is redeemed, and of two grants for one token the earlier one failed. */
  ghost predicate RetriesHold(grants: seq<Grant>, redeemed: seq<Token>) {
    && (forall g | 0 <= g < |grants| :: IsGranted(grants[g]) ==> grants[g].token in redeemed)
    && (forall g1, g2 | 0 <= g1 < g2 < |grants| && grants[g1].token == grants[g2].token ::
          grants[g1].result == Some(Refused))
  }

  predicate IsGranted(grant: Grant) { grant.result.Some? && grant.result.value.Granted? }

  /** Every earlier grant for a token that an execution has just read has failed. */
  lemma EarlierFailed(s: State, e: nat, session: Session, token: Token, g: nat)
    requires TokensHold(s) && RetriesHold(s.grants, s.redeemed)
    requires e < |s.executions| && s.executions[e].phase == Fetched(Some(session)) && session.refresh == Some(token)
    requires g < |s.grants| && s.grants[g].token == token
    ensures s.grants[g].result == Some(Refused)
  {
    assert PhaseHolds(s.executions[e].phase, s.executions[e].id, e, s.grants, s.owner, s.redeemed);
    assert Unsettled(s, e);
    if s.grants[g].result.None? {
      GrantedOnce(s, g);
    }
  }

  lemma AppendKeepsRetries(grants: seq<Grant>, redeemed: seq<Token>, grant: Grant)
    requires RetriesHold(grants, redeemed) && grant.result.None?
    requires forall g | 0 <= g < |grants| && grants[g].token == grant.token :: grants[g].result == Some(Refused)
    ensures RetriesHold(grants + [grant], redeemed)
  {}

  lemma AnswerKeepsRetries(grants: seq<Grant>, redeemed: seq<Token>, redeemed': seq<Token>, g: nat, result: GrantResult)
    requires RetriesHold(grants, redeemed) && g < |grants| && grants[g].result.None?
    requires redeemed <= redeemed' && (result.Granted? ==> grants[g].token in redeemed')
    ensures RetriesHold(grants[g := grants[g].(result := Some(result))], redeemed')
  {
    var grants' := grants[g := grants[g].(result := Some(result))];
    forall k | 0 <= k < |grants'| && IsGranted(grants'[k]) ensures grants'[k].token in redeemed' {
      if k != g { assert IsGranted(grants[k]); }
    }
  }

  /** Proceeding appends at most one grant, for the token that was read. */
  lemma ProceedAppends(cfg: Config, s: State, e: nat)
    ensures
      var s' := ProceedStep(cfg, s, e);
      && s'.redeemed == s.redeemed
      && (|| s'.grants == s.grants
          || (&& e < |s.executions| && s.executions[e].phase.Fetched? && s.executions[e].phase.snapshot.Some?
              && s.executions[e].phase.snapshot.value.refresh.Some?
              && s'.grants == s.grants + [Grant(s.executions[e].phase.snapshot.value.refresh.value, e, None)]))
  {}

  lemma ProceedKeepsRetries(cfg: Config, s: State, e: nat)
    requires TokensHold(s) && RetriesHold(s.grants, s.redeemed)
    ensures var s' := ProceedStep(cfg, s, e); RetriesHold(s'.grants, s'.redeemed)
  {
    ProceedAppends(cfg, s, e);
    if ProceedStep(cfg, s, e).grants != s.grants {
      var session := s.executions[e].phase.snapshot.value;
      var token := session.refresh.value;
      forall g | 0 <= g < |s.grants| && s.grants[g].token == token ensures s.grants[g].result == Some(Refused) {
        EarlierFailed(s, e, session, token, g);
      }
      AppendKeepsRetries(s.grants, s.redeemed, Grant(token, e, None));
    }
  }

  lemma GrantEndsKeepsRetries(cfg: Config, s: State, g: nat, result: GrantResult)
    requires RetriesHold(s.grants, s.redeemed)
    ensures var s' := GrantEndsStep(cfg, s, g, result); RetriesHold(s'.grants, s'.redeemed)
  {
    var s' := GrantEndsStep(cfg, s, g, result);
    if g < |s.grants| && s.grants[g].result.None? && ResultAllowed(cfg, s, result) {
      assert result.Granted? ==> s'.redeemed == s.redeemed + [s.grants[g].token];
      AnswerKeepsRetries(s.grants, s.redeemed, s'.redeemed, g, result);
    }
  }

  lemma StepKeepsRetries(cfg: Config, s: State, event: Event)
    requires TokensHold(s) && RetriesHold(s.grants, s.redeemed)
    ensures RetriesHold(Apply(cfg, s, event).grants, Apply(cfg, s, event).redeemed)
  {
    match event
    case Proceed(e) => ProceedKeepsRetries(cfg, s, e);
    case GrantEnds(g, result) => GrantEndsKeepsRetries(cfg, s, g, result);
    case UseGrant(e, freshId, freshCsrf) => assert UseGrantStep(cfg, s, e, freshId, freshCsrf).grants == s.grants;
    case _ =>
      StepSameGrants(cfg, s, event);
      StepKeepsHistory(cfg, s, event);
  }

  lemma {:induction false} RunKeepsRetries(cfg: Config, now: int, events: seq<Event>)
    requires cfg.idpRotates
    ensures RetriesHold(After(cfg, now, events).grants, After(cfg, now, events).redeemed)
  {
    if events != [] {
      var front := events[..|events| - 1];
      RunKeepsRetries(cfg, now, front);
      RunKeepsTokens(cfg, now, front);
      StepKeepsRetries(cfg, After(cfg, now, front), events[|events| - 1]);
    }
  }

  /**
   * When two grants carry the same refresh token, the program has seen the earlier one fail before it started the later
   * one. This holds whatever the provider did with a token whose answer was lost: the failure is all that is used.
   */
  lemma RetryFollowsFailure(cfg: Config, now: int, events: seq<Event>, g1: nat, g2: nat)
    requires cfg.idpRotates
    requires g1 < g2 < |After(cfg, now, events).grants|
    requires After(cfg, now, events).grants[g1].token == After(cfg, now, events).grants[g2].token
    ensures After(cfg, now, events).grants[g1].result == Some(Refused)
  {
    RunKeepsRetries(cfg, now, events);
  }
}
