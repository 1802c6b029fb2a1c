/** What concurrent calls for one tenant and refresh token get, in every run of calls, answers and returns. */
module CoalescingLaws {
  import opened Basics
  import opened Coalescing

  // ---------------------------------------------------------------- the invariant

  /** The call that started the grant has returned. */
  ghost predicate Closed(grants: seq<Grant>, calls: seq<Call>, g: nat)
    requires g < |grants|
  {
    var c := grants[g].starter;
    c < |calls| && calls[c].Waiting? && calls[c].returned.Some?
  }

  ghost predicate CallOk(call: Call, grants: seq<Grant>) {
    call.Waiting? ==>
      && call.grant < |grants| && grants[call.grant].key == call.key
      && (call.returned.Some? ==> call.returned == grants[call.grant].result)
  }

  /** The starter of a grant waits for it, and the grant is registered until the starter returns. */
  ghost predicate GrantOk(grant: Grant, g: nat, grants: seq<Grant>, inFlight: InFlight, calls: seq<Call>)
    requires g < |grants|
  {
    && grant.starter < |calls| && calls[grant.starter].Waiting? && calls[grant.starter].grant == g
    && (!Closed(grants, calls, g) ==> grant.key in inFlight && inFlight[grant.key] == g)
  }

  ghost predicate EntryOk(key: Key, g: nat, grants: seq<Grant>, calls: seq<Call>) {
    g < |grants| && grants[g].key == key && !Closed(grants, calls, g)
  }

  ghost predicate Holds(s: State) {
    && (forall c | 0 <= c < |s.calls| :: CallOk(s.calls[c], s.grants))
    && (forall g: nat | g < |s.grants| :: GrantOk(s.grants[g], g, s.grants, s.inFlight, s.calls))
    && (forall key | key in s.inFlight :: EntryOk(key, s.inFlight[key], s.grants, s.calls))
  }

  lemma BeginKeeps(s: State, tenant: Tenant, token: string)
    requires Holds(s)
    ensures Holds(BeginStep(s, tenant, token))
  {
    var s' := BeginStep(s, tenant, token);
    forall c | 0 <= c < |s'.calls| ensures CallOk(s'.calls[c], s'.grants) {
      if c < |s.calls| {
        assert CallOk(s.calls[c], s.grants);
      } else if s'.calls[c].Waiting? && s'.calls[c].key in s.inFlight {
        assert EntryOk(s'.calls[c].key, s'.calls[c].grant, s.grants, s.calls);
      }
    }
    forall g: nat | g < |s'.grants| ensures GrantOk(s'.grants[g], g, s'.grants, s'.inFlight, s'.calls) {
      if g < |s.grants| { assert GrantOk(s.grants[g], g, s.grants, s.inFlight, s.calls); }
    }
    forall key | key in s'.inFlight ensures EntryOk(key, s'.inFlight[key], s'.grants, s'.calls) {
      if key in s.inFlight {
        assert EntryOk(key, s.inFlight[key], s.grants, s.calls);
        assert GrantOk(s.grants[s.inFlight[key]], s.inFlight[key], s.grants, s.inFlight, s.calls);
      }
    }
  }

  lemma AnswerKeeps(s: State, g: nat, result: Result)
    requires Holds(s)
    ensures Holds(AnswerStep(s, g, result))
  {
    var s' := AnswerStep(s, g, result);
    forall c | 0 <= c < |s'.calls| ensures CallOk(s'.calls[c], s'.grants) { assert CallOk(s.calls[c], s.grants); }
    forall k: nat | k < |s'.grants| ensures GrantOk(s'.grants[k], k, s'.grants, s'.inFlight, s'.calls) {
      assert GrantOk(s.grants[k], k, s.grants, s.inFlight, s.calls);
    }
    forall key | key in s'.inFlight ensures EntryOk(key, s'.inFlight[key], s'.grants, s'.calls) {
      assert EntryOk(key, s.inFlight[key], s.grants, s.calls);
    }
  }

  /** The entry that a starter removes without looking is its own: nobody else's call loses its grant. */
  lemma OwnEntry(s: State, c: nat)
    requires Holds(s) && CanReturn(s, c) && s.grants[s.calls[c].grant].starter == c
    ensures s.calls[c].key in s.inFlight && s.inFlight[s.calls[c].key] == s.calls[c].grant
  {
    var g := s.calls[c].grant;
    assert CallOk(s.calls[c], s.grants) && GrantOk(s.grants[g], g, s.grants, s.inFlight, s.calls);
  }

  lemma ReturnKeeps(s: State, c: nat)
    requires Holds(s)
    ensures Holds(ReturnStep(s, c))
  {
    if CanReturn(s, c) {
      var s', g := ReturnStep(s, c), s.calls[c].grant;
      assert CallOk(s.calls[c], s.grants);
      if s.grants[g].starter == c { OwnEntry(s, c); }
      forall k | 0 <= k < |s'.calls| ensures CallOk(s'.calls[k], s'.grants) { assert CallOk(s.calls[k], s.grants); }
      forall k: nat | k < |s'.grants| ensures GrantOk(s'.grants[k], k, s'.grants, s'.inFlight, s'.calls) {
        assert GrantOk(s.grants[k], k, s.grants, s.inFlight, s.calls);
      }
      forall key | key in s'.inFlight ensures EntryOk(key, s'.inFlight[key], s'.grants, s'.calls) {
        assert EntryOk(key, s.inFlight[key], s.grants, s.calls);
        assert GrantOk(s.grants[s.inFlight[key]], s.inFlight[key], s.grants, s.inFlight, s.calls);
      }
    }
  }

  lemma StepKeeps(s: State, event: Event)
    requires Holds(s)
    ensures Holds(Apply(s, event))
  {
    match event
    case Begin(tenant, token) => BeginKeeps(s, tenant, token);
    case Answer(g, result) => AnswerKeeps(s, g, result);
    case Return(c) => ReturnKeeps(s, c);
  }

  lemma {:induction false} RunKeeps(events: seq<Event>)
    ensures Holds(After(events))
  {
    if events != [] {
      RunKeeps(events[..|events| - 1]);
      StepKeeps(After(events[..|events| - 1]), events[|events| - 1]);
    }
  }

  // ---------------------------------------------------------------- how a run goes on

  /** Calls and grants are only added; a call keeps its grant, and a result, once there, stays. */
  ghost predicate Continues(s: State, s': State) {
    && |s.calls| <= |s'.calls| && |s.grants| <= |s'.grants|
    && (forall c | 0 <= c < |s.calls| ::
          if s.calls[c].Waiting? && s.calls[c].returned.None?
          then s'.calls[c].Waiting? && s'.calls[c].key == s.calls[c].key && s'.calls[c].grant == s.calls[c].grant
          else s'.calls[c] == s.calls[c])
    && (forall g | 0 <= g < |s.grants| ::
          && s'.grants[g].key == s.grants[g].key && s'.grants[g].starter == s.grants[g].starter
          && (s.grants[g].result.Some? ==> s'.grants[g] == s.grants[g]))
  }

  lemma StepContinues(s: State, event: Event)
    ensures Continues(s, Apply(s, event))
  {}

  lemma ContinuesOn(s: State, s': State, s'': State)
    requires Continues(s, s') && Continues(s', s'')
    ensures Continues(s, s'')
  {}

  lemma LastOfRun(events: seq<Event>, more: seq<Event>)
    requires more != []
    ensures After(events + more) == Apply(After(events + more[..|more| - 1]), more[|more| - 1])
  {
    assert (events + more)[..|events + more| - 1] == events + more[..|more| - 1];
  }

  lemma {:induction false} RunContinues(events: seq<Event>, more: seq<Event>)
    ensures Continues(After(events), After(events + more))
  {
    if more == [] {
      assert events + more == events;
    } else {
      var front, last := more[..|more| - 1], more[|more| - 1];
      RunContinues(events, front);
      LastOfRun(events, more);
      StepContinues(After(events + front), last);
      ContinuesOn(After(events), After(events + front), After(events + more));
    }
  }

  // ---------------------------------------------------------------- main results

  /** Of the grants for one tenant and token, at most one has a starter that has not returned; so at most one is unanswered. */
  lemma OneOpenGrantPerKey(events: seq<Event>, g1: nat, g2: nat)
    requires
      var s := After(events);
      && g1 < |s.grants| && g2 < |s.grants| && s.grants[g1].key == s.grants[g2].key
      && !Closed(s.grants, s.calls, g1) && !Closed(s.grants, s.calls, g2)
    ensures g1 == g2
  {
    RunKeeps(events);
    var s := After(events);
    assert GrantOk(s.grants[g1], g1, s.grants, s.inFlight, s.calls);
    assert GrantOk(s.grants[g2], g2, s.grants, s.inFlight, s.calls);
  }

  lemma UnansweredIsOpen(events: seq<Event>, g: nat)
    requires g < |After(events).grants| && After(events).grants[g].result.None?
    ensures !Closed(After(events).grants, After(events).calls, g)
  {
    RunKeeps(events);
    var s := After(events);
    assert GrantOk(s.grants[g], g, s.grants, s.inFlight, s.calls);
    assert CallOk(s.calls[s.grants[g].starter], s.grants);
  }

  /**
   * A call that comes while the starter of a grant for its tenant and token has not returned sends no grant. It waits for
   * that one, and at any later time, if both it and any other call that waits for this grant have returned, they have
   * returned the same result, be it tokens or a rejection.
   */
  lemma ConcurrentCallsShare(events: seq<Event>, g: nat, tenant: Tenant, token: string, more: seq<Event>, c: nat)
    requires
      var s := After(events);
      && g < |s.grants| && !Closed(s.grants, s.calls, g) && KeyOf(tenant, token) == Some(s.grants[g].key)
    requires
      var s' := After(events + [Begin(tenant, token)] + more);
      c < |s'.calls| && s'.calls[c].Waiting? && s'.calls[c].grant == g
    ensures
      var s, s' := After(events), After(events + [Begin(tenant, token)] + more);
      var joined := |s.calls|;
      && After(events + [Begin(tenant, token)]).grants == s.grants
      && joined < |s'.calls| && s'.calls[joined].Waiting? && s'.calls[joined].grant == g && g < |s'.grants|
      && s'.calls[joined].key == s'.calls[c].key
      && (s'.calls[joined].returned.Some? && s'.calls[c].returned.Some? ==>
            s'.calls[joined].returned == s'.calls[c].returned == s'.grants[g].result)
  {
    RunKeeps(events);
    var s, asked := After(events), events + [Begin(tenant, token)];
    assert GrantOk(s.grants[g], g, s.grants, s.inFlight, s.calls);
    assert asked[..|events|] == events;
    RunContinues(asked, more);
    RunKeeps(asked + more);
    var s' := After(asked + more);
    assert CallOk(s'.calls[|s.calls|], s'.grants) && CallOk(s'.calls[c], s'.grants);
  }

  /** A call sends a grant of its own if and only if every earlier grant for its tenant and token has been returned by its starter. */
  lemma StartsWhenClosed(events: seq<Event>, tenant: Tenant, token: string)
    requires KeyOf(tenant, token).Some?
    ensures
      var s, s', key := After(events), After(events + [Begin(tenant, token)]), KeyOf(tenant, token).value;
      && (s'.grants == s.grants + [Grant(key, |s.calls|, None)]
          <==> forall g: nat | g < |s.grants| && s.grants[g].key == key :: Closed(s.grants, s.calls, g))
      && (s'.grants == s.grants || s'.grants == s.grants + [Grant(key, |s.calls|, None)])
  {
    RunKeeps(events);
    var s, key := After(events), KeyOf(tenant, token).value;
    assert (events + [Begin(tenant, token)])[..|events|] == events;
    if key in s.inFlight {
      assert EntryOk(key, s.inFlight[key], s.grants, s.calls);
    } else {
      forall g: nat | g < |s.grants| && s.grants[g].key == key ensures Closed(s.grants, s.calls, g) {
        assert GrantOk(s.grants[g], g, s.grants, s.inFlight, s.calls);
      }
    }
  }

  /**
   * An entry of the map goes away only when the call that started its grant returns, and then it is gone, whether the grant
   * was fulfilled or rejected. No step puts another grant in its place.
   */
  lemma OnlyStarterRemoves(events: seq<Event>, event: Event, key: Key)
    requires key in After(events).inFlight
    ensures
      var s, s' := After(events), After(events + [event]);
      var g := s.inFlight[key];
      && g < |s.grants|
      && if event.Return? && event.c == s.grants[g].starter && CanReturn(s, event.c)
         then key !in s'.inFlight && s'.calls[event.c].returned == s.grants[g].result
         else key in s'.inFlight && s'.inFlight[key] == g
  {
    RunKeeps(events);
    var s := After(events);
    var g := s.inFlight[key];
    assert EntryOk(key, g, s.grants, s.calls);
    assert GrantOk(s.grants[g], g, s.grants, s.inFlight, s.calls);
    assert (events + [event])[..|events|] == events;
    if event.Return? && CanReturn(s, event.c) {
      assert CallOk(s.calls[event.c], s.grants);
      if s.grants[s.calls[event.c].grant].starter == event.c { OwnEntry(s, event.c); }
    }
  }

  /** The run in which a second call joins a grant before its rejection and a third one after it, and a fourth starts anew. */
  function Meeting(tenant: Tenant, token: string, reason: nat): seq<Event> {
    var call := Begin(tenant, token);
    [call, call, Answer(0, Rejected(reason)), call, Return(1), Return(0), Return(2), call]
  }

  /** Calls do meet: three of them get the one rejection, and the next one sends a new grant. */
  lemma CallsDoMeet(tenant: Tenant, token: string, reason: nat)
    requires KeyOf(tenant, token).Some?
    ensures
      var s, key := After(Meeting(tenant, token, reason)), KeyOf(tenant, token).value;
      var failed := Waiting(key, 0, Some(Rejected(reason)));
      && s.calls == [failed, failed, failed, Waiting(key, 1, None)]
      && s.grants == [Grant(key, 0, Some(Rejected(reason))), Grant(key, 3, None)] && s.inFlight == map[key := 1]
  {
    var run := Meeting(tenant, token, reason);
    MeetingJoins(tenant, token, reason);
    MeetingReturns(tenant, token, reason);
    Prefix(run, 7);
    assert run[..8] == run;
  }

  lemma MeetingJoins(tenant: Tenant, token: string, reason: nat)
    requires KeyOf(tenant, token).Some?
    ensures
      var key := KeyOf(tenant, token).value;
      var waiting := Waiting(key, 0, None);
      After(Meeting(tenant, token, reason)[..4])
      == State([Grant(key, 0, Some(Rejected(reason)))], map[key := 0], [waiting, waiting, waiting])
  {
    var run, key := Meeting(tenant, token, reason), KeyOf(tenant, token).value;
    var open, waiting := Grant(key, 0, None), Waiting(key, 0, None);
    assert run[..0] == [];
    Prefix(run, 0);
    assert After(run[..1]) == State([open], map[key := 0], [waiting]);
    Prefix(run, 1);
    assert After(run[..2]) == State([open], map[key := 0], [waiting, waiting]);
    Prefix(run, 2);
    Prefix(run, 3);
  }

  lemma MeetingReturns(tenant: Tenant, token: string, reason: nat)
    requires KeyOf(tenant, token).Some?
    ensures
      var key := KeyOf(tenant, token).value;
      var failed := Waiting(key, 0, Some(Rejected(reason)));
      After(Meeting(tenant, token, reason)[..7])
      == State([Grant(key, 0, Some(Rejected(reason)))], map[], [failed, failed, failed])
  {
    var run, key := Meeting(tenant, token, reason), KeyOf(tenant, token).value;
    var over, waiting, failed := Grant(key, 0, Some(Rejected(reason))), Waiting(key, 0, None), Waiting(key, 0, Some(Rejected(reason)));
    MeetingJoins(tenant, token, reason);
    Prefix(run, 4);
    assert After(run[..5]) == State([over], map[key := 0], [waiting, failed, waiting]);
    Prefix(run, 5);
    assert map[key := 0] - {key} == map[];
    assert After(run[..6]) == State([over], map[], [failed, failed, waiting]);
    Prefix(run, 6);
  }

  lemma Prefix(run: seq<Event>, n: nat)
    requires n < |run|
    ensures After(run[..n + 1]) == Apply(After(run[..n]), run[n])
  {
    assert run[..n + 1][..n] == run[..n];
  }
}
