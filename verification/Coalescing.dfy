/**
 * The refresh grant as a public call: concurrent calls for one tenant and refresh token share one grant.
 * A run is any sequence of calls, answers of the identity provider and returns of the calls.
 */
module Coalescing {
  import opened Basics

  /** `issuerUrl` and `clientId` of the resolved configuration. An empty one counts as missing. */
  datatype Tenant = Tenant(issuer: Option<string>, client: Option<string>)

  datatype Key = Key(issuer: string, client: string, token: string)

  function KeyOf(tenant: Tenant, token: string): Option<Key> {
    match (tenant.issuer, tenant.client)
    case (Some(issuer), Some(client)) => if issuer == "" || client == "" then None else Some(Key(issuer, client, token))
    case _ => None
  }

  type InFlight = map<Key, nat>

  function Entered(inFlight: InFlight, key: Key, next: nat): InFlight {
    if key in inFlight then inFlight else inFlight[key := next]
  }

  /** The map of the provider. Grants are told apart by number, as promises are by identity. */
  class GrantRegistry {
    var inFlight: InFlight

    constructor ()
      ensures inFlight == map[]
    {
      inFlight := map[];
    }

    /** The grant to wait for: the running one, or `next`, which is then registered. */
    method Enter(key: Key, next: nat) returns (grant: nat, started: bool)
      modifies this
      ensures inFlight == Entered(old(inFlight), key, next)
      ensures started == (key !in old(inFlight))
      ensures key in inFlight && grant == inFlight[key]
    {
      if key in inFlight {
        return inFlight[key], false;
      }
      inFlight := inFlight[key := next];
      return next, true;
    }

    /** The `finally` of the call that started the grant. It removes the entry without looking at it. */
    method Leave(key: Key)
      modifies this
      ensures inFlight == old(inFlight) - {key}
    {
      inFlight := inFlight - {key};
    }
  }

  // ---------------------------------------------------------------- all calls together

  datatype Result = Fulfilled(tokens: nat) | Rejected(reason: nat)

  /** A grant sent to the identity provider by the call `starter`. */
  datatype Grant = Grant(key: Key, starter: nat, result: Option<Result>)

  datatype Call = Misconfigured | Waiting(key: Key, grant: nat, returned: Option<Result>)

  datatype State = State(grants: seq<Grant>, inFlight: InFlight, calls: seq<Call>)

  const START: State := State([], map[], [])

  datatype Event = Begin(tenant: Tenant, token: string) | Answer(g: nat, result: Result) | Return(c: nat)

  function BeginStep(s: State, tenant: Tenant, token: string): State {
    match KeyOf(tenant, token)
    case None => s.(calls := s.calls + [Misconfigured])
    case Some(key) =>
      var next := |s.grants|;
      var inFlight := Entered(s.inFlight, key, next);
      var s' := s.(inFlight := inFlight, calls := s.calls + [Waiting(key, inFlight[key], None)]);
      if key in s.inFlight then s' else s'.(grants := s.grants + [Grant(key, |s.calls|, None)])
  }

  function AnswerStep(s: State, g: nat, result: Result): State {
    if g < |s.grants| && s.grants[g].result.None?
    then s.(grants := s.grants[g := s.grants[g].(result := Some(result))])
    else s
  }

  predicate CanReturn(s: State, c: nat) {
    && c < |s.calls| && s.calls[c].Waiting? && s.calls[c].returned.None?
    && s.calls[c].grant < |s.grants| && s.grants[s.calls[c].grant].result.Some?
  }

  /** A call gets the result of its grant. The one that started the grant takes the entry out of the map first. */
  function ReturnStep(s: State, c: nat): State {
    if !CanReturn(s, c) then s
    else
      var call := s.calls[c];
      var grant := s.grants[call.grant];
      State(s.grants, if grant.starter == c then s.inFlight - {call.key} else s.inFlight,
            s.calls[c := call.(returned := grant.result)])
  }

  function Apply(s: State, event: Event): State {
    match event
    case Begin(tenant, token) => BeginStep(s, tenant, token)
    case Answer(g, result) => AnswerStep(s, g, result)
    case Return(c) => ReturnStep(s, c)
  }

  /** The state after a run. */
  function After(events: seq<Event>): State {
    if events == [] then START else Apply(After(events[..|events| - 1]), events[|events| - 1])
  }
}
