/** Which introspection calls are answered, by audiences and expiry themselves. */
module IntrospectionAnswers {
  import opened Basics
  import opened Introspection
  import opened IntrospectionLaws

  predicate Names(audience: Audience, name: string) {
    match audience
    case NoAudience => false
    case OneAudience(value) => name == value
    case ManyAudiences(values) => name in values
  }

  /** Nothing is configured, or a configured name is among those of the response. */
  ghost predicate MeetsAudience(configured: Audience, actual: Audience) {
    || configured == NoAudience || configured == OneAudience("") || configured == ManyAudiences([])
    || exists name :: Names(configured, name) && Names(actual, name)
  }

  /** Not expired in the whole second of a reading in milliseconds. */
  ghost predicate Unexpired(exp: Option<real>, now: int) {
    exp.Some? ==> forall second: int | 1000 * second <= now :: exp.value > second as real
  }

  lemma AudienceMeans(configured: Audience, actual: Audience)
    ensures (HasAudience(configured) ==> MatchesAudience(configured, actual)) <==> MeetsAudience(configured, actual)
  {
    var wanted := Wanted(configured);
    if MatchesAudience(configured, actual) {
      var i :| 0 <= i < |wanted| && wanted[i] in Wanted(actual);
      assert Names(configured, wanted[i]) && Names(actual, wanted[i]);
    }
    if name :| Names(configured, name) && Names(actual, name) {
      var i :| 0 <= i < |wanted| && wanted[i] == name;
      assert wanted[i] in Wanted(actual);
    }
  }

  lemma UnexpiredMeans(exp: Option<real>, now: int)
    ensures (exp.Some? ==> exp.value > Seconds(now) as real) <==> Unexpired(exp, now)
  {
    assert 1000 * Seconds(now) <= now;
  }

  lemma UsableMeans(claims: Claims, config: Config, now: int)
    ensures IsUsable(claims, config, now) <==> MeetsAudience(config.audience, claims.aud) && Unexpired(claims.exp, now)
  {
    AudienceMeans(config.audience, claims.aud);
    UnexpiredMeans(claims.exp, now);
  }

  /** Which calls get an answer, and which: a fresh response must be usable at both readings, a cached one at the last. */
  lemma AnsweredExactly(maxSize: int, ops: seq<Op>, op: Op, claims: Claims)
    requires !op.Shutdown?
    ensures Answer(maxSize, ops, op) == Some(claims) <==>
      && MeetsAudience(op.config.audience, claims.aud) && Unexpired(claims.exp, CheckedAt(op))
      && if op.Respond? then claims == op.claims && claims.active && Unexpired(claims.exp, op.readings.usable)
         else Hit(AfterOps(maxSize, ops), CacheKey(op.token, op.config), op.looked) == Some(claims)
  {
    UsableMeans(claims, op.config, CheckedAt(op));
    if op.Respond? { UsableMeans(claims, op.config, op.readings.usable); }
  }
}
