/** The budgeted, cached and filtered search against the exhaustive one, over any use of a session. */
module SuggestionLaws {
  import opened Basics
  import opened Text
  import opened Suggestions

  /** The lowercase form has the same length, and a distance is at least the difference of the lengths. */
  ghost predicate HostIsSound(host: Host) {
    && (forall s :: |host.lower(s)| == |s|)
    && (forall a, b :: host.distance(a, b) >= |a| - |b| && host.distance(a, b) >= |b| - |a|)
  }

  // ---------------------------------------------------------------- the filter

  ghost predicate Normalized(host: Host, prepared: seq<Candidate>) {
    Distinct(prepared) && forall c <- prepared :: c.normalized == host.lower(c.registered)
  }

  /** The length filter drops no candidate that could be suggested and none that could tie. */
  lemma FilterLosesNothing(host: Host, input: Utf16, prepared: seq<Candidate>)
    requires HostIsSound(host) && Normalized(host, prepared)
    ensures Nearest(host, host.lower(input), |input|, Relevant(|input|, prepared))
         == Nearest(host, host.lower(input), |input|, prepared)
  {
    var key, relevant := host.lower(input), Relevant(|input|, prepared);
    RelevantIs(|input|, prepared);
    forall c <- prepared | IsNear(host, key, |input|, c) ensures c in relevant {
      assert host.distance(key, c.normalized) >= |key| - |c.normalized|;
      assert host.distance(key, c.normalized) >= |c.normalized| - |key|;
    }
    forall best
      ensures IsUniqueBest(host, key, |input|, relevant, best) <==> IsUniqueBest(host, key, |input|, prepared, best)
    {
    }
    if best :| IsUniqueBest(host, key, |input|, prepared, best) {
      NearestIs(host, key, |input|, prepared, best);
      NearestIs(host, key, |input|, relevant, best);
    }
  }

  // ---------------------------------------------------------------- runs

  /** One session: the candidates of its matchers, their caches, and the work done so far. */
  datatype State = State(usage: Usage, caches: seq<Cache>)

  datatype Query = Query(matcher: nat, input: Utf16)

  ghost function Start(scopes: seq<seq<Candidate>>): State {
    State(Usage(0, 0), seq(|scopes|, _ => map[]))
  }

  ghost function Apply(host: Host, limits: Limits, scopes: seq<seq<Candidate>>, s: State, query: Query): State
    requires |s.caches| == |scopes|
  {
    if query.matcher >= |scopes| then s
    else
      var found := FindStep(host, limits, scopes[query.matcher], s.usage, s.caches[query.matcher], query.input);
      State(found.usage, s.caches[query.matcher := found.cache])
  }

  /** The session after any sequence of finds over its matchers. */
  ghost function After(host: Host, limits: Limits, scopes: seq<seq<Candidate>>, queries: seq<Query>): (s: State)
    ensures |s.caches| == |scopes|
  {
    if queries == [] then Start(scopes)
    else Apply(host, limits, scopes, After(host, limits, scopes, queries[..|queries| - 1]), queries[|queries| - 1])
  }

  ghost predicate TooMany(limits: Limits, usage: Usage, length: nat, prepared: seq<Candidate>) {
    || |Relevant(length, prepared)| > limits.maxCandidatesPerLookup
    || |Relevant(length, prepared)| > limits.maxComparisons - usage.comparisons
  }

  /** A cached answer is the exhaustive one, or none because the comparisons would not have fitted, which stays so. */
  ghost predicate CacheIsTrue(host: Host, limits: Limits, usage: Usage, prepared: seq<Candidate>, cache: Cache) {
    forall key | key in cache ::
      || cache[key] == Nearest(host, key, |key|, prepared)
      || (cache[key] == None && TooMany(limits, usage, |key|, prepared))
  }

  lemma FindKeepsCache(host: Host, limits: Limits, prepared: seq<Candidate>, usage: Usage, cache: Cache, input: Utf16)
    requires HostIsSound(host) && Normalized(host, prepared)
    requires CacheIsTrue(host, limits, usage, prepared, cache)
    ensures
      var found := FindStep(host, limits, prepared, usage, cache, input);
      CacheIsTrue(host, limits, found.usage, prepared, found.cache)
  {
    var found := FindStep(host, limits, prepared, usage, cache, input);
    forall key | key in found.cache
      ensures found.cache[key] == Nearest(host, key, |key|, prepared)
           || (found.cache[key] == None && TooMany(limits, found.usage, |key|, prepared))
    {
      if key in cache {
        assert found.cache[key] == cache[key];
      } else {
        NewEntryIsTrue(host, limits, prepared, usage, cache, input, key);
      }
    }
  }

  lemma NewEntryIsTrue(host: Host, limits: Limits, prepared: seq<Candidate>, usage: Usage, cache: Cache, input: Utf16,
      key: Utf16)
    requires HostIsSound(host) && Normalized(host, prepared)
    requires key !in cache && key in FindStep(host, limits, prepared, usage, cache, input).cache
    ensures
      var found := FindStep(host, limits, prepared, usage, cache, input);
      || found.cache[key] == Nearest(host, key, |key|, prepared)
      || (found.cache[key] == None && TooMany(limits, found.usage, |key|, prepared))
  {
    FilterLosesNothing(host, input, prepared);
    assert key == host.lower(input) && |host.lower(input)| == |input|;
  }

  lemma UsageGrows(host: Host, limits: Limits, prepared: seq<Candidate>, usage: Usage, cache: Cache, input: Utf16)
    ensures
      var found := FindStep(host, limits, prepared, usage, cache, input);
      && usage.lookups <= found.usage.lookups && usage.comparisons <= found.usage.comparisons
      && (usage.lookups <= limits.maxLookups ==> found.usage.lookups <= limits.maxLookups)
      && (usage.comparisons <= limits.maxComparisons ==> found.usage.comparisons <= limits.maxComparisons)
  {
  }

  /** Over any sequence of finds, whatever the matchers, the work stays within the limits. */
  lemma {:induction false} WorkIsBounded(host: Host, limits: Limits, scopes: seq<seq<Candidate>>, queries: seq<Query>)
    ensures
      var usage := After(host, limits, scopes, queries).usage;
      usage.lookups <= limits.maxLookups && usage.comparisons <= limits.maxComparisons
  {
    if queries != [] {
      WorkIsBounded(host, limits, scopes, queries[..|queries| - 1]);
      var s := After(host, limits, scopes, queries[..|queries| - 1]);
      var query := queries[|queries| - 1];
      if query.matcher < |scopes| {
        UsageGrows(host, limits, scopes[query.matcher], s.usage, s.caches[query.matcher], query.input);
      }
    }
  }

  lemma {:induction false} CachesAreTrue(host: Host, limits: Limits, scopes: seq<seq<Candidate>>,
      queries: seq<Query>, m: nat)
    requires HostIsSound(host) && m < |scopes| && forall k | 0 <= k < |scopes| :: Normalized(host, scopes[k])
    ensures
      var s := After(host, limits, scopes, queries);
      CacheIsTrue(host, limits, s.usage, scopes[m], s.caches[m])
  {
    if queries != [] {
      CachesAreTrue(host, limits, scopes, queries[..|queries| - 1], m);
      var s := After(host, limits, scopes, queries[..|queries| - 1]);
      var query := queries[|queries| - 1];
      if query.matcher < |scopes| {
        UsageGrows(host, limits, scopes[query.matcher], s.usage, s.caches[query.matcher], query.input);
        if query.matcher == m {
          FindKeepsCache(host, limits, scopes[m], s.usage, s.caches[m], query.input);
        }
      }
    }
  }

  ghost predicate MayLookUp(limits: Limits, s: State, prepared: seq<Candidate>, m: nat, host: Host, input: Utf16)
    requires m < |s.caches|
  {
    && IsEligibleLength(input)
    && (host.lower(input) in s.caches[m] || s.usage.lookups < limits.maxLookups)
    && !TooMany(limits, s.usage, |input|, prepared)
  }

  /**
   * A suggestion, cached or not, is the unique nearest of all the candidates of its matcher. No suggestion means
   * the same, unless the input has no eligible length, no lookup is left for a new misspelling, or the comparisons
   * do not fit what is left.
   */
  lemma SuggestionIsNearest(host: Host, limits: Limits, scopes: seq<seq<Candidate>>, queries: seq<Query>,
      m: nat, input: Utf16)
    requires HostIsSound(host) && m < |scopes| && forall k | 0 <= k < |scopes| :: Normalized(host, scopes[k])
    ensures
      var s := After(host, limits, scopes, queries);
      var found := FindStep(host, limits, scopes[m], s.usage, s.caches[m], input);
      var nearest := Nearest(host, host.lower(input), |input|, scopes[m]);
      && (found.suggestion.Some? ==> found.suggestion == nearest)
      && (MayLookUp(limits, s, scopes[m], m, host, input) ==> found.suggestion == nearest)
  {
    CachesAreTrue(host, limits, scopes, queries, m);
    FilterLosesNothing(host, input, scopes[m]);
    assert |host.lower(input)| == |input|;
  }

  /** One step apart, or two when both spellings have at least eight units. */
  predicate Close(host: Host, input: Utf16, c: Candidate) {
    var steps := host.distance(host.lower(input), c.normalized);
    steps <= 1 || (steps == 2 && |input| >= 8 && |c.registered| >= 8)
  }

  ghost predicate OnlyClosest(host: Host, input: Utf16, candidates: seq<Candidate>, best: Candidate) {
    && best in candidates && Close(host, input, best)
    && forall other <- candidates | other != best && Close(host, input, other) ::
         host.distance(host.lower(input), best.normalized) < host.distance(host.lower(input), other.normalized)
  }

  lemma CloseIsNear(host: Host, input: Utf16, candidates: seq<Candidate>, best: Candidate)
    ensures OnlyClosest(host, input, candidates, best) <==> IsUniqueBest(host, host.lower(input), |input|, candidates, best)
  {
    forall c: Candidate ensures Close(host, input, c) <==> IsNear(host, host.lower(input), |input|, c) {}
  }

  /** The same by distances: what is suggested is close, and closer than every other close candidate. */
  lemma SuggestionIsClosest(host: Host, limits: Limits, scopes: seq<seq<Candidate>>, queries: seq<Query>,
      m: nat, input: Utf16)
    requires HostIsSound(host) && m < |scopes| && forall k | 0 <= k < |scopes| :: Normalized(host, scopes[k])
    ensures
      var s := After(host, limits, scopes, queries);
      var found := FindStep(host, limits, scopes[m], s.usage, s.caches[m], input);
      && (found.suggestion.Some? ==>
            exists best :: OnlyClosest(host, input, scopes[m], best) && best.registered == found.suggestion.value)
      && (MayLookUp(limits, s, scopes[m], m, host, input) ==>
            forall best :: OnlyClosest(host, input, scopes[m], best) ==> found.suggestion == Some(best.registered))
  {
    SuggestionIsNearest(host, limits, scopes, queries, m, input);
    forall best: Candidate
      ensures OnlyClosest(host, input, scopes[m], best) ==>
        Nearest(host, host.lower(input), |input|, scopes[m]) == Some(best.registered)
    {
      CloseIsNear(host, input, scopes[m], best);
      if OnlyClosest(host, input, scopes[m], best) { NearestIs(host, host.lower(input), |input|, scopes[m], best); }
    }
    if HasUniqueBest(host, host.lower(input), |input|, scopes[m]) {
      var best :| IsUniqueBest(host, host.lower(input), |input|, scopes[m], best);
      CloseIsNear(host, input, scopes[m], best);
    }
  }
}
