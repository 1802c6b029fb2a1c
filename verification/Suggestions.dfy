/** Looking for the one registered spelling closest to a misspelling, within a budget shared by a session. */
module Suggestions {
  import opened Basics
  import opened Text

  const MAX_SUGGESTION_LENGTH: nat := 128
  const DEFAULT_MAX_LOOKUPS: nat := 16
  const DEFAULT_MAX_CANDIDATES_PER_LOOKUP: nat := 256
  const DEFAULT_MAX_COMPARISONS: nat := 512

  /** `toLowerCase`, and the steps counted by the edit-distance library. */
  datatype Host = Host(lower: Utf16 -> Utf16, distance: (Utf16, Utf16) -> nat)

  datatype Limits = Limits(maxLookups: nat, maxCandidatesPerLookup: nat, maxComparisons: nat)

  datatype Usage = Usage(lookups: nat, comparisons: nat)

  datatype Candidate = Candidate(registered: Utf16, normalized: Utf16)

  type Cache = map<Utf16, Option<Utf16>>

  predicate IsEligibleLength(value: Utf16) { 4 <= |value| <= MAX_SUGGESTION_LENGTH }

  function MaximumDistance(a: nat, b: nat): nat { if Min(a, b) >= 8 then 2 else 1 }

  predicate IsRelevantLength(length: nat, candidate: Candidate) {
    var gap: int := length - |candidate.registered|;
    (if gap < 0 then -gap else gap) <= MaximumDistance(length, |candidate.registered|)
  }

  function NormalizeLimit(value: Option<real>, fallback: nat): nat {
    match value
    case None => fallback
    case Some(limit) =>
      var whole: int := limit.Floor;
      if whole < 0 then 0 else whole
  }

  // ---------------------------------------------------------------- preparing candidates

  /** The eligible spellings, each once, with the form that is compared. */
  ghost predicate IsPrepared(host: Host, candidates: seq<Utf16>, prepared: seq<Candidate>) {
    && Distinct(prepared)
    && (forall c :: c in prepared <==>
          c.registered in candidates && IsEligibleLength(c.registered) && c.normalized == host.lower(c.registered))
  }

  method PrepareCandidates(host: Host, candidates: seq<Utf16>) returns (prepared: seq<Candidate>)
    ensures IsPrepared(host, candidates, prepared)
  {
    prepared := [];
    for i := 0 to |candidates|
      invariant IsPrepared(host, candidates[..i], prepared)
    {
      var candidate := Candidate(candidates[i], host.lower(candidates[i]));
      if candidates[i] !in candidates[..i] && IsEligibleLength(candidates[i]) {
        prepared := prepared + [candidate];
      }
      assert forall s :: s in candidates[..i + 1] <==> s in candidates[..i] || s == candidates[i];
    }
    assert candidates[..|candidates|] == candidates;
  }

  /** The candidates that can be near enough by their length. */
  function Relevant(length: nat, prepared: seq<Candidate>): (relevant: seq<Candidate>)
    ensures |relevant| <= |prepared|
  {
    if prepared == [] then []
    else
      var last := prepared[|prepared| - 1];
      Relevant(length, prepared[..|prepared| - 1]) + if IsRelevantLength(length, last) then [last] else []
  }

  method FilterRelevant(length: nat, prepared: seq<Candidate>) returns (relevant: seq<Candidate>)
    ensures relevant == Relevant(length, prepared)
  {
    relevant := [];
    for i := 0 to |prepared|
      invariant relevant == Relevant(length, prepared[..i])
    {
      assert prepared[..i + 1][..i] == prepared[..i];
      if IsRelevantLength(length, prepared[i]) {
        relevant := relevant + [prepared[i]];
      }
    }
    assert prepared[..|prepared|] == prepared;
  }

  // ---------------------------------------------------------------- the closest candidate

  function Steps(host: Host, normalized: Utf16, candidate: Candidate): nat {
    host.distance(normalized, candidate.normalized)
  }

  predicate IsNear(host: Host, normalized: Utf16, length: nat, candidate: Candidate) {
    Steps(host, normalized, candidate) <= MaximumDistance(length, |candidate.registered|)
  }

  /** Near, and nearer than every other near candidate. */
  ghost predicate IsUniqueBest(host: Host, normalized: Utf16, length: nat, candidates: seq<Candidate>, best: Candidate) {
    && best in candidates && IsNear(host, normalized, length, best)
    && forall other <- candidates | other != best && IsNear(host, normalized, length, other) ::
         Steps(host, normalized, best) < Steps(host, normalized, other)
  }

  ghost predicate HasUniqueBest(host: Host, normalized: Utf16, length: nat, candidates: seq<Candidate>) {
    exists best :: IsUniqueBest(host, normalized, length, candidates, best)
  }

  /** The exhaustive search: the registered spelling of the unique best candidate of them all. */
  ghost function Nearest(host: Host, normalized: Utf16, length: nat, candidates: seq<Candidate>): Option<Utf16> {
    if HasUniqueBest(host, normalized, length, candidates) then
      var best :| IsUniqueBest(host, normalized, length, candidates, best);
      Some(best.registered)
    else None
  }

  lemma NearestIs(host: Host, normalized: Utf16, length: nat, candidates: seq<Candidate>, best: Candidate)
    requires IsUniqueBest(host, normalized, length, candidates, best)
    ensures Nearest(host, normalized, length, candidates) == Some(best.registered)
  {
    forall found | IsUniqueBest(host, normalized, length, candidates, found) ensures found == best {
      assert found != best ==> Steps(host, normalized, best) < Steps(host, normalized, found);
    }
  }

  /** What the scan of the first candidates knows. */
  ghost predicate Scanned(host: Host, normalized: Utf16, length: nat, seen: seq<Candidate>,
                          best: Option<Candidate>, tied: bool) {
    match best
    case None => !tied && forall c <- seen :: !IsNear(host, normalized, length, c)
    case Some(b) =>
      && b in seen && IsNear(host, normalized, length, b)
      && (forall c <- seen | IsNear(host, normalized, length, c) ::
            Steps(host, normalized, b) <= Steps(host, normalized, c))
      && (tied <==> exists c <- seen ::
            c != b && IsNear(host, normalized, length, c) && Steps(host, normalized, c) == Steps(host, normalized, b))
  }

  method FindUniqueBest(host: Host, normalized: Utf16, length: nat, candidates: seq<Candidate>)
    returns (suggestion: Option<Utf16>)
    requires Distinct(candidates)
    ensures suggestion == Nearest(host, normalized, length, candidates)
  {
    var best: Option<Candidate>, bestDistance: nat, bestIsTied := None, 0, false;
    for i := 0 to |candidates|
      invariant Scanned(host, normalized, length, candidates[..i], best, bestIsTied)
      invariant best.Some? ==> bestDistance == Steps(host, normalized, best.value)
    {
      var candidate := candidates[i];
      assert forall c :: c in candidates[..i + 1] <==> c in candidates[..i] || c == candidate;
      assert candidate !in candidates[..i];
      var maximumDistance := MaximumDistance(length, |candidate.registered|);
      var distance := host.distance(normalized, candidate.normalized);
      if distance > maximumDistance {
        continue;
      }
      if best.None? || distance < bestDistance {
        best, bestDistance, bestIsTied := Some(candidate), distance, false;
      } else if distance == bestDistance {
        bestIsTied := true;
      }
    }
    assert candidates[..|candidates|] == candidates;
    if best.Some? && !bestIsTied {
      NearestIs(host, normalized, length, candidates, best.value);
      return Some(best.value.registered);
    }
    return None;
  }

  // ---------------------------------------------------------------- sessions and matchers

  datatype Found = Found(suggestion: Option<Utf16>, usage: Usage, cache: Cache)

  /** What one `find` returns and leaves behind. */
  ghost function FindStep(host: Host, limits: Limits, prepared: seq<Candidate>, usage: Usage, cache: Cache, input: Utf16): Found {
    var key := host.lower(input);
    var relevant := Relevant(|input|, prepared);
    if !IsEligibleLength(input) then Found(None, usage, cache)
    else if key in cache then Found(cache[key], usage, cache)
    else if usage.lookups >= limits.maxLookups then Found(None, usage, cache)
    else if |relevant| > limits.maxCandidatesPerLookup || |relevant| > limits.maxComparisons - usage.comparisons then
      Found(None, usage.(lookups := usage.lookups + 1), cache[key := None])
    else
      var suggestion := Nearest(host, key, |input|, relevant);
      Found(suggestion, Usage(usage.lookups + 1, usage.comparisons + |relevant|), cache[key := suggestion])
  }

  lemma {:induction false} RelevantIs(length: nat, prepared: seq<Candidate>)
    ensures forall c :: c in Relevant(length, prepared) <==> c in prepared && IsRelevantLength(length, c)
    ensures Distinct(prepared) ==> Distinct(Relevant(length, prepared))
  {
    if prepared != [] {
      var front := prepared[..|prepared| - 1];
      RelevantIs(length, front);
      assert prepared == front + [prepared[|prepared| - 1]];
      if Distinct(prepared) {
        assert Distinct(front);
        assert prepared[|prepared| - 1] !in front;
      }
    }
  }

  class SuggestionSession {
    const host: Host
    const limits: Limits
    var usage: Usage

    constructor (host: Host, maxLookups: Option<real>, maxCandidatesPerLookup: Option<real>, maxComparisons: Option<real>)
      ensures this.host == host && usage == Usage(0, 0)
      ensures limits == Limits(NormalizeLimit(maxLookups, DEFAULT_MAX_LOOKUPS),
                               NormalizeLimit(maxCandidatesPerLookup, DEFAULT_MAX_CANDIDATES_PER_LOOKUP),
                               NormalizeLimit(maxComparisons, DEFAULT_MAX_COMPARISONS))
    {
      this.host := host;
      limits := Limits(NormalizeLimit(maxLookups, DEFAULT_MAX_LOOKUPS),
                       NormalizeLimit(maxCandidatesPerLookup, DEFAULT_MAX_CANDIDATES_PER_LOOKUP),
                       NormalizeLimit(maxComparisons, DEFAULT_MAX_COMPARISONS));
      usage := Usage(0, 0);
    }

    method CreateMatcher(candidates: seq<Utf16>) returns (matcher: SuggestionMatcher)
      ensures fresh(matcher) && matcher.session == this && matcher.cache == map[]
      ensures IsPrepared(host, candidates, matcher.prepared)
    {
      var prepared := PrepareCandidates(host, candidates);
      matcher := new SuggestionMatcher(this, prepared);
    }
  }

  class SuggestionMatcher {
    const session: SuggestionSession
    const prepared: seq<Candidate>
    var cache: Cache

    constructor (session: SuggestionSession, prepared: seq<Candidate>)
      ensures this.session == session && this.prepared == prepared && cache == map[]
    {
      this.session := session;
      this.prepared := prepared;
      cache := map[];
    }

    method Find(input: Utf16) returns (suggestion: Option<Utf16>)
      requires Distinct(prepared)
      modifies this, session
      ensures
        FindStep(session.host, session.limits, prepared, old(session.usage), old(cache), input)
        == Found(suggestion, session.usage, cache)
    {
      if !IsEligibleLength(input) {
        return None;
      }
      var key := session.host.lower(input);
      if key in cache {
        return cache[key];
      }
      if session.usage.lookups >= session.limits.maxLookups {
        return None;
      }
      session.usage := session.usage.(lookups := session.usage.lookups + 1);
      var relevant := FilterRelevant(|input|, prepared);
      var remaining := session.limits.maxComparisons - session.usage.comparisons;
      if |relevant| > session.limits.maxCandidatesPerLookup || |relevant| > remaining {
        cache := cache[key := None];
        return None;
      }
      session.usage := session.usage.(comparisons := session.usage.comparisons + |relevant|);
      RelevantIs(|input|, prepared);
      suggestion := FindUniqueBest(session.host, key, |input|, relevant);
      cache := cache[key := suggestion];
    }
  }
}
