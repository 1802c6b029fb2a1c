/** The ordered cache against a reference that dates every use, and what callers may rely on over any run. */
module IntrospectionLaws {
  import opened Basics
  import opened Introspection

  // ---------------------------------------------------------------- the reference

  /** Entries with the time of their last use; `ticks` counts the uses. */
  datatype Dated = Dated(entries: map<Key, Entry>, used: map<Key, nat>, ticks: nat)

  ghost predicate LeastRecent(used: map<Key, nat>, key: Key) {
    key in used && forall other | other in used :: used[key] <= used[other]
  }

  lemma {:induction false} SomeLeastRecent(used: map<Key, nat>)
    requires |used| > 0
    ensures exists key :: LeastRecent(used, key)
    decreases |used|
  {
    var key :| key in used;
    if !LeastRecent(used, key) {
      var rest := used - {key};
      var better :| better in used && used[better] < used[key];
      assert better in rest;
      SomeLeastRecent(rest);
      var least :| LeastRecent(rest, least);
      assert used[least] <= used[better];
      forall other | other in used ensures used[least] <= used[other] {
        if other != key { assert other in rest; }
      }
      assert LeastRecent(used, least);
    }
  }

  /** While there are too many entries, the one least recently used goes. */
  ghost function Trim(dated: Dated, maxSize: int): Dated
    decreases |dated.used|
  {
    if |dated.used| <= maxSize || |dated.used| == 0 then dated
    else
      SomeLeastRecent(dated.used);
      var key :| LeastRecent(dated.used, key);
      assert |dated.used - {key}| < |dated.used| by { SmallerMap(dated.used, key); }
      Trim(dated.(entries := dated.entries - {key}, used := dated.used - {key}), maxSize)
  }

  lemma SmallerMap<V>(m: map<Key, V>, key: Key)
    requires key in m
    ensures |m - {key}| == |m| - 1
  {
    assert (m - {key}).Keys == m.Keys - {key};
    assert |m.Keys - {key}| == |m.Keys| - 1;
    assert |(m - {key}).Keys| == |m - {key}| && |m.Keys| == |m|;
  }

  ghost function DatedGet(dated: Dated, key: Key, now: int): Dated {
    if key !in dated.entries then dated
    else if dated.entries[key].expiresAt <= now as real
    then dated.(entries := dated.entries - {key}, used := dated.used - {key})
    else dated.(used := dated.used[key := dated.ticks], ticks := dated.ticks + 1)
  }

  ghost function DatedSet(dated: Dated, maxSize: int, key: Key, claims: Claims, ttl: real, now: int): Dated {
    if ttl <= 0.0 then dated
    else
      Trim(Dated(dated.entries[key := Entry(claims, now as real + ttl * 1000.0)],
                 dated.used[key := dated.ticks], dated.ticks + 1), maxSize)
  }

  // ---------------------------------------------------------------- the order is the order of use

  /** The keys of `order` have strictly increasing dates from `low` on. */
  predicate Ascending(order: seq<Key>, used: map<Key, nat>, low: nat) {
    order == [] || (order[0] in used && low <= used[order[0]] && Ascending(order[1..], used, used[order[0]] + 1))
  }

  ghost predicate Agrees(cache: Cache, dated: Dated) {
    && cache.entries == dated.entries && dated.entries.Keys == dated.used.Keys
    && (forall key :: key in cache.order <==> key in dated.used)
    && (forall key | key in dated.used :: dated.used[key] < dated.ticks)
    && Ascending(cache.order, dated.used, 0)
  }

  lemma {:induction false} AscendingBounds(order: seq<Key>, used: map<Key, nat>, low: nat, key: Key)
    requires Ascending(order, used, low) && key in order
    ensures key in used && low <= used[key]
  {
    if order[0] != key { AscendingBounds(order[1..], used, used[order[0]] + 1, key); }
  }

  lemma {:induction false} AscendingLower(order: seq<Key>, used: map<Key, nat>, low: nat, low': nat)
    requires Ascending(order, used, low) && low' <= low
    ensures Ascending(order, used, low')
  {
  }

  /** Changing the date of a key that is not listed. */
  lemma {:induction false} AscendingFrame(order: seq<Key>, used: map<Key, nat>, used': map<Key, nat>, low: nat)
    requires Ascending(order, used, low)
    requires forall key <- order :: key in used ==> key in used' && used'[key] == used[key]
    ensures Ascending(order, used', low)
  {
    if order != [] { AscendingFrame(order[1..], used, used', used[order[0]] + 1); }
  }

  lemma {:induction false} WithoutRemoves(order: seq<Key>, used: map<Key, nat>, low: nat, key: Key)
    requires Ascending(order, used, low) && key in order
    ensures Ascending(Without(order, key), used, low)
    ensures forall other :: other in Without(order, key) <==> other in order && other != key
  {
    var rest := order[1..];
    if order[0] == key {
      if key in rest { AscendingBounds(rest, used, used[key] + 1, key); }
      AscendingLower(rest, used, used[key] + 1, low);
    } else {
      WithoutRemoves(rest, used, used[order[0]] + 1, key);
      assert ([order[0]] + Without(rest, key))[1..] == Without(rest, key);
    }
  }

  lemma {:induction false} AscendingAppend(order: seq<Key>, used: map<Key, nat>, low: nat, key: Key)
    requires Ascending(order, used, low) && key in used && low <= used[key]
    requires forall other <- order :: other in used ==> used[other] < used[key]
    ensures Ascending(order + [key], used, low)
  {
    if order != [] {
      assert (order + [key])[1..] == order[1..] + [key];
      AscendingAppend(order[1..], used, used[order[0]] + 1, key);
    }
  }

  lemma {:induction false} AscendingCount(order: seq<Key>, used: map<Key, nat>, low: nat)
    requires Ascending(order, used, low)
    ensures |set key | key in order| == |order|
  {
    if order != [] {
      AscendingCount(order[1..], used, used[order[0]] + 1);
      if order[0] in order[1..] { AscendingBounds(order[1..], used, used[order[0]] + 1, order[0]); }
      assert (set key | key in order) == (set key | key in order[1..]) + {order[0]};
    }
  }

  lemma SameSize(cache: Cache, dated: Dated)
    requires Agrees(cache, dated)
    ensures |cache.order| == |dated.used|
  {
    AscendingCount(cache.order, dated.used, 0);
    assert (set key | key in cache.order) == dated.used.Keys;
    assert |dated.used.Keys| == |dated.used|;
  }

  // ---------------------------------------------------------------- steps

  lemma DeleteAgrees(cache: Cache, dated: Dated, key: Key)
    requires Agrees(cache, dated) && key in cache.entries
    ensures Agrees(Delete(cache, key), dated.(entries := dated.entries - {key}, used := dated.used - {key}))
  {
    WithoutRemoves(cache.order, dated.used, 0, key);
    AscendingFrame(Without(cache.order, key), dated.used, dated.used - {key}, 0);
  }

  lemma RenewAgrees(cache: Cache, dated: Dated, key: Key, entry: Entry)
    requires Agrees(cache, dated)
    ensures Agrees(Renew(cache, key, entry),
                   Dated(dated.entries[key := entry], dated.used[key := dated.ticks], dated.ticks + 1))
  {
    var order := Delete(cache, key).order;
    var used := dated.used[key := dated.ticks];
    if key in cache.entries {
      WithoutRemoves(cache.order, dated.used, 0, key);
    }
    AscendingFrame(order, dated.used, used, 0);
    AscendingAppend(order, used, 0, key);
    assert Renew(cache, key, entry).entries == dated.entries[key := entry];
  }

  lemma HeadIsLeastRecent(cache: Cache, dated: Dated, key: Key)
    requires Agrees(cache, dated) && cache.order != []
    ensures LeastRecent(dated.used, key) <==> key == cache.order[0]
  {
    var head := cache.order[0];
    forall other | other in dated.used && other != head ensures dated.used[head] < dated.used[other] {
      AscendingBounds(cache.order[1..], dated.used, dated.used[head] + 1, other);
    }
  }

  lemma {:induction false} TrimAgrees(cache: Cache, dated: Dated, maxSize: int)
    requires Agrees(cache, dated)
    ensures Agrees(Evict(cache, maxSize), Trim(dated, maxSize))
    decreases |cache.order|
  {
    SameSize(cache, dated);
    if |cache.order| > maxSize && cache.order != [] {
      var head := cache.order[0];
      SomeLeastRecent(dated.used);
      forall key ensures LeastRecent(dated.used, key) <==> key == head { HeadIsLeastRecent(cache, dated, key); }
      DeleteAgrees(cache, dated, head);
      TrimAgrees(Delete(cache, head), dated.(entries := dated.entries - {head}, used := dated.used - {head}), maxSize);
    }
  }

  /** Every operation of the ordered cache does what the reference does. */
  lemma GetAgrees(cache: Cache, dated: Dated, key: Key, now: int)
    requires Agrees(cache, dated)
    ensures Agrees(AfterGet(cache, key, now), DatedGet(dated, key, now))
  {
    if key in cache.entries {
      if cache.entries[key].expiresAt <= now as real {
        DeleteAgrees(cache, dated, key);
      } else {
        RenewAgrees(cache, dated, key, cache.entries[key]);
        assert dated.entries[key := cache.entries[key]] == dated.entries;
      }
    }
  }

  lemma SetAgrees(cache: Cache, dated: Dated, maxSize: int, key: Key, claims: Claims, ttl: real, now: int)
    requires Agrees(cache, dated)
    ensures Agrees(AfterSet(cache, maxSize, key, claims, ttl, now), DatedSet(dated, maxSize, key, claims, ttl, now))
  {
    if ttl > 0.0 {
      var entry := Entry(claims, now as real + ttl * 1000.0);
      RenewAgrees(cache, dated, key, entry);
      TrimAgrees(Renew(cache, key, entry),
                 Dated(dated.entries[key := entry], dated.used[key := dated.ticks], dated.ticks + 1), maxSize);
    }
  }

  // ---------------------------------------------------------------- over any run

  /** What happens to the cache: the lookup that starts a call, the response that ends it, and shutdown. */
  datatype Op =
    | Lookup(token: string, config: Config, looked: int, mapped: int)
    | Respond(token: string, config: Config, claims: Claims, readings: Readings)
    | Shutdown

  function Apply(cache: Cache, maxSize: int, op: Op): Cache {
    match op
    case Lookup(token, config, looked, _) => AfterGet(cache, CacheKey(token, config), looked)
    case Respond(token, config, claims, readings) => AfterResponse(cache, maxSize, token, config, claims, readings)
    case Shutdown => EMPTY
  }

  /** The caches after a run. Calls interleave, so a response may be far from its lookup. */
  function AfterOps(maxSize: int, ops: seq<Op>): Cache {
    if ops == [] then EMPTY else Apply(AfterOps(maxSize, ops[..|ops| - 1]), maxSize, ops[|ops| - 1])
  }

  ghost function DatedOps(maxSize: int, ops: seq<Op>): Dated {
    if ops == [] then Dated(map[], map[], 0)
    else
      var before := DatedOps(maxSize, ops[..|ops| - 1]);
      match ops[|ops| - 1]
      case Lookup(token, config, looked, _) => DatedGet(before, CacheKey(token, config), looked)
      case Respond(token, config, claims, readings) =>
        if Accepted(config, claims, readings)
        then DatedSet(before, maxSize, CacheKey(token, config), claims, Ttl(config, claims, readings), readings.stored)
        else before
      case Shutdown => Dated(map[], map[], before.ticks)
  }

  /** In every run the ordered cache holds what the dated reference holds, in order of last use. */
  lemma {:induction false} RunAgrees(maxSize: int, ops: seq<Op>)
    ensures Agrees(AfterOps(maxSize, ops), DatedOps(maxSize, ops))
  {
    if ops != [] {
      var front := ops[..|ops| - 1];
      RunAgrees(maxSize, front);
      var cache, dated := AfterOps(maxSize, front), DatedOps(maxSize, front);
      match ops[|ops| - 1]
      case Lookup(token, config, looked, _) => GetAgrees(cache, dated, CacheKey(token, config), looked);
      case Respond(token, config, claims, readings) =>
        SetAgrees(cache, dated, maxSize, CacheKey(token, config), claims, Ttl(config, claims, readings), readings.stored);
      case Shutdown =>
    }
  }

  lemma {:induction false} EvictFits(cache: Cache, maxSize: int)
    ensures |Evict(cache, maxSize).order| <= if maxSize > 0 then maxSize else 0
    ensures |Evict(cache, maxSize).order| <= |cache.order|
    decreases |cache.order|
  {
    if |cache.order| > maxSize && cache.order != [] {
      EvictFits(Cache(cache.order[1..], cache.entries - {cache.order[0]}), maxSize);
    }
  }

  lemma {:induction false} WithoutShrinks(order: seq<Key>, key: Key)
    ensures |Without(order, key)| <= |order|
    ensures key in order ==> |Without(order, key)| == |order| - 1
  {
    if order != [] { WithoutShrinks(order[1..], key); }
  }

  /** The cache never holds more than its limit, and no entries for a limit below one. */
  lemma {:induction false} SizeIsBounded(maxSize: int, ops: seq<Op>)
    ensures |AfterOps(maxSize, ops).entries| <= if maxSize > 0 then maxSize else 0
  {
    RunAgrees(maxSize, ops);
    SameSize(AfterOps(maxSize, ops), DatedOps(maxSize, ops));
    assert |DatedOps(maxSize, ops).used.Keys| == |DatedOps(maxSize, ops).entries.Keys|;
    OrderIsBounded(maxSize, ops);
  }

  lemma {:induction false} OrderIsBounded(maxSize: int, ops: seq<Op>)
    ensures |AfterOps(maxSize, ops).order| <= if maxSize > 0 then maxSize else 0
  {
    if ops != [] {
      var front := ops[..|ops| - 1];
      OrderIsBounded(maxSize, front);
      RunAgrees(maxSize, front);
      var cache := AfterOps(maxSize, front);
      match ops[|ops| - 1]
      case Lookup(token, config, _, _) => WithoutShrinks(cache.order, CacheKey(token, config));
      case Respond(token, config, claims, readings) =>
        var entry := Entry(claims, readings.stored as real + Ttl(config, claims, readings) * 1000.0);
        EvictFits(Renew(cache, CacheKey(token, config), entry), maxSize);
      case Shutdown =>
    }
  }

  lemma {:induction false} DatesDiffer(order: seq<Key>, used: map<Key, nat>, low: nat, a: Key, b: Key)
    requires Ascending(order, used, low) && a in order && b in order && a != b
    ensures a in used && b in used && used[a] != used[b]
  {
    if order[0] != a && order[0] != b {
      DatesDiffer(order[1..], used, used[order[0]] + 1, a, b);
    } else {
      AscendingBounds(order[1..], used, used[order[0]] + 1, if order[0] == a then b else a);
    }
  }

  /** When the cache makes room, no entry goes while one stays whose last use is longer ago. */
  lemma EvictionFollowsUse(cache: Cache, dated: Dated, maxSize: int, gone: Key, kept: Key)
    requires Agrees(cache, dated)
    requires gone in cache.entries && gone !in Evict(cache, maxSize).entries && kept in Evict(cache, maxSize).entries
    ensures kept in dated.used && gone in dated.used && dated.used[gone] < dated.used[kept]
  {
    TrimAgrees(cache, dated, maxSize);
    forall a, b | a in dated.used && b in dated.used && a != b ensures dated.used[a] != dated.used[b] {
      DatesDiffer(cache.order, dated.used, 0, a, b);
    }
    TrimFollowsUse(dated, maxSize, gone, kept);
  }

  lemma {:induction false} TrimFollowsUse(dated: Dated, maxSize: int, gone: Key, kept: Key)
    requires forall a, b | a in dated.used && b in dated.used && a != b :: dated.used[a] != dated.used[b]
    requires gone in dated.used && gone !in Trim(dated, maxSize).used && kept in Trim(dated, maxSize).used
    ensures kept in dated.used && dated.used[gone] < dated.used[kept]
    decreases |dated.used|
  {
    SomeLeastRecent(dated.used);
    var key :| LeastRecent(dated.used, key)
      && Trim(dated, maxSize) == Trim(dated.(entries := dated.entries - {key}, used := dated.used - {key}), maxSize);
    SmallerMap(dated.used, key);
    TrimKeeps(dated.(entries := dated.entries - {key}, used := dated.used - {key}), maxSize, kept);
    if gone != key {
      TrimFollowsUse(dated.(entries := dated.entries - {key}, used := dated.used - {key}), maxSize, gone, kept);
    }
  }

  lemma {:induction false} TrimKeeps(dated: Dated, maxSize: int, kept: Key)
    requires kept in Trim(dated, maxSize).used
    ensures kept in dated.used && Trim(dated, maxSize).used[kept] == dated.used[kept]
    decreases |dated.used|
  {
    if |dated.used| > maxSize && |dated.used| > 0 {
      SomeLeastRecent(dated.used);
      var key :| LeastRecent(dated.used, key)
        && Trim(dated, maxSize) == Trim(dated.(entries := dated.entries - {key}, used := dated.used - {key}), maxSize);
      SmallerMap(dated.used, key);
      TrimKeeps(dated.(entries := dated.entries - {key}, used := dated.used - {key}), maxSize, kept);
    }
  }

  // ---------------------------------------------------------------- what callers get

  /** The entry the last effective `set` of this key stored, if the cache was not cleared since. */
  function LastStored(ops: seq<Op>, key: Key): Option<Entry> {
    if ops == [] then None
    else
      var earlier := LastStored(ops[..|ops| - 1], key);
      match ops[|ops| - 1]
      case Lookup(_, _, _, _) => earlier
      case Respond(token, config, claims, readings) =>
        if CacheKey(token, config) == key && Accepted(config, claims, readings) && Ttl(config, claims, readings) > 0.0
        then Some(Entry(claims, readings.stored as real + Ttl(config, claims, readings) * 1000.0))
        else earlier
      case Shutdown => None
  }

  lemma {:induction false} EvictOnlyRemoves(cache: Cache, maxSize: int, key: Key)
    requires key in Evict(cache, maxSize).entries
    ensures key in cache.entries && Evict(cache, maxSize).entries[key] == cache.entries[key]
    decreases |cache.order|
  {
    if |cache.order| > maxSize && cache.order != [] {
      EvictOnlyRemoves(Cache(cache.order[1..], cache.entries - {cache.order[0]}), maxSize, key);
    }
  }

  lemma {:induction false} EntriesAreLastStored(maxSize: int, ops: seq<Op>, key: Key)
    requires key in AfterOps(maxSize, ops).entries
    ensures LastStored(ops, key) == Some(AfterOps(maxSize, ops).entries[key])
  {
    var front := ops[..|ops| - 1];
    var cache := AfterOps(maxSize, front);
    match ops[|ops| - 1]
    case Lookup(token, config, looked, _) => EntriesAreLastStored(maxSize, front, key);
    case Respond(token, config, claims, readings) =>
      var mine := CacheKey(token, config);
      var ttl := Ttl(config, claims, readings);
      if Accepted(config, claims, readings) && ttl > 0.0 {
        EvictOnlyRemoves(Renew(cache, mine, Entry(claims, readings.stored as real + ttl * 1000.0)), maxSize, key);
        if key != mine { EntriesAreLastStored(maxSize, front, key); }
      } else {
        EntriesAreLastStored(maxSize, front, key);
      }
  }

  /** A hit returns what the last effective `set` of that endpoint, client and token stored, before it expires. */
  lemma HitsAreLastStored(maxSize: int, ops: seq<Op>, key: Key, now: int)
    requires Hit(AfterOps(maxSize, ops), key, now).Some?
    ensures
      var stored := LastStored(ops, key);
      && stored.Some? && now as real < stored.value.expiresAt
      && Hit(AfterOps(maxSize, ops), key, now) == Some(stored.value.claims)
  {
    EntriesAreLastStored(maxSize, ops, key);
  }

  lemma {:induction false} LastStoredCameFrom(ops: seq<Op>, key: Key)
    requires LastStored(ops, key).Some?
    ensures exists j | 0 <= j < |ops| ::
      ops[j].Respond? && CacheKey(ops[j].token, ops[j].config) == key
      && ops[j].claims == LastStored(ops, key).value.claims && ops[j].claims.active
  {
    var last := ops[|ops| - 1];
    var front := ops[..|ops| - 1];
    if !(last.Respond? && LastStored(ops, key) != LastStored(front, key)) {
      LastStoredCameFrom(front, key);
      var j :| 0 <= j < |front| && front[j].Respond? && CacheKey(front[j].token, front[j].config) == key
        && front[j].claims == LastStored(front, key).value.claims && front[j].claims.active;
      assert ops[j] == front[j];
    }
  }

  /** The answer a call gets at an operation, and the reading of the clock it was checked at. */
  function Answer(maxSize: int, ops: seq<Op>, op: Op): Option<Claims> {
    match op
    case Lookup(token, config, looked, mapped) =>
      (match Hit(AfterOps(maxSize, ops), CacheKey(token, config), looked)
       case Some(claims) => Mapped(claims, config, mapped)
       case None => None)
    case Respond(token, config, claims, readings) =>
      if Accepted(config, claims, readings) then Mapped(claims, config, readings.mapped) else None
    case Shutdown => None
  }

  function CheckedAt(op: Op): int {
    match op case Lookup(_, _, _, mapped) => mapped case Respond(_, _, _, readings) => readings.mapped case Shutdown => 0
  }

  /**
   * Cached or fresh, an answer has not expired when it is given, meets the audience of this very call, and
   * is an active response the same endpoint gave to the same client for the same token.
   */
  lemma AnswersAreLive(maxSize: int, ops: seq<Op>, op: Op)
    requires !op.Shutdown? && Answer(maxSize, ops, op).Some?
    ensures
      var claims := Answer(maxSize, ops, op).value;
      && (claims.exp.Some? ==> Seconds(CheckedAt(op)) as real < claims.exp.value)
      && (HasAudience(op.config.audience) ==> MatchesAudience(op.config.audience, claims.aud))
      && claims.active
      && exists j | 0 <= j <= |ops| ::
           (ops + [op])[j].Respond? && (ops + [op])[j].claims == claims
           && CacheKey((ops + [op])[j].token, (ops + [op])[j].config) == CacheKey(op.token, op.config)
  {
    if op.Lookup? {
      var key := CacheKey(op.token, op.config);
      HitsAreLastStored(maxSize, ops, key, op.looked);
      LastStoredCameFrom(ops, key);
      var j :| 0 <= j < |ops| && ops[j].Respond? && CacheKey(ops[j].token, ops[j].config) == key
        && ops[j].claims == LastStored(ops, key).value.claims && ops[j].claims.active;
      assert (ops + [op])[j] == ops[j];
    } else {
      assert (ops + [op])[|ops|] == op;
    }
  }

  // ---------------------------------------------------------------- expiry

  /** When an entry stored with these readings stops being served, in milliseconds. */
  function EntryEnd(config: Config, claims: Claims, readings: Readings): real {
    readings.stored as real + Ttl(config, claims, readings) * 1000.0
  }

  /** An entry outlives its token by less than a second and what passes between the two readings of the clock. */
  lemma OutlivesLessThanASecond(config: Config, claims: Claims, readings: Readings)
    requires claims.exp.Some?
    ensures EntryEnd(config, claims, readings)
          < claims.exp.value * 1000.0 + 1000.0 + (readings.stored - readings.ttl) as real
  {
    var seconds := Seconds(readings.ttl);
    assert readings.ttl - 1000 * seconds < 1000;
    TtlAtMost(config, claims, readings);
    assert Ttl(config, claims, readings) * 1000.0 <= claims.exp.value * 1000.0 - (1000 * seconds) as real;
  }

  lemma TtlAtMost(config: Config, claims: Claims, readings: Readings)
    requires claims.exp.Some?
    ensures Ttl(config, claims, readings) * 1000.0 <= claims.exp.value * 1000.0 - (1000 * Seconds(readings.ttl)) as real
  {
    assert (1000 * Seconds(readings.ttl)) as real == Seconds(readings.ttl) as real * 1000.0;
  }

  /** Making room keeps the newest entry as long as there is room for one. */
  lemma {:induction false} EvictKeepsNewest(cache: Cache, used: map<Key, nat>, low: nat, maxSize: int)
    requires maxSize >= 1 && cache.order != [] && Ascending(cache.order, used, low)
    requires cache.order[|cache.order| - 1] in cache.entries
    ensures
      var newest := cache.order[|cache.order| - 1];
      newest in Evict(cache, maxSize).entries && Evict(cache, maxSize).entries[newest] == cache.entries[newest]
    decreases |cache.order|
  {
    if |cache.order| > maxSize {
      var head, rest := cache.order[0], cache.order[1..];
      AscendingBounds(rest, used, used[head] + 1, rest[|rest| - 1]);
      EvictKeepsNewest(Cache(rest, cache.entries - {head}), used, used[head] + 1, maxSize);
    }
  }

  lemma SetIsPresent(cache: Cache, dated: Dated, maxSize: int, key: Key, entry: Entry)
    requires Agrees(cache, dated) && maxSize >= 1
    ensures
      var after := Evict(Renew(cache, key, entry), maxSize);
      key in after.entries && after.entries[key] == entry
  {
    RenewAgrees(cache, dated, key, entry);
    var renewed := Renew(cache, key, entry);
    assert renewed.order[|renewed.order| - 1] == key && renewed.entries[key] == entry;
    EvictKeepsNewest(renewed, dated.used[key := dated.ticks], 0, maxSize);
  }

  /** In every run, a stored response is in the cache right after it came, if the cache may hold anything. */
  lemma StoredIsPresent(maxSize: int, ops: seq<Op>, token: string, config: Config, claims: Claims, readings: Readings)
    requires Accepted(config, claims, readings) && Ttl(config, claims, readings) > 0.0 && maxSize >= 1
    ensures
      var key, after := CacheKey(token, config), AfterResponse(AfterOps(maxSize, ops), maxSize, token, config, claims, readings);
      key in after.entries && after.entries[key] == Entry(claims, EntryEnd(config, claims, readings))
  {
    RunAgrees(maxSize, ops);
    SetIsPresent(AfterOps(maxSize, ops), DatedOps(maxSize, ops), maxSize, CacheKey(token, config),
                 Entry(claims, EntryEnd(config, claims, readings)));
  }

  /** The cache holds an entry for this token that it would serve past the end of the token. */
  predicate OutlivesIn(cache: Cache, token: string, config: Config, end: real) {
    CacheKey(token, config) in cache.entries && cache.entries[CacheKey(token, config)].expiresAt > end * 1000.0
  }

  /** When the entry of a response ends after the token. */
  lemma EndsLate(config: Config, claims: Claims, readings: Readings)
    requires claims.exp.Some?
    ensures EntryEnd(config, claims, readings) > claims.exp.value * 1000.0 <==> ReachesPast(config, claims, readings)
  {
    var seconds := Seconds(readings.ttl);
    assert (1000 * seconds) as real == seconds as real * 1000.0;
  }

  /** Whether `set` takes the response, which a caller could check before the call. */
  predicate IsStored(config: Config, claims: Claims, readings: Readings)
    requires claims.exp.Some?
  {
    Accepted(config, claims, readings) && config.cacheTtl > 0.0 && claims.exp.value > Seconds(readings.ttl) as real
  }

  /**
   * The configured lifetime reaches past the token's end, and `set` reads the clock later than the whole second
   * from which the remaining lifetime was computed.
   */
  predicate ReachesPast(config: Config, claims: Claims, readings: Readings)
    requires claims.exp.Some?
  {
    && readings.stored > 1000 * Seconds(readings.ttl)
    && readings.stored as real + config.cacheTtl * 1000.0 > claims.exp.value * 1000.0
  }

  /**
   * After any run: a response leaves in the cache an entry that outlives its token if and only if the cache may hold
   * entries, the response is stored and its lifetime reaches past the token's end; or it is not stored, and an
   * earlier entry of the same token already did.
   */
  lemma EntryOutlivesToken(maxSize: int, ops: seq<Op>, token: string, config: Config, claims: Claims, readings: Readings)
    requires claims.exp.Some?
    ensures
      var before := AfterOps(maxSize, ops);
      var after := AfterResponse(before, maxSize, token, config, claims, readings);
      OutlivesIn(after, token, config, claims.exp.value)
      <==> if IsStored(config, claims, readings) then maxSize >= 1 && ReachesPast(config, claims, readings)
           else OutlivesIn(before, token, config, claims.exp.value)
  {
    EndsLate(config, claims, readings);
    assert IsStored(config, claims, readings)
      <==> Accepted(config, claims, readings) && Ttl(config, claims, readings) > 0.0;
    if IsStored(config, claims, readings) {
      if maxSize >= 1 {
        StoredIsPresent(maxSize, ops, token, config, claims, readings);
      } else {
        var op := Respond(token, config, claims, readings);
        assert (ops + [op])[..|ops|] == ops;
        SizeIsBounded(maxSize, ops + [op]);
        assert |AfterOps(maxSize, ops + [op]).entries| == 0;
      }
    }
  }

  /** The documented bound, that an entry never outlives its token, fails half a second before the end. */
  lemma EntryCanOutliveToken()
    ensures
      var config := Config("https://as", "client", NoAudience, 60.0);
      var claims := Claims(true, Some(100.0), NoAudience, 0);
      var readings := Readings(99_500, 99_500, 99_500, 99_500);
      var after := AfterResponse(EMPTY, 1000, "token", config, claims, readings);
      && Accepted(config, claims, readings)
      && EntryEnd(config, claims, readings) == 100_500.0
      && Hit(after, CacheKey("token", config), 100_200) == Some(claims)
      && Mapped(claims, config, 100_200) == None
  {
    var config := Config("https://as", "client", NoAudience, 60.0);
    var claims := Claims(true, Some(100.0), NoAudience, 0);
    var readings := Readings(99_500, 99_500, 99_500, 99_500);
    assert Seconds(99_500) == 99 && Seconds(100_200) == 100;
    assert Ttl(config, claims, readings) == 1.0;
    assert AfterOps(1000, []) == EMPTY;
    StoredIsPresent(1000, [], "token", config, claims, readings);
  }
}
