/** The time-boxed result cache of `_get_api_data` (main.py:80-100), as a
    function from the cache, the key, the current time and what the upstream
    answers to the reply and the new cache. The plugin's method that updates
    its `data_cache` field in place is proved against `Serve`. */
module ResultCache {
  import opened Common
  import opened Vocabulary
  import opened Records

  /** A stored answer and the time it was requested at. */
  datatype Entry = Entry(data: seq<HeroRecord>, time: real)

  /** `str()` of a rank code as the f-string prints it. */
  function CodeText(c: Code): string
  {
    match c
    case IntCode(i) => IntToString(i)
    case StrCode(s) => s
  }

  /** `f"{game_mode}_{CURRENT_SEASON}_{rank_code}"`. */
  function CacheKey(mode: string, rank: Code): string
  {
    mode + "_" + NatToString(CURRENT_SEASON) + "_" + CodeText(rank)
  }

  /** An entry is usable while it is strictly younger than the lifetime. */
  predicate Fresh(e: Entry, now: real)
  {
    now - e.time < CACHE_TTL
  }

  /** What one call returns, whether it asked the upstream, and the cache after it. */
  datatype Reply = Reply(data: seq<HeroRecord>, fetched: bool, cache: map<string, Entry>)

  /** One call: a fresh entry is returned as stored; otherwise the upstream
      is asked, and only a 200 answer with records is stored, stamped with the
      time taken before the request. Anything else yields no records. */
  function Serve(cache: map<string, Entry>, key: string, now: real, upstream: FetchOutcome): Reply
  {
    if key in cache && Fresh(cache[key], now) then Reply(cache[key].data, false, cache)
    else
      match upstream
      case Raised => Reply([], true, cache)
      case Answered(status, data) =>
        if status != 200 then Reply([], true, cache)
        else if data != [] then Reply(data, true, cache[key := Entry(data, now)])
        else Reply(data, true, cache)
  }

  /** What the upstream's answer amounts to when it is asked. */
  function Fetched(upstream: FetchOutcome): seq<HeroRecord>
  {
    if upstream.Answered? && upstream.status == 200 then upstream.data else []
  }

  /** Every stored answer holds records. */
  ghost predicate NoEmptyEntries(cache: map<string, Entry>)
  {
    forall k :: k in cache ==> cache[k].data != []
  }

  /** A fresh entry is answered from the cache: no request, nothing changes. */
  lemma FreshHitServesStored(cache: map<string, Entry>, key: string, now: real, upstream: FetchOutcome)
    requires key in cache && now - cache[key].time < CACHE_TTL
    ensures Serve(cache, key, now, upstream) == Reply(cache[key].data, false, cache)
  { }

  /** Without a fresh entry the upstream is always asked and its answer is
      what is returned: an expired entry is never handed back. */
  lemma MissReturnsUpstream(cache: map<string, Entry>, key: string, now: real, upstream: FetchOutcome)
    requires !(key in cache && Fresh(cache[key], now))
    ensures Serve(cache, key, now, upstream).fetched
    ensures Serve(cache, key, now, upstream).data == Fetched(upstream)
  { }

  /** The cache changes only on a 200 answer with records, and then only at
      the key, which holds that answer stamped with the time of the call. */
  lemma OnlySuccessWrites(cache: map<string, Entry>, key: string, now: real, upstream: FetchOutcome)
    ensures var r := Serve(cache, key, now, upstream);
      r.cache != cache ==>
        upstream.Answered? && upstream.status == 200 && upstream.data != []
        && r.cache == cache[key := Entry(upstream.data, now)]
    ensures var r := Serve(cache, key, now, upstream);
      r.fetched && upstream.Answered? && upstream.status == 200 && upstream.data != [] ==>
        key in r.cache && r.cache[key] == Entry(upstream.data, now)
    ensures forall k :: k != key ==>
      (k in Serve(cache, key, now, upstream).cache <==> k in cache)
      && (k in cache ==> Serve(cache, key, now, upstream).cache[k] == cache[k])
  { }

  /** A failed call (an exception, a status other than 200, or no records)
      returns nothing and leaves the cache as it was. */
  lemma FailureLeavesCache(cache: map<string, Entry>, key: string, now: real, upstream: FetchOutcome)
    requires upstream.Raised? || upstream.status != 200 || upstream.data == []
    ensures Serve(cache, key, now, upstream).cache == cache
    ensures !(key in cache && Fresh(cache[key], now)) ==> Serve(cache, key, now, upstream).data == []
  { }

  /** No call ever stores an empty answer. */
  lemma ServeKeepsEntriesNonEmpty(cache: map<string, Entry>, key: string, now: real, upstream: FetchOutcome)
    requires NoEmptyEntries(cache)
    ensures NoEmptyEntries(Serve(cache, key, now, upstream).cache)
  { }

  /** Whatever the cache returns for a key with a fresh entry is non-empty,
      as long as no empty answer was ever stored. */
  lemma HitsAreNonEmpty(cache: map<string, Entry>, key: string, now: real, upstream: FetchOutcome)
    requires NoEmptyEntries(cache)
    requires !Serve(cache, key, now, upstream).fetched
    ensures Serve(cache, key, now, upstream).data != []
  { }

  /** A stored answer is served again, without a request, by every later
      call within the lifetime, whatever the upstream would say then. */
  lemma WriteThenHit(cache: map<string, Entry>, key: string, now: real, upstream: FetchOutcome,
                     later: real, upstream2: FetchOutcome)
    requires Serve(cache, key, now, upstream).cache != cache
    requires now <= later < now + CACHE_TTL
    ensures var r := Serve(cache, key, now, upstream);
      Serve(r.cache, key, later, upstream2) == Reply(r.data, false, r.cache)
  {
    OnlySuccessWrites(cache, key, now, upstream);
  }

  /** A request answered without records stores nothing, so the next call
      asks again and stores the first answer that has records; this holds
      for an absent key and for an expired entry alike. */
  lemma EmptyThenSuccess(cache: map<string, Entry>, key: string, now: real, later: real,
                         data: seq<HeroRecord>)
    requires !(key in cache && Fresh(cache[key], now))
    requires !(key in cache && Fresh(cache[key], later))
    requires data != []
    ensures Serve(cache, key, now, Answered(200, [])) == Reply([], true, cache)
    ensures Serve(cache, key, later, Answered(200, data)) == Reply(data, true, cache[key := Entry(data, later)])
  { }

  /** Keys of the queries the plugin makes: one of the two modes and the
      "all" sentinel or a tier name. */
  predicate QueryCode(mode: string, rank: Code)
  {
    (mode == RANKED_MODE || mode == QUICK_MODE)
    && (rank == ALL_RANKS || (rank.StrCode? && rank.s in RANK_ORDER))
  }

  lemma ConcatCancel(a1: string, b1: string, a2: string, b2: string)
    requires |a1| == |a2| && a1 + b1 == a2 + b2
    ensures a1 == a2 && b1 == b2
  {
    assert a1 == (a1 + b1)[..|a1|] && a2 == (a2 + b2)[..|a2|];
    assert b1 == (a1 + b1)[|a1|..] && b2 == (a2 + b2)[|a2|..];
  }

  lemma TierNamesUnsigned()
    ensures forall t :: t in RANK_ORDER ==> |t| > 0 && t[0] != '-'
  { }

  lemma CodeTextInjective(r1: Code, r2: Code)
    requires r1 == ALL_RANKS || (r1.StrCode? && r1.s in RANK_ORDER)
    requires r2 == ALL_RANKS || (r2.StrCode? && r2.s in RANK_ORDER)
    requires CodeText(r1) == CodeText(r2)
    ensures r1 == r2
  {
    TierNamesUnsigned();
  }

  lemma ModesSameLength(m1: string, m2: string)
    requires m1 == RANKED_MODE || m1 == QUICK_MODE
    requires m2 == RANKED_MODE || m2 == QUICK_MODE
    ensures |m1| == |m2|
  { }

  /** The key is the mode, a separator-framed season, and the rank's text. */
  lemma KeyParts(mode: string, rank: Code)
    ensures CacheKey(mode, rank) == mode + (("_" + NatToString(CURRENT_SEASON) + "_") + CodeText(rank))
  { }

  /** Distinct queries never share a cache entry. */
  lemma CacheKeyInjective(m1: string, r1: Code, m2: string, r2: Code)
    requires QueryCode(m1, r1) && QueryCode(m2, r2)
    requires CacheKey(m1, r1) == CacheKey(m2, r2)
    ensures m1 == m2 && r1 == r2
  {
    var middle := "_" + NatToString(CURRENT_SEASON) + "_";
    KeyParts(m1, r1);
    KeyParts(m2, r2);
    ModesSameLength(m1, m2);
    ConcatCancel(m1, middle + CodeText(r1), m2, middle + CodeText(r2));
    ConcatCancel(middle, CodeText(r1), middle, CodeText(r2));
    CodeTextInjective(r1, r2);
  }
}
