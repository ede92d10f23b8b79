/** The plugin object (main.py:13-30, 80-117, 196-340): its two caches, the
    cached upstream request, the icon memo, and the `ow数据` command that
    answers either with one hero's chart across the tiers or with a
    leaderboard chart. */
module Plugin {
  import opened Common
  import opened Vocabulary
  import opened Records
  import opened ResultCache
  import opened Resolver
  import opened Title
  import opened Ranking
  import opened Layout

  // ---------------------------------------------------------------------
  // Icon memo (main.py:102-117)
  // ---------------------------------------------------------------------

  /** A 40x40 hero portrait loaded from the icon directory, or the fully
      transparent placeholder. */
  datatype Icon = Transparent | Portrait(heroId: string, pixels: seq<int>)

  datatype IconReply = IconReply(icon: Icon, cache: map<string, Icon>)

  /** One lookup: a memoised icon is returned as stored; otherwise the loader
      (file present, decoded and resized, or not) decides, and only a loaded
      portrait is memoised. */
  function LookupIcon(cache: map<string, Icon>, id: string, load: string -> Option<seq<int>>): IconReply
  {
    if id in cache then IconReply(cache[id], cache)
    else
      match load(id)
      case Some(pixels) => IconReply(Portrait(id, pixels), cache[id := Portrait(id, pixels)])
      case None => IconReply(Transparent, cache)
  }

  ghost predicate NoPlaceholderMemoised(cache: map<string, Icon>)
  {
    forall k :: k in cache ==> cache[k].Portrait?
  }

  /** The placeholder is never memoised, and a lookup only ever adds the
      looked-up id. */
  lemma LookupIconKeepsMemo(cache: map<string, Icon>, id: string, load: string -> Option<seq<int>>)
    requires NoPlaceholderMemoised(cache)
    ensures NoPlaceholderMemoised(LookupIcon(cache, id, load).cache)
    ensures forall k :: k in cache ==> k in LookupIcon(cache, id, load).cache && LookupIcon(cache, id, load).cache[k] == cache[k]
    ensures forall k :: k in LookupIcon(cache, id, load).cache ==> k in cache || k == id
  { }

  /** Once an icon loads, every later lookup of that id returns it without
      consulting the loader again. */
  lemma LoadedIconIsReused(cache: map<string, Icon>, id: string, load: string -> Option<seq<int>>,
                           load2: string -> Option<seq<int>>)
    requires LookupIcon(cache, id, load).icon.Portrait?
    ensures var r := LookupIcon(cache, id, load);
      LookupIcon(r.cache, id, load2) == IconReply(r.icon, r.cache)
  { }

  /** A failed load is not remembered: the next lookup tries the loader again. */
  lemma FailedLoadIsRetried(cache: map<string, Icon>, id: string, load: string -> Option<seq<int>>,
                            load2: string -> Option<seq<int>>)
    requires id !in cache && load(id).None?
    ensures LookupIcon(cache, id, load) == IconReply(Transparent, cache)
    ensures LookupIcon(LookupIcon(cache, id, load).cache, id, load2).icon
         == (if load2(id).Some? then Portrait(id, load2(id).value) else Transparent)
  { }

  /** The hero ids of the rows that show an icon, in row order. */
  function IconIds(rows: seq<seq<string>>): seq<string>
  {
    if rows == [] then []
    else
      var row := rows[0];
      (if |row| > 0 && row[|row| - 1] != "" then [row[|row| - 1]] else []) + IconIds(rows[1..])
  }

  datatype IconsReply = IconsReply(icons: seq<Icon>, cache: map<string, Icon>)

  /** The lookups for several ids, one after the other. */
  function LookupIcons(cache: map<string, Icon>, ids: seq<string>, load: string -> Option<seq<int>>): IconsReply
    decreases |ids|
  {
    if ids == [] then IconsReply([], cache)
    else
      var first := LookupIcon(cache, ids[0], load);
      var rest := LookupIcons(first.cache, ids[1..], load);
      IconsReply([first.icon] + rest.icons, rest.cache)
  }

  lemma {:induction false} LookupIconsKeepsMemo(cache: map<string, Icon>, ids: seq<string>, load: string -> Option<seq<int>>)
    requires NoPlaceholderMemoised(cache)
    ensures NoPlaceholderMemoised(LookupIcons(cache, ids, load).cache)
    ensures |LookupIcons(cache, ids, load).icons| == |ids|
    decreases |ids|
  {
    if ids != [] {
      LookupIconKeepsMemo(cache, ids[0], load);
      LookupIconsKeepsMemo(LookupIcon(cache, ids[0], load).cache, ids[1..], load);
    }
  }

  // ---------------------------------------------------------------------
  // The tiers of the single-hero chart (main.py:219-221)
  // ---------------------------------------------------------------------

  /** The cache key of tier `k` of `RANK_ORDER`, in ranked play. */
  function TierKey(k: nat): string
    requires k < |RANK_ORDER|
  {
    CacheKey(RANKED_MODE, StrCode(RANK_ORDER[k]))
  }

  /** What the upstream answers for tier `k`. */
  function TierOutcome(upstream: (string, Code) -> FetchOutcome, k: nat): FetchOutcome
    requires k < |RANK_ORDER|
  {
    upstream(RANKED_MODE, StrCode(RANK_ORDER[k]))
  }

  /** The cache after the requests for the first `n` tiers, in order. */
  function CacheAfterTiers(cache: map<string, Entry>, now: real, upstream: (string, Code) -> FetchOutcome, n: nat): map<string, Entry>
    requires n <= |RANK_ORDER|
  {
    if n == 0 then cache
    else Serve(CacheAfterTiers(cache, now, upstream, n - 1), TierKey(n - 1), now, TierOutcome(upstream, n - 1)).cache
  }

  /** What each tier's request returns, each answered from the cache as it
      was before the first request. */
  function TierAnswers(cache: map<string, Entry>, now: real, upstream: (string, Code) -> FetchOutcome): (lists: seq<seq<HeroRecord>>)
    ensures |lists| == |RANK_ORDER|
  {
    seq(|RANK_ORDER|, k requires 0 <= k < |RANK_ORDER| => Serve(cache, TierKey(k), now, TierOutcome(upstream, k)).data)
  }

  lemma TierNamesDistinct(a: nat, b: nat)
    requires a < b < |RANK_ORDER|
    ensures RANK_ORDER[a] != RANK_ORDER[b]
  { }

  lemma TierKeysDistinct(a: nat, b: nat)
    requires a < |RANK_ORDER| && b < |RANK_ORDER| && a != b
    ensures TierKey(a) != TierKey(b)
  {
    if a < b { TierNamesDistinct(a, b); } else { TierNamesDistinct(b, a); }
    if TierKey(a) == TierKey(b) {
      CacheKeyInjective(RANKED_MODE, StrCode(RANK_ORDER[a]), RANKED_MODE, StrCode(RANK_ORDER[b]));
    }
  }

  /** The requests for earlier tiers leave a later tier's entry alone. */
  lemma {:induction false} LaterTierEntryUntouched(cache: map<string, Entry>, now: real, upstream: (string, Code) -> FetchOutcome,
                                                  n: nat, k: nat)
    requires n <= k < |RANK_ORDER|
    ensures var c := CacheAfterTiers(cache, now, upstream, n);
      (TierKey(k) in c <==> TierKey(k) in cache) && (TierKey(k) in cache ==> c[TierKey(k)] == cache[TierKey(k)])
  {
    if n > 0 {
      LaterTierEntryUntouched(cache, now, upstream, n - 1, k);
      TierKeysDistinct(n - 1, k);
      OnlySuccessWrites(CacheAfterTiers(cache, now, upstream, n - 1), TierKey(n - 1), now, TierOutcome(upstream, n - 1));
    }
  }

  /** Since the tiers' keys differ, asking them one after the other gives
      each the answer it would get from the cache as it was at the start. */
  lemma TierRequestsIndependent(cache: map<string, Entry>, now: real, upstream: (string, Code) -> FetchOutcome, k: nat)
    requires k < |RANK_ORDER|
    ensures Serve(CacheAfterTiers(cache, now, upstream, k), TierKey(k), now, TierOutcome(upstream, k)).data
         == TierAnswers(cache, now, upstream)[k]
  {
    LaterTierEntryUntouched(cache, now, upstream, k, k);
  }

  /** Storing answers keeps the "no empty answer stored" invariant. */
  lemma {:induction false} CacheAfterTiersNonEmpty(cache: map<string, Entry>, now: real, upstream: (string, Code) -> FetchOutcome, n: nat)
    requires n <= |RANK_ORDER|
    requires NoEmptyEntries(cache)
    ensures NoEmptyEntries(CacheAfterTiers(cache, now, upstream, n))
  {
    if n > 0 {
      CacheAfterTiersNonEmpty(cache, now, upstream, n - 1);
      ServeKeepsEntriesNonEmpty(CacheAfterTiers(cache, now, upstream, n - 1), TierKey(n - 1), now, TierOutcome(upstream, n - 1));
    }
  }

  lemma HeroRowsStep(tiers: seq<string>, lists: seq<seq<HeroRecord>>, hero: Hero, k: nat)
    requires |tiers| == |lists| && k < |lists|
    ensures HeroRows(tiers[..k + 1], lists[..k + 1], hero)
         == HeroRows(tiers[..k], lists[..k], hero) + (if lists[k] == [] then [] else [HeroRow(tiers[k], lists[k], hero)])
  {
    assert tiers[..k + 1][..k] == tiers[..k] && lists[..k + 1][..k] == lists[..k];
  }

  /** One pass of the single-hero loop: the `k`-th request moves the cache
      one tier on, returns that tier's answer from the starting cache, and
      adds a row exactly when the answer has records. */
  lemma TierStep(cache: map<string, Entry>, now: real, upstream: (string, Code) -> FetchOutcome, hero: Hero, k: nat)
    requires k < |RANK_ORDER|
    ensures var r := Serve(CacheAfterTiers(cache, now, upstream, k), TierKey(k), now, TierOutcome(upstream, k));
      var answers := TierAnswers(cache, now, upstream);
      r.cache == CacheAfterTiers(cache, now, upstream, k + 1)
      && r.data == answers[k]
      && HeroRows(RANK_ORDER[..k + 1], answers[..k + 1], hero)
         == HeroRows(RANK_ORDER[..k], answers[..k], hero) + (if r.data == [] then [] else [HeroRow(RANK_ORDER[k], r.data, hero)])
  {
    TierRequestsIndependent(cache, now, upstream, k);
    HeroRowsStep(RANK_ORDER, TierAnswers(cache, now, upstream), hero, k);
  }

  /** The single-hero chart has no rows exactly when no tier answered with
      records, and at most one row per tier. */
  lemma HeroChartEmptyIffNoTierAnswered(cache: map<string, Entry>, now: real, upstream: (string, Code) -> FetchOutcome, hero: Hero)
    ensures var lists := TierAnswers(cache, now, upstream);
      |HeroRows(RANK_ORDER, lists, hero)| <= |RANK_ORDER|
      && (HeroRows(RANK_ORDER, lists, hero) == [] <==> forall k :: 0 <= k < |lists| ==> lists[k] == [])
  {
    var lists := TierAnswers(cache, now, upstream);
    HeroRowsFollowTiers(RANK_ORDER, lists, hero);
    var ks := AnsweredTiers(lists);
    if ks != [] {
      assert lists[ks[0]] != [];
    }
  }

  // ---------------------------------------------------------------------
  // Chart shapes (main.py:242-244, 333-340)
  // ---------------------------------------------------------------------

  const HERO_HEADERS: seq<string> := ["段位", "英雄", "胜率", "出场", "禁用", "KDA"]
  const HERO_WIDTHS: seq<int> := [100, 220, 120, 100, 100, 80]
  const QUICK_HEADERS: seq<string> := ["", "英雄", "胜率", "出场", "KDA"]
  const QUICK_WIDTHS: seq<int> := [60, 240, 130, 110, 80]
  const RANKED_HEADERS: seq<string> := ["", "英雄", "胜率", "出场", "禁用", "KDA"]
  const RANKED_WIDTHS: seq<int> := [60, 240, 130, 110, 110, 80]

  function LeaderboardHeaders(mode: string): seq<string>
  {
    if mode == QUICK_MODE then QUICK_HEADERS else RANKED_HEADERS
  }

  function LeaderboardWidths(mode: string): seq<int>
  {
    if mode == QUICK_MODE then QUICK_WIDTHS else RANKED_WIDTHS
  }

  /** The leaderboard's records: the requested role, best first by the sort key. */
  function RankedRecords(data: seq<HeroRecord>, f: Filters): seq<HeroRecord>
  {
    SortDesc(RoleFilter(data, f.roleCode), f.sortKey)
  }

  /** Ties in the leaderboard keep the order the upstream listed them in:
      among the kept records of equal sort value, the ranked order is the
      fetched order. */
  lemma RankedRecordsKeepFetchOrder(data: seq<HeroRecord>, f: Filters, v: real)
    ensures WithValue(RankedRecords(data, f), f.sortKey, v) == WithValue(RoleFilter(data, f.roleCode), f.sortKey, v)
  {
    SortDescStable(RoleFilter(data, f.roleCode), f.sortKey, v);
  }

  lemma WidthSums()
    ensures Sum(QUICK_WIDTHS) == 620 && Sum(RANKED_WIDTHS) == 730 && Sum(HERO_WIDTHS) == 720
  {
    assert QUICK_WIDTHS[..0] == [];
    SumPrefixStep(QUICK_WIDTHS, 0);
    SumPrefixStep(QUICK_WIDTHS, 1);
    SumPrefixStep(QUICK_WIDTHS, 2);
    SumPrefixStep(QUICK_WIDTHS, 3);
    SumPrefixStep(QUICK_WIDTHS, 4);
    assert QUICK_WIDTHS[..5] == QUICK_WIDTHS;
    assert RANKED_WIDTHS[..0] == [];
    SumPrefixStep(RANKED_WIDTHS, 0);
    SumPrefixStep(RANKED_WIDTHS, 1);
    SumPrefixStep(RANKED_WIDTHS, 2);
    SumPrefixStep(RANKED_WIDTHS, 3);
    SumPrefixStep(RANKED_WIDTHS, 4);
    SumPrefixStep(RANKED_WIDTHS, 5);
    assert RANKED_WIDTHS[..6] == RANKED_WIDTHS;
    assert HERO_WIDTHS[..0] == [];
    SumPrefixStep(HERO_WIDTHS, 0);
    SumPrefixStep(HERO_WIDTHS, 1);
    SumPrefixStep(HERO_WIDTHS, 2);
    SumPrefixStep(HERO_WIDTHS, 3);
    SumPrefixStep(HERO_WIDTHS, 4);
    SumPrefixStep(HERO_WIDTHS, 5);
    assert HERO_WIDTHS[..6] == HERO_WIDTHS;
  }

  /** Every leaderboard row has one cell more than there are columns, so the
      renderer's indexing stays in bounds; the chart is 660 or 770 pixels
      wide and at most 1150 high. */
  lemma LeaderboardChartFits(ranked: seq<HeroRecord>, mode: string)
    ensures Drawable(LeaderboardHeaders(mode), LeaderboardRows(ranked, mode), LeaderboardWidths(mode))
    ensures |LeaderboardHeaders(mode)| == |LeaderboardWidths(mode)|
    ensures CanvasWidth(LeaderboardWidths(mode)) == (if mode == QUICK_MODE then 660 else 770)
    ensures CanvasHeight(|LeaderboardRows(ranked, mode)|) <= 1150
  {
    LeaderboardRowsShape(ranked, mode);
    WidthSums();
  }

  lemma HeroRowsFit(lists: seq<seq<HeroRecord>>, hero: Hero)
    requires |lists| == |RANK_ORDER|
    ensures AllRowsFit(HeroRows(RANK_ORDER, lists, hero), HERO_WIDTHS)
  {
    var rows := HeroRows(RANK_ORDER, lists, hero);
    HeroRowsShape(RANK_ORDER, lists, hero);
    assert |HERO_WIDTHS| == 6;
    forall i | 0 <= i < |rows| ensures RowFits(rows[i], HERO_WIDTHS) {
      assert rows[i] in rows;
    }
  }

  /** Every single-hero row has seven cells for six columns; the chart is
      760 pixels wide and at most 550 high. */
  lemma HeroChartFits(lists: seq<seq<HeroRecord>>, hero: Hero)
    requires |lists| == |RANK_ORDER|
    ensures Drawable(HERO_HEADERS, HeroRows(RANK_ORDER, lists, hero), HERO_WIDTHS)
    ensures CanvasWidth(HERO_WIDTHS) == 760
    ensures CanvasHeight(|HeroRows(RANK_ORDER, lists, hero)|) <= 550
  {
    HeroRowsFit(lists, hero);
    HeroRowsFollowTiers(RANK_ORDER, lists, hero);
    WidthSums();
  }

  // ---------------------------------------------------------------------
  // The command's answer (main.py:196-340)
  // ---------------------------------------------------------------------

  /** What the command sends after its progress line: a warning, or a chart
      with the icons pasted into it, in drawing order. */
  datatype Answer =
    | Warning(status: string, warning: string)
    | Chart(status: string, picture: Picture, icons: seq<Icon>)

  const NO_HERO_DATA: string := "⚠️ 未找到数据，该英雄可能被Ban或暂无数据。"

  /** The token that picks the hero is the first token naming any hero. */
  ghost predicate FirstNamedHero(args: seq<string>, hero: Hero)
  {
    exists i :: 0 <= i < |args| && NamesHero(args[i], hero)
      && forall k :: 0 <= k < i ==> !IsHeroToken(HERO_ORDER, args[k])
  }

  /** The chart of `rows` and its icons, given the memo before drawing. */
  ghost predicate ChartOf(answer: Answer, title: string, headers: seq<string>, rows: seq<seq<string>>, widths: seq<int>,
                          parse: string -> Option<real>, icons0: map<string, Icon>, icons1: map<string, Icon>,
                          load: string -> Option<seq<int>>)
  {
    answer.Chart?
    && Drawable(headers, rows, widths)
    && answer.picture == Picture(CanvasWidth(widths), CanvasHeight(|rows|), BG_COLOR, TableCmds(title, headers, rows, widths, parse))
    && answer.icons == LookupIcons(icons0, IconIds(rows), load).icons
    && icons1 == LookupIcons(icons0, IconIds(rows), load).cache
  }

  /** The leaderboard answer for filters `f`, from the caches before (`0`)
      and after (`1`). */
  ghost predicate LeaderboardOutcome(f: Filters, now: real, upstream: (string, Code) -> FetchOutcome,
                                     load: string -> Option<seq<int>>, parse: string -> Option<real>,
                                     data0: map<string, Entry>, icons0: map<string, Icon>,
                                     data1: map<string, Entry>, icons1: map<string, Icon>, answer: Answer)
  {
    var r := Serve(data0, CacheKey(f.gameMode, f.rankCode), now, upstream(f.gameMode, f.rankCode));
    var title := LeaderboardTitle(f);
    data1 == r.cache
    && answer.status == "🔍 正在生成 " + title + "..."
    && (r.data == [] ==> answer == Warning(answer.status, "⚠️ " + RankLabel(f) + " 暂无数据。") && icons1 == icons0)
    && (r.data != [] ==>
          ChartOf(answer, title, LeaderboardHeaders(f.gameMode), LeaderboardRows(RankedRecords(r.data, f), f.gameMode),
                  LeaderboardWidths(f.gameMode), parse, icons0, icons1, load))
  }

  /** The single-hero answer for `hero`, from the caches before and after. */
  ghost predicate HeroOutcome(hero: Hero, now: real, upstream: (string, Code) -> FetchOutcome,
                              load: string -> Option<seq<int>>, parse: string -> Option<real>,
                              data0: map<string, Entry>, icons0: map<string, Icon>,
                              data1: map<string, Entry>, icons1: map<string, Icon>, answer: Answer)
  {
    var rows := HeroRows(RANK_ORDER, TierAnswers(data0, now, upstream), hero);
    data1 == CacheAfterTiers(data0, now, upstream, |RANK_ORDER|)
    && answer.status == "🔍 正在生成 " + HeroCn(hero) + " 数据图表..."
    && (rows == [] ==> answer == Warning(answer.status, NO_HERO_DATA) && icons1 == icons0)
    && (rows != [] ==> ChartOf(answer, HeroTitle(HeroCn(hero)), HERO_HEADERS, rows, HERO_WIDTHS, parse, icons0, icons1, load))
  }

  /** Only an empty fetch gives the warning: when the fetch has records but
      none of the requested role, the answer is a chart with no rows. */
  lemma NoMatchingRoleStillCharts(f: Filters, now: real, upstream: (string, Code) -> FetchOutcome,
                                  load: string -> Option<seq<int>>, parse: string -> Option<real>,
                                  data0: map<string, Entry>, icons0: map<string, Icon>,
                                  data1: map<string, Entry>, icons1: map<string, Icon>, answer: Answer)
    requires LeaderboardOutcome(f, now, upstream, load, parse, data0, icons0, data1, icons1, answer)
    requires var r := Serve(data0, CacheKey(f.gameMode, f.rankCode), now, upstream(f.gameMode, f.rankCode));
      r.data != [] && RoleFilter(r.data, f.roleCode) == []
    ensures answer.Chart? && answer.picture.height == CanvasHeight(0) && answer.icons == [] && icons1 == icons0
  {
    var r := Serve(data0, CacheKey(f.gameMode, f.rankCode), now, upstream(f.gameMode, f.rankCode));
    assert RankedRecords(r.data, f) == [];
    assert LeaderboardRows([], f.gameMode) == [];
  }

  /** The single-hero answer is the warning exactly when no tier answered
      with records; a tier that answered without the hero still gives a row. */
  lemma HeroWarningIffNoTierAnswered(hero: Hero, now: real, upstream: (string, Code) -> FetchOutcome,
                                     load: string -> Option<seq<int>>, parse: string -> Option<real>,
                                     data0: map<string, Entry>, icons0: map<string, Icon>,
                                     data1: map<string, Entry>, icons1: map<string, Icon>, answer: Answer)
    requires HeroOutcome(hero, now, upstream, load, parse, data0, icons0, data1, icons1, answer)
    ensures var lists := TierAnswers(data0, now, upstream);
      answer.Warning? <==> forall k :: 0 <= k < |lists| ==> lists[k] == []
  {
    HeroChartEmptyIffNoTierAnswered(data0, now, upstream, hero);
  }

  // ---------------------------------------------------------------------
  // The plugin object
  // ---------------------------------------------------------------------

  class OWHeroStatsPlugin {
    /** Upstream answers by cache key, with the time they were requested. */
    var dataCache: map<string, Entry>
    /** Loaded portraits by hero id. */
    var iconCache: map<string, Icon>

    /** Neither cache ever holds a useless entry: no empty answer and no placeholder. */
    ghost predicate Valid()
      reads this
    {
      NoEmptyEntries(dataCache) && NoPlaceholderMemoised(iconCache)
    }

    constructor ()
      ensures dataCache == map[] && iconCache == map[]
      ensures Valid()
    {
      dataCache := map[];
      iconCache := map[];
    }

    /** `_get_api_data`: the request for one mode and rank at time `now`,
        where `upstream` is what the endpoint would answer. */
    method GetApiData(rank: Code, mode: string, now: real, upstream: FetchOutcome) returns (data: seq<HeroRecord>)
      requires Valid()
      modifies this
      ensures Valid()
      ensures var r := Serve(old(dataCache), CacheKey(mode, rank), now, upstream);
        data == r.data && dataCache == r.cache
      ensures iconCache == old(iconCache)
    {
      ServeKeepsEntriesNonEmpty(dataCache, CacheKey(mode, rank), now, upstream);
      var cacheKey := CacheKey(mode, rank);
      if cacheKey in dataCache {
        if now - dataCache[cacheKey].time < CACHE_TTL {
          return dataCache[cacheKey].data;
        }
      }
      match upstream
      case Raised =>
        data := [];
      case Answered(status, body) =>
        if status == 200 {
          if body != [] {
            dataCache := dataCache[cacheKey := Entry(body, now)];
          }
          data := body;
        } else {
          data := [];
        }
    }

    /** `_get_hero_icon`. */
    method GetHeroIcon(heroId: string, load: string -> Option<seq<int>>) returns (icon: Icon)
      requires Valid()
      modifies this
      ensures Valid()
      ensures var r := LookupIcon(old(iconCache), heroId, load);
        icon == r.icon && iconCache == r.cache
      ensures dataCache == old(dataCache)
    {
      LookupIconKeepsMemo(iconCache, heroId, load);
      if heroId in iconCache {
        return iconCache[heroId];
      }
      match load(heroId)
      case Some(pixels) =>
        icon := Portrait(heroId, pixels);
        iconCache := iconCache[heroId := icon];
      case None =>
        icon := Transparent;
    }

    /** The icon lookups the renderer makes, one per row that names a hero, in row order. */
    method LoadRowIcons(rows: seq<seq<string>>, load: string -> Option<seq<int>>) returns (icons: seq<Icon>)
      requires Valid()
      modifies this
      ensures Valid()
      ensures var r := LookupIcons(old(iconCache), IconIds(rows), load);
        icons == r.icons && iconCache == r.cache
      ensures dataCache == old(dataCache)
    {
      icons := [];
      var i := 0;
      while i < |rows|
        invariant 0 <= i <= |rows|
        invariant Valid()
        invariant dataCache == old(dataCache)
        invariant var all := LookupIcons(old(iconCache), IconIds(rows), load);
          var rest := LookupIcons(iconCache, IconIds(rows[i..]), load);
          icons + rest.icons == all.icons && rest.cache == all.cache
      {
        var row := rows[i];
        assert rows[i..][0] == row && rows[i..][1..] == rows[i + 1..];
        ghost var ids := IconIds(rows[i..]);
        if |row| > 0 && row[|row| - 1] != "" {
          assert ids[0] == row[|row| - 1] && ids[1..] == IconIds(rows[i + 1..]);
          var icon := GetHeroIcon(row[|row| - 1], load);
          icons := icons + [icon];
        } else {
          assert ids == IconIds(rows[i + 1..]);
        }
        i := i + 1;
      }
    }

    /** The loop over `RANK_ORDER` building the single-hero rows. */
    method SingleHeroRows(hero: Hero, now: real, upstream: (string, Code) -> FetchOutcome) returns (rows: seq<seq<string>>)
      requires Valid()
      modifies this
      ensures Valid()
      ensures rows == HeroRows(RANK_ORDER, TierAnswers(old(dataCache), now, upstream), hero)
      ensures dataCache == CacheAfterTiers(old(dataCache), now, upstream, |RANK_ORDER|)
      ensures iconCache == old(iconCache)
    {
      ghost var answers := TierAnswers(dataCache, now, upstream);
      rows := [];
      var k := 0;
      while k < |RANK_ORDER|
        invariant 0 <= k <= |RANK_ORDER|
        invariant Valid()
        invariant dataCache == CacheAfterTiers(old(dataCache), now, upstream, k)
        invariant rows == HeroRows(RANK_ORDER[..k], answers[..k], hero)
        invariant iconCache == old(iconCache)
      {
        var rankEn := RANK_ORDER[k];
        TierStep(old(dataCache), now, upstream, hero, k);
        var dataList := GetApiData(StrCode(rankEn), RANKED_MODE, now, upstream(RANKED_MODE, StrCode(rankEn)));
        if dataList != [] {
          rows := rows + [HeroRow(rankEn, dataList, hero)];
        }
        k := k + 1;
      }
      assert RANK_ORDER[..k] == RANK_ORDER && answers[..k] == answers;
    }

    /** Leaderboard mode: fetch, filter, sort, keep twenty, draw. */
    method LeaderboardQuery(f: Filters, now: real, upstream: (string, Code) -> FetchOutcome,
                            load: string -> Option<seq<int>>, parse: string -> Option<real>) returns (answer: Answer)
      requires Valid()
      modifies this
      ensures Valid()
      ensures LeaderboardOutcome(f, now, upstream, load, parse, old(dataCache), old(iconCache), dataCache, iconCache, answer)
    {
      var title := LeaderboardTitle(f);
      var status := "🔍 正在生成 " + title + "...";
      var dataList := GetApiData(f.rankCode, f.gameMode, now, upstream(f.gameMode, f.rankCode));
      if dataList == [] {
        return Warning(status, "⚠️ " + RankLabel(f) + " 暂无数据。");
      }
      var filtered := RoleFilter(dataList, f.roleCode);
      var ranked := SortDesc(filtered, f.sortKey);
      var rows := BuildLeaderboardRows(ranked, f.gameMode);
      var headers, widths := LeaderboardHeaders(f.gameMode), LeaderboardWidths(f.gameMode);
      LeaderboardChartFits(ranked, f.gameMode);
      var picture := DrawTable(title, headers, rows, widths, parse);
      var icons := LoadRowIcons(rows, load);
      answer := Chart(status, picture, icons);
    }

    /** Single-hero mode: one row per tier that answered, then draw. */
    method HeroQuery(hero: Hero, now: real, upstream: (string, Code) -> FetchOutcome,
                     load: string -> Option<seq<int>>, parse: string -> Option<real>) returns (answer: Answer)
      requires Valid()
      modifies this
      ensures Valid()
      ensures HeroOutcome(hero, now, upstream, load, parse, old(dataCache), old(iconCache), dataCache, iconCache, answer)
    {
      var status := "🔍 正在生成 " + HeroCn(hero) + " 数据图表...";
      var rows := SingleHeroRows(hero, now, upstream);
      if rows == [] {
        return Warning(status, NO_HERO_DATA);
      }
      HeroChartFits(TierAnswers(old(dataCache), now, upstream), hero);
      var picture := DrawTable(HeroTitle(HeroCn(hero)), HERO_HEADERS, rows, HERO_WIDTHS, parse);
      var icons := LoadRowIcons(rows, load);
      answer := Chart(status, picture, icons);
    }

    /** `query_ow_stats` on the command's tokens: a token naming a hero picks
        the single-hero chart for the first such token; otherwise the tokens
        set the leaderboard's filters. */
    method QueryOwStats(args: seq<string>, now: real, upstream: (string, Code) -> FetchOutcome,
                        load: string -> Option<seq<int>>, parse: string -> Option<real>) returns (answer: Answer)
      requires Valid()
      modifies this
      ensures Valid()
      ensures (forall i :: 0 <= i < |args| ==> !IsHeroToken(HERO_ORDER, args[i])) ==>
        LeaderboardOutcome(Resolve(args), now, upstream, load, parse, old(dataCache), old(iconCache), dataCache, iconCache, answer)
      ensures (exists i :: 0 <= i < |args| && IsHeroToken(HERO_ORDER, args[i])) ==>
        exists hero :: hero in HERO_ORDER && FirstNamedHero(args, hero)
          && HeroOutcome(hero, now, upstream, load, parse, old(dataCache), old(iconCache), dataCache, iconCache, answer)
    {
      var target := DetectHero(args, HERO_ORDER);
      if target.Some? {
        answer := HeroQuery(target.value, now, upstream, load, parse);
      } else {
        var f := ResolveTokens(args);
        answer := LeaderboardQuery(f, now, upstream, load, parse);
      }
    }
  }
}
