/** The chart titles (main.py:279-296 for the leaderboard, main.py:243 for a
    single hero): display labels looked up with a fallback, and the parts
    joined with single spaces. */
module Title {
  import opened Common
  import opened Vocabulary
  import opened Resolver

  /** The fixed opening part, `f"守望先锋国服 S{CURRENT_SEASON}"`. */
  const SEASON_PART: string := "守望先锋国服 S20"

  lemma SeasonPartNamesSeason()
    ensures SEASON_PART == "守望先锋国服 S" + NatToString(CURRENT_SEASON)
  {
    assert NatToString(2) == "2" && NatToString(0) == "0";
  }

  const QUICK_PART: string := "快速模式"

  /** `DISPLAY_CN_MAP.get(key, fallback)`. */
  function Label(key: Code, fallback: string): string
  {
    if key in DISPLAY_CN_MAP then DISPLAY_CN_MAP[key] else fallback
  }

  function RankLabel(f: Filters): string
  {
    Label(f.rankCode, "未知分段")
  }

  function RoleLabel(f: Filters): string
  {
    Label(StrCode(f.roleCode), "未知职责")
  }

  function SortLabel(f: Filters): string
  {
    Label(StrCode(f.sortKey), "未知")
  }

  /** The parts of the leaderboard title: the season, then in quick play the
      mode name and only the labels that narrow the query, in ranked play
      both labels, and last the sort label. */
  function TitleParts(f: Filters): seq<string>
  {
    [SEASON_PART]
    + (if f.gameMode == QUICK_MODE then
         [QUICK_PART]
         + (if f.rankCode != ALL_RANKS then [RankLabel(f)] else [])
         + (if f.roleCode != "0" then [RoleLabel(f)] else [])
       else [RankLabel(f), RoleLabel(f)])
    + [SortLabel(f)]
  }

  function LeaderboardTitle(f: Filters): string
  {
    Join(" ", TitleParts(f))
  }

  /** The single-hero chart's title. */
  function HeroTitle(heroCn: string): string
  {
    SEASON_PART + " " + heroCn + " 数据趋势"
  }

  /** Every leaderboard title opens with the season part and closes with the
      sort label, each set off by a space. */
  lemma TitleFrame(f: Filters)
    ensures |SEASON_PART + " "| <= |LeaderboardTitle(f)|
    ensures LeaderboardTitle(f)[..|SEASON_PART + " "|] == SEASON_PART + " "
    ensures |" " + SortLabel(f)| <= |LeaderboardTitle(f)|
    ensures LeaderboardTitle(f)[|LeaderboardTitle(f)| - |" " + SortLabel(f)|..] == " " + SortLabel(f)
  {
    var parts := TitleParts(f);
    assert parts[0] == SEASON_PART && parts[|parts| - 1] == SortLabel(f);
    JoinEnds(" ", parts);
  }

  /** For settled filters no label falls back to its "未知" default: every
      value the resolution can produce has a display label. */
  lemma SettledLabelsKnown(f: Filters)
    requires Settled(f)
    ensures f.rankCode in DISPLAY_CN_MAP && RankLabel(f) == DISPLAY_CN_MAP[f.rankCode] && RankLabel(f) != "未知分段"
    ensures StrCode(f.roleCode) in DISPLAY_CN_MAP && RoleLabel(f) == DISPLAY_CN_MAP[StrCode(f.roleCode)] && RoleLabel(f) != "未知职责"
    ensures StrCode(f.sortKey) in DISPLAY_CN_MAP && SortLabel(f) == DISPLAY_CN_MAP[StrCode(f.sortKey)] && SortLabel(f) != "未知"
  {
    RankCodesDisplayable();
  }

  /** The resolution's filters never produce an "未知" label. */
  lemma ResolvedTitleLabelsKnown(args: seq<string>)
    ensures RankLabel(Resolve(args)) != "未知分段"
    ensures RoleLabel(Resolve(args)) != "未知职责"
    ensures SortLabel(Resolve(args)) != "未知"
  {
    ResolveSettled(args);
    SettledLabelsKnown(Resolve(args));
  }

  /** In ranked play the title always has four parts, with both labels. */
  lemma RankedTitleShowsBothLabels(f: Filters)
    requires f.gameMode != QUICK_MODE
    ensures |TitleParts(f)| == 4
    ensures RankLabel(f) in TitleParts(f) && RoleLabel(f) in TitleParts(f)
  {
    assert TitleParts(f) == [SEASON_PART, RankLabel(f), RoleLabel(f), SortLabel(f)];
  }

  const RANK_LABELS: set<string> := {"所有分段", "青铜", "白银", "黄金", "白金", "钻石", "大师", "宗师"}
  const ROLE_LABELS: set<string> := {"所有职责", "输出", "重装", "支援"}
  const SORT_LABELS: set<string> := {"胜率", "出场率", "禁用率", "KDA"}

  lemma SettledRankLabel(f: Filters)
    requires Settled(f)
    ensures RankLabel(f) in RANK_LABELS
  { }

  lemma SettledRoleAndSortLabels(f: Filters)
    requires Settled(f)
    ensures RoleLabel(f) in ROLE_LABELS && SortLabel(f) in SORT_LABELS
  { }

  /** No label of one kind spells a label of another kind, the season part or
      the quick-play part. */
  lemma LabelKindsDisjoint()
    ensures RANK_LABELS !! ROLE_LABELS && RANK_LABELS !! SORT_LABELS && ROLE_LABELS !! SORT_LABELS
    ensures SEASON_PART !in RANK_LABELS + ROLE_LABELS + SORT_LABELS
    ensures QUICK_PART !in RANK_LABELS + ROLE_LABELS + SORT_LABELS
  { }

  /** In quick play, with settled filters, the rank label is in the title
      exactly when a tier was chosen, and the role label exactly when a role
      was chosen. */
  lemma QuickTitleShowsNarrowingLabels(f: Filters)
    requires Settled(f) && f.gameMode == QUICK_MODE
    ensures TitleParts(f)[1] == QUICK_PART
    ensures RankLabel(f) in TitleParts(f) <==> f.rankCode != ALL_RANKS
    ensures RoleLabel(f) in TitleParts(f) <==> f.roleCode != "0"
  {
    SettledRankLabel(f);
    SettledRoleAndSortLabels(f);
    LabelKindsDisjoint();
    var r, o, s := RankLabel(f), RoleLabel(f), SortLabel(f);
    assert r != o && r != s && o != s;
    assert r != SEASON_PART && r != QUICK_PART && o != SEASON_PART && o != QUICK_PART;
    var parts := TitleParts(f);
    assert parts == [SEASON_PART, QUICK_PART]
      + (if f.rankCode != ALL_RANKS then [r] else []) + (if f.roleCode != "0" then [o] else []) + [s];
  }
}
