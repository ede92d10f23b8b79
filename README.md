# OW hero statistics plugin — a Dafny model

This project models the deterministic core of the `ow数据` chat command in
`main.py`. The command reads hero statistics for Overwatch 2 on the Chinese
servers and answers with a chart image. The model covers:

- the time-boxed cache in front of the statistics endpoint (`_get_api_data`);
- the choice between single-hero mode and leaderboard mode, and the
  token-by-token resolution of the leaderboard filters (game mode, rank
  code, role code, sort key);
- the leaderboard title;
- the rows of both charts: role filter, stable descending sort, the first
  twenty records and their numbering for the leaderboard; one row per
  answering tier for a single hero;
- the table renderer `_draw_table`, as the drawing commands it issues
  (canvas size, column and row offsets, shading, the icon and name shift,
  the win-rate colour rule, the caption);
- the icon memo `_get_hero_icon`.

The plugin object is the class `Plugin.OWHeroStatsPlugin`. Its fields
`dataCache` and `iconCache` are the two dictionaries the source updates in
place. Each method that changes them is proved against a pure function of
the old state and its inputs:

- `Serve` for one cached request;
- `CacheAfterTiers` and `TierAnswers` for the eight requests of the
  single-hero chart;
- `LookupIcon` and `LookupIcons` for the icon memo.

The loops of the source are methods with loop invariants, proved equal to
specification functions:

- the token scan: `DetectHero` against `IsHeroToken` and `NamesHero` (it
  returns the first token that names a hero, or none), and `ResolveTokens`
  against `Resolve`;
- the row loops: `BuildLeaderboardRows` against `LeaderboardRows`, and
  `SingleHeroRows` against `HeroRows`;
- the renderer loops: `DrawHeaders`, `DrawRows`, `DrawRow` and
  `DrawMetrics`, against `TableCmds`.

The lemmas then state what the source promises about those functions.

Files, in dependency order:

- `common.dfy`: substring test, ASCII lower-casing, joining, decimal
  formatting, sums.
- `vocabulary.dfy`: constants, tables and the hero roster.
- `records.dfy`: the upstream's records and fetch outcomes.
- `resolver.dfy`: hero detection and filter resolution.
- `title.dfy`: the chart titles.
- `cache.dfy`: the result cache.
- `ranking.dfy`: the chart rows.
- `layout.dfy`: the renderer.
- `plugin.dfy`: the icon memo, the single-hero tiers, the chart shapes, the
  command, and the plugin class.

Three behaviours of the code that a reader might not expect:

- An expired cache entry is never handed back as a last-known-good answer.
  Without a fresh entry, the upstream's answer (or nothing) is returned
  (`MissReturnsUpstream`).
- The single-hero chart skips tiers whose request returned no records. It
  does not draw eight rows with dashes. When no tier answered, the answer
  is the warning, not an image (`HeroWarningIffNoTierAnswered`). Dashes
  appear only for a tier that answered without the hero.
- Only an empty fetch produces the leaderboard warning. A fetch whose
  records all fail the role filter draws a chart with no rows
  (`NoMatchingRoleStillCharts`).

## Model

| member | source | states |
|---|---|---|
| Common.Lower | main.py:258 | `lower()` keeps the length and lower-cases each character |
| Common.Without | main.py:183 | `replace("%", "")` leaves no `%` and keeps exactly the other characters; text without `%` is returned unchanged |
| Common.WithoutAppend | main.py:183 | removal works piece by piece, so the kept characters stay in their original order |
| Common.NatToStringRoundTrip | main.py:316 | `f"{i+1}"` is a non-empty digit string whose decimal value is `i+1` |
| Vocabulary.HeroOfIdInverts | main.py:65-77 | every hero id determines its hero |
| Vocabulary.HeroOfCnInverts | main.py:65-77 | every Chinese name determines its hero |
| Vocabulary.HeroIdInjective | main.py:65-77 | two heroes with the same id are the same hero, so the name table has one key per hero |
| Vocabulary.HeroCnInjective | main.py:65-78 | two heroes with the same Chinese name are the same hero, so inverting the table loses no entry |
| Vocabulary.IdsAndNamesDisjoint | main.py:65-77 | no id is spelled like any Chinese name |
| Vocabulary.NameMapLookup | main.py:65-78 | a listed hero is found under its id in the name table and under its Chinese name in the inverted one |
| Vocabulary.NameMapKeys | main.py:65-78 | every key of either table comes from a listed hero |
| Vocabulary.InverseNameMapInverts | main.py:78 | the dict comprehension undoes the name table, and the name table undoes it |
| Vocabulary.CnToHeroIdInvertsNameMap | main.py:65-78 | `CN_TO_HERO_ID` is exactly the inverse of `HERO_NAME_MAP`, both directions |
| Vocabulary.RankCodesDisplayable | main.py:32-54 | every rank code a token selects, every tier and the "all" sentinel has a display label |
| Vocabulary.RoleCodesDisplayable | main.py:35-62 | every role code a token selects has a display label |
| Resolver.NamedHeroUnique | main.py:207-213 | a token names at most one hero, so the order of the inner scan cannot change the pick |
| Resolver.HeroTokenIffNamesListedHero | main.py:208-209 | a token is a key of either table exactly when it equals a listed hero's name or id |
| Resolver.FindNamedHero | main.py:208-212 | the inner scan finds nothing exactly when the token is no hero's name or id; otherwise it finds a listed hero the token names |
| Resolver.DetectHero | main.py:203-213 | no hero exactly when no token is a name or id; otherwise a listed hero named by a token with no hero token before it |
| Resolver.ResolveTokens | main.py:252-277 | the loop's four settings equal the left-to-right fold of the precedence chain from the defaults |
| Resolver.LastModeTokenWins | main.py:259-263 | the last mode token decides the mode; with none it is ranked play |
| Resolver.LastRankTokenWins | main.py:265-266 | the last rank token decides the rank; with none it is -127 |
| Resolver.LastRoleTokenWins | main.py:267-268 | the last role token decides the role; with none it is "0" |
| Resolver.LastSortTokenWins | main.py:270-277 | the last sort token decides the sort key; with none it is the win rate |
| Resolver.Recognised | main.py:257-277 | picks out exactly the tokens of the input that the chain does not ignore |
| Resolver.RecognisedAppend | main.py:257-277 | the recognised tokens of a split input are those of each part, in input order |
| Resolver.IgnoredTokensChangeNothing | main.py:257-277 | dropping every unrecognised token, wherever it stands, gives the same filters |
| Resolver.TableCodesSettled | main.py:45-62 | every rank-table code is "all" or a tier other than Champion; every role-table code is "0" to "3" |
| Resolver.ResolveSettled | main.py:252-277 | any token list ends in one of the two modes, "all" or a non-Champion tier, a role "0"-"3" and one of the four sort keys |
| Resolver.ModeWordsSpelledOut | main.py:260-263 | each mode test holds exactly when the token contains one of its four words |
| Resolver.KeywordFreeToken | main.py:257-277 | a token holding no keyword's lead character is only looked up in the rank and role tables |
| Resolver.AllTokenSetsRankNotRole | main.py:265-268 | "所有" is also a role token, but it always sets the rank to -127 |
| Resolver.AllEnglishTokenSetsRankNotRole | main.py:265-268 | the same for "all" |
| Resolver.ChampionTokenIgnored | main.py:45-54 | "冠军" is in no table and holds no keyword, so it is ignored |
| Resolver.DiamondToken | main.py:265-266 | "钻石" selects the Diamond tier |
| Resolver.SupportToken | main.py:267-268 | "支援" selects role "3" |
| Resolver.PickRateToken | main.py:270-271 | "出场" selects the pick-rate sort |
| Resolver.DiamondSupportPickRateExample | main.py:252-277 | `["钻石","支援","出场"]` gives ranked play, Diamond, role "3", pick-rate sort |
| Title.SeasonPartNamesSeason | main.py:285 | the opening part is the fixed prefix followed by the decimal season number |
| Title.TitleFrame | main.py:285-296 | every leaderboard title starts with the season part and a space and ends with a space and the sort label |
| Title.SettledLabelsKnown | main.py:280-282 | for settled filters each label is found in the display table, never the "未知" fallback |
| Title.ResolvedTitleLabelsKnown | main.py:279-282 | whatever the tokens, no title label is an "未知" fallback |
| Title.RankedTitleShowsBothLabels | main.py:291-295 | in ranked play the title has four parts, including both the rank and the role label |
| Title.LabelKindsDisjoint | main.py:35-43 | no rank label spells a role or sort label (and so on), nor the season or quick-play part |
| Title.QuickTitleShowsNarrowingLabels | main.py:287-290 | in quick play the second part is "快速模式"; the rank label appears exactly when a tier was chosen, the role label exactly when a role was chosen |
| ResultCache.FreshHitServesStored | main.py:85-87 | a present entry younger than 1800 is returned as stored, with no request and the cache unchanged |
| ResultCache.MissReturnsUpstream | main.py:85-100 | without a fresh entry the upstream is always asked and its answer (200) or nothing is returned; an expired entry is never returned |
| ResultCache.OnlySuccessWrites | main.py:92-97 | the cache changes only on a 200 with records, then only at the key, stamped with the time taken before the request; other keys are untouched |
| ResultCache.FailureLeavesCache | main.py:89-100 | an exception, a non-200 status or an empty answer leaves the cache as it was and, on a miss, returns nothing |
| ResultCache.ServeKeepsEntriesNonEmpty | main.py:95-96 | no call ever stores an empty answer |
| ResultCache.HitsAreNonEmpty | main.py:85-96 | an answer served from the cache always has records |
| ResultCache.WriteThenHit | main.py:83-96 | a stored answer is served again without a request by every call within the lifetime |
| ResultCache.EmptyThenSuccess | main.py:92-97 | for an absent or expired entry, an empty answer stores nothing and the next answer with records is stored |
| ResultCache.CacheKeyInjective | main.py:82 | two queries (mode, rank) with the same key are the same query |
| Ranking.RoleFilter | main.py:305 | keeps exactly the records of the requested role (all for "0"), drawn from the input |
| Ranking.RoleFilterAppend | main.py:305 | filtering a split list filters each part, so kept records stay in fetched order |
| Ranking.AllRolesKeepEverything | main.py:305 | role "0" keeps every record in fetched order |
| Ranking.SortDescOrders | main.py:306 | the sorted list is non-increasing in the sort value and a permutation of its input |
| Ranking.SortDescStable | main.py:306 | records with equal sort value keep their fetched order |
| Plugin.RankedRecordsKeepFetchOrder | main.py:305-306 | among the kept records of one sort value, the leaderboard order is the fetched order |
| Ranking.DisplayNameRoundTrip | main.py:310-311 | a known id is shown by its Chinese name, which maps back to the id; an unknown id is shown as it is |
| Ranking.LeaderboardRowShape | main.py:309-331 | a row has 6 cells in quick play and 7 in ranked play, starts with the number i+1 and the display name, ends with the lower-cased id |
| Ranking.LeaderboardRows | main.py:309 | there are min(n, 20) rows |
| Ranking.LeaderboardRowsShape | main.py:308-331 | at most twenty rows, row i numbered i+1, named after and ending with the id of the i-th ranked record |
| Ranking.BuildLeaderboardRows | main.py:308-331 | the append loop over `filtered[:20]` builds exactly `LeaderboardRows` |
| Ranking.FindHero | main.py:223 | nothing exactly when no record has the id; otherwise the first record with it |
| Ranking.HeroRowShape | main.py:223-236 | seven cells: tier label, Chinese name, then the win, pick and ban rates and KDA of the first record with the hero's id, or four placeholders exactly when the tier's answer lacks the hero; the id last |
| Ranking.HeroRowsFollowTiers | main.py:218-236 | one row per answering tier, in tier order, each built from that tier's answer |
| Ranking.HeroRowsShape | main.py:226-236 | every single-hero row has seven cells and ends with the hero's id |
| Layout.ColumnStep | main.py:150-153 | each column starts one width to the right of the previous one |
| Layout.ColumnsInsideCanvas | main.py:130-153 | column 0 starts at the padding, columns run left to right, and the last column ends exactly a padding from the right edge |
| Layout.RowsStacked | main.py:127-191 | row 0 starts at 130, rows are 50 apart, every row ends above the bottom padding, and the last ends exactly a padding above the bottom edge |
| Layout.ColourRule | main.py:178-186 | green exactly for the first metric with a "%" parsing above 52; red likewise below 48; every other cell, including a first metric from 48 to 52, the default colour, and no other colour is used |
| Layout.HighWinRateGreen | main.py:181-184 | "53.2%" in the first metric is green |
| Layout.LowWinRateRed | main.py:181-185 | "47.9%" in the first metric is red |
| Layout.EvenWinRateDefault | main.py:181-186 | "50.0%" keeps the default colour |
| Layout.DrawHeaders | main.py:149-153 | the header loop emits one label per header at the running column offset |
| Layout.DrawMetrics | main.py:177-189 | the metric loop emits each cell from the third to the one before the id, in its column with its colour |
| Layout.DrawRow | main.py:158-189 | one row's band (even rows), number, icon and name, and metrics |
| Layout.DrawRows | main.py:155-191 | the row loop emits every row's commands, one row height apart |
| Layout.DrawTable | main.py:119-194 | the canvas is `sum(widths)+40` by `150+50·rows`, and the commands are the title, header band, headers, rows and caption, in that order |
| Layout.MetricCmdsAreText | main.py:188 | metric cells are text in the text font at the row's text line |
| Layout.RowShadedIffEven | main.py:158-159 | a row has a band exactly when its index is even |
| Layout.NameShiftedIffIcon | main.py:167-175 | the icon is pasted exactly when the trailing id is non-empty, and the name is then 50 to the right |
| Layout.ShadedRowCount | main.py:157-159 | of n rows, (n+1)/2 are shaded |
| Plugin.LookupIconKeepsMemo | main.py:102-117 | the memo never holds the placeholder, keeps every entry and adds only the looked-up id |
| Plugin.LoadedIconIsReused | main.py:104-113 | once an icon loads, later lookups return it without loading |
| Plugin.FailedLoadIsRetried | main.py:107-117 | a failed load returns the placeholder, is not memoised, and the next lookup tries again |
| Plugin.LookupIconsKeepsMemo | main.py:167-171 | looking up a row list's ids keeps the memo free of placeholders, one icon per id |
| Plugin.TierKeysDistinct | main.py:219-220 | the eight tier requests use eight different cache keys |
| Plugin.LaterTierEntryUntouched | main.py:219-220 | the earlier tiers' requests leave a later tier's entry as it was |
| Plugin.TierRequestsIndependent | main.py:219-220 | each tier's request returns what it would from the cache as it was before the first |
| Plugin.CacheAfterTiersNonEmpty | main.py:219-220 | the tier requests keep the "no empty answer stored" invariant |
| Plugin.TierStep | main.py:219-236 | one pass moves the cache one tier on, returns that tier's answer, and adds a row exactly when it has records |
| Plugin.HeroChartEmptyIffNoTierAnswered | main.py:218-238 | at most eight rows, none exactly when no tier answered |
| Plugin.LeaderboardChartFits | main.py:333-342 | headers and widths match, every row fits the renderer's indexing, 660 or 770 wide, at most 1150 high |
| Plugin.HeroChartFits | main.py:242-244 | every row fits, 760 wide, at most 550 high |
| Plugin.NoMatchingRoleStillCharts | main.py:300-342 | a fetch with records but none of the role gives a chart with no rows, not the warning |
| Plugin.HeroWarningIffNoTierAnswered | main.py:218-240 | the single-hero answer is the warning exactly when no tier answered with records |
| Plugin.OWHeroStatsPlugin.constructor | main.py:27-29 | both caches start empty |
| Plugin.OWHeroStatsPlugin.GetApiData | main.py:80-100 | returns `Serve`'s answer and leaves the cache as `Serve` says; the memo is untouched |
| Plugin.OWHeroStatsPlugin.GetHeroIcon | main.py:102-117 | returns `LookupIcon`'s icon and memo; the result cache is untouched |
| Plugin.OWHeroStatsPlugin.LoadRowIcons | main.py:167-171 | looks up the icon of every row with an id, in row order, as `LookupIcons` says |
| Plugin.OWHeroStatsPlugin.SingleHeroRows | main.py:218-236 | the tier loop builds `HeroRows` of every tier's answer from the starting cache; the cache ends as after the eight requests |
| Plugin.OWHeroStatsPlugin.LeaderboardQuery | main.py:279-342 | warning with the rank label on an empty fetch; otherwise the chart of the filtered, sorted, truncated rows under the title |
| Plugin.OWHeroStatsPlugin.HeroQuery | main.py:215-248 | warning when no tier answered; otherwise the single-hero chart under the hero title |
| Plugin.OWHeroStatsPlugin.QueryOwStats | main.py:196-342 | with no hero token, the leaderboard for the resolved filters; otherwise the chart of the hero named by the first hero token |

## Left out

- The HTTP request (`requests.get`, its parameters, timeout and TLS
  setting, `resp.json()`, and unwrapping the `data` field of a dict) is an
  abstract `FetchOutcome`: an exception, or a status with the record list.
- The clock is a `now` parameter, and one `now` serves a whole command. The
  source calls `time.time()` at every request, so the eight tier requests of
  one single-hero command may see slightly different times.
- `float()` of a metric cell is an abstract `parse` function. The sort
  value `float(x.get(sort_key, 0))` is a real carried by each record next to
  its printed text. The model has no NaN and no parse error while sorting.
- PIL is left out: image buffers, fonts and their fallback, rectangles,
  text rendering, alpha pasting and PNG encoding. The renderer emits
  drawing commands instead.
- Icon file I/O (`os.path`, `Image.open`, conversion, resizing) is an
  abstract loader. Logging is left out.
- The framework plumbing is left out: the decorators, the async generator
  and its `yield`s, the progress message's delivery, `message_str`
  extraction and the whitespace split into tokens.
- Common.Lower: lower-cases ASCII letters only; Python's `str.lower()`
  also folds other scripts.
- Ranking.FindHero: a record without `hero_id` raises `KeyError` in the
  source; the model's records always have an id.
- Plugin.OWHeroStatsPlugin.LoadRowIcons: the source loads an icon while
  drawing each row, and the model loads the icons after drawing, in the same
  row order. The memo and the icons come out the same.
