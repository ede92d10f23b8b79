/** Turning the command's free-text tokens into a query (main.py:203-213 and
    252-277): either one hero named by a token, or leaderboard filters. */
module Resolver {
  import opened Common
  import opened Vocabulary

  // ---------------------------------------------------------------------
  // Single-hero detection
  // ---------------------------------------------------------------------

  /** The token spells the hero's Chinese name or its id (case-sensitive). */
  predicate NamesHero(arg: string, h: Hero)
  {
    arg == HeroCn(h) || arg == HeroId(h)
  }

  /** The token is a key of either dictionary built from the roster. */
  predicate IsHeroToken(roster: seq<Hero>, arg: string)
  {
    arg in InverseNameMap(roster) || arg in NameMap(roster)
  }

  /** A token names at most one hero, so the order in which the roster is
      scanned cannot change which hero a token selects. */
  lemma NamedHeroUnique(arg: string, a: Hero, b: Hero)
    requires NamesHero(arg, a) && NamesHero(arg, b)
    ensures a == b
  {
    IdsAndNamesDisjoint(a, b);
    IdsAndNamesDisjoint(b, a);
    if HeroId(a) == HeroId(b) { HeroIdInjective(a, b); }
    if HeroCn(a) == HeroCn(b) { HeroCnInjective(a, b); }
  }

  /** A token is a dictionary key exactly when it names some hero of the roster. */
  lemma HeroTokenIffNamesListedHero(roster: seq<Hero>, arg: string)
    ensures IsHeroToken(roster, arg) <==> exists j :: 0 <= j < |roster| && NamesHero(arg, roster[j])
  {
    NameMapKeys(roster, arg);
    if IsHeroToken(roster, arg) {
      var h :| h in roster && NamesHero(arg, h);
      var j :| 0 <= j < |roster| && roster[j] == h;
    }
    if exists j :: 0 <= j < |roster| && NamesHero(arg, roster[j]) {
      var j :| 0 <= j < |roster| && NamesHero(arg, roster[j]);
      NameMapLookup(roster, roster[j]);
    }
  }

  /** The inner scan: the first hero of the roster that the token names. */
  method FindNamedHero(arg: string, roster: seq<Hero>) returns (found: Option<Hero>)
    ensures found.None? <==> !IsHeroToken(roster, arg)
    ensures found.Some? ==> found.value in roster && NamesHero(arg, found.value)
  {
    found := None;
    var j := 0;
    while j < |roster|
      invariant 0 <= j <= |roster|
      invariant forall m :: 0 <= m < j ==> !NamesHero(arg, roster[m])
    {
      var h := roster[j];
      if arg == HeroCn(h) || arg == HeroId(h) {
        found := Some(h);
        break;
      }
      j := j + 1;
    }
    HeroTokenIffNamesListedHero(roster, arg);
  }

  /** Scans the tokens in order and, for each, the roster in the order of
      `CN_TO_HERO_ID`'s entries; the first token naming a hero decides it.
      The plugin passes `HERO_ORDER`, whose dictionaries are `HERO_NAME_MAP`
      and `CN_TO_HERO_ID`. */
  method DetectHero(args: seq<string>, roster: seq<Hero>) returns (target: Option<Hero>)
    ensures target.None? <==> forall i :: 0 <= i < |args| ==> !IsHeroToken(roster, args[i])
    ensures target.Some? ==> target.value in roster
    ensures target.Some? ==>
      exists i :: (0 <= i < |args| && NamesHero(args[i], target.value)
        && forall k :: 0 <= k < i ==> !IsHeroToken(roster, args[k]))
  {
    target := None;
    var i := 0;
    while i < |args|
      invariant 0 <= i <= |args|
      invariant target.None?
      invariant forall k :: 0 <= k < i ==> !IsHeroToken(roster, args[k])
    {
      target := FindNamedHero(args[i], roster);
      if target.Some? {
        assert IsHeroToken(roster, args[i]);
        return;
      }
      i := i + 1;
    }
  }

  // ---------------------------------------------------------------------
  // Leaderboard filters
  // ---------------------------------------------------------------------

  /** Game mode, rank code, role code and sort key of a leaderboard query. */
  datatype Filters = Filters(gameMode: string, rankCode: Code, roleCode: string, sortKey: string)

  const DEFAULT_FILTERS: Filters := Filters(RANKED_MODE, ALL_RANKS, "0", "win_ratio")

  /** What one token does to the filters. */
  datatype TokenClass = QuickMode | RankedMode | Rank(code: Code) | Role(role: string) | Sort(key: string) | Ignored

  /** `any(k in arg for k in words)`. */
  predicate ContainsAny(arg: string, words: seq<string>)
  {
    words != [] && (Contains(arg, words[0]) || ContainsAny(arg, words[1..]))
  }

  /** The fixed precedence chain one token goes through: mode substrings,
      exact rank token, exact role token, then the sort substrings; only the
      "ban" and "kda" tests look at the lower-cased token. */
  function Classify(arg: string): TokenClass
  {
    if ContainsAny(arg, QUICK_WORDS) then QuickMode
    else if ContainsAny(arg, RANKED_WORDS) then RankedMode
    else if arg in RANK_MAP then Rank(RANK_MAP[arg])
    else if arg in ROLE_MAP then Role(ROLE_MAP[arg])
    else if Contains(arg, "出场") || Contains(arg, "选取") || Contains(arg, "热度") then Sort("selection_ratio")
    else if Contains(arg, "胜") then Sort("win_ratio")
    else if Contains(arg, "禁") || Contains(Lower(arg), "ban") then Sort("ban_ratio")
    else if Contains(Lower(arg), "kda") then Sort("kda")
    else Ignored
  }

  function Apply(f: Filters, c: TokenClass): Filters
  {
    match c
    case QuickMode => f.(gameMode := QUICK_MODE)
    case RankedMode => f.(gameMode := RANKED_MODE)
    case Rank(code) => f.(rankCode := code)
    case Role(role) => f.(roleCode := role)
    case Sort(key) => f.(sortKey := key)
    case Ignored => f
  }

  /** The filters after the tokens, taken left to right, from the defaults. */
  function Resolve(args: seq<string>): Filters
  {
    if args == [] then DEFAULT_FILTERS
    else Apply(Resolve(args[..|args| - 1]), Classify(args[|args| - 1]))
  }

  /** The loop over the tokens, reassigning the four settings. */
  method ResolveTokens(args: seq<string>) returns (f: Filters)
    ensures f == Resolve(args)
  {
    var gameMode, rankCode, roleCode, sortKey := RANKED_MODE, ALL_RANKS, "0", "win_ratio";
    var i := 0;
    while i < |args|
      invariant 0 <= i <= |args|
      invariant Filters(gameMode, rankCode, roleCode, sortKey) == Resolve(args[..i])
    {
      var arg := args[i];
      var argL := Lower(arg);
      if ContainsAny(arg, QUICK_WORDS) {
        gameMode := QUICK_MODE;
      } else if ContainsAny(arg, RANKED_WORDS) {
        gameMode := RANKED_MODE;
      } else if arg in RANK_MAP {
        rankCode := RANK_MAP[arg];
      } else if arg in ROLE_MAP {
        roleCode := ROLE_MAP[arg];
      } else if Contains(arg, "出场") || Contains(arg, "选取") || Contains(arg, "热度") {
        sortKey := "selection_ratio";
      } else if Contains(arg, "胜") {
        sortKey := "win_ratio";
      } else if Contains(arg, "禁") || Contains(argL, "ban") {
        sortKey := "ban_ratio";
      } else if Contains(argL, "kda") {
        sortKey := "kda";
      }
      assert args[..i + 1][..i] == args[..i];
      i := i + 1;
    }
    assert args[..i] == args;
    f := Filters(gameMode, rankCode, roleCode, sortKey);
  }

  // ---------------------------------------------------------------------
  // Properties of the resolution
  // ---------------------------------------------------------------------

  /** The last token that sets the rank decides it; with none, the rank stays "all". */
  lemma {:induction false} LastRankTokenWins(args: seq<string>, i: int)
    requires -1 <= i < |args|
    requires i >= 0 ==> Classify(args[i]).Rank?
    requires forall k :: i < k < |args| ==> !Classify(args[k]).Rank?
    ensures Resolve(args).rankCode == if i >= 0 then Classify(args[i]).code else ALL_RANKS
  {
    if |args| > 0 && i < |args| - 1 {
      var n := |args| - 1;
      assert forall k :: i < k < n ==> args[..n][k] == args[k];
      assert !Classify(args[n]).Rank?;
      assert Resolve(args).rankCode == Resolve(args[..n]).rankCode;
      LastRankTokenWins(args[..n], i);
    }
  }

  /** The last token that sets the role decides it; with none, every role is kept. */
  lemma {:induction false} LastRoleTokenWins(args: seq<string>, i: int)
    requires -1 <= i < |args|
    requires i >= 0 ==> Classify(args[i]).Role?
    requires forall k :: i < k < |args| ==> !Classify(args[k]).Role?
    ensures Resolve(args).roleCode == if i >= 0 then Classify(args[i]).role else "0"
  {
    if |args| > 0 && i < |args| - 1 {
      var n := |args| - 1;
      assert forall k :: i < k < n ==> args[..n][k] == args[k];
      assert !Classify(args[n]).Role?;
      assert Resolve(args).roleCode == Resolve(args[..n]).roleCode;
      LastRoleTokenWins(args[..n], i);
    }
  }

  /** The last token that sets the sort key decides it; with none, it is the win rate. */
  lemma {:induction false} LastSortTokenWins(args: seq<string>, i: int)
    requires -1 <= i < |args|
    requires i >= 0 ==> Classify(args[i]).Sort?
    requires forall k :: i < k < |args| ==> !Classify(args[k]).Sort?
    ensures Resolve(args).sortKey == if i >= 0 then Classify(args[i]).key else "win_ratio"
  {
    if |args| > 0 && i < |args| - 1 {
      var n := |args| - 1;
      assert forall k :: i < k < n ==> args[..n][k] == args[k];
      assert !Classify(args[n]).Sort?;
      assert Resolve(args).sortKey == Resolve(args[..n]).sortKey;
      LastSortTokenWins(args[..n], i);
    }
  }

  predicate SetsMode(c: TokenClass)
  {
    c.QuickMode? || c.RankedMode?
  }

  /** The last mode token decides the game mode; with none, it is ranked play. */
  lemma {:induction false} LastModeTokenWins(args: seq<string>, i: int)
    requires -1 <= i < |args|
    requires i >= 0 ==> SetsMode(Classify(args[i]))
    requires forall k :: i < k < |args| ==> !SetsMode(Classify(args[k]))
    ensures Resolve(args).gameMode ==
      if i >= 0 && Classify(args[i]).QuickMode? then QUICK_MODE else RANKED_MODE
  {
    if |args| > 0 && i < |args| - 1 {
      var n := |args| - 1;
      assert forall k :: i < k < n ==> args[..n][k] == args[k];
      assert !SetsMode(Classify(args[n]));
      assert Resolve(args).gameMode == Resolve(args[..n]).gameMode;
      LastModeTokenWins(args[..n], i);
    }
  }

  /** The tokens that do something. */
  function Recognised(args: seq<string>): (r: seq<string>)
    ensures |r| <= |args|
    ensures forall t :: t in r ==> t in args && !Classify(t).Ignored?
    ensures forall t :: t in args && !Classify(t).Ignored? ==> t in r
  {
    if args == [] then []
    else
      assert args == args[..|args| - 1] + [args[|args| - 1]];
      if Classify(args[|args| - 1]).Ignored? then Recognised(args[..|args| - 1])
      else Recognised(args[..|args| - 1]) + [args[|args| - 1]]
  }

  /** Picking out works piece by piece, so the recognised tokens keep their order. */
  lemma {:induction false} RecognisedAppend(a: seq<string>, b: seq<string>)
    ensures Recognised(a + b) == Recognised(a) + Recognised(b)
    decreases |b|
  {
    if b == [] {
      assert a + b == a;
    } else {
      var n := |b| - 1;
      RecognisedAppend(a, b[..n]);
      assert (a + b)[..|a + b| - 1] == a + b[..n];
      assert (a + b)[|a + b| - 1] == b[n];
    }
  }

  /** Unrecognised tokens, wherever they stand, change nothing. */
  lemma {:induction false} IgnoredTokensChangeNothing(args: seq<string>)
    ensures Resolve(Recognised(args)) == Resolve(args)
  {
    if args != [] {
      var init := args[..|args| - 1];
      IgnoredTokensChangeNothing(init);
      var r := Recognised(init);
      if !Classify(args[|args| - 1]).Ignored? {
        assert (r + [args[|args| - 1]])[..|r|] == r;
      }
    }
  }

  /** The settings a resolution can end with: one of the two modes, the
      "all" sentinel or a tier other than Champion, one of the four role codes
      and one of the four sort keys. */
  predicate Settled(f: Filters)
  {
    (f.gameMode == RANKED_MODE || f.gameMode == QUICK_MODE)
    && (f.rankCode == ALL_RANKS || (f.rankCode.StrCode? && f.rankCode.s in RANK_ORDER && f.rankCode.s != "Champion"))
    && f.roleCode in ["0", "1", "2", "3"]
    && f.sortKey in ["win_ratio", "selection_ratio", "ban_ratio", "kda"]
  }

  lemma TableCodesSettled()
    ensures forall t :: t in RANK_MAP ==>
      (RANK_MAP[t] == ALL_RANKS || (RANK_MAP[t].StrCode? && RANK_MAP[t].s in RANK_ORDER && RANK_MAP[t].s != "Champion"))
    ensures forall t :: t in ROLE_MAP ==> ROLE_MAP[t] in ["0", "1", "2", "3"]
  { }

  /** Whatever the tokens, the resolution ends with settled filters. */
  lemma {:induction false} ResolveSettled(args: seq<string>)
    ensures Settled(Resolve(args))
  {
    TableCodesSettled();
    if args != [] {
      ResolveSettled(args[..|args| - 1]);
    }
  }

  lemma WordsSpelledOut(arg: string, words: seq<string>)
    requires |words| == 4
    ensures ContainsAny(arg, words) <==>
      Contains(arg, words[0]) || Contains(arg, words[1]) || Contains(arg, words[2]) || Contains(arg, words[3])
  {
    var w1, w2, w3 := words[1..], words[2..], words[3..];
    assert w1[1..] == w2 && w2[1..] == w3 && w3[1..] == [];
    assert ContainsAny(arg, w3) == Contains(arg, words[3]);
    assert ContainsAny(arg, w2) == (Contains(arg, words[2]) || ContainsAny(arg, w3));
    assert ContainsAny(arg, w1) == (Contains(arg, words[1]) || ContainsAny(arg, w2));
  }

  /** The two mode word lists, spelled out. */
  lemma ModeWordsSpelledOut(arg: string)
    ensures ContainsAny(arg, QUICK_WORDS) <==>
      Contains(arg, "快速") || Contains(arg, "休闲") || Contains(arg, "匹配") || Contains(arg, "娱乐")
    ensures ContainsAny(arg, RANKED_WORDS) <==>
      Contains(arg, "竞技") || Contains(arg, "排位") || Contains(arg, "天梯") || Contains(arg, "上分")
  {
    WordsSpelledOut(arg, QUICK_WORDS);
    WordsSpelledOut(arg, RANKED_WORDS);
  }

  /** The first characters of every keyword the chain tests by substring. */
  const KEYWORD_LEADS: set<char> := {'快', '休', '匹', '娱', '竞', '排', '天', '上', '出', '选', '热', '胜', '禁'}

  /** A token with no keyword's first character in it is only ever looked up
      in the exact rank and role tables. */
  lemma KeywordFreeToken(arg: string)
    requires forall i :: 0 <= i < |arg| ==>
      arg[i] !in KEYWORD_LEADS && LowerChar(arg[i]) != 'b' && LowerChar(arg[i]) != 'k'
    ensures Classify(arg) ==
      if arg in RANK_MAP then Rank(RANK_MAP[arg])
      else if arg in ROLE_MAP then Role(ROLE_MAP[arg])
      else Ignored
  {
    ModeWordsSpelledOut(arg);
    NotContainsWithoutLead(arg, "快速");
    NotContainsWithoutLead(arg, "休闲");
    NotContainsWithoutLead(arg, "匹配");
    NotContainsWithoutLead(arg, "娱乐");
    NotContainsWithoutLead(arg, "竞技");
    NotContainsWithoutLead(arg, "排位");
    NotContainsWithoutLead(arg, "天梯");
    NotContainsWithoutLead(arg, "上分");
    NotContainsWithoutLead(arg, "出场");
    NotContainsWithoutLead(arg, "选取");
    NotContainsWithoutLead(arg, "热度");
    NotContainsWithoutLead(arg, "胜");
    NotContainsWithoutLead(arg, "禁");
    NotContainsWithoutLead(Lower(arg), "ban");
    NotContainsWithoutLead(Lower(arg), "kda");
  }

  /** "所有" is both a rank token and a role token; rank comes first, so it
      always resets the rank and never the role. */
  lemma AllTokenSetsRankNotRole()
    ensures "所有" in ROLE_MAP
    ensures Classify("所有") == Rank(ALL_RANKS)
  {
    KeywordFreeToken("所有");
  }

  /** The same holds for "all". */
  lemma AllEnglishTokenSetsRankNotRole()
    ensures "all" in ROLE_MAP
    ensures Classify("all") == Rank(ALL_RANKS)
  {
    KeywordFreeToken("all");
  }

  /** The Champion tier has no token: "冠军" is in no table and holds no
      keyword, so it is ignored. */
  lemma ChampionTokenIgnored()
    ensures Classify("冠军") == Ignored
  {
    KeywordFreeToken("冠军");
  }

  lemma PickRateToken()
    ensures Classify("出场") == Sort("selection_ratio")
  {
    ModeWordsSpelledOut("出场");
    NotContainsWithoutLead("出场", "快速");
    NotContainsWithoutLead("出场", "休闲");
    NotContainsWithoutLead("出场", "匹配");
    NotContainsWithoutLead("出场", "娱乐");
    NotContainsWithoutLead("出场", "竞技");
    NotContainsWithoutLead("出场", "排位");
    NotContainsWithoutLead("出场", "天梯");
    NotContainsWithoutLead("出场", "上分");
  }

  lemma DiamondToken()
    ensures Classify("钻石") == Rank(StrCode("Diamond"))
  {
    KeywordFreeToken("钻石");
  }

  lemma SupportToken()
    ensures Classify("支援") == Role("3")
  {
    KeywordFreeToken("支援");
  }

  lemma ResolveSnoc(args: seq<string>, arg: string)
    ensures Resolve(args + [arg]) == Apply(Resolve(args), Classify(arg))
  {
    assert (args + [arg])[..|args|] == args;
  }

  /** Diamond, support, sorted by pick rate, in the default ranked mode. */
  lemma DiamondSupportPickRateExample()
    ensures Resolve(["钻石", "支援", "出场"]) == Filters(RANKED_MODE, StrCode("Diamond"), "3", "selection_ratio")
  {
    var args := ["钻石", "支援", "出场"];
    DiamondToken();
    SupportToken();
    PickRateToken();
    ResolveSnoc([], "钻石");
    ResolveSnoc(["钻石"], "支援");
    ResolveSnoc(["钻石", "支援"], "出场");
    assert [] + ["钻石"] == ["钻石"];
    assert ["钻石"] + ["支援"] == ["钻石", "支援"];
    assert ["钻石", "支援"] + ["出场"] == args;
  }
}
