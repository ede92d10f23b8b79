/** The plugin's static vocabulary (main.py:18-78): the season and cache
    lifetime, the tier order, the display labels, the token tables and the
    hero roster in both languages. */
module Vocabulary {
  import opened Common

  const CURRENT_SEASON: nat := 20
  /** Seconds a cached upstream answer stays usable. */
  const CACHE_TTL: real := 1800.0

  /** A rank code as the source passes it around: the integer sentinel -127
      ("every tier") or a tier name string. */
  datatype Code = IntCode(i: int) | StrCode(s: string)

  const ALL_RANKS: Code := IntCode(-127)

  const RANK_ORDER: seq<string> :=
    ["Bronze", "Silver", "Gold", "Platinum", "Diamond", "Master", "GrandMaster", "Champion"]

  /** Display labels for rank codes, role codes and sort keys. */
  const DISPLAY_CN_MAP: map<Code, string> := map[
    IntCode(-127) := "所有分段", StrCode("Bronze") := "青铜", StrCode("Silver") := "白银",
    StrCode("Gold") := "黄金", StrCode("Platinum") := "白金", StrCode("Diamond") := "钻石",
    StrCode("Master") := "大师", StrCode("GrandMaster") := "宗师", StrCode("Champion") := "冠军",
    StrCode("0") := "所有职责", StrCode("1") := "输出", StrCode("2") := "重装", StrCode("3") := "支援",
    StrCode("win_ratio") := "胜率", StrCode("selection_ratio") := "出场率",
    StrCode("ban_ratio") := "禁用率", StrCode("kda") := "KDA"
  ]

  /** Exact-match rank tokens. There is no token for the Champion tier. */
  const RANK_MAP: map<string, Code> := map[
    "所有" := IntCode(-127), "全部" := IntCode(-127), "all" := IntCode(-127),
    "青铜" := StrCode("Bronze"), "bronze" := StrCode("Bronze"),
    "白银" := StrCode("Silver"), "silver" := StrCode("Silver"),
    "黄金" := StrCode("Gold"), "gold" := StrCode("Gold"),
    "白金" := StrCode("Platinum"), "铂金" := StrCode("Platinum"), "platinum" := StrCode("Platinum"),
    "钻石" := StrCode("Diamond"), "diamond" := StrCode("Diamond"),
    "大师" := StrCode("Master"), "master" := StrCode("Master"),
    "宗师" := StrCode("GrandMaster"), "grandmaster" := StrCode("GrandMaster")
  ]

  /** Exact-match role tokens; "0" means every role. */
  const ROLE_MAP: map<string, string> := map[
    "输出" := "1", "C" := "1", "damage" := "1",
    "重装" := "2", "T" := "2", "tank" := "2", "坦克" := "2",
    "支援" := "3", "奶" := "3", "辅助" := "3", "support" := "3",
    "所有" := "0", "all" := "0"
  ]

  /** Substrings that switch to quick play, and those that switch to ranked play. */
  const QUICK_WORDS: seq<string> := ["快速", "休闲", "匹配", "娱乐"]
  const RANKED_WORDS: seq<string> := ["竞技", "排位", "天梯", "上分"]

  const RANKED_MODE: string := "jingji"
  const QUICK_MODE: string := "kuaisu"

  datatype Hero =
    | Vendetta | Wuyang | Freja | Hazard | Juno | Illari
    | Mauga | Venture | Lifeweaver | Ana | Kiriko | Moira
    | Baptiste | Zenyatta | Mercy | Lucio | Brigitte | Sigma
    | Ramattra | Orisa | Winston | DVa | Reinhardt | Zarya
    | Roadhog | JunkerQueen | Doomfist | WreckingBall | Cassidy | Genji
    | Soldier76 | Bastion | Ashe | Reaper | Sojourn | Hanzo
    | Symmetra | Pharah | Widowmaker | Echo | Junkrat | Mei
    | Torbjorn | Tracer | Sombra

  /** The canonical lower-case id of a hero, as the upstream reports it. */
  function HeroId(h: Hero): string
  {
    match h
    case Vendetta => "vendetta"
    case Wuyang => "wuyang"
    case Freja => "freja"
    case Hazard => "hazard"
    case Juno => "juno"
    case Illari => "illari"
    case Mauga => "mauga"
    case Venture => "venture"
    case Lifeweaver => "lifeweaver"
    case Ana => "ana"
    case Kiriko => "kiriko"
    case Moira => "moira"
    case Baptiste => "baptiste"
    case Zenyatta => "zenyatta"
    case Mercy => "mercy"
    case Lucio => "lucio"
    case Brigitte => "brigitte"
    case Sigma => "sigma"
    case Ramattra => "ramattra"
    case Orisa => "orisa"
    case Winston => "winston"
    case DVa => "dva"
    case Reinhardt => "reinhardt"
    case Zarya => "zarya"
    case Roadhog => "roadhog"
    case JunkerQueen => "junker-queen"
    case Doomfist => "doomfist"
    case WreckingBall => "wrecking-ball"
    case Cassidy => "cassidy"
    case Genji => "genji"
    case Soldier76 => "soldier-76"
    case Bastion => "bastion"
    case Ashe => "ashe"
    case Reaper => "reaper"
    case Sojourn => "sojourn"
    case Hanzo => "hanzo"
    case Symmetra => "symmetra"
    case Pharah => "pharah"
    case Widowmaker => "widowmaker"
    case Echo => "echo"
    case Junkrat => "junkrat"
    case Mei => "mei"
    case Torbjorn => "torbjorn"
    case Tracer => "tracer"
    case Sombra => "sombra"
  }

  /** The Chinese display name of a hero. */
  function HeroCn(h: Hero): string
  {
    match h
    case Vendetta => "斩仇"
    case Wuyang => "无漾"
    case Freja => "弗蕾娅"
    case Hazard => "骇灾"
    case Juno => "朱诺"
    case Illari => "伊拉锐"
    case Mauga => "毛加"
    case Venture => "探奇"
    case Lifeweaver => "生命之梭"
    case Ana => "安娜"
    case Kiriko => "雾子"
    case Moira => "莫伊拉"
    case Baptiste => "巴蒂斯特"
    case Zenyatta => "禅雅塔"
    case Mercy => "天使"
    case Lucio => "卢西奥"
    case Brigitte => "布丽吉塔"
    case Sigma => "西格玛"
    case Ramattra => "拉玛刹"
    case Orisa => "奥丽莎"
    case Winston => "温斯顿"
    case DVa => "D.Va"
    case Reinhardt => "莱因哈特"
    case Zarya => "查莉娅"
    case Roadhog => "路霸"
    case JunkerQueen => "渣客女王"
    case Doomfist => "末日铁拳"
    case WreckingBall => "破坏球"
    case Cassidy => "卡西迪"
    case Genji => "源氏"
    case Soldier76 => "士兵：76"
    case Bastion => "堡垒"
    case Ashe => "艾什"
    case Reaper => "死神"
    case Sojourn => "索杰恩"
    case Hanzo => "半藏"
    case Symmetra => "秩序之光"
    case Pharah => "法老之鹰"
    case Widowmaker => "黑百合"
    case Echo => "回声"
    case Junkrat => "狂鼠"
    case Mei => "小美"
    case Torbjorn => "托比昂"
    case Tracer => "猎空"
    case Sombra => "黑影"
  }

  /** The roster in the order the name table lists it; lookups scan it in this order. */
  const HERO_ORDER: seq<Hero> := [
    Vendetta, Wuyang, Freja, Hazard, Juno, Illari, Mauga, Venture,
    Lifeweaver, Ana, Kiriko, Moira, Baptiste, Zenyatta, Mercy, Lucio,
    Brigitte, Sigma, Ramattra, Orisa, Winston, DVa, Reinhardt, Zarya,
    Roadhog, JunkerQueen, Doomfist, WreckingBall, Cassidy, Genji, Soldier76, Bastion,
    Ashe, Reaper, Sojourn, Hanzo, Symmetra, Pharah, Widowmaker, Echo,
    Junkrat, Mei, Torbjorn, Tracer, Sombra
  ]

  /** Hero id to Chinese name. */
  const HERO_NAME_MAP: map<string, string> := NameMap(HERO_ORDER)

  /** Chinese name to hero id, built by inverting `HERO_NAME_MAP` entry by entry. */
  const CN_TO_HERO_ID: map<string, string> := InverseNameMap(HERO_ORDER)

  /** The dictionary the listed heroes make, inserted in order (a later
      entry with an equal key would replace an earlier one). */
  function NameMap(hs: seq<Hero>): map<string, string>
  {
    if hs == [] then map[] else NameMap(hs[..|hs| - 1])[HeroId(hs[|hs| - 1]) := HeroCn(hs[|hs| - 1])]
  }

  /** `{v: k for k, v in NameMap(hs).items()}`, inserted in the same order. */
  function InverseNameMap(hs: seq<Hero>): map<string, string>
  {
    if hs == [] then map[] else InverseNameMap(hs[..|hs| - 1])[HeroCn(hs[|hs| - 1]) := HeroId(hs[|hs| - 1])]
  }

  /** The hero whose id has the length and leading letters of `s`. */
  function HeroOfId(s: string): Hero
  {
    match |s|
    case 3 =>
      if s[0] == 'a' then Ana
      else if s[0] == 'd' then DVa
      else Mei
    case 4 =>
      if s[0] == 'j' then Juno
      else if s[0] == 'a' then Ashe
      else Echo
    case 5 =>
      if s[0] == 'f' then Freja
      else if s[0] == 'm' && s[1] == 'a' then Mauga
      else if s[0] == 'm' && s[1] == 'o' then Moira
      else if s[0] == 'm' then Mercy
      else if s[0] == 'l' then Lucio
      else if s[0] == 's' then Sigma
      else if s[0] == 'o' then Orisa
      else if s[0] == 'z' then Zarya
      else if s[0] == 'g' then Genji
      else Hanzo
    case 6 =>
      if s[0] == 'w' then Wuyang
      else if s[0] == 'h' then Hazard
      else if s[0] == 'i' then Illari
      else if s[0] == 'k' then Kiriko
      else if s[0] == 'r' then Reaper
      else if s[0] == 'p' then Pharah
      else if s[0] == 't' then Tracer
      else Sombra
    case 7 =>
      if s[0] == 'v' then Venture
      else if s[0] == 'w' then Winston
      else if s[0] == 'r' then Roadhog
      else if s[0] == 'c' then Cassidy
      else if s[0] == 'b' then Bastion
      else if s[0] == 's' then Sojourn
      else Junkrat
    case 8 =>
      if s[0] == 'v' then Vendetta
      else if s[0] == 'b' && s[1] == 'a' then Baptiste
      else if s[0] == 'z' then Zenyatta
      else if s[0] == 'b' then Brigitte
      else if s[0] == 'r' then Ramattra
      else if s[0] == 'd' then Doomfist
      else if s[0] == 's' then Symmetra
      else Torbjorn
    case 9 => Reinhardt
    case 10 =>
      if s[0] == 'l' then Lifeweaver
      else if s[0] == 's' then Soldier76
      else Widowmaker
    case 12 => JunkerQueen
    case 13 => WreckingBall
    case _ => Sombra
  }

  /** The hero whose Chinese name has the length and first character of `s`. */
  function HeroOfCn(s: string): Hero
  {
    match |s|
    case 2 =>
      if s[0] == '斩' then Vendetta
      else if s[0] == '无' then Wuyang
      else if s[0] == '骇' then Hazard
      else if s[0] == '朱' then Juno
      else if s[0] == '毛' then Mauga
      else if s[0] == '探' then Venture
      else if s[0] == '安' then Ana
      else if s[0] == '雾' then Kiriko
      else if s[0] == '天' then Mercy
      else if s[0] == '路' then Roadhog
      else if s[0] == '源' then Genji
      else if s[0] == '堡' then Bastion
      else if s[0] == '艾' then Ashe
      else if s[0] == '死' then Reaper
      else if s[0] == '半' then Hanzo
      else if s[0] == '回' then Echo
      else if s[0] == '狂' then Junkrat
      else if s[0] == '小' then Mei
      else if s[0] == '猎' then Tracer
      else Sombra
    case 3 =>
      if s[0] == '弗' then Freja
      else if s[0] == '伊' then Illari
      else if s[0] == '莫' then Moira
      else if s[0] == '禅' then Zenyatta
      else if s[0] == '卢' then Lucio
      else if s[0] == '西' then Sigma
      else if s[0] == '拉' then Ramattra
      else if s[0] == '奥' then Orisa
      else if s[0] == '温' then Winston
      else if s[0] == '查' then Zarya
      else if s[0] == '破' then WreckingBall
      else if s[0] == '卡' then Cassidy
      else if s[0] == '索' then Sojourn
      else if s[0] == '黑' then Widowmaker
      else Torbjorn
    case 4 =>
      if s[0] == '生' then Lifeweaver
      else if s[0] == '巴' then Baptiste
      else if s[0] == '布' then Brigitte
      else if s[0] == 'D' then DVa
      else if s[0] == '莱' then Reinhardt
      else if s[0] == '渣' then JunkerQueen
      else if s[0] == '末' then Doomfist
      else if s[0] == '秩' then Symmetra
      else Pharah
    case 5 => Soldier76
    case _ => Sombra
  }

  /** Which third of the roster a hero falls in; the table lemmas below take
      one third at a time so that each looks at fifteen heroes only. */
  function RosterThird(h: Hero): nat
  {
    match h
    case Vendetta | Wuyang | Freja | Hazard | Juno | Illari | Mauga | Venture | Lifeweaver | Ana | Kiriko | Moira | Baptiste | Zenyatta | Mercy => 0
    case Lucio | Brigitte | Sigma | Ramattra | Orisa | Winston | DVa | Reinhardt | Zarya | Roadhog | JunkerQueen | Doomfist | WreckingBall | Cassidy | Genji => 1
    case _ => 2
  }

  lemma HeroOfIdInvertsFirstThird(h: Hero)
    requires RosterThird(h) == 0
    ensures HeroOfId(HeroId(h)) == h
  { }

  lemma HeroOfIdInvertsSecondThird(h: Hero)
    requires RosterThird(h) == 1
    ensures HeroOfId(HeroId(h)) == h
  { }

  lemma HeroOfIdInvertsLastThird(h: Hero)
    requires RosterThird(h) == 2
    ensures HeroOfId(HeroId(h)) == h
  { }

  lemma HeroOfIdInverts(h: Hero)
    ensures HeroOfId(HeroId(h)) == h
  {
    match RosterThird(h)
    case 0 => HeroOfIdInvertsFirstThird(h);
    case 1 => HeroOfIdInvertsSecondThird(h);
    case _ => HeroOfIdInvertsLastThird(h);
  }

  lemma HeroOfCnInvertsFirstThird(h: Hero)
    requires RosterThird(h) == 0
    ensures HeroOfCn(HeroCn(h)) == h
  { }

  lemma HeroOfCnInvertsSecondThird(h: Hero)
    requires RosterThird(h) == 1
    ensures HeroOfCn(HeroCn(h)) == h
  { }

  lemma HeroOfCnInvertsLastThird(h: Hero)
    requires RosterThird(h) == 2
    ensures HeroOfCn(HeroCn(h)) == h
  { }

  lemma HeroOfCnInverts(h: Hero)
    ensures HeroOfCn(HeroCn(h)) == h
  {
    match RosterThird(h)
    case 0 => HeroOfCnInvertsFirstThird(h);
    case 1 => HeroOfCnInvertsSecondThird(h);
    case _ => HeroOfCnInvertsLastThird(h);
  }

  lemma HeroIdInjective(a: Hero, b: Hero)
    requires HeroId(a) == HeroId(b)
    ensures a == b
  {
    HeroOfIdInverts(a);
    HeroOfIdInverts(b);
  }

  lemma HeroCnInjective(a: Hero, b: Hero)
    requires HeroCn(a) == HeroCn(b)
    ensures a == b
  {
    HeroOfCnInverts(a);
    HeroOfCnInverts(b);
  }

  /** Ids open with a lower-case Latin letter; Chinese names never do. */
  lemma FirstLetters(h: Hero)
    ensures |HeroId(h)| > 0 && 'a' <= HeroId(h)[0] <= 'z'
    ensures |HeroCn(h)| > 0 && !('a' <= HeroCn(h)[0] <= 'z')
  { }

  /** No hero id is spelled like any Chinese name. */
  lemma IdsAndNamesDisjoint(a: Hero, b: Hero)
    ensures HeroId(a) != HeroCn(b)
  {
    FirstLetters(a);
    FirstLetters(b);
  }

  /** A listed hero is found under its id, and under its Chinese name in the inverse. */
  lemma {:induction false} NameMapLookup(hs: seq<Hero>, h: Hero)
    requires h in hs
    ensures HeroId(h) in NameMap(hs) && NameMap(hs)[HeroId(h)] == HeroCn(h)
    ensures HeroCn(h) in InverseNameMap(hs) && InverseNameMap(hs)[HeroCn(h)] == HeroId(h)
  {
    var last := hs[|hs| - 1];
    if h != last {
      assert h in hs[..|hs| - 1];
      NameMapLookup(hs[..|hs| - 1], h);
      if HeroId(last) == HeroId(h) { HeroIdInjective(last, h); }
      if HeroCn(last) == HeroCn(h) { HeroCnInjective(last, h); }
    }
  }

  /** Every key of the two dictionaries comes from a listed hero. */
  lemma {:induction false} NameMapKeys(hs: seq<Hero>, k: string)
    ensures k in NameMap(hs) ==> exists h :: h in hs && HeroId(h) == k
    ensures k in InverseNameMap(hs) ==> exists h :: h in hs && HeroCn(h) == k
  {
    if hs != [] {
      var last := hs[|hs| - 1];
      NameMapKeys(hs[..|hs| - 1], k);
      if k in NameMap(hs[..|hs| - 1]) {
        var h :| h in hs[..|hs| - 1] && HeroId(h) == k;
        assert h in hs;
      }
      if k in InverseNameMap(hs[..|hs| - 1]) {
        var h :| h in hs[..|hs| - 1] && HeroCn(h) == k;
        assert h in hs;
      }
    }
  }

  /** The inverse dictionary undoes the name dictionary, in both directions. */
  lemma {:induction false} InverseNameMapInverts(hs: seq<Hero>)
    ensures forall id :: id in NameMap(hs) ==>
      NameMap(hs)[id] in InverseNameMap(hs) && InverseNameMap(hs)[NameMap(hs)[id]] == id
    ensures forall cn :: cn in InverseNameMap(hs) ==>
      InverseNameMap(hs)[cn] in NameMap(hs) && NameMap(hs)[InverseNameMap(hs)[cn]] == cn
  {
    forall id | id in NameMap(hs)
      ensures NameMap(hs)[id] in InverseNameMap(hs) && InverseNameMap(hs)[NameMap(hs)[id]] == id
    {
      NameMapKeys(hs, id);
      var h :| h in hs && HeroId(h) == id;
      NameMapLookup(hs, h);
    }
    forall cn | cn in InverseNameMap(hs)
      ensures InverseNameMap(hs)[cn] in NameMap(hs) && NameMap(hs)[InverseNameMap(hs)[cn]] == cn
    {
      NameMapKeys(hs, cn);
      var h :| h in hs && HeroCn(h) == cn;
      NameMapLookup(hs, h);
    }
  }

  /** `CN_TO_HERO_ID` is exactly the inverse of `HERO_NAME_MAP`. */
  lemma CnToHeroIdInvertsNameMap()
    ensures forall id :: id in HERO_NAME_MAP ==>
      HERO_NAME_MAP[id] in CN_TO_HERO_ID && CN_TO_HERO_ID[HERO_NAME_MAP[id]] == id
    ensures forall cn :: cn in CN_TO_HERO_ID ==>
      CN_TO_HERO_ID[cn] in HERO_NAME_MAP && HERO_NAME_MAP[CN_TO_HERO_ID[cn]] == cn
  {
    InverseNameMapInverts(HERO_ORDER);
  }

  /** Every rank code a token can select, and every tier of `RANK_ORDER`, has a display label. */
  lemma RankCodesDisplayable()
    ensures forall t :: t in RANK_MAP ==> RANK_MAP[t] in DISPLAY_CN_MAP
    ensures forall k :: 0 <= k < |RANK_ORDER| ==> StrCode(RANK_ORDER[k]) in DISPLAY_CN_MAP
    ensures ALL_RANKS in DISPLAY_CN_MAP
  { }

  /** Every role code a token can select has a display label. */
  lemma RoleCodesDisplayable()
    ensures forall t :: t in ROLE_MAP ==> StrCode(ROLE_MAP[t]) in DISPLAY_CN_MAP
    ensures StrCode("0") in DISPLAY_CN_MAP
  { }
}
