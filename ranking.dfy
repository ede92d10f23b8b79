/** The table rows of the two chart kinds: the leaderboard (main.py:300-331),
    which filters by role, sorts by the chosen statistic and keeps the first
    twenty records, and the single-hero chart (main.py:218-240), which shows
    the hero's record in each tier that answered. */
module Ranking {
  import opened Common
  import opened Vocabulary
  import opened Records

  // ---------------------------------------------------------------------
  // Role filter (main.py:305)
  // ---------------------------------------------------------------------

  /** `role_code == "0" or str(h.get("hero_type")) == str(role_code)`. */
  predicate RoleMatches(h: HeroRecord, role: string)
  {
    role == "0" || h.heroType == role
  }

  /** The list comprehension keeping the records of the requested role, in order. */
  function RoleFilter(data: seq<HeroRecord>, role: string): (r: seq<HeroRecord>)
    ensures |r| <= |data|
    ensures forall x :: x in r ==> x in data && RoleMatches(x, role)
    ensures forall x :: x in data && RoleMatches(x, role) ==> x in r
  {
    if data == [] then []
    else (if RoleMatches(data[0], role) then [data[0]] else []) + RoleFilter(data[1..], role)
  }

  /** Filtering works piece by piece, so the kept records stay in fetched order. */
  lemma {:induction false} RoleFilterAppend(a: seq<HeroRecord>, b: seq<HeroRecord>, role: string)
    ensures RoleFilter(a + b, role) == RoleFilter(a, role) + RoleFilter(b, role)
    decreases |a|
  {
    if a == [] {
      assert a + b == b;
    } else {
      var head := if RoleMatches(a[0], role) then [a[0]] else [];
      assert (a + b)[0] == a[0] && (a + b)[1..] == a[1..] + b;
      calc {
        RoleFilter(a + b, role);
        head + RoleFilter(a[1..] + b, role);
        { RoleFilterAppend(a[1..], b, role); }
        head + (RoleFilter(a[1..], role) + RoleFilter(b, role));
        (head + RoleFilter(a[1..], role)) + RoleFilter(b, role);
      }
    }
  }

  /** Role "0" keeps every record, in the order fetched. */
  lemma {:induction false} AllRolesKeepEverything(data: seq<HeroRecord>)
    ensures RoleFilter(data, "0") == data
  {
    if data != [] {
      AllRolesKeepEverything(data[1..]);
    }
  }

  // ---------------------------------------------------------------------
  // Stable descending sort (main.py:306)
  // ---------------------------------------------------------------------

  /** `float(x.get(sort_key, 0))`, with the parsed value carried by the record. */
  function SortValue(h: HeroRecord, key: string): real
  {
    Field(h, key).value
  }

  /** Places `h` before the first element whose value does not exceed its own. */
  function Insert(h: HeroRecord, t: seq<HeroRecord>, key: string): seq<HeroRecord>
  {
    if t == [] then [h]
    else if SortValue(t[0], key) <= SortValue(h, key) then [h] + t
    else [t[0]] + Insert(h, t[1..], key)
  }

  /** `list.sort(key=..., reverse=True)`: Python's sort is stable also when
      reversed, so records with equal values keep their fetched order. */
  function SortDesc(s: seq<HeroRecord>, key: string): seq<HeroRecord>
  {
    if s == [] then [] else Insert(s[0], SortDesc(s[1..], key), key)
  }

  ghost predicate Descending(s: seq<HeroRecord>, key: string)
  {
    forall i, j :: 0 <= i < j < |s| ==> SortValue(s[i], key) >= SortValue(s[j], key)
  }

  /** The records of `s` whose value is exactly `v`, in order. */
  function WithValue(s: seq<HeroRecord>, key: string, v: real): seq<HeroRecord>
  {
    if s == [] then []
    else (if SortValue(s[0], key) == v then [s[0]] else []) + WithValue(s[1..], key, v)
  }

  lemma {:induction false} InsertPermutes(h: HeroRecord, t: seq<HeroRecord>, key: string)
    ensures multiset(Insert(h, t, key)) == multiset(t) + multiset{h}
  {
    if t != [] && SortValue(t[0], key) > SortValue(h, key) {
      InsertPermutes(h, t[1..], key);
      assert t == [t[0]] + t[1..];
    }
  }

  lemma {:induction false} InsertKeepsDescending(h: HeroRecord, t: seq<HeroRecord>, key: string)
    requires Descending(t, key)
    ensures Descending(Insert(h, t, key), key)
  {
    var r := Insert(h, t, key);
    if t == [] {
    } else if SortValue(t[0], key) <= SortValue(h, key) {
      forall i, j | 0 <= i < j < |r| ensures SortValue(r[i], key) >= SortValue(r[j], key) {
        if i == 0 {
          assert r[j] == t[j - 1];
        } else {
          assert r[i] == t[i - 1] && r[j] == t[j - 1];
        }
      }
    } else {
      var rest := Insert(h, t[1..], key);
      InsertKeepsDescending(h, t[1..], key);
      InsertPermutes(h, t[1..], key);
      forall i, j | 0 <= i < j < |r| ensures SortValue(r[i], key) >= SortValue(r[j], key) {
        if i == 0 {
          var x := rest[j - 1];
          assert x in multiset(rest);
          if x == h {
          } else {
            assert x in multiset(t[1..]);
            var m :| 0 <= m < |t[1..]| && t[1..][m] == x;
            assert t[m + 1] == x;
          }
        } else {
          assert r[i] == rest[i - 1] && r[j] == rest[j - 1];
        }
      }
    }
  }

  lemma {:induction false} InsertKeepsTies(h: HeroRecord, t: seq<HeroRecord>, key: string, v: real)
    ensures WithValue(Insert(h, t, key), key, v)
         == (if SortValue(h, key) == v then [h] else []) + WithValue(t, key, v)
  {
    var r := Insert(h, t, key);
    if t == [] {
      assert r == [h] && r[1..] == [];
    } else if SortValue(t[0], key) <= SortValue(h, key) {
      assert r[0] == h && r[1..] == t;
    } else {
      InsertKeepsTies(h, t[1..], key, v);
      assert r[0] == t[0] && r[1..] == Insert(h, t[1..], key);
    }
  }

  /** The sorted list is non-increasing in the sort value and holds exactly
      the records it was given. */
  lemma {:induction false} SortDescOrders(s: seq<HeroRecord>, key: string)
    ensures Descending(SortDesc(s, key), key)
    ensures multiset(SortDesc(s, key)) == multiset(s)
  {
    if s != [] {
      SortDescOrders(s[1..], key);
      InsertKeepsDescending(s[0], SortDesc(s[1..], key), key);
      InsertPermutes(s[0], SortDesc(s[1..], key), key);
      assert s == [s[0]] + s[1..];
    }
  }

  /** Stability: among records with the same value the fetched order is kept. */
  lemma {:induction false} SortDescStable(s: seq<HeroRecord>, key: string, v: real)
    ensures WithValue(SortDesc(s, key), key, v) == WithValue(s, key, v)
  {
    if s != [] {
      SortDescStable(s[1..], key, v);
      InsertKeepsTies(s[0], SortDesc(s[1..], key), key, v);
    }
  }

  // ---------------------------------------------------------------------
  // Leaderboard rows (main.py:309-331)
  // ---------------------------------------------------------------------

  const MAX_ROWS: nat := 20

  /** `HERO_NAME_MAP.get(en_id, en_id)`. */
  function DisplayName(id: string): string
  {
    if id in HERO_NAME_MAP then HERO_NAME_MAP[id] else id
  }

  /** A known id is shown by its Chinese name, which maps back to that id;
      an unknown id is shown as it is. */
  lemma DisplayNameRoundTrip(id: string)
    ensures id in HERO_NAME_MAP ==> DisplayName(id) in CN_TO_HERO_ID && CN_TO_HERO_ID[DisplayName(id)] == id
    ensures id !in HERO_NAME_MAP ==> DisplayName(id) == id
  {
    CnToHeroIdInvertsNameMap();
  }

  /** `f"{value}%"` of a statistic, `0` when missing. */
  function Percent(n: Num): string
  {
    n.text + "%"
  }

  /** One leaderboard row: number, name, win rate, pick rate, ban rate (not
      in quick play), KDA, and the lower-cased id that selects the icon. */
  function LeaderboardRow(i: nat, h: HeroRecord, mode: string): seq<string>
  {
    var id := Lower(h.heroId);
    var lead := [NatToString(i + 1), DisplayName(id), Percent(Field(h, "win_ratio")), Percent(Field(h, "selection_ratio"))];
    if mode == QUICK_MODE then lead + [Field(h, "kda").text, id]
    else lead + [Percent(Field(h, "ban_ratio")), Field(h, "kda").text, id]
  }

  /** Shape of a leaderboard row: one cell per column plus the trailing id,
      numbered from one, named as `DisplayName` says. */
  lemma LeaderboardRowShape(i: nat, h: HeroRecord, mode: string)
    ensures var row := LeaderboardRow(i, h, mode);
      |row| == (if mode == QUICK_MODE then 6 else 7)
      && DigitsValue(row[0]) == i + 1
      && row[1] == DisplayName(Lower(h.heroId))
      && row[|row| - 1] == Lower(h.heroId)
  {
    NatToStringRoundTrip(i + 1);
  }

  /** The rows of `filtered[:20]`, numbered from one. */
  function LeaderboardRows(ranked: seq<HeroRecord>, mode: string): (rows: seq<seq<string>>)
    ensures |rows| == if |ranked| < MAX_ROWS then |ranked| else MAX_ROWS
  {
    var n := if |ranked| < MAX_ROWS then |ranked| else MAX_ROWS;
    seq(n, i requires 0 <= i < n => LeaderboardRow(i, ranked[i], mode))
  }

  /** At most twenty rows, the i-th numbered i + 1 and built from the i-th
      ranked record, each with the trailing id of that record. */
  lemma LeaderboardRowsShape(ranked: seq<HeroRecord>, mode: string)
    ensures var rows := LeaderboardRows(ranked, mode);
      |rows| <= MAX_ROWS
      && forall i :: 0 <= i < |rows| ==>
        |rows[i]| == (if mode == QUICK_MODE then 6 else 7)
        && DigitsValue(rows[i][0]) == i + 1
        && rows[i][1] == DisplayName(Lower(ranked[i].heroId))
        && rows[i][|rows[i]| - 1] == Lower(ranked[i].heroId)
  {
    var rows := LeaderboardRows(ranked, mode);
    forall i | 0 <= i < |rows|
      ensures |rows[i]| == (if mode == QUICK_MODE then 6 else 7)
        && DigitsValue(rows[i][0]) == i + 1
        && rows[i][1] == DisplayName(Lower(ranked[i].heroId))
        && rows[i][|rows[i]| - 1] == Lower(ranked[i].heroId)
    {
      LeaderboardRowShape(i, ranked[i], mode);
    }
  }

  /** The loop appending one row per record of `filtered[:20]`. */
  method BuildLeaderboardRows(ranked: seq<HeroRecord>, mode: string) returns (rows: seq<seq<string>>)
    ensures rows == LeaderboardRows(ranked, mode)
  {
    var top := if |ranked| < MAX_ROWS then ranked else ranked[..MAX_ROWS];
    rows := [];
    var i := 0;
    while i < |top|
      invariant 0 <= i <= |top|
      invariant |rows| == i
      invariant forall k :: 0 <= k < i ==> rows[k] == LeaderboardRow(k, ranked[k], mode)
    {
      rows := rows + [LeaderboardRow(i, top[i], mode)];
      i := i + 1;
    }
  }

  // ---------------------------------------------------------------------
  // Single-hero rows (main.py:218-240)
  // ---------------------------------------------------------------------

  /** `next((h for h in data_list if h['hero_id'] == target), None)`. */
  function FindHero(data: seq<HeroRecord>, id: string): (r: Option<HeroRecord>)
    ensures r.None? <==> forall k :: 0 <= k < |data| ==> data[k].heroId != id
    ensures r.Some? ==> exists k :: (0 <= k < |data| && data[k] == r.value && data[k].heroId == id
      && forall m :: 0 <= m < k ==> data[m].heroId != id)
  {
    if data == [] then None
    else if data[0].heroId == id then Some(data[0])
    else
      var r := FindHero(data[1..], id);
      assert forall k :: 1 <= k < |data| ==> data[k] == data[1..][k - 1];
      r
  }

  /** `DISPLAY_CN_MAP.get(rank_en, rank_en)`. */
  function TierLabel(tier: string): string
  {
    if StrCode(tier) in DISPLAY_CN_MAP then DISPLAY_CN_MAP[StrCode(tier)] else tier
  }

  const DASH: string := "-"

  /** The row of one tier that answered: the hero's first record there, or
      placeholders when the tier's answer does not list the hero. */
  function HeroRow(tier: string, data: seq<HeroRecord>, hero: Hero): seq<string>
  {
    var lead := [TierLabel(tier), HeroCn(hero)];
    match FindHero(data, HeroId(hero))
    case Some(h) =>
      lead + [Percent(Field(h, "win_ratio")), Percent(Field(h, "selection_ratio")),
              Percent(Field(h, "ban_ratio")), Field(h, "kda").text, HeroId(hero)]
    case None => lead + [DASH, DASH, DASH, DASH, HeroId(hero)]
  }

  /** Contents of a single-hero row: seven cells, the tier's label, the hero's
      names at both ends, and between them the win, pick and ban rates and
      the KDA of the hero's first record, or four placeholders exactly when
      the tier's answer does not list the hero. */
  lemma HeroRowShape(tier: string, data: seq<HeroRecord>, hero: Hero)
    ensures var row := HeroRow(tier, data, hero);
      |row| == 7 && row[0] == TierLabel(tier) && row[1] == HeroCn(hero) && row[6] == HeroId(hero)
      && (row[2] == DASH <==> forall k :: 0 <= k < |data| ==> data[k].heroId != HeroId(hero))
    ensures var row := HeroRow(tier, data, hero);
      FindHero(data, HeroId(hero)).None? ==> row[2..6] == [DASH, DASH, DASH, DASH]
    ensures var row := HeroRow(tier, data, hero);
      forall h :: FindHero(data, HeroId(hero)) == Some(h) ==>
        row[2..6] == [Percent(Field(h, "win_ratio")), Percent(Field(h, "selection_ratio")),
                      Percent(Field(h, "ban_ratio")), Field(h, "kda").text]
  {
    var row := HeroRow(tier, data, hero);
    if FindHero(data, HeroId(hero)).Some? {
      assert row[2][|row[2]| - 1] == '%';
    }
  }

  /** The rows of the tiers whose answer had records, in tier order. */
  function HeroRows(tiers: seq<string>, lists: seq<seq<HeroRecord>>, hero: Hero): seq<seq<string>>
    requires |tiers| == |lists|
  {
    if lists == [] then []
    else
      var n := |lists| - 1;
      HeroRows(tiers[..n], lists[..n], hero) + (if lists[n] == [] then [] else [HeroRow(tiers[n], lists[n], hero)])
  }

  /** The positions of the tiers whose answer had records, in order. */
  function AnsweredTiers(lists: seq<seq<HeroRecord>>): (ks: seq<nat>)
    ensures |ks| <= |lists|
    ensures forall i :: 0 <= i < |ks| ==> ks[i] < |lists| && lists[ks[i]] != []
    ensures forall i, j :: 0 <= i < j < |ks| ==> ks[i] < ks[j]
    ensures forall k :: 0 <= k < |lists| && lists[k] != [] ==> k in ks
  {
    if lists == [] then []
    else
      var n := |lists| - 1;
      var ks := AnsweredTiers(lists[..n]);
      ks + (if lists[n] == [] then [] else [n])
  }

  /** One row per answered tier, in tier order, each built from that tier's
      answer: a tier is shown exactly when its answer had records. */
  lemma {:induction false} HeroRowsFollowTiers(tiers: seq<string>, lists: seq<seq<HeroRecord>>, hero: Hero)
    requires |tiers| == |lists|
    ensures var rows, ks := HeroRows(tiers, lists, hero), AnsweredTiers(lists);
      |rows| == |ks| <= |lists|
      && forall i :: 0 <= i < |rows| ==> rows[i] == HeroRow(tiers[ks[i]], lists[ks[i]], hero)
  {
    if lists != [] {
      var n := |lists| - 1;
      HeroRowsFollowTiers(tiers[..n], lists[..n], hero);
      var ks := AnsweredTiers(lists[..n]);
      assert forall i :: 0 <= i < |ks| ==> tiers[..n][ks[i]] == tiers[ks[i]] && lists[..n][ks[i]] == lists[ks[i]];
    }
  }

  /** Every single-hero row has seven cells and ends with the hero's id. */
  lemma {:induction false} HeroRowsShape(tiers: seq<string>, lists: seq<seq<HeroRecord>>, hero: Hero)
    requires |tiers| == |lists|
    ensures forall row :: row in HeroRows(tiers, lists, hero) ==> |row| == 7 && row[6] == HeroId(hero)
  {
    if lists != [] {
      var n := |lists| - 1;
      HeroRowsShape(tiers[..n], lists[..n], hero);
      HeroRowShape(tiers[n], lists[n], hero);
    }
  }
}
