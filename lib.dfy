/**
 * The pure parts of team generation (core/lib.py): which players a new team
 * gets and what each new player row holds. The random choices the source
 * makes (Faker names, `random.choice`, `random.randint`) arrive as draws.
 */
module Lib {
  import opened Wrappers
  import opened Models
  import Text

  /** The random input `create_player` consumes for one player. */
  datatype PlayerDraw = PlayerDraw(fullName: string, countryPick: nat, ageDraw: nat)

  /** A country of the country list: its two-letter code and its name. */
  type Country = (string, string)

  /** Players a generated team starts with. */
  const SquadSize: nat := 20

  function Repeat(r: Role, n: nat): (s: seq<Role>)
    ensures |s| == n
    ensures forall i :: 0 <= i < n ==> s[i] == r
  {
    if n == 0 then [] else [r] + Repeat(r, n - 1)
  }

  /** The roles of a generated team, in the order `generate_team` creates them. */
  const SquadRoles: seq<Role> :=
    Repeat(Goalkeeper, 3) + Repeat(Defender, 6) + Repeat(Midfielder, 6) + Repeat(Attacker, 5)

  /** `random.randint(lo, hi)`: the draw folded into the closed range [lo, hi]. */
  function RandInt(lo: int, hi: int, draw: nat): (r: int)
    requires lo <= hi
    ensures lo <= r <= hi
  {
    lo + draw % (hi - lo + 1)
  }

  /** `get_random_country()`: the code of the country the draw picks. */
  function RandomCountry(countries: seq<Country>, draw: nat): (code: string)
    requires countries != []
    ensures exists i :: 0 <= i < |countries| && countries[i].0 == code
  {
    countries[draw % |countries|].0
  }

  /** The row `create_player(fake, team, role)` inserts. */
  function NewPlayer(team: TeamId, role: Role, d: PlayerDraw, countries: seq<Country>): (p: Player)
    requires Text.Split(d.fullName) != []
    requires countries != []
    ensures p.team == Some(team) && p.role == role
    ensures p.marketValue == InitialMarketValue
    ensures 20 <= p.age <= 35
    ensures exists i :: 0 <= i < |countries| && countries[i].0 == p.country
    ensures Text.IsWord(p.firstName)
    ensures p.firstName == Text.Split(d.fullName)[0]
    ensures p.lastName == Text.Join(Text.Split(d.fullName)[1..])
  {
    var (first, last) := Text.SplitName(d.fullName);
    Player(Some(team), role, first, last, RandomCountry(countries, d.countryPick), RandInt(20, 35, d.ageDraw) as nat,
           InitialMarketValue)
  }

  /** The draws can be turned into players: every full name has a word, and there is a country. */
  predicate DrawsUsable(draws: seq<PlayerDraw>, countries: seq<Country>)
  {
    countries != [] && forall i :: 0 <= i < |draws| ==> Text.Split(draws[i].fullName) != []
  }

  /** The players one loop of `generate_team` creates: one of role `role` per draw, in order. */
  function Recruits(t: TeamId, role: Role, ds: seq<PlayerDraw>, countries: seq<Country>): (s: seq<Player>)
    requires DrawsUsable(ds, countries)
    ensures |s| == |ds|
    ensures forall i :: 0 <= i < |ds| ==> s[i] == NewPlayer(t, role, ds[i], countries)
    ensures forall i :: 0 <= i < |ds| ==>
      s[i].team == Some(t) && s[i].role == role && s[i].marketValue == InitialMarketValue && 20 <= s[i].age <= 35
  {
    seq(|ds|, i requires 0 <= i < |ds| => NewPlayer(t, role, ds[i], countries))
  }

  /** The 20 players `generate_team` creates for team `t`, in creation order. */
  function Squad(t: TeamId, draws: seq<PlayerDraw>, countries: seq<Country>): (s: seq<Player>)
    requires |draws| == SquadSize && DrawsUsable(draws, countries)
    ensures |s| == SquadSize
    ensures forall i :: 0 <= i < SquadSize ==>
      s[i].team == Some(t) && s[i].marketValue == InitialMarketValue && 20 <= s[i].age <= 35
  {
    Recruits(t, Goalkeeper, draws[..3], countries) + Recruits(t, Defender, draws[3..9], countries)
    + Recruits(t, Midfielder, draws[9..15], countries) + Recruits(t, Attacker, draws[15..], countries)
  }

  /** The draws of each of the four runs are usable, and the squad is the four runs in order. */
  lemma SquadRuns(t: TeamId, draws: seq<PlayerDraw>, countries: seq<Country>)
    requires |draws| == SquadSize && DrawsUsable(draws, countries)
    ensures DrawsUsable(draws[..3], countries) && DrawsUsable(draws[3..9], countries)
    ensures DrawsUsable(draws[9..15], countries) && DrawsUsable(draws[15..], countries)
    ensures Squad(t, draws, countries)
      == Recruits(t, Goalkeeper, draws[..3], countries) + Recruits(t, Defender, draws[3..9], countries)
         + Recruits(t, Midfielder, draws[9..15], countries) + Recruits(t, Attacker, draws[15..], countries)
  {
  }

  /** The roles of a list of players, in order. */
  function Roles(players: seq<Player>): (rs: seq<Role>)
    ensures |rs| == |players|
    ensures forall i :: 0 <= i < |players| ==> rs[i] == players[i].role
  {
    if players == [] then [] else [players[0].role] + Roles(players[1..])
  }

  lemma {:induction false} RepeatCount(r: Role, n: nat, x: Role)
    ensures multiset(Repeat(r, n))[x] == if x == r then n else 0
  {
    if n > 0 {
      RepeatCount(r, n - 1, x);
      assert Repeat(r, n) == [r] + Repeat(r, n - 1);
    }
  }

  /** The creation order holds 3 goalkeepers, 6 defenders, 6 midfielders and 5 attackers. */
  lemma SquadRolesCount()
    ensures var roles := multiset(SquadRoles);
      && roles[Goalkeeper] == 3 && roles[Defender] == 6
      && roles[Midfielder] == 6 && roles[Attacker] == 5
  {
    var gk, df, md, at := Repeat(Goalkeeper, 3), Repeat(Defender, 6), Repeat(Midfielder, 6), Repeat(Attacker, 5);
    assert multiset(SquadRoles) == multiset(gk) + multiset(df) + multiset(md) + multiset(at);
    RepeatCount(Goalkeeper, 3, Goalkeeper); RepeatCount(Defender, 6, Goalkeeper);
    RepeatCount(Midfielder, 6, Goalkeeper); RepeatCount(Attacker, 5, Goalkeeper);
    RepeatCount(Goalkeeper, 3, Defender); RepeatCount(Defender, 6, Defender);
    RepeatCount(Midfielder, 6, Defender); RepeatCount(Attacker, 5, Defender);
    RepeatCount(Goalkeeper, 3, Midfielder); RepeatCount(Defender, 6, Midfielder);
    RepeatCount(Midfielder, 6, Midfielder); RepeatCount(Attacker, 5, Midfielder);
    RepeatCount(Goalkeeper, 3, Attacker); RepeatCount(Defender, 6, Attacker);
    RepeatCount(Midfielder, 6, Attacker); RepeatCount(Attacker, 5, Attacker);
  }

  /** The roles of two lists one after the other. */
  lemma RolesAppend(a: seq<Player>, b: seq<Player>)
    ensures Roles(a + b) == Roles(a) + Roles(b)
  {
    var l, r := Roles(a + b), Roles(a) + Roles(b);
    forall i | 0 <= i < |l| ensures l[i] == r[i] {
      if i < |a| {
        assert (a + b)[i] == a[i];
      } else {
        assert (a + b)[i] == b[i - |a|];
      }
    }
  }

  /** One loop of `generate_team` creates players of its role only, one per draw. */
  lemma RecruitsRoles(t: TeamId, role: Role, ds: seq<PlayerDraw>, countries: seq<Country>)
    requires DrawsUsable(ds, countries)
    ensures Roles(Recruits(t, role, ds, countries)) == Repeat(role, |ds|)
  {
    var rs := Roles(Recruits(t, role, ds, countries));
    assert forall i :: 0 <= i < |ds| ==> rs[i] == role;
  }

  /** A generated team has 3 goalkeepers, 6 defenders, 6 midfielders and 5 attackers. */
  lemma SquadComposition(t: TeamId, draws: seq<PlayerDraw>, countries: seq<Country>)
    requires |draws| == SquadSize && DrawsUsable(draws, countries)
    ensures var roles := multiset(Roles(Squad(t, draws, countries)));
      && roles[Goalkeeper] == 3 && roles[Defender] == 6
      && roles[Midfielder] == 6 && roles[Attacker] == 5
  {
    SquadRuns(t, draws, countries);
    var gk := Recruits(t, Goalkeeper, draws[..3], countries);
    var df := Recruits(t, Defender, draws[3..9], countries);
    var md := Recruits(t, Midfielder, draws[9..15], countries);
    var at := Recruits(t, Attacker, draws[15..], countries);
    RolesAppend(gk, df);
    RolesAppend(gk + df, md);
    RolesAppend(gk + df + md, at);
    RecruitsRoles(t, Goalkeeper, draws[..3], countries);
    RecruitsRoles(t, Defender, draws[3..9], countries);
    RecruitsRoles(t, Midfielder, draws[9..15], countries);
    RecruitsRoles(t, Attacker, draws[15..], countries);
    assert Roles(Squad(t, draws, countries)) == SquadRoles;
    SquadRolesCount();
  }

  /** `filter(role=code).count()`: how many of the players have the stored role `code`. */
  function CountRole(players: seq<Player>, code: string): nat
  {
    if players == [] then 0
    else
      var last := |players| - 1;
      CountRole(players[..last], code) + (if RoleCode(players[last].role) == code then 1 else 0)
  }

  /** Counting by stored code counts exactly the players of that role. */
  lemma {:induction false} CountRoleByCode(players: seq<Player>, r: Role)
    ensures CountRole(players, RoleCode(r)) == multiset(Roles(players))[r]
  {
    if players != [] {
      var last := |players| - 1;
      var init, x := players[..last], players[last];
      assert init + [x] == players;
      CountRoleByCode(init, r);
      CountRoleSnoc(init, x, RoleCode(r));
      RolesSnoc(init, x, r);
      RoleCodeMatches(x.role, r);
    }
  }

  lemma CountRoleSnoc(init: seq<Player>, x: Player, code: string)
    ensures CountRole(init + [x], code) == CountRole(init, code) + (if RoleCode(x.role) == code then 1 else 0)
  {
    assert (init + [x])[..|init|] == init;
  }

  lemma RolesSnoc(init: seq<Player>, x: Player, r: Role)
    ensures multiset(Roles(init + [x]))[r] == multiset(Roles(init))[r] + (if x.role == r then 1 else 0)
  {
    RolesAppend(init, [x]);
    assert Roles([x]) == [x.role];
  }

  /** Two roles are stored under the same code exactly when they are the same role. */
  lemma RoleCodeMatches(role: Role, r: Role)
    ensures RoleCode(role) == RoleCode(r) <==> role == r
  {
    if RoleCode(role) == RoleCode(r) {
      RoleCodeInjective(role, r);
    }
  }

  /**
   * Filtering a generated team's players by stored role code finds 3
   * goal-keepers, 6 defenders, 6 mid-fielders and 5 attackers.
   */
  lemma SquadRoleCounts(t: TeamId, draws: seq<PlayerDraw>, countries: seq<Country>)
    requires |draws| == SquadSize && DrawsUsable(draws, countries)
    ensures var s := Squad(t, draws, countries);
      && CountRole(s, "goal-keeper") == 3 && CountRole(s, "defender") == 6
      && CountRole(s, "mid-fielder") == 6 && CountRole(s, "attacker") == 5
  {
    SquadComposition(t, draws, countries);
    CodeCounts(Squad(t, draws, countries), 3, 6, 6, 5);
  }

  /** The counts by stored code of a list of players are its counts by role. */
  lemma CodeCounts(s: seq<Player>, gk: nat, df: nat, md: nat, at: nat)
    requires var roles := multiset(Roles(s));
      roles[Goalkeeper] == gk && roles[Defender] == df && roles[Midfielder] == md && roles[Attacker] == at
    ensures CountRole(s, "goal-keeper") == gk && CountRole(s, "defender") == df
    ensures CountRole(s, "mid-fielder") == md && CountRole(s, "attacker") == at
  {
    assert RoleCode(Goalkeeper) == "goal-keeper" && RoleCode(Defender) == "defender";
    assert RoleCode(Midfielder) == "mid-fielder" && RoleCode(Attacker) == "attacker";
    CountRoleByCode(s, Goalkeeper);
    CountRoleByCode(s, Defender);
    CountRoleByCode(s, Midfielder);
    CountRoleByCode(s, Attacker);
  }

  /** A list of players all on team `t` at the initial market value is worth that value per player. */
  lemma {:induction false} UniformValue(players: seq<Player>, t: TeamId)
    requires forall i :: 0 <= i < |players| ==> players[i].team == Some(t) && players[i].marketValue == InitialMarketValue
    ensures Value(players, t) == |players| * InitialMarketValue
  {
    if players != [] {
      UniformValue(players[..|players| - 1], t);
    }
  }

  /** A generated team is worth 20 * 1,000,000 and every player in it is 20 to 35 years old. */
  lemma SquadValue(t: TeamId, draws: seq<PlayerDraw>, countries: seq<Country>)
    requires |draws| == SquadSize && DrawsUsable(draws, countries)
    ensures Value(Squad(t, draws, countries), t) == 20000000
    ensures forall i :: 0 <= i < SquadSize ==> 20 <= Squad(t, draws, countries)[i].age <= 35
  {
    UniformValue(Squad(t, draws, countries), t);
  }
}
