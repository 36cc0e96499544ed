/**
 * The read-only views of core/views.py: the team ranking, what each list
 * endpoint shows to a caller, the transfer search and the country list.
 *
 * A query result is a list of row ids. Each `...Queryset` method narrows the
 * whole table step by step, as the view reassigns its `queryset`, and then
 * orders it. Every query is made by an authenticated caller: the views'
 * permission classes turn anonymous callers away before a queryset is built.
 */
module Queries {
  import opened Wrappers
  import opened Models
  import opened Permissions
  import opened Sorting
  import Text
  import Lib

  /** How many teams `rank` lists. */
  const RankSize: nat := 10

  /** The ids of the teams that exist, in id order. */
  function LiveTeams(teams: seq<Option<Team>>): (r: seq<TeamId>)
    ensures forall t :: t in r <==> Live(teams, t)
    ensures Distinct(r)
  {
    Filter(Ids(|teams|), t => Live(teams, t))
  }

  /** Higher team value first. */
  function ByValueDescending(players: seq<Player>): (TeamId, TeamId) -> bool
  {
    (a: TeamId, b: TeamId) => Value(players, a) >= Value(players, b)
  }

  /**
   * `rank`: the teams ordered by the sum of their players' market values,
   * highest first, cut to the first ten.
   */
  function Rank(teams: seq<Option<Team>>, players: seq<Player>): seq<TeamId>
  {
    Take(InsertionSort(LiveTeams(teams), ByValueDescending(players)), RankSize)
  }

  /**
   * `rank` lists ten teams, or every team when there are fewer, each once,
   * by non-increasing value, and no team left out is worth more than a
   * listed one.
   */
  lemma RankIsTopTen(teams: seq<Option<Team>>, players: seq<Player>)
    ensures var r := Rank(teams, players);
      && |r| <= RankSize
      && (|r| < RankSize ==> forall t :: Live(teams, t) ==> t in r)
      && (forall i :: 0 <= i < |r| ==> Live(teams, r[i]))
      && Distinct(r)
      && (forall i, j :: 0 <= i < j < |r| ==> Value(players, r[i]) >= Value(players, r[j]))
      && (forall t, i :: Live(teams, t) && t !in r && 0 <= i < |r| ==> Value(players, r[i]) >= Value(players, t))
  {
    var le := ByValueDescending(players);
    var live := LiveTeams(teams);
    SortedView(live, le);
    TakeSorted(InsertionSort(live, le), RankSize, le);
  }

  /** The name of team `t`, empty for a deleted team. */
  function TeamName(teams: seq<Option<Team>>, t: TeamId): string
  {
    if Live(teams, t) then teams[t].value.name else ""
  }

  /** `order_by('name')` on teams. */
  function ByTeamName(teams: seq<Option<Team>>): (TeamId, TeamId) -> bool
  {
    (a: TeamId, b: TeamId) => Text.StrLe(TeamName(teams, a), TeamName(teams, b))
  }

  /** Ordering by a string key is a total preorder. */
  lemma KeyOrderTotal<T(!new)>(key: T -> string, le: (T, T) -> bool)
    requires forall a, b :: le(a, b) == Text.StrLe(key(a), key(b))
    ensures TotalPreorder(le)
  {
    forall a, b ensures le(a, b) || le(b, a) {
      Text.StrLeTotal(key(a), key(b));
    }
    forall a, b, c | le(a, b) && le(b, c) ensures le(a, c) {
      Text.StrLeTransitive(key(a), key(b), key(c));
    }
  }

  /** The teams a caller may list: all of them for staff, otherwise those the caller owns. */
  predicate TeamVisible(caller: Caller, teams: seq<Option<Team>>, t: int)
  {
    if IsStaff(caller) then Live(teams, t) else caller.Member? && OwnedBy(teams, t, caller.id)
  }

  /**
   * A list of distinct teams holding exactly the teams one user owns is that
   * user's team, or nothing: it has at most one element.
   */
  lemma OwnsAtMostOne(u: UserId, teams: seq<Option<Team>>, qs: seq<TeamId>)
    requires OneTeamPerOwner(teams)
    requires Distinct(qs)
    requires forall t :: t in qs <==> OwnedBy(teams, t, u)
    ensures |qs| <= 1
  {
    var mine := TeamOf(teams, u);
    var expected := if mine.Some? then multiset{mine.value} else multiset{};
    forall t: TeamId ensures multiset(qs)[t] == expected[t] {
      DistinctCount(qs, t);
      if t in qs {
        assert mine.Some? && t == mine.value;
      } else {
        assert multiset(qs)[t] == 0;
      }
    }
    assert multiset(qs) == expected;
  }

  /**
   * `TeamViewSet.get_queryset`: staff see every team, anyone else the teams
   * they own (at most one), ordered by name.
   */
  method TeamQueryset(caller: Caller, teams: seq<Option<Team>>) returns (qs: seq<TeamId>)
    requires caller.Member?
    requires OneTeamPerOwner(teams)
    ensures forall t :: t in qs <==> TeamVisible(caller, teams, t)
    ensures Distinct(qs)
    ensures SortedBy(qs, ByTeamName(teams))
    ensures !IsStaff(caller) ==> |qs| <= 1
  {
    qs := LiveTeams(teams);
    if !IsStaff(caller) {
      qs := Filter(qs, t => OwnedBy(teams, t, caller.id));
      OwnsAtMostOne(caller.id, teams, qs);
    }
    var le := ByTeamName(teams);
    KeyOrderTotal(t => TeamName(teams, t), le);
    SortedView(qs, le);
    qs := InsertionSort(qs, le);
  }

  /**
   * The players a caller may reach, for the given view action and optional
   * `team_id` filter: staff, and every caller of `buy`, reach all players;
   * anyone else only the players of their own team, and none without a team.
   */
  predicate PlayerVisible(caller: Caller, action: string, teams: seq<Option<Team>>, players: seq<Player>,
                          teamFilter: Option<int>, p: int)
  {
    && IsPlayer(players, p)
    && (teamFilter.Some? ==> players[p].team == Some(teamFilter.value))
    && (|| IsStaff(caller)
        || action == "buy"
        || (caller.Member? && TeamOf(teams, caller.id).Some? && players[p].team == TeamOf(teams, caller.id)))
  }

  /** The first name of player `p`, empty if there is no such player. */
  function FirstName(players: seq<Player>, p: PlayerId): string
  {
    if p < |players| then players[p].firstName else ""
  }

  /** `order_by('first_name')` on players. */
  function ByFirstName(players: seq<Player>): (PlayerId, PlayerId) -> bool
  {
    (a: PlayerId, b: PlayerId) => Text.StrLe(FirstName(players, a), FirstName(players, b))
  }

  /** `PlayerViewSet.get_queryset`, ordered by first name. */
  method PlayerQueryset(caller: Caller, action: string, teams: seq<Option<Team>>, players: seq<Player>,
                        teamFilter: Option<int>) returns (qs: seq<PlayerId>)
    requires caller.Member?
    ensures forall p :: p in qs <==> PlayerVisible(caller, action, teams, players, teamFilter, p)
    ensures Distinct(qs)
    ensures SortedBy(qs, ByFirstName(players))
  {
    qs := Ids(|players|);
    if teamFilter.Some? {
      qs := Filter(qs, p => IsPlayer(players, p) && players[p].team == Some(teamFilter.value));
    }
    if !(IsStaff(caller) || action == "buy") {
      var own := TeamOf(teams, caller.id);
      if own.Some? {
        qs := Filter(qs, p => IsPlayer(players, p) && players[p].team == own);
      } else {
        qs := [];
      }
    }
    var le := ByFirstName(players);
    KeyOrderTotal(p => FirstName(players, p), le);
    SortedView(qs, le);
    qs := InsertionSort(qs, le);
  }

  /** The query parameters of the transfer list; `None` for a parameter not given. */
  datatype TransferSearch = TransferSearch(
    country: Option<string>, firstName: Option<string>, lastName: Option<string>,
    team: Option<string>, value: Option<int>)

  /** The player's country equals the upper-cased `country` parameter. */
  predicate CountryMatches(q: TransferSearch, pl: Player)
  {
    q.country.Some? ==> pl.country == Text.Upper(q.country.value)
  }

  /** The player's first name equals the `first_name` parameter, ignoring case. */
  predicate FirstNameMatches(q: TransferSearch, pl: Player)
  {
    q.firstName.Some? ==> Text.IExact(pl.firstName, q.firstName.value)
  }

  /** The player's last name equals the `last_name` parameter, ignoring case. */
  predicate LastNameMatches(q: TransferSearch, pl: Player)
  {
    q.lastName.Some? ==> Text.IExact(pl.lastName, q.lastName.value)
  }

  /** The player's team is named by the `team` parameter, ignoring case; a player without a team never matches. */
  predicate TeamMatches(q: TransferSearch, teams: seq<Option<Team>>, pl: Player)
  {
    q.team.Some? ==> pl.team.Some? && Live(teams, pl.team.value)
                     && Text.IExact(teams[pl.team.value].value.name, q.team.value)
  }

  /** The listing's fee equals the `value` parameter. */
  predicate ValueMatches(q: TransferSearch, x: Transfer)
  {
    q.value.Some? ==> x.fee == q.value.value
  }

  /** A listing matches a search when it satisfies every parameter given. */
  predicate MatchesSearch(q: TransferSearch, teams: seq<Option<Team>>, players: seq<Player>, x: Transfer)
  {
    && IsPlayer(players, x.player)
    && var pl := players[x.player];
    && CountryMatches(q, pl) && FirstNameMatches(q, pl) && LastNameMatches(q, pl)
    && TeamMatches(q, teams, pl) && ValueMatches(q, x)
  }

  /** The creation time of listing `l`, or 0 when there is none. */
  function CreatedAt(transfers: seq<Transfer>, l: nat): int
  {
    if l < |transfers| then transfers[l].createdAt else 0
  }

  /** `order_by('-created_at')`: newest first. */
  function NewestFirst(transfers: seq<Transfer>): (nat, nat) -> bool
  {
    (a: nat, b: nat) => CreatedAt(transfers, a) >= CreatedAt(transfers, b)
  }

  /** `l` is a listing whose player exists. */
  predicate Listed(players: seq<Player>, transfers: seq<Transfer>, l: int)
  {
    0 <= l < |transfers| && IsPlayer(players, transfers[l].player)
  }

  /** The player of listing `l`. */
  function ListedPlayer(players: seq<Player>, transfers: seq<Transfer>, l: int): Player
    requires Listed(players, transfers, l)
  {
    players[transfers[l].player]
  }

  /** The listings of `s` whose player exists and that `keep` accepts, in the order of `s`. */
  function Narrow(players: seq<Player>, transfers: seq<Transfer>, s: seq<nat>, keep: (Transfer, Player) -> bool)
    : (r: seq<nat>)
    ensures forall l :: l in r <==> l in s && Listed(players, transfers, l) && keep(transfers[l], ListedPlayer(players, transfers, l))
    ensures Distinct(s) ==> Distinct(r)
  {
    Filter(s, l => Listed(players, transfers, l) && keep(transfers[l], ListedPlayer(players, transfers, l)))
  }

  /**
   * The filtering half of `TransferViewSet.get_queryset`: one narrowing step
   * per search parameter, in the view's order. A step whose parameter is
   * absent keeps every listing, as the view skips that filter; so the
   * listings kept, active or not, are those matching every given parameter.
   */
  method SearchListings(q: TransferSearch, teams: seq<Option<Team>>, players: seq<Player>,
                        transfers: seq<Transfer>) returns (qs: seq<nat>)
    ensures forall l :: l in qs <==> 0 <= l < |transfers| && MatchesSearch(q, teams, players, transfers[l])
    ensures Distinct(qs)
  {
    qs := Narrow(players, transfers, Ids(|transfers|), (x: Transfer, pl: Player) => true);
    qs := Narrow(players, transfers, qs, (x: Transfer, pl: Player) => CountryMatches(q, pl));
    qs := Narrow(players, transfers, qs, (x: Transfer, pl: Player) => FirstNameMatches(q, pl));
    qs := Narrow(players, transfers, qs, (x: Transfer, pl: Player) => LastNameMatches(q, pl));
    qs := Narrow(players, transfers, qs, (x: Transfer, pl: Player) => TeamMatches(q, teams, pl));
    qs := Narrow(players, transfers, qs, (x: Transfer, pl: Player) => ValueMatches(q, x));
  }

  /** `TransferViewSet.get_queryset`: the matching listings, newest first. */
  method TransferQueryset(q: TransferSearch, teams: seq<Option<Team>>, players: seq<Player>,
                          transfers: seq<Transfer>) returns (qs: seq<nat>)
    ensures forall l :: l in qs <==> 0 <= l < |transfers| && MatchesSearch(q, teams, players, transfers[l])
    ensures Distinct(qs)
    ensures SortedBy(qs, NewestFirst(transfers))
  {
    qs := SearchListings(q, teams, players, transfers);
    var le := NewestFirst(transfers);
    SortedView(qs, le);
    qs := InsertionSort(qs, le);
  }

  /** One entry of the country list. */
  datatype CountryEntry = CountryEntry(code: string, name: string)

  /** The (code, name) pairs of a list of entries, in order. */
  function Pairs(entries: seq<CountryEntry>): (r: seq<Lib.Country>)
    ensures |r| == |entries|
    ensures forall i :: 0 <= i < |entries| ==> r[i] == (entries[i].code, entries[i].name)
  {
    if entries == [] then []
    else Pairs(entries[..|entries| - 1]) + [(entries[|entries| - 1].code, entries[|entries| - 1].name)]
  }

  /** Python's `sorted(COUNTRIES, key=lambda x: x[1])`. */
  function ByCountryName(): (Lib.Country, Lib.Country) -> bool
  {
    (a: Lib.Country, b: Lib.Country) => Text.StrLe(a.1, b.1)
  }

  /**
   * `CountryViewSet.list`: one entry per country, holding its code and name,
   * ordered by name.
   */
  method CountryList(countries: seq<Lib.Country>) returns (entries: seq<CountryEntry>)
    ensures |entries| == |countries|
    ensures multiset(Pairs(entries)) == multiset(countries)
    ensures forall i, j :: 0 <= i < j < |entries| ==> Text.StrLe(entries[i].name, entries[j].name)
  {
    var le := ByCountryName();
    KeyOrderTotal((c: Lib.Country) => c.1, le);
    var sorted := InsertionSort(countries, le);
    InsertionSortSorted(countries, le);
    entries := [];
    for i := 0 to |sorted|
      invariant |entries| == i
      invariant forall k :: 0 <= k < i ==> entries[k] == CountryEntry(sorted[k].0, sorted[k].1)
    {
      entries := entries + [CountryEntry(sorted[i].0, sorted[i].1)];
    }
    assert Pairs(entries) == sorted;
    assert forall i, j :: 0 <= i < j < |entries| ==> le(sorted[i], sorted[j]);
  }
}
