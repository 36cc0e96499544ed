/**
 * The league's tables: teams, players and transfer listings.
 *
 * A table is a sequence of rows and a row's id is its position; ids are
 * never reused. Players and listings are never deleted by the operations
 * modelled here; a deleted team leaves `None` at its position.
 *
 * A team's value is not stored: it is the sum of its players' market values.
 */
module Models {
  import opened Wrappers
  import Permissions

  type UserId = Permissions.UserId
  type TeamId = nat
  type PlayerId = nat

  /** Player roles (the `role` choices of the player model). */
  datatype Role = Goalkeeper | Defender | Midfielder | Attacker

  /** The stored code of each role. */
  function RoleCode(r: Role): string
  {
    match r
    case Goalkeeper => "goal-keeper"
    case Defender => "defender"
    case Midfielder => "mid-fielder"
    case Attacker => "attacker"
  }

  /** Distinct roles are stored under distinct codes. */
  lemma RoleCodeInjective(r: Role, r': Role)
    requires RoleCode(r) == RoleCode(r')
    ensures r == r'
  {
    assert RoleCode(r)[0] == RoleCode(r')[0];
    if r.Defender? || r'.Defender? {
      assert RoleCode(r)[1] == RoleCode(r')[1];
    }
  }

  /** A new team's bank balance. */
  const InitialBalance: nat := 5000000

  /** A new player's market value. */
  const InitialMarketValue: nat := 1000000

  /** A team; `bankBalance` is a non-negative column, so it can never go below zero. */
  datatype Team = Team(owner: UserId, name: string, country: string, bankBalance: nat)

  /** A player; `team` is `None` for a player without a team. */
  datatype Player = Player(
    team: Option<TeamId>, role: Role, firstName: string, lastName: string,
    country: string, age: nat, marketValue: nat)

  /** A listing of `player` for sale at `fee`; `createdAt` is its creation time. */
  datatype Transfer = Transfer(player: PlayerId, fee: nat, isActive: bool, createdAt: int)

  /** `t` names a team that exists. */
  predicate Live(teams: seq<Option<Team>>, t: int)
  {
    0 <= t < |teams| && teams[t].Some?
  }

  /** `p` names a player that exists. */
  predicate IsPlayer(players: seq<Player>, p: int)
  {
    0 <= p < |players|
  }

  /** `t` is an existing team of `owner`. */
  predicate OwnedBy(teams: seq<Option<Team>>, t: int, owner: UserId)
  {
    Live(teams, t) && teams[t].value.owner == owner
  }

  /** Every user owns at most one team (a one-to-one relation). */
  ghost predicate OneTeamPerOwner(teams: seq<Option<Team>>)
  {
    forall i, j :: Live(teams, i) && Live(teams, j) && teams[i].value.owner == teams[j].value.owner ==> i == j
  }

  /** Foreign keys point at existing rows and no user owns two teams. */
  ghost predicate Consistent(teams: seq<Option<Team>>, players: seq<Player>, transfers: seq<Transfer>)
  {
    && (forall p :: 0 <= p < |players| && players[p].team.Some? ==> Live(teams, players[p].team.value))
    && (forall l :: 0 <= l < |transfers| ==> IsPlayer(players, transfers[l].player))
    && OneTeamPerOwner(teams)
  }

  /** `user.team`: the team the user owns, if any. */
  function TeamOf(teams: seq<Option<Team>>, u: UserId): (r: Option<TeamId>)
    ensures r.Some? ==> OwnedBy(teams, r.value, u)
    ensures r.None? ==> forall t :: !OwnedBy(teams, t, u)
  {
    if teams == [] then None
    else
      var last := |teams| - 1;
      if teams[last].Some? && teams[last].value.owner == u then Some(last)
      else
        var r := TeamOf(teams[..last], u);
        assert forall t :: 0 <= t < last ==> teams[..last][t] == teams[t];
        assert forall t :: OwnedBy(teams, t, u) && t != last ==> OwnedBy(teams[..last], t, u);
        r
  }

  /** A team's value: the sum of the market values of the players on it. */
  function Value(players: seq<Player>, t: TeamId): nat
  {
    if players == [] then 0
    else
      var last := players[|players| - 1];
      Value(players[..|players| - 1], t) + (if last.team == Some(t) then last.marketValue else 0)
  }

  /** The value of a concatenation of player lists is the sum of their values. */
  lemma {:induction false} ValueAppend(a: seq<Player>, b: seq<Player>, t: TeamId)
    ensures Value(a + b, t) == Value(a, t) + Value(b, t)
  {
    if b == [] {
      assert a + b == a;
    } else {
      var ab := a + b;
      assert ab[..|ab| - 1] == a + b[..|b| - 1];
      ValueAppend(a, b[..|b| - 1], t);
    }
  }

  /** A team none of whose players appear in the list has value zero there. */
  lemma {:induction false} ValueWithoutMembers(players: seq<Player>, t: TeamId)
    requires forall p :: 0 <= p < |players| ==> players[p].team != Some(t)
    ensures Value(players, t) == 0
  {
    if players != [] {
      ValueWithoutMembers(players[..|players| - 1], t);
    }
  }

  /** The contribution a player makes to team `t`'s value. */
  function Share(p: Player, t: TeamId): nat
  {
    if p.team == Some(t) then p.marketValue else 0
  }

  /** Replacing one player changes a team's value by the difference of the two shares. */
  lemma {:induction false} ValueUpdate(players: seq<Player>, i: nat, p: Player, t: TeamId)
    requires i < |players|
    ensures Value(players[i := p], t) == Value(players, t) - Share(players[i], t) + Share(p, t)
  {
    var n := |players|;
    var updated := players[i := p];
    if i == n - 1 {
      assert updated[..n - 1] == players[..n - 1];
    } else {
      assert updated[..n - 1] == players[..n - 1][i := p];
      ValueUpdate(players[..n - 1], i, p, t);
    }
  }

  /** The money all existing teams hold together. */
  function TotalBalance(teams: seq<Option<Team>>): nat
  {
    if teams == [] then 0
    else
      var last := teams[|teams| - 1];
      TotalBalance(teams[..|teams| - 1]) + (if last.Some? then last.value.bankBalance else 0)
  }

  /** The balance of a team row, zero for a deleted one. */
  function Balance(row: Option<Team>): nat
  {
    if row.Some? then row.value.bankBalance else 0
  }

  /** Replacing one team row changes the total by the difference of the two balances. */
  lemma {:induction false} TotalBalanceUpdate(teams: seq<Option<Team>>, i: nat, row: Option<Team>)
    requires i < |teams|
    ensures TotalBalance(teams[i := row]) == TotalBalance(teams) - Balance(teams[i]) + Balance(row)
  {
    var n := |teams|;
    var updated := teams[i := row];
    if i == n - 1 {
      assert updated[..n - 1] == teams[..n - 1];
    } else {
      assert updated[..n - 1] == teams[..n - 1][i := row];
      TotalBalanceUpdate(teams[..n - 1], i, row);
    }
  }

  /** The teams with team `t`'s bank balance set to `balance`. */
  function WithBalance(teams: seq<Option<Team>>, t: TeamId, balance: nat): (r: seq<Option<Team>>)
    requires Live(teams, t)
    ensures |r| == |teams| && Live(r, t) && r[t].value.bankBalance == balance
    ensures r[t].value == teams[t].value.(bankBalance := balance)
    ensures forall i :: 0 <= i < |teams| && i != t ==> r[i] == teams[i]
  {
    teams[t := Some(teams[t].value.(bankBalance := balance))]
  }

  /**
   * Paying `fee` from `buyer` to `seller`: the seller's balance rises by the
   * fee and the buyer's falls by it, which the buyer's balance must cover.
   */
  function Settle(teams: seq<Option<Team>>, seller: TeamId, buyer: TeamId, fee: nat): (r: seq<Option<Team>>)
    requires Live(teams, seller) && Live(teams, buyer) && seller != buyer
    requires fee <= teams[buyer].value.bankBalance
    ensures |r| == |teams|
    ensures Live(r, seller) && r[seller].value == teams[seller].value.(bankBalance := teams[seller].value.bankBalance + fee)
    ensures Live(r, buyer) && r[buyer].value == teams[buyer].value.(bankBalance := teams[buyer].value.bankBalance - fee)
    ensures forall i :: 0 <= i < |teams| && i != seller && i != buyer ==> r[i] == teams[i]
  {
    var paid := WithBalance(teams, buyer, teams[buyer].value.bankBalance - fee);
    WithBalance(paid, seller, teams[seller].value.bankBalance + fee)
  }

  /** A payment between two teams neither creates nor destroys money. */
  lemma SettleConserves(teams: seq<Option<Team>>, seller: TeamId, buyer: TeamId, fee: nat)
    requires Live(teams, seller) && Live(teams, buyer) && seller != buyer
    requires fee <= teams[buyer].value.bankBalance
    ensures TotalBalance(Settle(teams, seller, buyer, fee)) == TotalBalance(teams)
  {
    var paid := WithBalance(teams, buyer, teams[buyer].value.bankBalance - fee);
    TotalBalanceUpdate(teams, buyer, paid[buyer]);
    TotalBalanceUpdate(paid, seller, Settle(teams, seller, buyer, fee)[seller]);
    assert paid[buyer := paid[buyer]] == paid;
    assert paid[seller := Settle(teams, seller, buyer, fee)[seller]] == Settle(teams, seller, buyer, fee);
  }

  /**
   * Moving player `p` to team `t` with market value `mv`: `t` gains the new
   * market value, the player's former team loses the old one, and every other
   * team's value stays the same.
   */
  lemma ReassignValue(players: seq<Player>, p: nat, t: TeamId, mv: nat, other: TeamId)
    requires p < |players|
    ensures var moved := players[p := players[p].(team := Some(t), marketValue := mv)];
      && (players[p].team != Some(t) ==> Value(moved, t) == Value(players, t) + mv)
      && (players[p].team == Some(other) && other != t ==> Value(moved, other) == Value(players, other) - players[p].marketValue)
      && (players[p].team != Some(other) && other != t ==> Value(moved, other) == Value(players, other))
  {
    var q := players[p].(team := Some(t), marketValue := mv);
    ValueUpdate(players, p, q, t);
    ValueUpdate(players, p, q, other);
  }
}
