/**
 * The operations that change the league's tables: buying, selling and moving
 * a player (core/views.py) and generating a team (core/lib.py).
 *
 * A request's outcome is the HTTP status the view answers with. Every check
 * a view makes comes before its first write, and a refused request leaves
 * the tables as they were.
 */
module Transactions {
  import opened Wrappers
  import opened Models
  import opened Permissions
  import Queries
  import Lib
  import Text

  /** The outcome of a request: 201, 400, 401, 403, 404, or 500 for an uncaught database error. */
  datatype Status = Created | BadRequest | Unauthorized | Forbidden | NotFound | ServerError

  /** The status the framework answers for a refusing verdict of the permission classes. */
  function Refusal(v: Verdict): Status
    requires v != Admitted
  {
    if v == NotAuthenticated then Unauthorized else Forbidden
  }

  /** The permission classes of `sell` and `buy` admit a POST by `c`. */
  predicate TradeGate(c: Caller, action: string)
  {
    CheckPermissions(TradeActionClasses, Request(c, "POST", action)) == Admitted
  }

  /** The permission class of the staff-only `move` admits a POST by `c`. */
  predicate StaffGate(c: Caller, action: string)
  {
    CheckPermissions(StaffActionClasses, Request(c, "POST", action)) == Admitted
  }

  /**
   * `sell` and `buy` are open to every user but the signup account; a
   * refusal is 401 without credentials and 403 for the signup account, the
   * status the framework's check gives.
   */
  lemma TradeGateTable(c: Caller, action: string)
    ensures TradeGate(c, action) <==> c.Member? && !IsSignupAccount(c)
    ensures !TradeGate(c, action) ==>
      (Refusal(CheckPermissions(TradeActionClasses, Request(c, "POST", action))) == Unauthorized <==> c.Anonymous?)
  {
    var r := Request(c, "POST", action);
    assert (HasPermission(TradeActionClasses[0], r) && HasPermission(TradeActionClasses[1], r))
      ==> TradeGate(c, action);
  }

  /** `move` is open to staff only; anyone else gets 401 without credentials, else 403. */
  lemma StaffGateTable(c: Caller, action: string)
    ensures StaffGate(c, action) <==> IsStaff(c)
    ensures !StaffGate(c, action) ==>
      (Refusal(CheckPermissions(StaffActionClasses, Request(c, "POST", action))) == Unauthorized <==> c.Anonymous?)
  {
  }

  /** The three tables, as one value. */
  datatype Tables = Tables(teams: seq<Option<Team>>, players: seq<Player>, transfers: seq<Transfer>)

  /** The active listing of player `p` a purchase takes: the most recently created one. */
  function ActiveListing(transfers: seq<Transfer>, p: int): (r: Option<nat>)
    ensures r.Some? ==> r.value < |transfers| && transfers[r.value].player == p && transfers[r.value].isActive
    ensures r.Some? ==> forall l :: r.value < l < |transfers| ==> !(transfers[l].player == p && transfers[l].isActive)
    ensures r.None? ==> forall l :: 0 <= l < |transfers| ==> !(transfers[l].player == p && transfers[l].isActive)
  {
    if transfers == [] then None
    else
      var last := |transfers| - 1;
      if transfers[last].player == p && transfers[last].isActive then Some(last)
      else
        var r := ActiveListing(transfers[..last], p);
        assert forall l :: 0 <= l < last ==> transfers[..last][l] == transfers[l];
        r
  }

  /** A new active listing of a player is the one a purchase of that player takes; other players' listings are unaffected. */
  lemma ListingAppended(transfers: seq<Transfer>, x: Transfer, p: int)
    requires x.isActive
    ensures p == x.player ==> ActiveListing(transfers + [x], p) == Some(|transfers|)
    ensures p != x.player ==> ActiveListing(transfers + [x], p) == ActiveListing(transfers, p)
  {
    assert (transfers + [x])[..|transfers|] == transfers;
  }

  /**
   * Listing `l` can be bought by team `buyer`: the listing and its player
   * exist, the buyer exists and is not the player's team, the player's team
   * (if any) exists, and the buyer's balance covers the fee.
   */
  predicate CanPurchase(t: Tables, l: int, buyer: int)
  {
    && 0 <= l < |t.transfers| && IsPlayer(t.players, t.transfers[l].player)
    && Live(t.teams, buyer)
    && var pl := t.players[t.transfers[l].player];
    && pl.team != Some(buyer)
    && (pl.team.Some? ==> Live(t.teams, pl.team.value))
    && t.transfers[l].fee <= t.teams[buyer].value.bankBalance
  }

  /**
   * The tables after `buyer` buys listing `l`: the listing is closed, the fee
   * moves from the buyer to the player's team (a player without a team pays
   * nobody), and the player joins the buyer at market value `newValue`.
   */
  function Purchase(t: Tables, l: nat, buyer: TeamId, newValue: nat): (r: Tables)
    requires CanPurchase(t, l, buyer)
    ensures |r.teams| == |t.teams| && |r.players| == |t.players| && |r.transfers| == |t.transfers|
    ensures !r.transfers[l].isActive
    ensures forall k :: 0 <= k < |t.transfers| && k != l ==> r.transfers[k] == t.transfers[k]
    ensures var p := t.transfers[l].player;
      && r.players[p].team == Some(buyer) && r.players[p].marketValue == newValue
      && forall q :: 0 <= q < |t.players| && q != p ==> r.players[q] == t.players[q]
    ensures var fee := t.transfers[l].fee;
      && Live(r.teams, buyer)
      && r.teams[buyer].value == t.teams[buyer].value.(bankBalance := t.teams[buyer].value.bankBalance - fee)
    ensures var seller := t.players[t.transfers[l].player].team; var fee := t.transfers[l].fee;
      && (seller.Some? ==>
            && Live(r.teams, seller.value)
            && r.teams[seller.value].value
               == t.teams[seller.value].value.(bankBalance := t.teams[seller.value].value.bankBalance + fee))
      && forall u :: 0 <= u < |t.teams| && u != buyer && Some(u) != seller ==> r.teams[u] == t.teams[u]
  {
    var x := t.transfers[l];
    var pl := t.players[x.player];
    var teams :=
      if pl.team.Some? then Settle(t.teams, pl.team.value, buyer, x.fee)
      else WithBalance(t.teams, buyer, t.teams[buyer].value.bankBalance - x.fee);
    Tables(teams, t.players[x.player := pl.(team := Some(buyer), marketValue := newValue)],
           t.transfers[l := x.(isActive := false)])
  }

  /**
   * A purchase moves money between the two teams and creates none; buying a
   * player without a team takes the fee out of the league.
   */
  lemma PurchaseMoney(t: Tables, l: nat, buyer: TeamId, newValue: nat)
    requires CanPurchase(t, l, buyer)
    ensures var seller := t.players[t.transfers[l].player].team;
      TotalBalance(Purchase(t, l, buyer, newValue).teams)
        == TotalBalance(t.teams) - (if seller.Some? then 0 else t.transfers[l].fee)
  {
    var x := t.transfers[l];
    var pl := t.players[x.player];
    if pl.team.Some? {
      SettleConserves(t.teams, pl.team.value, buyer, x.fee);
    } else {
      var r := Purchase(t, l, buyer, newValue).teams;
      TotalBalanceUpdate(t.teams, buyer, r[buyer]);
      assert t.teams[buyer := r[buyer]] == r;
    }
  }

  /**
   * The bought player's value leaves the selling team's value and the new
   * market value joins the buyer's; every other team keeps its value.
   */
  lemma PurchaseValues(t: Tables, l: nat, buyer: TeamId, newValue: nat, u: TeamId)
    requires CanPurchase(t, l, buyer)
    ensures var pl := t.players[t.transfers[l].player];
      var after := Purchase(t, l, buyer, newValue).players;
      && (u == buyer ==> Value(after, u) == Value(t.players, u) + newValue)
      && (u != buyer && pl.team == Some(u) ==> Value(after, u) == Value(t.players, u) - pl.marketValue)
      && (u != buyer && pl.team != Some(u) ==> Value(after, u) == Value(t.players, u))
  {
    var p := t.transfers[l].player;
    ReassignValue(t.players, p, buyer, newValue, u);
    assert Purchase(t, l, buyer, newValue).players
      == t.players[p := t.players[p].(team := Some(buyer), marketValue := newValue)];
  }

  /** A purchase keeps the tables consistent. */
  lemma PurchaseConsistent(t: Tables, l: nat, buyer: TeamId, newValue: nat)
    requires CanPurchase(t, l, buyer)
    requires Consistent(t.teams, t.players, t.transfers)
    ensures var r := Purchase(t, l, buyer, newValue); Consistent(r.teams, r.players, r.transfers)
  {
    var r := Purchase(t, l, buyer, newValue);
    assert forall u :: 0 <= u < |t.teams| ==>
      (r.teams[u].Some? <==> t.teams[u].Some?) && (r.teams[u].Some? ==> r.teams[u].value.owner == t.teams[u].value.owner);
    forall q | 0 <= q < |r.players| && r.players[q].team.Some?
      ensures Live(r.teams, r.players[q].team.value)
    {
      if q != t.transfers[l].player {
        assert r.players[q] == t.players[q];
      }
    }
  }

  /** `Team.objects.filter(owner=owner).delete()`: every team of `owner` is deleted. */
  function Disband(teams: seq<Option<Team>>, owner: UserId): (r: seq<Option<Team>>)
    ensures |r| == |teams|
    ensures forall u :: 0 <= u < |teams| ==> r[u] == if OwnedBy(teams, u, owner) then None else teams[u]
    ensures forall u :: !OwnedBy(r, u, owner)
  {
    seq(|teams|, u requires 0 <= u < |teams| => if OwnedBy(teams, u, owner) then None else teams[u])
  }

  /** The players of deleted teams stay, without a team. */
  function Release(players: seq<Player>, teams: seq<Option<Team>>, owner: UserId): (r: seq<Player>)
    ensures |r| == |players|
    ensures forall i :: 0 <= i < |players| ==>
      r[i] == if players[i].team.Some? && OwnedBy(teams, players[i].team.value, owner)
              then players[i].(team := None) else players[i]
    ensures forall i :: 0 <= i < |r| && r[i].team.Some? ==> !OwnedBy(teams, r[i].team.value, owner)
  {
    seq(|players|, i requires 0 <= i < |players| =>
      if players[i].team.Some? && OwnedBy(teams, players[i].team.value, owner)
      then players[i].(team := None) else players[i])
  }

  /** Releasing the players of `owner`'s teams leaves the value of every other team as it was. */
  lemma {:induction false} ReleaseValue(players: seq<Player>, teams: seq<Option<Team>>, owner: UserId, u: TeamId)
    requires !OwnedBy(teams, u, owner)
    ensures Value(Release(players, teams, owner), u) == Value(players, u)
  {
    if players != [] {
      var n := |players| - 1;
      assert Release(players, teams, owner)[..n] == Release(players[..n], teams, owner);
      ReleaseValue(players[..n], teams, owner, u);
    }
  }

  /** Replacing `owner`'s teams by one new team of theirs, with a squad, keeps the tables consistent. */
  lemma ReplaceConsistent(teams: seq<Option<Team>>, players: seq<Player>, transfers: seq<Transfer>,
                          owner: UserId, team: Team, squad: seq<Player>)
    requires Consistent(teams, players, transfers)
    requires team.owner == owner
    requires forall i :: 0 <= i < |squad| ==> squad[i].team == Some(|teams|)
    ensures var teams' := Disband(teams, owner) + [Some(team)];
      && Consistent(teams', Release(players, teams, owner) + squad, transfers)
      && forall u :: OwnedBy(teams', u, owner) ==> u == |teams|
  {
    var teams' := Disband(teams, owner) + [Some(team)];
    var players' := Release(players, teams, owner) + squad;
    assert forall u :: 0 <= u < |teams| ==> teams'[u] == Disband(teams, owner)[u];
    forall q | 0 <= q < |players'| && players'[q].team.Some?
      ensures Live(teams', players'[q].team.value)
    {
      if q < |players| {
        assert players'[q] == Release(players, teams, owner)[q];
        assert teams'[players'[q].team.value] == Disband(teams, owner)[players'[q].team.value];
      } else {
        assert players'[q] == squad[q - |players|];
      }
    }
    forall i, j | Live(teams', i) && Live(teams', j) && teams'[i].value.owner == teams'[j].value.owner
      ensures i == j
    {
      if i < |teams| && j < |teams| {
        assert teams'[i] == Disband(teams, owner)[i] && teams'[j] == Disband(teams, owner)[j];
      }
    }
  }

  /** Appending four runs one after the other appends their concatenation. */
  lemma ConcatRuns<T>(s: seq<T>, a: seq<T>, b: seq<T>, c: seq<T>, d: seq<T>)
    ensures s + a + b + c + d == s + (a + b + c + d)
  {
  }

  /** The league's tables, which the views read and write. */
  class League {
    var teams: seq<Option<Team>>
    var players: seq<Player>
    var transfers: seq<Transfer>

    ghost predicate Valid()
      reads this
    {
      Consistent(teams, players, transfers)
    }

    function State(): Tables
      reads this
    {
      Tables(teams, players, transfers)
    }

    /** An empty league. */
    constructor ()
      ensures Valid()
      ensures teams == [] && players == [] && transfers == []
    {
      teams, players, transfers := [], [], [];
    }

    /**
     * `PlayerViewSet.buy` and the purchase it makes. The refusals come in the
     * order the view and the purchase check them: the permission classes, the
     * player lookup, the `team` field, buying into the player's own team,
     * buying for a team the caller neither owns nor administers, a player with
     * no active listing, and a buyer whose balance cannot cover the fee (the
     * non-negative balance column refuses the debit and the purchase rolls
     * back). A purchase that goes through is `Purchase` of the newest active
     * listing, and the player's new market value is `revalue` of the old one.
     */
    method Buy(caller: Caller, p: int, teamFilter: Option<int>, team: Option<int>, revalue: nat -> nat)
      returns (status: Status)
      requires Valid()
      requires forall v: nat :: revalue(v) > v
      modifies this
      ensures Valid()
      ensures !TradeGate(caller, "buy") ==> status == Refusal(CheckPermissions(TradeActionClasses, Request(caller, "POST", "buy")))
      ensures var t := old(State()); TradeGate(caller, "buy") ==>
        if !Queries.PlayerVisible(caller, "buy", t.teams, t.players, teamFilter, p) then status == NotFound
        else if team.None? || !Live(t.teams, team.value) then status == BadRequest
        else if t.players[p].team == Some(team.value) then status == Forbidden
        else if !(IsStaff(caller) || t.teams[team.value].value.owner == caller.id) then status == Forbidden
        else if ActiveListing(t.transfers, p).None? then status == NotFound
        else if t.transfers[ActiveListing(t.transfers, p).value].fee > t.teams[team.value].value.bankBalance then
          status == BadRequest
        else
          (&& status == Created
           && State() == Purchase(t, ActiveListing(t.transfers, p).value, team.value, revalue(t.players[p].marketValue))
           && State().players[p].marketValue > t.players[p].marketValue)
      ensures status != Created ==> State() == old(State())
    {
      var verdict := CheckPermissions(TradeActionClasses, Request(caller, "POST", "buy"));
      if verdict != Admitted {
        return Refusal(verdict);
      }
      if !Queries.PlayerVisible(caller, "buy", teams, players, teamFilter, p) {
        return NotFound;
      }
      if team.None? || !Live(teams, team.value) {
        return BadRequest;
      }
      var buyer: TeamId := team.value;
      if players[p].team == Some(buyer) {
        return Forbidden;
      }
      if !(IsStaff(caller) || teams[buyer].value.owner == caller.id) {
        return Forbidden;
      }
      var listing := ActiveListing(transfers, p);
      if listing.None? {
        return NotFound;
      }
      var l := listing.value;
      var fee := transfers[l].fee;
      if fee > teams[buyer].value.bankBalance {
        return BadRequest;
      }
      Acquire(l, buyer, revalue(players[p].marketValue));
      status := Created;
    }

    /**
     * The purchase itself: listing `l` is closed, the fee is credited to the
     * player's team and debited from the buyer, and the player joins the
     * buyer at market value `newValue`.
     */
    method Acquire(l: nat, buyer: TeamId, newValue: nat)
      requires Valid()
      requires CanPurchase(State(), l, buyer)
      modifies this
      ensures Valid()
      ensures State() == Purchase(old(State()), l, buyer, newValue)
    {
      PurchaseConsistent(State(), l, buyer, newValue);
      var p := transfers[l].player;
      var fee := transfers[l].fee;
      transfers := transfers[l := transfers[l].(isActive := false)];
      var seller := players[p].team;
      if seller.Some? {
        teams := Settle(teams, seller.value, buyer, fee);
      } else {
        teams := WithBalance(teams, buyer, teams[buyer].value.bankBalance - fee);
      }
      players := players[p := players[p].(team := Some(buyer), marketValue := newValue)];
    }

    /**
     * `PlayerViewSet.sell`: after the permission classes and the player
     * lookup, a missing `fee` is refused (400), a negative one fails in the
     * database (500), and otherwise one new active listing of the player at
     * that fee is added, created at `now`.
     */
    method Sell(caller: Caller, p: int, teamFilter: Option<int>, fee: Option<int>, now: int)
      returns (status: Status)
      requires Valid()
      modifies this`transfers
      ensures Valid()
      ensures !TradeGate(caller, "sell") ==> status == Refusal(CheckPermissions(TradeActionClasses, Request(caller, "POST", "sell")))
      ensures TradeGate(caller, "sell") ==>
        if !Queries.PlayerVisible(caller, "sell", teams, players, teamFilter, p) then status == NotFound
        else if fee.None? then status == BadRequest
        else if fee.value < 0 then status == ServerError
        else status == Created && transfers == old(transfers) + [Transfer(p, fee.value, true, now)]
      ensures status != Created ==> transfers == old(transfers)
    {
      var verdict := CheckPermissions(TradeActionClasses, Request(caller, "POST", "sell"));
      if verdict != Admitted {
        return Refusal(verdict);
      }
      if !Queries.PlayerVisible(caller, "sell", teams, players, teamFilter, p) {
        return NotFound;
      }
      if fee.None? {
        return BadRequest;
      }
      if fee.value < 0 {
        return ServerError;
      }
      transfers := transfers + [Transfer(p, fee.value, true, now)];
      status := Created;
    }

    /**
     * `PlayerViewSet.move`: staff only. After the player lookup, a `team`
     * that does not exist is refused (400); otherwise the player's team is
     * set to the given one (`None` for a null team) and nothing else changes:
     * no money moves and no listing changes.
     */
    method Move(caller: Caller, p: int, teamFilter: Option<int>, team: Option<int>) returns (status: Status)
      requires Valid()
      modifies this`players
      ensures Valid()
      ensures !StaffGate(caller, "move") ==> status == Refusal(CheckPermissions(StaffActionClasses, Request(caller, "POST", "move")))
      ensures StaffGate(caller, "move") ==>
        if !Queries.PlayerVisible(caller, "move", teams, old(players), teamFilter, p) then status == NotFound
        else if team.Some? && !Live(teams, team.value) then status == BadRequest
        else
          (&& status == Created
           && players == old(players)[p := old(players)[p].(team := if team.Some? then Some(team.value as TeamId) else None)])
      ensures status != Created ==> players == old(players)
    {
      var verdict := CheckPermissions(StaffActionClasses, Request(caller, "POST", "move"));
      if verdict != Admitted {
        return Refusal(verdict);
      }
      if !Queries.PlayerVisible(caller, "move", teams, players, teamFilter, p) {
        return NotFound;
      }
      if team.Some? && !Live(teams, team.value) {
        return BadRequest;
      }
      var target: Option<TeamId> := if team.Some? then Some(team.value as TeamId) else None;
      players := players[p := players[p].(team := target)];
      status := Created;
    }

    /** `create_player(fake, team, role)`: adds one player to team `t`. */
    method CreatePlayer(t: TeamId, role: Role, d: Lib.PlayerDraw, countries: seq<Lib.Country>) returns (id: PlayerId)
      requires Valid() && Live(teams, t)
      requires Text.Split(d.fullName) != [] && countries != []
      modifies this`players
      ensures Valid()
      ensures id == |old(players)|
      ensures players == old(players) + [Lib.NewPlayer(t, role, d, countries)]
    {
      id := |players|;
      players := players + [Lib.NewPlayer(t, role, d, countries)];
    }

    /**
     * One loop of `generate_team`: a player of role `role` is created for
     * team `t` per draw of `ds`.
     */
    method CreateRole(t: TeamId, role: Role, ds: seq<Lib.PlayerDraw>, countries: seq<Lib.Country>)
      requires Valid() && Live(teams, t)
      requires Lib.DrawsUsable(ds, countries)
      modifies this`players
      ensures Valid()
      ensures players == old(players) + Lib.Recruits(t, role, ds, countries)
    {
      ghost var made := Lib.Recruits(t, role, ds, countries);
      for i := 0 to |ds|
        invariant players == old(players) + made[..i]
        invariant Valid()
      {
        var id := CreatePlayer(t, role, ds[i], countries);
        assert made[..i + 1] == made[..i] + [made[i]];
      }
      assert made[..|ds|] == made;
    }

    /**
     * The four loops of `generate_team`: 3 goalkeepers, 6 defenders, 6
     * midfielders and 5 attackers are created for team `t`, in that order.
     */
    method CreateSquad(t: TeamId, draws: seq<Lib.PlayerDraw>, countries: seq<Lib.Country>)
      requires Valid() && Live(teams, t)
      requires |draws| == Lib.SquadSize && Lib.DrawsUsable(draws, countries)
      modifies this`players
      ensures Valid()
      ensures players == old(players) + Lib.Squad(t, draws, countries)
    {
      Lib.SquadRuns(t, draws, countries);
      ghost var gk := Lib.Recruits(t, Goalkeeper, draws[..3], countries);
      ghost var df := Lib.Recruits(t, Defender, draws[3..9], countries);
      ghost var md := Lib.Recruits(t, Midfielder, draws[9..15], countries);
      ghost var at := Lib.Recruits(t, Attacker, draws[15..], countries);
      ghost var p0 := players;
      CreateRole(t, Goalkeeper, draws[..3], countries);
      ghost var p1 := players;
      CreateRole(t, Defender, draws[3..9], countries);
      ghost var p2 := players;
      CreateRole(t, Midfielder, draws[9..15], countries);
      ghost var p3 := players;
      CreateRole(t, Attacker, draws[15..], countries);
      ConcatRuns(p0, gk, df, md, at);
    }

    /**
     * `generate_team(owner)`: the owner's teams are deleted (their players
     * stay, without a team), a new team named after `name` is created with
     * the initial balance, and 3 goalkeepers, 6 defenders, 6 midfielders and
     * 5 attackers are created for it. Afterwards the owner has exactly that
     * one team, it is worth 20,000,000, and every other team keeps its row and
     * its value.
     */
    method GenerateTeam(owner: UserId, name: string, countryPick: nat, draws: seq<Lib.PlayerDraw>,
                        countries: seq<Lib.Country>) returns (t: TeamId)
      requires Valid()
      requires |draws| == Lib.SquadSize && Lib.DrawsUsable(draws, countries)
      modifies this
      ensures Valid()
      ensures t == |old(teams)| && |teams| == t + 1
      ensures teams[t] == Some(Team(owner, name + " United", Lib.RandomCountry(countries, countryPick), InitialBalance))
      ensures teams[..t] == Disband(old(teams), owner)
      ensures players == Release(old(players), old(teams), owner) + Lib.Squad(t, draws, countries)
      ensures transfers == old(transfers)
      ensures TeamOf(teams, owner) == Some(t)
      ensures forall u :: OwnedBy(teams, u, owner) ==> u == t
      ensures Value(players, t) == 20000000
      ensures forall u :: 0 <= u < t && !OwnedBy(old(teams), u, owner) ==>
        teams[u] == old(teams)[u] && Value(players, u) == Value(old(players), u)
    {
      var newTeam := Team(owner, name + " United", Lib.RandomCountry(countries, countryPick), InitialBalance);
      ReplaceConsistent(teams, players, transfers, owner, newTeam, Lib.Squad(|teams|, draws, countries));
      ReplaceConsistent(teams, players, transfers, owner, newTeam, []);
      assert Release(players, teams, owner) + [] == Release(players, teams, owner);
      ghost var teams0, players0 := teams, players;
      forall u: TeamId | !OwnedBy(teams0, u, owner) ensures Value(Release(players0, teams0, owner), u) == Value(players0, u) {
        ReleaseValue(players0, teams0, owner, u);
      }
      forall q | 0 <= q < |players0| && players0[q].team.Some? ensures players0[q].team.value < |teams0| {
      }

      players := Release(players, teams, owner);
      teams := Disband(teams, owner);
      t := |teams|;
      teams := teams + [Some(newTeam)];
      assert teams[..t] == Disband(teams0, owner);

      ghost var base := players;
      ghost var squad := Lib.Squad(t, draws, countries);
      CreateSquad(t, draws, countries);

      // the released players are on old teams, all before `t`; the squad is all on `t`
      ValueAppend(base, squad, t);
      ValueWithoutMembers(base, t);
      Lib.SquadValue(t, draws, countries);
      forall u: TeamId | u < t && !OwnedBy(teams0, u, owner) ensures Value(players, u) == Value(players0, u) {
        ValueAppend(base, squad, u);
        ValueWithoutMembers(squad, u);
      }
    }
  }
}
