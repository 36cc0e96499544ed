# Fantasy soccer league — a Dafny model

This project models the core of a fantasy soccer league back end (a Django
REST application). Users own teams. Teams hold players and a bank balance.
Players can be put up for sale as transfer listings, and other teams can buy
them. The model covers:

- the league's tables (teams, players, listings) and the derived team value,
  the sum of a team's players' market values;
- `PlayerViewSet.buy`, `sell` and `move`, as methods of a `League` class that
  updates the tables in place, with the refusals they answer (401/403, 404,
  400, and 500 for a negative fee); the malformed-input errors listed under
  "## Left out" are not modelled;
- the purchase itself: the listing is closed, money moves from buyer to
  seller, and the player joins the buyer at a higher market value;
- `generate_team`: an owner's teams are replaced by one new team with a
  squad of 20 players (3 goalkeepers, 6 defenders, 6 midfielders,
  5 attackers), created in four loops;
- `create_player` and its split of a full name into first and last name;
- the read views: the team ranking, the team, player and transfer lists
  (who may see what, the transfer search, the ordering), and the sorted
  country list;
- the permission classes as predicates over a request, and the framework's
  check that combines a view's classes into an admission, a 401 or a 403;
- the email-verification record of a user account.

Modules, one file each: `Wrappers` (Option), `Sorting` (filter, insertion
sort, distinctness, the first `n`), `Text` (`str.split`, `' '.join`,
upper-casing, code-point string order), `Permissions`, `Accounts`, `Models`
(rows, team value, money and consistency), `Lib` (the pure parts of
core/lib.py), `Transactions` (the `League` class and the purchase) and
`Queries` (the read views).

A table is a sequence whose positions are row ids. A deleted team leaves
`None` at its position. Random choices (Faker names, `random.choice`,
`random.randint`), the md5 digest of the verification code, the new market
value a purchase sets, and the creation time of a listing are parameters.

## Model

| member | source | states |
|---|---|---|
| Permissions.CheckPermissions | core/tests/test_permissions.py:7-29 | a request is admitted exactly when every listed class admits it (`HasPermission` of each class predicate); a refusal is 401 for an anonymous caller and 403 for anyone else |
| Permissions.UserViewGate | core/views.py:38-44 | UserPermission under IsAuthenticated and IsNotDefaultUser: anonymous 401; the signup account 403; staff admitted; any other user admitted exactly unless it POSTs to an action other than `send_link`, as the user tests expect (core/tests/test_permissions.py:93-225) |
| Permissions.SignupGate | core/views.py:55-61 | SignupPermission on the `signup` action: anonymous 401; staff and the signup account admitted; any other user 403 (core/tests/test_core.py:208-223, core/tests/test_permissions.py:227-251) |
| Permissions.TransferViewGate | core/views.py:275-281 | IsAdminOrReadonly under IsAuthenticated and IsNotDefaultUser: anonymous 401; the signup account 403 even to read; other users admitted exactly for GET, HEAD, OPTIONS unless staff; a non-staff POST, PUT, PATCH or DELETE is 403 (core/tests/test_permissions.py:864-1033) |
| Permissions.TokenViewGate | core/views.py:313-314 | IsDefaultUser on the login endpoint: anonymous 401; only the signup account, logged in, is admitted; every other user, staff included, 403 (core/tests/test_permissions.py:7-29) |
| Permissions.IsNotDefaultUser | core/permissions.py:45-50 | exactly the negation of IsDefaultUser for every request; an anonymous caller passes |
| Permissions.SignupAccountConfined | core/permissions.py:6-11 | the signup account passes SignupPermission and IsDefaultUser and fails IsNotDefaultUser |
| Accounts.EmailVerification.constructor | core/models.py:47-48 | a new record holds the given code and is unverified |
| Accounts.EmailVerification.Verify | core/models.py:79-81 | afterwards the record is verified iff the key equals its code, so a wrong key revokes an earlier verification; only the flag may change |
| Accounts.User.SendVerificationEmail | core/models.py:30-35 | get-or-create: a record is created, unverified and with the digest of the email as code, iff the user had none; an existing record is kept as it is |
| Accounts.User.VerifyEmail | core/models.py:37-38 | a user with a record gets it verified iff the key matches the code, which stays the same; a user without one has nothing verified (the source raises there, see "## Left out"); `VerificationScenario` takes the test's sequence (request, then verify with the code: core/tests/test_core.py:151-174) and adds two steps of its own: a second request keeps the code (get-or-create, core/models.py:31-34) and a wrong key revokes the verification |
| Models.RoleCodeInjective | core/migrations/0012_alter_player_role.py:16 | the four stored role codes are pairwise distinct, so filtering by code counts one role (used by Lib.CountRoleByCode) |
| Models.TeamOf | core/views.py:252 | `user.team` is a team the user owns (`OwnedBy`); when there is none, the user owns no existing team |
| Models.ValueAppend | core/views.py:165 | `Value`, the sum of the market values of a team's players, of two player lists put together is the sum of their values |
| Models.ValueWithoutMembers | core/views.py:165 | a team none of whose players is in the list is worth 0 there |
| Models.ValueUpdate | core/views.py:165 | replacing one player changes a team's value by the difference of the two players' contributions (`Share`) |
| Models.TotalBalanceUpdate | core/tests/test_core.py:348-356 | replacing one team row changes the league's total balance (`TotalBalance`) by the difference of the two balances |
| Models.Settle | core/tests/test_core.py:348-356 | the seller's balance rises by the fee, the buyer's falls by it, and every other row stays (each side written with `WithBalance`, which sets one team's balance) |
| Models.SettleConserves | core/tests/test_core.py:348-356 | a payment between two teams leaves the total balance unchanged |
| Models.ReassignValue | core/views.py:225-238 | moving a player to team `t` adds the player's new value to `t`'s, takes the old value off the former team, and leaves every other team's value |
| Lib.RandInt | core/lib.py:28 | the age drawn lies in the closed range [lo, hi] |
| Lib.RandomCountry | core/lib.py:12-14 | the code returned is the code of some country of the list |
| Lib.NewPlayer | core/lib.py:17-29 | the new player is on the given team with the given role, has market value 1,000,000, an age in [20, 35] and the code of a country of the list, and takes the first word of the full name as first name and the rest, joined, as last name |
| Lib.Recruits | core/lib.py:42-52 | one loop creates one player per draw, all on the team, of the loop's role, at 1,000,000 and aged 20 to 35 |
| Lib.Squad | core/lib.py:42-52 | a generated squad has 20 players, all on the new team, at 1,000,000 and aged 20 to 35 |
| Lib.SquadRolesCount | core/lib.py:42-52 | the creation order holds 3 goalkeepers, 6 defenders, 6 midfielders and 5 attackers |
| Lib.RolesAppend | core/lib.py:42-52 | the roles of two runs of players put together are the two role lists put together |
| Lib.RecruitsRoles | core/lib.py:42-52 | one loop creates players of its own role only |
| Lib.SquadComposition | core/tests/test_core.py:191-199 | the 20 generated players are 3 goalkeepers, 6 defenders, 6 midfielders and 5 attackers |
| Lib.CountRoleByCode | core/tests/test_core.py:198-199 | `filter(role=code).count()` (`CountRole`) with a role's stored code counts exactly the players of that role |
| Lib.SquadRoleCounts | core/tests/test_core.py:191-199 | filtering a generated team by stored code finds 3 `goal-keeper`, 6 `defender`, 6 `mid-fielder` and 5 `attacker` |
| Lib.UniformValue | core/tests/test_core.py:201-205 | a list of players all on `t` at 1,000,000 is worth 1,000,000 per player to `t` |
| Lib.SquadValue | core/tests/test_core.py:201-205 | a generated team is worth 20,000,000 and each of its players is 20 to 35 years old |
| Text.WordLength | core/lib.py:18 | the first word ends at the first whitespace character or at the end |
| Text.Split | core/lib.py:18 | `split()` yields only non-empty words without whitespace |
| Text.SplitName | core/lib.py:18-20 | the first name is the first word of the full name and the last name is the remaining words joined by single spaces |
| Text.SplitWord | core/lib.py:18 | a single word splits into itself |
| Text.SplitWordThen | core/lib.py:18 | a word followed by a space splits off as the first word of the rest |
| Text.SplitJoin | core/lib.py:18-20 | splitting words joined by single spaces (`Join`, `' '.join`) gives back the same words |
| Text.NameRoundTrip | core/lib.py:18-20 | for a name of two or more words, first name + " " + last name is the full name again; a one-word name has an empty last name |
| Text.UpperChar | core/views.py:288 | lower-case ASCII letters become upper case; every other character is kept |
| Text.Upper | core/views.py:288 | `upper()` keeps the length and upper-cases each character; `IExact`, the `iexact` lookup, compares the upper-cased strings |
| Text.StrLeTotal | core/views.py:322 | any two strings are ordered one way or the other |
| Text.StrLeTransitive | core/views.py:322 | the string order is transitive |
| Text.StrLeAntisymmetric | core/views.py:322 | two strings ordered both ways are equal |
| Sorting.Ids | core/views.py:284 | the ids of a table are 0 to n-1, each once, in id order |
| Sorting.Filter | core/views.py:145-147 | the elements kept are exactly those satisfying the condition, and no more than there were; distinctness is kept |
| Sorting.Insert | core/views.py:149 | inserting adds exactly one element |
| Sorting.InsertionSort | core/views.py:149 | sorting keeps the length and is a permutation |
| Sorting.Take | core/views.py:166 | the slice `[:n]` has `min(len, n)` elements, the first ones |
| Sorting.InsertSorted | core/views.py:149 | inserting into a sorted list keeps it sorted |
| Sorting.InsertionSortSorted | core/views.py:149 | the sorted list is ordered by the key |
| Sorting.DistinctCount | core/views.py:149 | a list without repeats holds each value at most once |
| Sorting.PermutationDistinct | core/views.py:149 | a permutation of a list without repeats has no repeats |
| Sorting.TakeSorted | core/views.py:166 | the first `n` of a sorted list without repeats are sorted, distinct, the whole list when fewer than `n`, and come no later than any element left out |
| Sorting.SortedView | core/views.py:149 | ordering a list neither adds, drops nor repeats an element |
| Queries.LiveTeams | core/views.py:144 | the existing teams, each once |
| Queries.RankIsTopTen | core/views.py:163-168 | `Rank`, the sum, the descending sort and the slice of `rank`, lists at most 10 existing teams, each once, by non-increasing value; all teams when fewer than 10; no team left out is worth more than a listed one |
| Queries.KeyOrderTotal | core/views.py:149 | ordering by a string key compares any two rows and is transitive |
| Queries.OwnsAtMostOne | core/tests/test_logic.py:13-27 | under `OneTeamPerOwner` (a user owns at most one team), the teams of one owner, without repeats, are at most one |
| Queries.TeamQueryset | core/views.py:143-149 | the listed teams are exactly the `TeamVisible` ones: staff see every existing team, anyone else exactly the teams they own, which are at most one; each once, ordered by name |
| Queries.PlayerQueryset | core/views.py:240-256 | the listed players are exactly the `PlayerVisible` ones: those passing the `team_id` filter and, unless the caller is staff or buying, on the caller's team (none without a team); each once, ordered by first name |
| Queries.Narrow | core/views.py:286-305 | one filter step keeps exactly the listings its condition accepts; distinctness is kept |
| Queries.SearchListings | core/views.py:284-305 | the listings kept are exactly those `MatchesSearch` accepts, every given parameter holding (`CountryMatches`, `FirstNameMatches`, `LastNameMatches`, `TeamMatches`, `ValueMatches`): country equals the upper-cased parameter, first name, last name and team name equal ignoring case, fee equals `value`; each once |
| Queries.TransferQueryset | core/views.py:283-307 | the same listings, each once, newest `created_at` first |
| Queries.Pairs | core/views.py:323-326 | each entry holds the code and the name of its country, in order |
| Queries.CountryList | core/views.py:320-328 | one entry per country with its code and name, a permutation of the country list, ordered by name |
| Transactions.ActiveListing | core/tests/test_core.py:361-387 | the listing a purchase takes is an active listing of the player with no later active one; none is found iff the player has no active listing |
| Transactions.ListingAppended | core/tests/test_core.py:240-254 | a newly added active listing is the one a purchase of that player takes; other players are unaffected |
| Transactions.Purchase | core/tests/test_core.py:313-359 | for a listing `CanPurchase` allows (listing, player and buyer exist, the buyer is not the player's team, the balance covers the fee): the listing becomes inactive; the buyer's balance falls by the fee and the seller's rises by it; the player joins the buyer at the new value; every other listing, player and team stays |
| Transactions.PurchaseMoney | core/tests/test_core.py:348-356 | a purchase creates no money: the total balance is kept, or falls by the fee when the player had no team |
| Transactions.PurchaseValues | core/tests/test_core.py:313-359 | the buyer's value grows by the new market value, the seller's falls by the old one, and every other team's value stays |
| Transactions.PurchaseConsistent | core/tests/test_core.py:313-359 | a purchase keeps the tables `Consistent`: every reference valid and one team per owner |
| Transactions.TradeGateTable | core/views.py:192-196 | `TradeGate`, the permission check of `sell` and `buy`, admits every user but the signup account; a refusal (`Refusal` of the verdict) is 401 exactly when the caller has no credentials, and 403 otherwise, as the sell and buy tests expect (core/tests/test_permissions.py:730-771) |
| Transactions.StaffGateTable | core/views.py:220-224 | `StaffGate`, the IsAdminUser check of `move`, admits staff only; a refusal (`Refusal` of the verdict) is 401 exactly when the caller has no credentials, and 403 otherwise (core/tests/test_permissions.py:832-853) |
| Transactions.League.Buy | core/views.py:197-218 | refusals in the view's order (permission classes, lookup 404, bad `team` 400, own team 403, neither staff nor owner 403, no active listing 404, fee over balance 400) leave every table unchanged; otherwise 201, the tables are `Purchase` of the newest active listing, and the market value strictly rises |
| Transactions.League.Acquire | core/views.py:209-210 | the purchase writes, step by step, exactly `Purchase` of the tables and keeps them consistent |
| Transactions.League.Sell | core/views.py:180-190 | refusals (permission classes, lookup 404, missing fee 400, negative fee 500) leave the listings unchanged; otherwise exactly one active listing of the player at that fee is added |
| Transactions.League.Move | core/views.py:225-238 | staff only; a missing player is 404 and a team that does not exist is 400; otherwise only the player's team changes, to the one given or to none; no balance or listing changes |
| Transactions.League.CreatePlayer | core/lib.py:17-29 | on a consistent league and an existing team, exactly one player, `NewPlayer` of the draw, is added at the next id, and the league stays consistent |
| Transactions.League.CreateRole | core/lib.py:42-52 | one loop adds exactly `Recruits` of its draws, in order, and keeps the league consistent |
| Transactions.League.CreateSquad | core/lib.py:42-52 | the four loops add exactly `Squad` of the draws, in order, and keep the league consistent |
| Transactions.ReleaseValue | core/lib.py:34 | `Release` (the deleted teams' players stay, without a team, so none is left on a team of that owner) keeps the value of every team not owned by that owner |
| Transactions.ReplaceConsistent | core/lib.py:33-40 | replacing an owner's teams by one new team (`Disband` deletes the owner's teams, so none of theirs is left, then the new one is added) keeps the tables consistent, and the new team is the owner's only one |
| Transactions.League.GenerateTeam | core/lib.py:32-52 | the owner's old teams are deleted and their players released; the new team has balance 5,000,000, is the owner's only team and is worth 20,000,000; listings and every other team's row and value are unchanged |

## Left out

- Concurrency, row locking and transaction isolation: every request is one
  sequential step. The atomic block of `generate_team` is a single method
  whose steps cannot fail once its inputs are given.
- HTTP routing, serializer field lists, response bodies and headers, token
  authentication, password hashing, and the `cache_page` decorator on `rank`.
- Sending the verification email, the celery task, and the management
  commands (seeding, simulation, random transfers).
- md5 is a parameter `digest`. Faker names, `random.choice`,
  `random.randint` and the pycountry list are inputs (`PlayerDraw`,
  `countries`).
- `PlayerPermission` and `TeamPermission`: the views use them, but their
  definitions are not part of this model, so the player and team views'
  permission gates are not modelled. Of `UserViewSet` only the permission
  gate and the verification record are modelled, not its queryset or
  serializers.
- Column widths: balances, market values and fees are unbounded natural
  numbers. The 32-bit integer columns of the database, and the error a fee
  or market value above 2,147,483,647 would cause, are not modelled; such a
  request succeeds here.
- Transactions.League.Buy: the body of `Player.buy` is not part of this
  model. The purchase follows what the tests assert. Three choices go beyond
  them:
  - the newest active listing of the player is the one taken;
  - a player without a team pays the fee to nobody;
  - the new market value is `revalue` of the old one, for any `revalue`
    that strictly increases. The random multiplier is not modelled, nor is
    its rounding, which could leave any market value below 10 unchanged.
- Transactions.League.Buy: the balance check happens before any write.
  `Player.buy` is taken to let the database refuse a debit below zero and
  roll back, which the view answers with 400; the outcome is the same.
- Transactions.League.Sell: a sale adds one active listing and does not
  close earlier listings of the same player; the body of `Player.sell` is
  not part of this model. A negative fee is taken to fail in the database
  as an uncaught error (500).
- Transactions.League.Move: a request without the `team` field fails in
  the source (`validated_data['team']` raises, 500); the model has no such
  request, and `None` is the null team.
- Queries.PlayerQueryset, Transactions.League.Buy, Transactions.League.Sell,
  Transactions.League.Move: a `team_id` query parameter that is not an
  integer (the lookup raises, 500) is not modelled; the filter arrives
  parsed.
- Queries.SearchListings: a `value` parameter that is not an integer
  (`int()` raises, 500) is not modelled; `value` arrives parsed.
- Queries.SearchListings: every filter step runs; a step whose parameter is
  absent keeps every listing, which is the same as the view skipping it.
- Queries.RankIsTopTen: the database's order among teams of equal value and
  its NULL sum for a team without players are not modelled. Here an empty
  team is worth 0 and ties keep id order.
- Queries.TeamQueryset, Queries.PlayerQueryset: names
  are compared by code point. The database collation is not modelled. Ties
  keep id order.
- Text.Upper, Text.Split: only ASCII letters have a case and only ASCII
  whitespace separates words; full Unicode case mapping and whitespace are
  not modelled.
- Team deletion is taken to set its players' team to none
  (`on_delete=SET_NULL`); the Team and Player model classes are not part of
  this model.
- Accounts.User.VerifyEmail: for a user without a verification record,
  `self.email_verification` raises in the source and the view does not catch
  it (500); the model instead reports `found == false` and changes nothing.
- Lib.NewPlayer: a full name without any word (`name[0]` raises) is not
  modelled; names are required to have a word, as generated names always
  do.
- Player defaults other than those `create_player` sets (the role default,
  a player's market value when not set) are not modelled.
