/** The build service: server rows become builds, stored rounds are laid
    out in the seven round slots, a new build is written as a chain of
    inserts, and the saved-build and delete calls go straight to the API
    with the stored token. Replies and the results of earlier calls are
    inputs. */
module BuildService {
  import opened Wrappers
  import opened Js
  import opened Types
  import opened Seqs
  import opened Database
  import Browser
  import BuildCreator
  import ItemService
  import PowerService

  /** A build row as the server sends it. */
  datatype BuildRow = BuildRow(id: int, userId: int, heroId: int, heroName: Option<string>,
                               heroRole: Option<string>, title: string, createdAt: Option<string>,
                               userName: Option<string>, isVerified: Value)

  /** The row → build mapping: the flag is set only by the number 1 itself. */
  function Normalise(row: BuildRow, rounds: seq<Round>): (b: Build)
    ensures b.isVerified <==> row.isVerified == Num(1)
    ensures b.id == Some(row.id) && b.userId == row.userId && b.heroId == row.heroId && b.title == row.title
    ensures b.rounds == rounds
  {
    Build(Some(row.id), row.userId, row.heroId, row.heroName, row.heroRole, row.title,
          row.createdAt, row.userName, row.isVerified == Num(1), rounds)
  }

  /** `is_verified === 1` is strict: a flag sent as `true` or `"1"` reads as unverified. */
  lemma StrictVerifiedFlag(row: BuildRow, rounds: seq<Round>)
    ensures row.isVerified == Bool(true) ==> !Normalise(row, rounds).isVerified
    ensures row.isVerified == Str("1") ==> !Normalise(row, rounds).isVerified
    ensures row.isVerified == Num(1) ==> Normalise(row, rounds).isVerified
  {
  }

  /** The rows normalised one by one, each with the rounds read for its id.
      As with `Promise.all`, one failed rounds read fails the whole listing;
      the error passed on is that of the first such row. */
  function NormaliseRows(rows: seq<BuildRow>, roundsOf: int -> Result<seq<Round>>): (builds: Result<seq<Build>>)
    ensures builds.Ok? <==> forall k :: 0 <= k < |rows| ==> roundsOf(rows[k].id).Ok?
    ensures builds.Ok? ==> |builds.value| == |rows|
    ensures builds.Ok? ==>
              forall k :: 0 <= k < |rows| ==> builds.value[k] == Normalise(rows[k], roundsOf(rows[k].id).value)
    ensures builds.Err? ==>
              exists k :: 0 <= k < |rows| && roundsOf(rows[k].id).Err? && builds.error == roundsOf(rows[k].id).error
  {
    if rows == [] then Ok([])
    else
      var first := roundsOf(rows[0].id);
      if first.Err? then Err(first.error)
      else
        var rest := NormaliseRows(rows[1..], roundsOf);
        assert forall k :: 1 <= k < |rows| ==> rows[1..][k - 1] == rows[k];
        if rest.Err? then
          var k :| 0 <= k < |rows[1..]| && roundsOf(rows[1..][k].id).Err? && rest.error == roundsOf(rows[1..][k].id).error;
          assert rows[k + 1] == rows[1..][k];
          Err(rest.error)
        else Ok([Normalise(rows[0], first.value)] + rest.value)
  }

  /** `getAllBuilds`, `getUserBuilds`: every row normalised, each with the
      rounds rebuilt for its id; a failed listing or a failed rounds read is
      passed on. */
  function GetBuilds(r: Result<seq<BuildRow>>, roundsOf: int -> Result<seq<Round>>): (builds: Result<seq<Build>>)
    ensures builds.Ok? <==> r.Ok? && forall k :: 0 <= k < |r.value| ==> roundsOf(r.value[k].id).Ok?
    ensures r.Err? ==> builds == Err(r.error)
    ensures builds.Ok? ==> |builds.value| == |r.value|
    ensures builds.Ok? ==>
              forall k :: 0 <= k < |r.value| ==> builds.value[k] == Normalise(r.value[k], roundsOf(r.value[k].id).value)
    ensures r.Ok? && builds.Err? ==>
              exists k :: 0 <= k < |r.value| && roundsOf(r.value[k].id).Err? && builds.error == roundsOf(r.value[k].id).error
  {
    if r.Err? then Err(r.error) else NormaliseRows(r.value, roundsOf)
  }

  /** `getUnverifiedBuilds`: as above, but every build is marked unverified
      whatever its row says. */
  function GetUnverifiedBuilds(r: Result<seq<BuildRow>>, roundsOf: int -> Result<seq<Round>>): (builds: Result<seq<Build>>)
    ensures builds.Ok? <==> r.Ok? && forall k :: 0 <= k < |r.value| ==> roundsOf(r.value[k].id).Ok?
    ensures r.Err? ==> builds == Err(r.error)
    ensures builds.Ok? ==> |builds.value| == |r.value|
    ensures builds.Ok? ==>
              forall k :: 0 <= k < |r.value| ==>
                builds.value[k] == Normalise(r.value[k], roundsOf(r.value[k].id).value).(isVerified := false)
    ensures r.Ok? && builds.Err? ==>
              exists k :: 0 <= k < |r.value| && roundsOf(r.value[k].id).Err? && builds.error == roundsOf(r.value[k].id).error
  {
    match GetBuilds(r, roundsOf)
    case Err(e) => Err(e)
    case Ok(bs) => Ok(Map(bs, (b: Build) => b.(isVerified := false)))
  }

  /** `getBuildById`: null without a row, else the first row normalised with
      its rounds; a failed read of either is passed on. */
  function GetBuildById(r: Result<seq<BuildRow>>, roundsOf: int -> Result<seq<Round>>): (build: Result<Option<Build>>)
    ensures build.Ok? <==> r.Ok? && (r.value != [] ==> roundsOf(r.value[0].id).Ok?)
    ensures r.Err? ==> build == Err(r.error)
    ensures r.Ok? && r.value != [] && roundsOf(r.value[0].id).Err? ==> build == Err(roundsOf(r.value[0].id).error)
    ensures build.Ok? ==> (build.value.None? <==> r.value == [])
    ensures build.Ok? && build.value.Some? ==>
              build.value.value == Normalise(r.value[0], roundsOf(r.value[0].id).value)
  {
    if r.Err? then Err(r.error)
    else if r.value == [] then Ok(None)
    else
      var rounds := roundsOf(r.value[0].id);
      if rounds.Err? then Err(rounds.error)
      else Ok(Some(Normalise(r.value[0], rounds.value)))
  }

  const AllBuildsText := "SELECT b.*, u.username as userName, h.name as heroName FROM Builds b JOIN Users u ON b.user_id = u.id JOIN Heroes h ON b.hero_id = h.id ORDER BY b.created_at DESC"

  const AllBuildsSql: Sql :=
    Sql(AllBuildsText,
        Some("Builds"), None, None, {})
  const UnverifiedBuildsText := "SELECT b.*, u.username as userName, h.name as heroName FROM Builds b JOIN Users u ON b.user_id = u.id JOIN Heroes h ON b.hero_id = h.id WHERE b.is_verified = 0 ORDER BY b.created_at DESC"
  const UnverifiedBuildsSql: Sql :=
    Sql(UnverifiedBuildsText,
        Some("Builds"), None, None, {"is_verified", "is_verified = 0"})
  const BuildByIdText := "SELECT b.*, u.username as userName, h.name as heroName FROM Builds b JOIN Users u ON b.user_id = u.id JOIN Heroes h ON b.hero_id = h.id WHERE b.id = ?"
  const BuildByIdSql: Sql :=
    Sql(BuildByIdText,
        Some("Builds"), Some("b.id"), None, {})
  const UserBuildsText := "SELECT b.*, u.username as userName, h.name as heroName FROM Builds b JOIN Users u ON b.user_id = u.id JOIN Heroes h ON b.hero_id = h.id WHERE b.user_id = ? ORDER BY b.created_at DESC"
  const UserBuildsSql: Sql :=
    Sql(UserBuildsText,
        Some("Builds"), Some("b.user_id"), None, {})
  const RoundsText := "SELECT * FROM Rounds WHERE build_id = ? ORDER BY round_number"
  const RoundsSql: Sql :=
    Sql(RoundsText, Some("Rounds"), Some("build_id"), None, {})
  const RoundItemIdsText := "SELECT item_id FROM RoundItems WHERE round_id = ?"
  const RoundItemIdsSql: Sql :=
    Sql(RoundItemIdsText, Some("RoundItems"), Some("round_id"), None, {})
  const RoundPowerIdsText := "SELECT power_id FROM RoundPowers WHERE round_id = ?"
  const RoundPowerIdsSql: Sql :=
    Sql(RoundPowerIdsText, Some("RoundPowers"), Some("round_id"), None, {})

  lemma LowerBuilds()
    ensures Lower("Builds") == "builds"
  {
    var l := Lower("Builds");
    assert l[0] == 'b' && l[1] == 'u' && l[2] == 'i' && l[3] == 'l' && l[4] == 'd' && l[5] == 's';
  }

  /** All builds are read from `/builds`; the unverified ones with the
      `unverified=true` search parameter the `is_verified = 0` phrase sets. */
  lemma BuildListRoutes()
    ensures RouteQuery(AllBuildsSql, []) == Ok(Target("/builds", []))
    ensures RouteQuery(UnverifiedBuildsSql, []) == Ok(Target("/builds", [("unverified", "true")]))
  {
    LowerBuilds();
    var c: map<string, Value> := map[];
    assert Cond(c, "id") == Undefined && Cond(c, "b.id") == Undefined && Cond(c, "user_id") == Undefined;
    assert "/builds" + "" == "/builds";
    assert BuildsQuery({}, c) == [];
    assert RouteEntity("builds", {}, c, []).value.endpoint == "/builds";
    assert BuildsQuery({"is_verified", "is_verified = 0"}, c) == [("unverified", "true")];
    assert RouteEntity("builds", {"is_verified", "is_verified = 0"}, c, []).value.endpoint == "/builds";
  }

  /** A build is read by id from `/builds/{id}`: the `b.id` condition is
      recorded under `id`. */
  lemma BuildByIdRoute(id: int)
    requires id != 0
    ensures RouteQuery(BuildByIdSql, [Num(id)]) == Ok(Target("/builds/" + IntToString(id), []))
  {
    assert "b." + "id" == "b.id";
    BuildsWhere(BuildByIdSql, Num(id), "id");
    BuildsOnId(id);
  }

  lemma BuildsOnId(id: int)
    requires id != 0
    ensures RouteEntity("builds", {}, map["id" := Num(id)], [Num(id)]) == Ok(Target("/builds/" + IntToString(id), []))
  {
    var c := map["id" := Num(id)];
    BuildsRow({}, c, [Num(id)]);
    assert Or(Cond(c, "id"), Cond(c, "b.id")) == Num(id);
    assert BuildsQuery({}, c) == [] by {
      assert Cond(c, "user_id") == Undefined;
    }
    IdSuffixOf(id);
    assert "/builds" + ("/" + IntToString(id)) == "/builds/" + IntToString(id);
  }

  /** The builds queries filtered on one column of `b`; none of them asks
      for a verification state. */
  lemma BuildsWhere(sql: Sql, v: Value, field: string)
    requires sql.fromWord == Some("Builds") && sql.whereTarget == Some("b." + field) && sql.probes == {}
    requires '.' !in field && field != ""
    ensures RouteQuery(sql, [v]) == RouteEntity("builds", {}, map[field := v], [v])
  {
    LowerBuilds();
    assert "b." + field == "b" + "." + field;
    WhereRoute(sql, v, "b", field, "builds");
  }

  /** A user's builds are read from `/builds?user_id={userId}`. */
  lemma UserBuildsRoute(userId: int)
    requires userId != 0
    ensures RouteQuery(UserBuildsSql, [Num(userId)])
            == Ok(Target("/builds", [("user_id", IntToString(userId))]))
  {
    assert "b." + "user_id" == "b.user_id";
    BuildsWhere(UserBuildsSql, Num(userId), "user_id");
    BuildsOnUser(userId);
  }

  lemma BuildsOnUser(userId: int)
    requires userId != 0
    ensures RouteEntity("builds", {}, map["user_id" := Num(userId)], [Num(userId)])
            == Ok(Target("/builds", [("user_id", IntToString(userId))]))
  {
    var c := map["user_id" := Num(userId)];
    BuildsRow({}, c, [Num(userId)]);
    assert Or(Cond(c, "id"), Cond(c, "b.id")) == Undefined;
    assert BuildsQuery({}, c) == [("user_id", IntToString(userId))] by {
      assert Cond(c, "user_id") == Num(userId);
    }
    IdSuffixOf(0);
    assert "/builds" + "" == "/builds";
  }

  lemma LowerRounds()
    ensures Lower("Rounds") == "rounds"
  {
    var l := Lower("Rounds");
    assert l[0] == 'r' && l[1] == 'o' && l[2] == 'u' && l[3] == 'n' && l[4] == 'd' && l[5] == 's';
  }

  lemma LowerRoundItems()
    ensures Lower("RoundItems") == "rounditems"
  {
    var l := Lower("RoundItems");
    assert l[0] == 'r' && l[1] == 'o' && l[2] == 'u' && l[3] == 'n' && l[4] == 'd';
    assert l[5] == 'i' && l[6] == 't' && l[7] == 'e' && l[8] == 'm' && l[9] == 's';
  }

  lemma LowerRoundPowers()
    ensures Lower("RoundPowers") == "roundpowers"
  {
    var l := Lower("RoundPowers");
    assert l[0] == 'r' && l[1] == 'o' && l[2] == 'u' && l[3] == 'n' && l[4] == 'd';
    assert l[5] == 'p' && l[6] == 'o' && l[7] == 'w' && l[8] == 'e' && l[9] == 'r' && l[10] == 's';
  }

  /** The stored rounds of a build are read below the build. */
  lemma RoundsRoute(buildId: int)
    ensures RouteQuery(RoundsSql, [Num(buildId)])
            == Ok(Target("/builds/" + IntToString(buildId) + "/rounds", []))
  {
    LowerRounds();
    assert QueryEntity(RoundsSql) == "rounds";
    RoundRows(RoundsSql.probes, Conditions(RoundsSql, [Num(buildId)]), [Num(buildId)]);
    assert Template(At([Num(buildId)], 0)) == IntToString(buildId);
  }

  /** The item ids of a round are read below the round. */
  lemma RoundItemsRoute(roundId: int)
    ensures RouteQuery(RoundItemIdsSql, [Num(roundId)])
            == Ok(Target("/rounds/" + IntToString(roundId) + "/items", []))
  {
    LowerRoundItems();
    assert QueryEntity(RoundItemIdsSql) == "rounditems";
    RoundRows(RoundItemIdsSql.probes, Conditions(RoundItemIdsSql, [Num(roundId)]), [Num(roundId)]);
    assert Template(At([Num(roundId)], 0)) == IntToString(roundId);
  }

  /** The power ids of a round are read below the round. */
  lemma RoundPowersRoute(roundId: int)
    ensures RouteQuery(RoundPowerIdsSql, [Num(roundId)])
            == Ok(Target("/rounds/" + IntToString(roundId) + "/powers", []))
  {
    LowerRoundPowers();
    assert QueryEntity(RoundPowerIdsSql) == "roundpowers";
    RoundRows(RoundPowerIdsSql.probes, Conditions(RoundPowerIdsSql, [Num(roundId)]), [Num(roundId)]);
    assert Template(At([Num(roundId)], 0)) == IntToString(roundId);
  }

  // Rebuilding the round slots.

  /** Slot `k` before any stored round is placed: round `k + 1`, id 0, empty. */
  function BlankSlot(buildId: int, k: int): Round {
    Round(Some(0), Some(buildId), k + 1, "", [], [])
  }

  function BlankSlots(buildId: int): (s: seq<Round>)
    ensures |s| == 7 && forall k :: 0 <= k < 7 ==> s[k] == BlankSlot(buildId, k)
  {
    seq(7, k requires 0 <= k < 7 => BlankSlot(buildId, k))
  }

  /** Every stored round number names a slot; the server is trusted for this. */
  predicate NumbersInRange(stored: seq<Round>) {
    forall j :: 0 <= j < |stored| ==> 1 <= stored[j].roundNumber <= 7
  }

  /** The slots after placing the stored rounds in order, each overwriting
      the slot of its number. */
  function Slots(buildId: int, stored: seq<Round>): (s: seq<Round>)
    requires NumbersInRange(stored)
    ensures |s| == 7
  {
    if stored == [] then BlankSlots(buildId)
    else
      var last := stored[|stored| - 1];
      Slots(buildId, stored[..|stored| - 1])[last.roundNumber - 1 := last]
  }

  /** The position of the last stored round numbered `n`. */
  function LastNumbered(stored: seq<Round>, n: int): (r: Option<nat>)
    ensures r.Some? ==> r.value < |stored| && stored[r.value].roundNumber == n &&
                        forall j :: r.value < j < |stored| ==> stored[j].roundNumber != n
    ensures r.None? ==> forall j :: 0 <= j < |stored| ==> stored[j].roundNumber != n
  {
    if stored == [] then None
    else if stored[|stored| - 1].roundNumber == n then Some(|stored| - 1)
    else LastNumbered(stored[..|stored| - 1], n)
  }

  /** Slot `k` holds the last stored round numbered `k + 1`, or stays blank
      when there is none: a later duplicate wins. */
  lemma {:induction false} SlotsLastWins(buildId: int, stored: seq<Round>, k: int)
    requires NumbersInRange(stored) && 0 <= k < 7
    ensures Slots(buildId, stored)[k] ==
              if LastNumbered(stored, k + 1).Some? then stored[LastNumbered(stored, k + 1).value]
              else BlankSlot(buildId, k)
  {
    if stored != [] {
      var init := stored[..|stored| - 1];
      SlotsLastWins(buildId, init, k);
      if stored[|stored| - 1].roundNumber != k + 1 {
        assert LastNumbered(stored, k + 1) == LastNumbered(init, k + 1);
      }
    }
  }

  /** The rebuilt rounds always fill the seven slots in order. */
  lemma SlotsAreSlotted(buildId: int, stored: seq<Round>)
    requires NumbersInRange(stored)
    ensures BuildCreator.Slotted(Slots(buildId, stored))
  {
    forall k | 0 <= k < 7 ensures Slots(buildId, stored)[k].roundNumber == k + 1 {
      SlotsLastWins(buildId, stored, k);
    }
  }

  /** `getRoundsForBuild`: seven blank slots, then each stored round (with
      the items and powers fetched for it) written into the slot of its
      number. */
  method RoundsForBuild(buildId: int, stored: seq<Round>) returns (rounds: seq<Round>)
    requires NumbersInRange(stored)
    ensures rounds == Slots(buildId, stored)
  {
    var all := new Round[7](k requires 0 <= k < 7 => BlankSlot(buildId, k));
    assert all[..] == BlankSlots(buildId);
    for j := 0 to |stored|
      invariant all[..] == Slots(buildId, stored[..j])
    {
      var r := stored[j];
      all[r.roundNumber - 1] := r;
      assert stored[..j + 1][..j] == stored[..j];
    }
    assert stored[..|stored|] == stored;
    rounds := all[..];
  }

  // Resolving a round's item and power ids.

  /** The values of the lookups that found something, in order. */
  function Found<T>(lookups: seq<Option<T>>): (r: seq<T>)
    ensures |r| <= |lookups|
  {
    if lookups == [] then []
    else
      var last := lookups[|lookups| - 1];
      Found(lookups[..|lookups| - 1]) + (if last.Some? then [last.value] else [])
  }

  lemma {:induction false} FoundMembers<T>(lookups: seq<Option<T>>, x: T)
    ensures x in Found(lookups) <==> Some(x) in lookups
  {
    if lookups != [] {
      var init := lookups[..|lookups| - 1];
      FoundMembers(init, x);
      assert lookups == init + [lookups[|lookups| - 1]];
    }
  }

  /** Lookups resolved in two runs give the two results one after the other. */
  lemma {:induction false} FoundAppend<T>(a: seq<Option<T>>, b: seq<Option<T>>)
    ensures Found(a + b) == Found(a) + Found(b)
  {
    if b != [] {
      var init := b[..|b| - 1];
      assert (a + b)[..|a + b| - 1] == a + init;
      FoundAppend(a, init);
    } else {
      assert a + b == a;
    }
  }

  /** `getItemsForRound`: each id's lookup in turn, keeping the items found. */
  method ItemsForRound(lookups: seq<Result<seq<Item>>>) returns (items: seq<Item>)
    ensures items == Found(Map(lookups, ItemService.GetItemById))
  {
    items := [];
    for k := 0 to |lookups|
      invariant items == Found(Map(lookups[..k], ItemService.GetItemById))
    {
      var item := ItemService.GetItemById(lookups[k]);
      if item.Some? {
        items := items + [item.value];
      }
      assert Map(lookups[..k + 1], ItemService.GetItemById)[..k] == Map(lookups[..k], ItemService.GetItemById);
    }
    assert lookups[..|lookups|] == lookups;
  }

  /** `getPowersForRound`: each id's lookup in turn, keeping the powers found. */
  method PowersForRound(lookups: seq<Result<seq<Power>>>) returns (powers: seq<Power>)
    ensures powers == Found(Map(lookups, PowerService.GetPowerById))
  {
    powers := [];
    for k := 0 to |lookups|
      invariant powers == Found(Map(lookups[..k], PowerService.GetPowerById))
    {
      var power := PowerService.GetPowerById(lookups[k]);
      if power.Some? {
        powers := powers + [power.value];
      }
      assert Map(lookups[..k + 1], PowerService.GetPowerById)[..k] == Map(lookups[..k], PowerService.GetPowerById);
    }
    assert lookups[..|lookups|] == lookups;
  }

  // Writing a new build.

  /** A statement and its parameters, as handed to `execute`. */
  datatype Statement = Statement(sql: Sql, params: seq<Value>)

  const InsertBuildText := "INSERT INTO builds (user_id, hero_id, title, is_verified) VALUES (?, ?, ?, ?)"

  const InsertBuildSql: Sql :=
    Sql(InsertBuildText,
        None, None, Some(Head(InsertInto, "builds")), {"is_verified"})
  const InsertRoundText := "INSERT INTO Rounds (build_id, round_number, explanation) VALUES (?, ?, ?)"
  const InsertRoundSql: Sql :=
    Sql(InsertRoundText,
        None, None, Some(Head(InsertInto, "Rounds")), {})
  const InsertRoundItemText := "INSERT INTO RoundItems (round_id, item_id) VALUES (?, ?)"
  const InsertRoundItemSql: Sql :=
    Sql(InsertRoundItemText,
        None, None, Some(Head(InsertInto, "RoundItems")), {})
  const InsertRoundPowerText := "INSERT INTO RoundPowers (round_id, power_id) VALUES (?, ?)"
  const InsertRoundPowerSql: Sql :=
    Sql(InsertRoundPowerText,
        None, None, Some(Head(InsertInto, "RoundPowers")), {})

  /** The build insert: user, hero, title, and the flag as 1 or 0. */
  function BuildParams(b: Build): seq<Value> {
    [Num(b.userId), Num(b.heroId), Str(b.title), Num(if b.isVerified then 1 else 0)]
  }

  /** The build insert posts to `/builds` with the flag restored to a boolean. */
  lemma CreateBuildRoute(b: Build)
    ensures RouteExecute(InsertBuildSql, BuildParams(b))
            == Ok(Effect(POST, "/builds", map["user_id" := Num(b.userId), "hero_id" := Num(b.heroId),
                                             "title" := Str(b.title), "is_verified" := Bool(b.isVerified)]))
  {
    LowerOfLower("builds");
  }

  /** Lower-casing leaves a lower-case word alone. */
  lemma LowerOfLower(s: string)
    requires forall i :: 0 <= i < |s| ==> !('A' <= s[i] <= 'Z')
    ensures Lower(s) == s
  {
  }

  function RoundInsert(buildId: Value, r: Round): Statement {
    Statement(InsertRoundSql, [buildId, Num(r.roundNumber), Str(r.explanation)])
  }

  function ItemLink(roundId: Value, i: Item): Statement {
    Statement(InsertRoundItemSql, [roundId, Num(i.id)])
  }

  function PowerLink(roundId: Value, p: Power): Statement {
    Statement(InsertRoundPowerSql, [roundId, Num(p.id)])
  }

  /** What `createRound` issues: the round, then one link per item, then
      one per power, all under the new round's id. */
  function RoundStatements(buildId: Value, r: Round, roundId: Value): seq<Statement> {
    [RoundInsert(buildId, r)]
      + Map(r.items, (i: Item) => ItemLink(roundId, i))
      + Map(r.powers, (p: Power) => PowerLink(roundId, p))
  }

  /** The round insert posts below the build; the links post below the round. */
  lemma RoundStatementRoutes(buildId: int, r: Round, roundId: int, i: Item, p: Power)
    ensures RouteExecute(RoundInsert(Num(buildId), r).sql, RoundInsert(Num(buildId), r).params)
            == Ok(Effect(POST, "/builds/" + IntToString(buildId) + "/rounds",
                         map["round_number" := Num(r.roundNumber), "explanation" := Str(r.explanation)]))
    ensures RouteExecute(ItemLink(Num(roundId), i).sql, ItemLink(Num(roundId), i).params)
            == Ok(Effect(POST, "/rounds/" + IntToString(roundId) + "/items", map["item_id" := Num(i.id)]))
    ensures RouteExecute(PowerLink(Num(roundId), p).sql, PowerLink(Num(roundId), p).params)
            == Ok(Effect(POST, "/rounds/" + IntToString(roundId) + "/powers", map["power_id" := Num(p.id)]))
  {
    LowerRounds();
    LowerRoundItems();
    LowerRoundPowers();
  }

  /** `createRound`: the round insert, then the item links, then the power links. */
  method CreateRound(buildId: Value, r: Round, roundId: Value) returns (issued: seq<Statement>)
    ensures issued == RoundStatements(buildId, r, roundId)
  {
    issued := [RoundInsert(buildId, r)];
    var itemLink := (i: Item) => ItemLink(roundId, i);
    var powerLink := (p: Power) => PowerLink(roundId, p);
    for k := 0 to |r.items|
      invariant issued == [RoundInsert(buildId, r)] + Map(r.items[..k], itemLink)
    {
      issued := issued + [ItemLink(roundId, r.items[k])];
      assert Map(r.items[..k + 1], itemLink) == Map(r.items[..k], itemLink) + [itemLink(r.items[k])];
    }
    assert r.items[..|r.items|] == r.items;
    ghost var head := issued;
    for k := 0 to |r.powers|
      invariant issued == head + Map(r.powers[..k], powerLink)
    {
      issued := issued + [PowerLink(roundId, r.powers[k])];
      assert Map(r.powers[..k + 1], powerLink) == Map(r.powers[..k], powerLink) + [powerLink(r.powers[k])];
    }
    assert r.powers[..|r.powers|] == r.powers;
  }

  /** `createBuild` writes a round only when its trimmed explanation is not empty. */
  predicate Written(r: Round) {
    !Blank(r.explanation)
  }

  /** The rounds `createBuild` writes. */
  function Persisted(rounds: seq<Round>): (p: seq<Round>)
    ensures |p| <= |rounds|
    ensures forall k :: 0 <= k < |p| ==> Written(p[k]) && p[k] in rounds
    ensures Subsequence(p, rounds)
  {
    var p := Keep(rounds, Written);
    assert forall k :: 0 <= k < |p| ==> p[k] in multiset(rounds);
    KeepIsSubsequence(rounds, Written);
    p
  }

  /** Every written round is written as often as it occurs, the others never. */
  lemma PersistedCount(rounds: seq<Round>, x: Round)
    ensures multiset(Persisted(rounds))[x] == if Written(x) then multiset(rounds)[x] else 0
  {
    KeepCount(rounds, Written, x);
  }

  /** Exactly the rounds with an explanation are written; a round added at the
      end is written last, exactly when it has an explanation. */
  lemma PersistedRounds(rounds: seq<Round>, r: Round)
    ensures r in Persisted(rounds) <==> r in rounds && Written(r)
    ensures |Persisted(rounds)| <= |rounds|
    ensures Persisted(rounds + [r]) == Persisted(rounds) + (if Written(r) then [r] else [])
  {
    KeepMembers(rounds, Written, r);
    KeepAppend(rounds, [r], Written);
    KeepOne(r, Written);
  }

  /** The statements for a run of rounds, the `j`-th round under the `j`-th new round id. */
  function RoundsStatements(buildId: Value, rounds: seq<Round>, roundIds: seq<Value>): seq<Statement> {
    if rounds == [] then []
    else
      var n := |rounds| - 1;
      RoundsStatements(buildId, rounds[..n], roundIds) + RoundStatements(buildId, rounds[n], At(roundIds, n))
  }

  lemma RoundsStatementsStep(buildId: Value, rounds: seq<Round>, roundIds: seq<Value>, k: int)
    requires 0 <= k < |rounds|
    ensures RoundsStatements(buildId, rounds[..k + 1], roundIds)
            == RoundsStatements(buildId, rounds[..k], roundIds) + RoundStatements(buildId, rounds[k], At(roundIds, k))
  {
    assert rounds[..k + 1][..k] == rounds[..k];
  }

  /** `createBuild`: the build insert, then `createRound` for each persisted
      round in order. `roundIds` are the ids the round inserts return. */
  method CreateBuild(b: Build, buildId: Value, roundIds: seq<Value>) returns (issued: seq<Statement>)
    ensures issued == [Statement(InsertBuildSql, BuildParams(b))]
                      + RoundsStatements(buildId, Persisted(b.rounds), roundIds)
  {
    var first := [Statement(InsertBuildSql, BuildParams(b))];
    var rounds := Persisted(b.rounds);
    var rest: seq<Statement> := [];
    for k := 0 to |rounds|
      invariant rest == RoundsStatements(buildId, rounds[..k], roundIds)
    {
      var more := CreateRound(buildId, rounds[k], At(roundIds, k));
      RoundsStatementsStep(buildId, rounds, roundIds, k);
      rest := rest + more;
    }
    issued := first + rest;
    assert rounds[..|rounds|] == rounds;
  }

  /** One round insert per round, in order. */
  function RoundInserts(buildId: Value, rounds: seq<Round>): (s: seq<Statement>)
    ensures |s| == |rounds|
  {
    if rounds == [] then [] else
      RoundInserts(buildId, rounds[..|rounds| - 1]) + [RoundInsert(buildId, rounds[|rounds| - 1])]
  }

  /** Which statements insert a round. */
  predicate IsRoundInsert(s: Statement) {
    s.sql == InsertRoundSql
  }

  lemma {:induction false} RoundStatementsOneInsert(buildId: Value, r: Round, roundId: Value)
    ensures Keep(RoundStatements(buildId, r, roundId), IsRoundInsert) == [RoundInsert(buildId, r)]
  {
    var a := Map(r.items, (i: Item) => ItemLink(roundId, i));
    var b := Map(r.powers, (p: Power) => PowerLink(roundId, p));
    assert RoundStatements(buildId, r, roundId) == [RoundInsert(buildId, r)] + (a + b);
    KeepAppend([RoundInsert(buildId, r)], a + b, IsRoundInsert);
    LinksAreNotRoundInserts();
    forall k | 0 <= k < |a + b| ensures !IsRoundInsert((a + b)[k]) {
      if k < |a| {
        assert (a + b)[k] == ItemLink(roundId, r.items[k]);
      } else {
        assert (a + b)[k] == PowerLink(roundId, r.powers[k - |a|]);
      }
    }
    KeepNone(a + b, IsRoundInsert);
  }

  /** The link inserts name other tables than the round insert. */
  lemma LinksAreNotRoundInserts()
    ensures InsertRoundItemSql != InsertRoundSql && InsertRoundPowerSql != InsertRoundSql
  {
    assert InsertRoundItemSql.head != InsertRoundSql.head;
    assert InsertRoundPowerSql.head != InsertRoundSql.head;
  }

  /** The round inserts among the statements are one per round, in order. */
  lemma {:induction false} RoundInsertsInOrder(buildId: Value, rounds: seq<Round>, roundIds: seq<Value>)
    ensures Keep(RoundsStatements(buildId, rounds, roundIds), IsRoundInsert)
            == RoundInserts(buildId, rounds)
  {
    if rounds != [] {
      var n := |rounds| - 1;
      var init := RoundsStatements(buildId, rounds[..n], roundIds);
      var last := RoundStatements(buildId, rounds[n], At(roundIds, n));
      assert RoundsStatements(buildId, rounds, roundIds) == init + last;
      RoundInsertsInOrder(buildId, rounds[..n], roundIds);
      KeepAppend(init, last, IsRoundInsert);
      RoundStatementsOneInsert(buildId, rounds[n], At(roundIds, n));
    }
  }

  /** So `createBuild` inserts exactly the rounds with an explanation, in
      their order, after the build itself. */
  lemma CreateBuildWritesPersisted(b: Build, buildId: Value, roundIds: seq<Value>)
    ensures Keep([Statement(InsertBuildSql, BuildParams(b))] + RoundsStatements(buildId, Persisted(b.rounds), roundIds), IsRoundInsert)
            == RoundInserts(buildId, Persisted(b.rounds))
  {
    KeepAppend([Statement(InsertBuildSql, BuildParams(b))], RoundsStatements(buildId, Persisted(b.rounds), roundIds), IsRoundInsert);
    assert InsertBuildSql.head != InsertRoundSql.head;
    RoundInsertsInOrder(buildId, Persisted(b.rounds), roundIds);
  }

  // Verification flag.

  const VerifyText := "UPDATE Builds SET is_verified = 1 WHERE id = ?"

  const VerifySql: Sql :=
    Sql(VerifyText, None, Some("id"), Some(Head(Update, "Builds")),
        {"is_verified", "is_verified = 1"})
  const UnverifyText := "UPDATE Builds SET is_verified = 0 WHERE id = ?"
  const UnverifySql: Sql :=
    Sql(UnverifyText, None, Some("id"), Some(Head(Update, "Builds")),
        {"is_verified", "is_verified = 0"})

  /** `verifyBuild` passes `[1, id]` and `unverifyBuild` `[0, id]`; the
      router turns these into a bodiless post to `/verify` or `/unverify`. */
  lemma VerificationRoutes(id: int)
    ensures RouteExecute(VerifySql, [Num(1), Num(id)])
            == Ok(Effect(POST, "/builds/" + IntToString(id) + "/verify", map[]))
    ensures RouteExecute(UnverifySql, [Num(0), Num(id)])
            == Ok(Effect(POST, "/builds/" + IntToString(id) + "/unverify", map[]))
    ensures Body(Effect(POST, "/builds/" + IntToString(id) + "/verify", map[])).None?
  {
    LowerBuilds();
    var prefix := "/builds/" + IntToString(id);
    assert prefix + "/" + "verify" == prefix + "/verify";
    assert prefix + "/" + "unverify" == prefix + "/unverify";
  }

  // Calls made with the stored token.

  /** `deleteBuild`: without a token nothing is sent and the answer is
      false; otherwise a delete of `/builds/{id}`, true exactly on an ok reply. */
  method DeleteBuild(storage: Browser.SessionStorage, buildId: int, reply: Reply<()>)
    returns (sent: Option<Request>, ok: bool)
    ensures sent.None? <==> !storage.Holds(Browser.AuthTokenKey)
    ensures sent.Some? ==> sent.value == Request(DELETE, ApiUrl + "/builds/" + IntToString(buildId),
                                                 Some("Bearer " + storage.entries[Browser.AuthTokenKey]), None)
    ensures ok <==> sent.Some? && IsOk(reply)
  {
    var token := storage.Get(Browser.AuthTokenKey);
    if token.None? || token.value == "" {
      return None, false;
    }
    sent := Some(Request(DELETE, ApiUrl + "/builds/" + IntToString(buildId), Some("Bearer " + token.value), None));
    ok := IsOk(reply);
  }

  /** `saveBuild` (post) and `unsaveBuild` (delete) of
      `/users/{userId}/saved-builds/{buildId}`, under the same token rule. */
  method ToggleSaved(storage: Browser.SessionStorage, save: bool, userId: int, buildId: int, reply: Reply<()>)
    returns (sent: Option<Request>, ok: bool)
    ensures sent.None? <==> !storage.Holds(Browser.AuthTokenKey)
    ensures sent.Some? ==>
              sent.value == Request(if save then POST else DELETE,
                                    ApiUrl + "/users/" + IntToString(userId) + "/saved-builds/" + IntToString(buildId),
                                    Some("Bearer " + storage.entries[Browser.AuthTokenKey]), None)
    ensures ok <==> sent.Some? && IsOk(reply)
  {
    var token := storage.Get(Browser.AuthTokenKey);
    if token.None? || token.value == "" {
      return None, false;
    }
    var url := ApiUrl + "/users/" + IntToString(userId) + "/saved-builds/" + IntToString(buildId);
    sent := Some(Request(if save then POST else DELETE, url, Some("Bearer " + token.value), None));
    ok := IsOk(reply);
  }

  /** `isBuildSaved`: the reply's `isSaved` on an ok reply; false without a
      token, on an error status and when the server cannot be reached. */
  method IsBuildSaved(storage: Browser.SessionStorage, userId: int, buildId: int, reply: Reply<bool>)
    returns (sent: Option<Request>, saved: bool)
    ensures sent.None? <==> !storage.Holds(Browser.AuthTokenKey)
    ensures sent.Some? ==>
              sent.value == Request(GET, ApiUrl + "/users/" + IntToString(userId) + "/saved-builds/"
                                         + IntToString(buildId) + "/check",
                                    Some("Bearer " + storage.entries[Browser.AuthTokenKey]), None)
    ensures saved <==> sent.Some? && IsOk(reply) && reply.body
  {
    var token := storage.Get(Browser.AuthTokenKey);
    if token.None? || token.value == "" {
      return None, false;
    }
    var url := ApiUrl + "/users/" + IntToString(userId) + "/saved-builds/" + IntToString(buildId) + "/check";
    sent := Some(Request(GET, url, Some("Bearer " + token.value), None));
    if !IsOk(reply) {
      return sent, false;
    }
    saved := reply.body;
  }
}
