/** The power service: one statement per operation, as for items. List and
    single reads fall back to no powers and no power; `addPower` passes a
    failure on, while `updatePower` and `deletePower` turn it into false. */
module PowerService {
  import opened Wrappers
  import opened Js
  import opened Types
  import opened Seqs
  import opened Database

  const AllPowersText := "SELECT p.*, h.name as heroName FROM Powers p LEFT JOIN Heroes h ON p.hero_id = h.id ORDER BY p.name"

  const AllPowersSql: Sql :=
    Sql(AllPowersText,
        Some("Powers"), None, None, {})
  const GeneralPowersText := "SELECT * FROM Powers WHERE hero_id IS NULL ORDER BY name"
  const GeneralPowersSql: Sql :=
    Sql(GeneralPowersText, Some("Powers"), None, None, {})
  const PowersForHeroText := "SELECT p.*, h.name as heroName FROM Powers p LEFT JOIN Heroes h ON p.hero_id = h.id WHERE p.hero_id = ? OR p.hero_id IS NULL ORDER BY p.name"
  const PowersForHeroSql: Sql :=
    Sql(PowersForHeroText,
        Some("Powers"), Some("p.hero_id"), None, {})
  const PowerByIdText := "SELECT p.*, h.name as heroName FROM Powers p LEFT JOIN Heroes h ON p.hero_id = h.id WHERE p.id = ?"
  const PowerByIdSql: Sql :=
    Sql(PowerByIdText,
        Some("Powers"), Some("p.id"), None, {})
  const InsertPowerText := "INSERT INTO Powers (name, description, hero_id) VALUES (?, ?, ?)"
  const InsertPowerSql: Sql :=
    Sql(InsertPowerText,
        None, None, Some(Head(InsertInto, "Powers")), {})
  const UpdatePowerText := "UPDATE Powers SET name = ?, description = ?, hero_id = ? WHERE id = ?"
  const UpdatePowerSql: Sql :=
    Sql(UpdatePowerText,
        None, Some("id"), Some(Head(Update, "Powers")), {})
  const DeletePowerText := "DELETE FROM Powers WHERE id = ?"
  const DeletePowerSql: Sql :=
    Sql(DeletePowerText, Some("Powers"), Some("id"), Some(Head(DeleteFrom, "Powers")), {})

  function ListOrEmpty(r: Result<seq<Power>>): seq<Power> {
    if r.Ok? then r.value else []
  }

  function GetAllPowers(r: Result<seq<Power>>): (powers: seq<Power>)
    ensures r.Err? ==> powers == []
    ensures r.Ok? ==> powers == r.value
  {
    ListOrEmpty(r)
  }

  /** A power with its hero link dropped. */
  function Unlinked(p: Power): Power {
    p.(heroId := None, heroName := None)
  }

  /** `getPowersByHero` as written. */
  function GetPowersByHero(heroId: Option<int>, r: Result<seq<Power>>): (powers: seq<Power>)
    ensures |powers| == |ListOrEmpty(r)|
    ensures heroId.None? ==> forall i :: 0 <= i < |powers| ==> powers[i].heroId.None? && powers[i].heroName.None?
    ensures heroId.None? ==> forall i :: 0 <= i < |powers| ==>
              powers[i].(heroId := ListOrEmpty(r)[i].heroId, heroName := ListOrEmpty(r)[i].heroName) == ListOrEmpty(r)[i]
    ensures heroId.Some? ==> powers == ListOrEmpty(r)
  {
    if heroId.None? then Map(ListOrEmpty(r), Unlinked) else ListOrEmpty(r)
  }

  function PowersByHeroSql(heroId: Option<int>): Sql {
    if heroId.None? then GeneralPowersSql else PowersForHeroSql
  }

  function PowersByHeroParams(heroId: Option<int>): seq<Value> {
    if heroId.None? then [] else [Num(heroId.value)]
  }

  predicate IsGeneral(p: Power) {
    p.heroId.None?
  }

  /** `getPowersByHero(null)` as evidently intended: only the rows without a hero. */
  function GeneralPowers(r: Result<seq<Power>>): (powers: seq<Power>)
    ensures forall i :: 0 <= i < |powers| ==> powers[i].heroId.None? && powers[i].heroName.None?
    ensures |powers| <= |ListOrEmpty(r)|
  {
    Map(Keep(ListOrEmpty(r), IsGeneral), Unlinked)
  }

  /** The general powers are exactly the unlinked copies of the rows without a hero. */
  lemma GeneralPowersCorrect(rows: seq<Power>, x: Power)
    ensures x in GeneralPowers(Ok(rows)) <==> exists y :: y in rows && IsGeneral(y) && x == Unlinked(y)
  {
    MapKeepMembers(rows, IsGeneral, Unlinked, x);
  }

  lemma LowerPowers()
    ensures Lower("Powers") == "powers"
  {
    var l := Lower("Powers");
    assert l[0] == 'p' && l[1] == 'o' && l[2] == 'w' && l[3] == 'e' && l[4] == 'r' && l[5] == 's';
  }

  lemma NoConditionRoute()
    ensures RouteEntity("powers", {}, map[], []) == Ok(Target("/powers", []))
  {
    assert Cond(map[], "id") == Undefined;
    assert "/powers" + "" == "/powers";
    assert RouteEntity("powers", {}, map[], []).value.endpoint == "/powers";
  }

  /** Every power list read goes to `/powers`, the hero condition dropped. */
  lemma PowerListRoutes(heroId: Option<int>)
    ensures RouteQuery(AllPowersSql, []) == Ok(Target("/powers", []))
    ensures RouteQuery(PowersByHeroSql(heroId), PowersByHeroParams(heroId)) == Ok(Target("/powers", []))
  {
    assert QueryEntity(AllPowersSql) == "powers" by { LowerPowers(); }
    NoConditionRoute();
    if heroId.Some? {
      HeroPowersRoute(heroId.value);
    }
  }

  lemma HeroPowersRoute(h: int)
    ensures RouteQuery(PowersForHeroSql, [Num(h)]) == Ok(Target("/powers", []))
  {
    assert "p." + "hero_id" == "p.hero_id";
    PowersWhere(PowersForHeroSql, Num(h), "hero_id");
    PowersOnOther(PowersForHeroSql.probes, "hero_id", Num(h));
  }

  /** A condition on a column other than `id` leaves the powers endpoint bare. */
  lemma PowersOnOther(probes: set<string>, field: string, v: Value)
    requires field != "id"
    ensures RouteEntity("powers", probes, map[field := v], [v]) == Ok(Target("/powers", []))
  {
    var c := map[field := v];
    PowersRow(probes, c, [v]);
    assert Cond(c, "id") == Undefined;
    IdSuffixOf(0);
    assert "/powers" + "" == "/powers";
  }

  /** The powers queries filtered on one column of `p`. */
  lemma PowersWhere(sql: Sql, v: Value, field: string)
    requires sql.fromWord == Some("Powers") && sql.whereTarget == Some("p." + field)
    requires '.' !in field && field != ""
    ensures RouteQuery(sql, [v]) == RouteEntity("powers", sql.probes, map[field := v], [v])
  {
    LowerPowers();
    assert "p." + field == "p" + "." + field;
    WhereRoute(sql, v, "p", field, "powers");
  }

  /** The hero-specific power the general listing relabels. */
  const GuardianPower: Power := Power(12, "Guardian", "", Some(5), Some("Brigitte"))

  /** `getPowersByHero(null)` sends the request `getAllPowers` sends and
      returns a hero-specific row as a general power; the intended reading
      drops it. */
  lemma GeneralListingRelabelsHeroPowers()
    ensures RouteQuery(PowersByHeroSql(None), PowersByHeroParams(None)) == RouteQuery(AllPowersSql, [])
    ensures GetPowersByHero(None, Ok([GuardianPower])) == [Unlinked(GuardianPower)]
    ensures GuardianPower.heroId == Some(5) && Unlinked(GuardianPower).heroId.None?
    ensures GeneralPowers(Ok([GuardianPower])) == []
  {
    PowerListRoutes(None);
    assert Keep([GuardianPower], IsGeneral) == Keep([GuardianPower][1..], IsGeneral);
  }

  /** `getPowerById`: the first row, or none when there is no row or the read failed. */
  function GetPowerById(r: Result<seq<Power>>): (power: Option<Power>)
    ensures power.Some? <==> r.Ok? && r.value != []
    ensures power.Some? ==> power.value == r.value[0]
  {
    if r.Err? || r.value == [] then None else Some(r.value[0])
  }

  /** A non-zero id is looked up at `/powers/{id}`. */
  lemma PowerByIdRoute(id: int)
    requires id != 0
    ensures RouteQuery(PowerByIdSql, [Num(id)]) == Ok(Target("/powers/" + IntToString(id), []))
  {
    assert "p." + "id" == "p.id";
    PowersWhere(PowerByIdSql, Num(id), "id");
    PowersOnId(PowerByIdSql.probes, id);
  }

  lemma PowersOnId(probes: set<string>, id: int)
    requires id != 0
    ensures RouteEntity("powers", probes, map["id" := Num(id)], [Num(id)]) == Ok(Target("/powers/" + IntToString(id), []))
  {
    var c := map["id" := Num(id)];
    PowersRow(probes, c, [Num(id)]);
    assert Cond(c, "id") == Num(id);
    IdSuffixOf(id);
    assert "/powers" + ("/" + IntToString(id)) == "/powers/" + IntToString(id);
  }

  /** The parameters of `addPower`: name, description and the hero id, a
      missing or zero one as null. */
  function AddPowerParams(power: Power): seq<Value> {
    [Str(power.name), Str(power.description), IdOrNull(power.heroId)]
  }

  function UpdatePowerParams(power: Power): seq<Value> {
    AddPowerParams(power) + [Num(power.id)]
  }

  function PowerBody(power: Power): map<string, Value> {
    map["name" := Str(power.name), "description" := Str(power.description), "heroId" := IdOrNull(power.heroId)]
  }

  lemma PowerDataOf(power: Power, p: seq<Value>)
    requires |p| >= 3 && p[..3] == AddPowerParams(power)
    ensures PowerData(p) == PowerBody(power)
  {
    assert p[0] == Str(power.name) && p[1] == Str(power.description) && p[2] == IdOrNull(power.heroId);
  }

  /** The parameter order of `addPower` matches the router's insert layout. */
  lemma AddPowerRoute(power: Power)
    ensures RouteExecute(InsertPowerSql, AddPowerParams(power)) == Ok(Effect(POST, "/powers", PowerBody(power)))
    ensures Body(Effect(POST, "/powers", PowerBody(power))) == Some(PowerBody(power))
  {
    LowerPowers();
    PowerDataOf(power, AddPowerParams(power));
    assert "name" in PowerBody(power);
  }

  /** `updatePower` puts the id last, so the power is written at `/powers/{id}`. */
  lemma UpdatePowerRoute(power: Power)
    ensures RouteExecute(UpdatePowerSql, UpdatePowerParams(power))
            == Ok(Effect(PUT, "/powers/" + IntToString(power.id), PowerBody(power)))
  {
    LowerPowers();
    var p := UpdatePowerParams(power);
    assert p[..3] == AddPowerParams(power);
    PowerDataOf(power, p);
    assert Last(p) == Num(power.id);
  }

  /** `deletePower` deletes at `/powers/{id}`, without a body. */
  lemma DeletePowerRoute(id: int)
    ensures RouteExecute(DeletePowerSql, [Num(id)]) == Ok(Effect(DELETE, "/powers/" + IntToString(id), map[]))
    ensures Body(Effect(DELETE, "/powers/" + IntToString(id), map[])).None?
  {
    LowerPowers();
  }

  /** `addPower`: the new id; a failure is passed on. */
  function AddPower(r: Result<ExecResult>): (id: Result<Value>)
    ensures id.Ok? <==> r.Ok?
    ensures id.Ok? ==> id.value == r.value.insertId
    ensures id.Err? ==> id.error == r.error
  {
    if r.Ok? then Ok(r.value.insertId) else Err(r.error)
  }

  /** `updatePower` and `deletePower`: true exactly when the write completed
      and touched a row; a failure is reported as false, not passed on. */
  function Changed(r: Result<ExecResult>): (ok: bool)
    ensures ok <==> r.Ok? && r.value.affectedRows > 0
  {
    r.Ok? && r.value.affectedRows > 0
  }

  /** So false is all a caller learns of a failure, and a completed write is true. */
  lemma ChangedReportsOutcome(id: Value, e: string)
    ensures Changed(Ok(ExecResultOf(id)))
    ensures !Changed(Err(e))
  {
  }
}
