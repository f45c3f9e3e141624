/** The item service. Each operation hands one statement with positional
    parameters to the data access layer and applies a fallback policy to what
    that layer yields: list reads fall back to no items, the single read to
    no item, and writes pass a failure on to their caller. What the layer
    yields is an input here; the lemmas tie each statement and parameter
    layout to the route the data access layer gives it. */
module ItemService {
  import opened Wrappers
  import opened Js
  import opened Types
  import opened Seqs
  import opened Database

  function CategoryName(c: Category): string {
    match c
    case Weapon => "Weapon"
    case Ability => "Ability"
    case Survival => "Survival"
  }

  function RarityName(r: Rarity): string {
    match r
    case Common => "common"
    case Rare => "rare"
    case Epic => "epic"
  }

  /** The statements, as the router sees them. */
  const AllItemsText := "SELECT i.*, h.name as heroName FROM Items i LEFT JOIN Heroes h ON i.hero_id = h.id ORDER BY i.category, i.name"
  const AllItemsSql: Sql :=
    Sql(AllItemsText,
        Some("Items"), None, None, {})
  const ItemsByCategoryText := "SELECT i.*, h.name as heroName FROM Items i LEFT JOIN Heroes h ON i.hero_id = h.id WHERE i.category = ? ORDER BY i.name"
  const ItemsByCategorySql: Sql :=
    Sql(ItemsByCategoryText,
        Some("Items"), Some("i.category"), None, {})
  const GeneralItemsText := "SELECT * FROM Items WHERE hero_id IS NULL ORDER BY category, name"
  const GeneralItemsSql: Sql :=
    Sql(GeneralItemsText, Some("Items"), None, None, {})
  const ItemsForHeroText := "SELECT i.*, h.name as heroName FROM Items i LEFT JOIN Heroes h ON i.hero_id = h.id WHERE i.hero_id = ? OR i.hero_id IS NULL ORDER BY i.category, i.name"
  const ItemsForHeroSql: Sql :=
    Sql(ItemsForHeroText,
        Some("Items"), Some("i.hero_id"), None, {})
  const ItemByIdText := "SELECT i.*, h.name as heroName FROM Items i LEFT JOIN Heroes h ON i.hero_id = h.id WHERE i.id = ?"
  const ItemByIdSql: Sql :=
    Sql(ItemByIdText,
        Some("Items"), Some("i.id"), None, {})
  const InsertItemText := "INSERT INTO Items (name, category, description, cost, rarity, hero_id) VALUES (?, ?, ?, ?, ?, ?)"
  const InsertItemSql: Sql :=
    Sql(InsertItemText,
        None, None, Some(Head(InsertInto, "Items")), {})
  const UpdateItemText := "UPDATE Items SET name = ?, category = ?, description = ?, cost = ?, rarity = ?, hero_id = ? WHERE id = ?"
  const UpdateItemSql: Sql :=
    Sql(UpdateItemText,
        None, Some("id"), Some(Head(Update, "Items")), {})
  const DeleteItemText := "DELETE FROM Items WHERE id = ?"
  const DeleteItemSql: Sql :=
    Sql(DeleteItemText, Some("Items"), Some("id"), Some(Head(DeleteFrom, "Items")), {})

  /** A list read: the rows, or no items when the read failed. */
  function ListOrEmpty(r: Result<seq<Item>>): seq<Item> {
    if r.Ok? then r.value else []
  }

  function GetAllItems(r: Result<seq<Item>>): (items: seq<Item>)
    ensures r.Err? ==> items == []
    ensures r.Ok? ==> items == r.value
  {
    ListOrEmpty(r)
  }

  /** `getItemsByCategory` treats its answer exactly as `getAllItems` does;
      only the statement it sends differs (`ItemsByCategorySql`). */
  function GetItemsByCategory(r: Result<seq<Item>>): (items: seq<Item>)
    ensures r.Err? ==> items == []
    ensures r.Ok? ==> items == r.value
  {
    GetAllItems(r)
  }

  /** An item with its hero link dropped: `heroId` and `heroName` null. */
  function Unlinked(i: Item): Item {
    i.(heroId := None, heroName := None)
  }

  /** `getItemsByHero` as written: without a hero the rows are all relabelled
      as general items; with one they are passed on. */
  function GetItemsByHero(heroId: Option<int>, r: Result<seq<Item>>): (items: seq<Item>)
    ensures |items| == |ListOrEmpty(r)|
    ensures heroId.None? ==> forall i :: 0 <= i < |items| ==> items[i].heroId.None? && items[i].heroName.None?
    ensures heroId.None? ==> forall i :: 0 <= i < |items| ==>
              items[i].(heroId := ListOrEmpty(r)[i].heroId, heroName := ListOrEmpty(r)[i].heroName) == ListOrEmpty(r)[i]
    ensures heroId.Some? ==> items == ListOrEmpty(r)
  {
    if heroId.None? then Map(ListOrEmpty(r), Unlinked) else ListOrEmpty(r)
  }

  /** The statement for `getItemsByHero`, and its parameters. */
  function ItemsByHeroSql(heroId: Option<int>): Sql {
    if heroId.None? then GeneralItemsSql else ItemsForHeroSql
  }

  function ItemsByHeroParams(heroId: Option<int>): seq<Value> {
    if heroId.None? then [] else [Num(heroId.value)]
  }

  predicate IsGeneral(i: Item) {
    i.heroId.None?
  }

  /** `getItemsByHero(null)` as evidently intended: only the rows without a
      hero, with their hero link dropped. */
  function GeneralItems(r: Result<seq<Item>>): (items: seq<Item>)
    ensures forall i :: 0 <= i < |items| ==> items[i].heroId.None? && items[i].heroName.None?
    ensures |items| <= |ListOrEmpty(r)|
  {
    Map(Keep(ListOrEmpty(r), IsGeneral), Unlinked)
  }

  /** The general items are exactly the unlinked copies of the rows without a hero. */
  lemma GeneralItemsCorrect(rows: seq<Item>, x: Item)
    ensures x in GeneralItems(Ok(rows)) <==> exists y :: y in rows && IsGeneral(y) && x == Unlinked(y)
  {
    MapKeepMembers(rows, IsGeneral, Unlinked, x);
  }

  /** The hero-specific item the general listing relabels. */
  const KineticItem: Item := Item(7, "Kinetic", Weapon, "", Some(1000), Epic, Some(3), Some("Ana"))

  /** `getItemsByHero(null)` sends the very request `getAllItems` sends, so a
      hero-specific row comes back, and it is returned as a general item; the
      intended reading drops it. */
  lemma GeneralListingRelabelsHeroItems()
    ensures RouteQuery(ItemsByHeroSql(None), ItemsByHeroParams(None)) == RouteQuery(AllItemsSql, [])
    ensures GetItemsByHero(None, Ok([KineticItem])) == [Unlinked(KineticItem)]
    ensures KineticItem.heroId == Some(3) && Unlinked(KineticItem).heroId.None?
    ensures GeneralItems(Ok([KineticItem])) == []
  {
    AllItemsRoute();
    ItemsByHeroRoute(None);
    assert Keep([KineticItem], IsGeneral) == Keep([KineticItem][1..], IsGeneral);
  }

  /** The item list reads go to `/items`. */
  lemma AllItemsRoute()
    ensures RouteQuery(AllItemsSql, []) == Ok(Target("/items", []))
  {
    LowerItems();
    NoConditionRoute();
  }

  lemma NoConditionRoute()
    ensures RouteEntity("items", {}, map[], []) == Ok(Target("/items", []))
  {
    assert Cond(map[], "id") == Undefined && Cond(map[], "category") == Undefined;
    assert "/items" + "" == "/items";
    assert RouteEntity("items", {}, map[], []).value.endpoint == "/items";
  }

  /** The category becomes the `category` search parameter. */
  lemma ItemsByCategoryRoute(c: Category)
    ensures RouteQuery(ItemsByCategorySql, [Str(CategoryName(c))])
            == Ok(Target("/items", [("category", CategoryName(c))]))
  {
    assert "i." + "category" == "i.category";
    ItemsWhere(ItemsByCategorySql, Str(CategoryName(c)), "category");
    CategoryRoute(ItemsByCategorySql.probes, CategoryName(c));
  }

  lemma CategoryRoute(probes: set<string>, name: string)
    requires name != ""
    ensures RouteEntity("items", probes, map["category" := Str(name)], [Str(name)])
            == Ok(Target("/items", [("category", name)]))
  {
    var c := map["category" := Str(name)];
    ItemsRow(probes, c, [Str(name)]);
    assert Cond(c, "id") == Undefined && Cond(c, "category") == Str(name);
    IdSuffixOf(0);
    assert "/items" + "" == "/items";
    assert SetParam([], "category", name) == [("category", name)];
  }

  /** The hero condition is dropped on the way: both readings of
      `getItemsByHero` fetch every item, of every hero. */
  lemma ItemsByHeroRoute(heroId: Option<int>)
    ensures RouteQuery(ItemsByHeroSql(heroId), ItemsByHeroParams(heroId)) == Ok(Target("/items", []))
  {
    if heroId.Some? {
      HeroItemsRoute(heroId.value);
    } else {
      LowerItems();
      assert QueryEntity(GeneralItemsSql) == "items";
      NoConditionRoute();
    }
  }

  lemma HeroItemsRoute(h: int)
    ensures RouteQuery(ItemsForHeroSql, [Num(h)]) == Ok(Target("/items", []))
  {
    assert "i." + "hero_id" == "i.hero_id";
    ItemsWhere(ItemsForHeroSql, Num(h), "hero_id");
    ItemsOnOther(ItemsForHeroSql.probes, "hero_id", Num(h));
  }

  /** A condition on a column other than `id` and `category` leaves the items endpoint bare. */
  lemma ItemsOnOther(probes: set<string>, field: string, v: Value)
    requires field != "id" && field != "category"
    ensures RouteEntity("items", probes, map[field := v], [v]) == Ok(Target("/items", []))
  {
    var c := map[field := v];
    ItemsRow(probes, c, [v]);
    assert Cond(c, "id") == Undefined && Cond(c, "category") == Undefined;
    IdSuffixOf(0);
    assert "/items" + "" == "/items";
  }

  /** The items queries filtered on one column of `i`. */
  lemma ItemsWhere(sql: Sql, v: Value, field: string)
    requires sql.fromWord == Some("Items") && sql.whereTarget == Some("i." + field)
    requires '.' !in field && field != ""
    ensures RouteQuery(sql, [v]) == RouteEntity("items", sql.probes, map[field := v], [v])
  {
    LowerItems();
    assert "i." + field == "i" + "." + field;
    WhereRoute(sql, v, "i", field, "items");
  }

  /** `getItemById`: the first row, or none when there is no row or the read failed. */
  function GetItemById(r: Result<seq<Item>>): (item: Option<Item>)
    ensures item.Some? <==> r.Ok? && r.value != []
    ensures item.Some? ==> item.value == r.value[0]
  {
    if r.Err? || r.value == [] then None else Some(r.value[0])
  }

  /** A non-zero id is looked up at `/items/{id}`. */
  lemma ItemByIdRoute(id: int)
    requires id != 0
    ensures RouteQuery(ItemByIdSql, [Num(id)]) == Ok(Target("/items/" + IntToString(id), []))
  {
    assert "i." + "id" == "i.id";
    ItemsWhere(ItemByIdSql, Num(id), "id");
    ItemsOnId(ItemByIdSql.probes, id);
  }

  lemma ItemsOnId(probes: set<string>, id: int)
    requires id != 0
    ensures RouteEntity("items", probes, map["id" := Num(id)], [Num(id)]) == Ok(Target("/items/" + IntToString(id), []))
  {
    var c := map["id" := Num(id)];
    ItemsRow(probes, c, [Num(id)]);
    assert Cond(c, "id") == Num(id) && Cond(c, "category") == Undefined;
    IdSuffixOf(id);
    assert "/items" + ("/" + IntToString(id)) == "/items/" + IntToString(id);
  }

  lemma LowerItems()
    ensures Lower("Items") == "items"
  {
    var l := Lower("Items");
    assert l[0] == 'i' && l[1] == 't' && l[2] == 'e' && l[3] == 'm' && l[4] == 's';
  }

  /** The parameters of `addItem`: name, category, description, cost, rarity
      and the hero id, a missing or zero one as null. */
  function AddItemParams(item: Item): seq<Value> {
    [Str(item.name), Str(CategoryName(item.category)), Str(item.description),
     NumOrUndefined(item.cost), Str(RarityName(item.rarity)), IdOrNull(item.heroId)]
  }

  /** `updateItem` sends the same fields followed by the item's id. */
  function UpdateItemParams(item: Item): seq<Value> {
    AddItemParams(item) + [Num(item.id)]
  }

  /** The request body an item is written with, field by field. */
  function ItemBody(item: Item): map<string, Value> {
    map["name" := Str(item.name), "category" := Str(CategoryName(item.category)),
        "description" := Str(item.description), "cost" := NumOrUndefined(item.cost),
        "rarity" := Str(RarityName(item.rarity)), "heroId" := IdOrNull(item.heroId)]
  }

  /** The parameter order of `addItem` matches the router's insert layout:
      each field lands under its own name, cost from the fourth parameter and
      rarity from the fifth. */
  lemma AddItemRoute(item: Item)
    ensures RouteExecute(InsertItemSql, AddItemParams(item)) == Ok(Effect(POST, "/items", ItemBody(item)))
    ensures Body(Effect(POST, "/items", ItemBody(item))) == Some(ItemBody(item))
  {
    LowerItems();
    ItemDataOf(item, AddItemParams(item));
    assert "name" in ItemBody(item);
  }

  /** The router's item data, read off any parameter list that starts with the item's fields. */
  lemma ItemDataOf(item: Item, p: seq<Value>)
    requires |p| >= 6 && p[..6] == AddItemParams(item)
    ensures ItemData(p) == ItemBody(item)
  {
    assert p[0] == Str(item.name) && p[1] == Str(CategoryName(item.category)) && p[2] == Str(item.description);
    assert p[3] == NumOrUndefined(item.cost) && p[4] == Str(RarityName(item.rarity)) && p[5] == IdOrNull(item.heroId);
  }

  /** `updateItem` puts the id last, so the item is written at `/items/{id}`. */
  lemma UpdateItemRoute(item: Item)
    ensures RouteExecute(UpdateItemSql, UpdateItemParams(item))
            == Ok(Effect(PUT, "/items/" + IntToString(item.id), ItemBody(item)))
  {
    LowerItems();
    var p := UpdateItemParams(item);
    assert p[..6] == AddItemParams(item);
    ItemDataOf(item, p);
    assert Last(p) == Num(item.id);
  }

  /** `deleteItem` deletes at `/items/{id}`, without a body. */
  lemma DeleteItemRoute(id: int)
    ensures RouteExecute(DeleteItemSql, [Num(id)]) == Ok(Effect(DELETE, "/items/" + IntToString(id), map[]))
    ensures Body(Effect(DELETE, "/items/" + IntToString(id), map[])).None?
  {
    LowerItems();
  }

  /** `addItem`: the new id; a failure is passed on. */
  function AddItem(r: Result<ExecResult>): (id: Result<Value>)
    ensures id.Ok? <==> r.Ok?
    ensures id.Ok? ==> id.value == r.value.insertId
    ensures id.Err? ==> id.error == r.error
  {
    if r.Ok? then Ok(r.value.insertId) else Err(r.error)
  }
}
