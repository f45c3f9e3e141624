/** The admin page for items and powers: the list filters, the hero-name
    lookup, and the handlers that append, replace and delete list entries
    after a call to the item or power service. The services' write outcomes
    are inputs. */
module AdminItemPowers {
  import opened Wrappers
  import opened Js
  import opened Types
  import opened Seqs
  import opened Database
  import ItemService
  import PowerService

  /** The first hero with the given id, as `heroes.find` returns it. */
  function FindHero(heroes: seq<Hero>, id: int): (h: Option<Hero>)
    ensures h.None? <==> forall k :: 0 <= k < |heroes| ==> heroes[k].id != id
    ensures h.Some? ==> exists k :: 0 <= k < |heroes| && heroes[k] == h.value && h.value.id == id &&
                                    forall j :: 0 <= j < k ==> heroes[j].id != id
  {
    if heroes == [] then None
    else if heroes[0].id == id then Some(heroes[0])
    else
      var rest := FindHero(heroes[1..], id);
      if rest.Some? then
        var k :| 0 <= k < |heroes[1..]| && heroes[1..][k] == rest.value && rest.value.id == id &&
                 forall j :: 0 <= j < k ==> heroes[1..][j].id != id;
        assert heroes[k + 1] == rest.value && forall j :: 0 <= j < k + 1 ==> heroes[j].id != id;
        rest
      else rest
  }

  /** `getHeroNameById`: null for a missing or zero id, an unknown hero or a
      hero with an empty name; otherwise the name of the first hero with the id. */
  function HeroNameById(heroes: seq<Hero>, heroId: Option<int>): (name: Option<string>)
    ensures !HasId(heroId) ==> name.None?
    ensures HasId(heroId) && (forall k :: 0 <= k < |heroes| ==> heroes[k].id != heroId.value) ==> name.None?
    ensures name.Some? ==> name.value != "" &&
                           exists k :: 0 <= k < |heroes| && heroes[k].id == heroId.value && heroes[k].name == name.value
  {
    if !HasId(heroId) then None
    else
      match FindHero(heroes, heroId.value)
      case None => None
      case Some(h) => if h.name == "" then None else Some(h.name)
  }

  /** `hero?.name` after a `find`: the name, or undefined when none was found. */
  function NameOf(h: Option<Hero>): Option<string> {
    if h.Some? then Some(h.value.name) else None
  }

  /** `heroId?.toString() === filter` */
  predicate HeroMatches(heroId: Option<int>, filter: string) {
    filter == "all" || (heroId.Some? && IntToString(heroId.value) == filter)
  }

  /** The item filter: the hero filter and the category filter together. */
  predicate ItemShown(item: Item, heroFilter: string, categoryFilter: string) {
    HeroMatches(item.heroId, heroFilter) &&
    (categoryFilter == "all" || ItemService.CategoryName(item.category) == categoryFilter)
  }

  /** `filteredItems` */
  function FilteredItems(items: seq<Item>, heroFilter: string, categoryFilter: string): (shown: seq<Item>)
    ensures |shown| <= |items|
    ensures forall i :: 0 <= i < |shown| ==> ItemShown(shown[i], heroFilter, categoryFilter)
  {
    Keep(items, (i: Item) => ItemShown(i, heroFilter, categoryFilter))
  }

  /** `filteredPowers`: the hero filter only. */
  function FilteredPowers(powers: seq<Power>, heroFilter: string): (shown: seq<Power>)
    ensures |shown| <= |powers|
    ensures forall i :: 0 <= i < |shown| ==> HeroMatches(shown[i].heroId, heroFilter)
  {
    Keep(powers, (p: Power) => HeroMatches(p.heroId, heroFilter))
  }

  /** An item is listed exactly when it is on the page and passes both filters;
      with both filters on "all" the list is the whole page, in order. */
  lemma FilteredItemsMembers(items: seq<Item>, heroFilter: string, categoryFilter: string, x: Item)
    ensures x in FilteredItems(items, heroFilter, categoryFilter) <==> x in items && ItemShown(x, heroFilter, categoryFilter)
    ensures FilteredItems(items, "all", "all") == items
  {
    KeepMembers(items, (i: Item) => ItemShown(i, heroFilter, categoryFilter), x);
    KeepEverything(items, (i: Item) => ItemShown(i, "all", "all"));
  }

  /** No number prints as "all". */
  lemma NumberIsNotAll(n: int)
    ensures IntToString(n) != "all"
  {
    NumberOfString(n);
    assert !IsDigit('a');
    assert ParseNumber("all") == None;
  }

  /** Filtering on a hero's id keeps exactly that hero's entries: general
      entries and other heroes' entries are dropped. */
  lemma HeroFilterSelectsHero(items: seq<Item>, powers: seq<Power>, h: int, x: Item, y: Power)
    ensures x in FilteredItems(items, IntToString(h), "all") <==> x in items && x.heroId == Some(h)
    ensures y in FilteredPowers(powers, IntToString(h)) <==> y in powers && y.heroId == Some(h)
  {
    NumberIsNotAll(h);
    FilteredItemsMembers(items, IntToString(h), "all", x);
    KeepMembers(powers, (p: Power) => HeroMatches(p.heroId, IntToString(h)), y);
    if x.heroId.Some? {
      IntToStringInjective(x.heroId.value, h);
    }
    if y.heroId.Some? {
      IntToStringInjective(y.heroId.value, h);
    }
  }

  /** The new-item form. */
  datatype ItemForm = ItemForm(name: string, category: Category, description: string, cost: Option<int>,
                               rarity: Rarity, heroId: Option<int>)

  const BlankItemForm := ItemForm("", Weapon, "", Some(0), Common, None)

  /** The new-power form. */
  datatype PowerForm = PowerForm(name: string, description: string, heroId: Option<int>)

  const BlankPowerForm := PowerForm("", "", None)

  /** The item form passes validation: a name, a description and a cost,
      where a cost of 0 counts. */
  predicate ItemFormComplete(f: ItemForm) {
    f.name != "" && f.description != "" && f.cost.Some?
  }

  predicate PowerFormComplete(f: PowerForm) {
    f.name != "" && f.description != ""
  }

  /** The reset forms are refused, and a filled form with cost 0 is accepted. */
  lemma Validation(name: string, description: string)
    requires name != "" && description != ""
    ensures !ItemFormComplete(BlankItemForm) && !PowerFormComplete(BlankPowerForm)
    ensures ItemFormComplete(BlankItemForm.(name := name, description := description))
    ensures !ItemFormComplete(BlankItemForm.(name := name, description := description, cost := None))
  {
  }

  /** `newItem.heroId || null` */
  function Linked(heroId: Option<int>): Option<int> {
    if HasId(heroId) then heroId else None
  }

  /** The item the page appends after a successful add. */
  function NewItem(f: ItemForm, id: int, heroes: seq<Hero>): (i: Item)
    ensures i.id == id && i.name == f.name && i.category == f.category && i.cost == f.cost
    ensures i.heroId.Some? <==> HasId(f.heroId)
    ensures i.heroId.Some? ==> i.heroId == f.heroId
    ensures i.heroName.Some? ==> i.heroId.Some?
  {
    Item(id, f.name, f.category, f.description, f.cost, f.rarity, Linked(f.heroId),
         if HasId(f.heroId) then NameOf(FindHero(heroes, f.heroId.value)) else None)
  }

  function NewPower(f: PowerForm, id: int, heroes: seq<Hero>): Power {
    Power(id, f.name, f.description, Linked(f.heroId),
          if HasId(f.heroId) then NameOf(FindHero(heroes, f.heroId.value)) else None)
  }

  /** The id the page records for a new row. */
  function IdOf(v: Value): (id: int)
    ensures v == Num(id) || (!v.Num? && id == 0)
  {
    if v.Num? then v.n else 0
  }

  /** The items after replacing every entry with the edited id. */
  function ItemsReplaced(items: seq<Item>, edit: Item): (r: seq<Item>)
    ensures |r| == |items|
    ensures forall k :: 0 <= k < |items| ==> r[k] == if items[k].id == edit.id then edit else items[k]
  {
    MapWhere(items, (i: Item) => i.id == edit.id, (i: Item) => edit)
  }

  function PowersReplaced(powers: seq<Power>, edit: Power): (r: seq<Power>)
    ensures |r| == |powers|
    ensures forall k :: 0 <= k < |powers| ==> r[k] == if powers[k].id == edit.id then edit else powers[k]
  {
    MapWhere(powers, (p: Power) => p.id == edit.id, (p: Power) => edit)
  }

  /** The items after deleting every entry with the id. */
  function ItemsWithout(items: seq<Item>, id: int): (r: seq<Item>)
    ensures |r| <= |items|
    ensures forall k :: 0 <= k < |r| ==> r[k].id != id
  {
    Keep(items, (i: Item) => i.id != id)
  }

  function PowersWithout(powers: seq<Power>, id: int): (r: seq<Power>)
    ensures |r| <= |powers|
    ensures forall k :: 0 <= k < |r| ==> r[k].id != id
  {
    Keep(powers, (p: Power) => p.id != id)
  }

  /** A delete keeps every other entry, in order: it works piecewise, and a
      list without the id is left as it is. */
  lemma DeleteKeepsOthers(a: seq<Item>, b: seq<Item>, id: int, x: Item)
    ensures x in ItemsWithout(a, id) <==> x in a && x.id != id
    ensures ItemsWithout(a + b, id) == ItemsWithout(a, id) + ItemsWithout(b, id)
    ensures (forall k :: 0 <= k < |a| ==> a[k].id != id) ==> ItemsWithout(a, id) == a
  {
    KeepMembers(a, (i: Item) => i.id != id, x);
    KeepAppend(a, b, (i: Item) => i.id != id);
    if forall k :: 0 <= k < |a| ==> a[k].id != id {
      KeepEverything(a, (i: Item) => i.id != id);
    }
  }

  lemma DeletePowerKeepsOthers(a: seq<Power>, b: seq<Power>, id: int, x: Power)
    ensures x in PowersWithout(a, id) <==> x in a && x.id != id
    ensures PowersWithout(a + b, id) == PowersWithout(a, id) + PowersWithout(b, id)
    ensures (forall k :: 0 <= k < |a| ==> a[k].id != id) ==> PowersWithout(a, id) == a
  {
    KeepMembers(a, (p: Power) => p.id != id, x);
    KeepAppend(a, b, (p: Power) => p.id != id);
    if forall k :: 0 <= k < |a| ==> a[k].id != id {
      KeepEverything(a, (p: Power) => p.id != id);
    }
  }

  /** The powers after `handleUpdatePower` as written: `updatePower` reports a
      failure as false instead of throwing, so the edit is applied whatever
      the outcome. */
  function PowersAfterUpdate(powers: seq<Power>, edit: Power, outcome: Result<ExecResult>): (r: seq<Power>)
    ensures |r| == |powers|
    ensures forall k :: 0 <= k < |powers| ==> r[k] == if powers[k].id == edit.id then edit else powers[k]
  {
    // the boolean `PowerService.Changed(outcome)` reports is not consulted
    PowersReplaced(powers, edit)
  }

  /** The powers after `handleDeletePower` as written. */
  function PowersAfterDelete(powers: seq<Power>, id: int, outcome: Result<ExecResult>): (r: seq<Power>)
    ensures forall x :: x in r <==> x in powers && x.id != id
  {
    // the boolean `PowerService.Changed(outcome)` reports is not consulted
    var r := PowersWithout(powers, id);
    assert forall x :: x in r <==> x in powers && x.id != id by {
      forall x ensures x in r <==> x in powers && x.id != id {
        KeepMembers(powers, (p: Power) => p.id != id, x);
      }
    }
    r
  }

  /** As evidently intended: the edit is applied only when the service
      reports the write, as the item handlers do by way of the exception. */
  function PowersAfterCheckedUpdate(powers: seq<Power>, edit: Power, outcome: Result<ExecResult>): (r: seq<Power>)
    ensures !PowerService.Changed(outcome) ==> r == powers
    ensures PowerService.Changed(outcome) ==> r == PowersReplaced(powers, edit)
  {
    if PowerService.Changed(outcome) then PowersReplaced(powers, edit) else powers
  }

  function PowersAfterCheckedDelete(powers: seq<Power>, id: int, outcome: Result<ExecResult>): (r: seq<Power>)
    ensures !PowerService.Changed(outcome) ==> r == powers
    ensures PowerService.Changed(outcome) ==> r == PowersWithout(powers, id)
  {
    if PowerService.Changed(outcome) then PowersWithout(powers, id) else powers
  }

  /** The power the counterexample edits, and its edited form. */
  const ShieldPower: Power := Power(12, "Barrier", "", Some(5), Some("Brigitte"))
  const RenamedShieldPower: Power := ShieldPower.(name := "Shield")

  /** A failed update or delete of a power still changes the page's list,
      while the checked handlers leave it as it was. */
  lemma FailedPowerWriteStillApplied()
    ensures !PowerService.Changed(Err("HTTP Error: 500"))
    ensures PowersAfterUpdate([ShieldPower], RenamedShieldPower, Err("HTTP Error: 500")) == [RenamedShieldPower]
    ensures PowersAfterDelete([ShieldPower], 12, Err("HTTP Error: 500")) == []
    ensures PowersAfterCheckedUpdate([ShieldPower], RenamedShieldPower, Err("HTTP Error: 500")) == [ShieldPower]
    ensures PowersAfterCheckedDelete([ShieldPower], 12, Err("HTTP Error: 500")) == [ShieldPower]
  {
    var after := PowersAfterUpdate([ShieldPower], RenamedShieldPower, Err("HTTP Error: 500"));
    assert after[0] == RenamedShieldPower;
    assert PowersWithout([ShieldPower], 12) == PowersWithout([ShieldPower][1..], 12);
  }

  /** The checked power handlers behave as the item handlers do: a failure
      leaves the list alone and a completed write is applied. */
  lemma CheckedPowerWrites(powers: seq<Power>, edit: Power, id: int, e: string, insertId: Value)
    ensures PowersAfterCheckedUpdate(powers, edit, Err(e)) == powers
    ensures PowersAfterCheckedDelete(powers, id, Err(e)) == powers
    ensures PowersAfterCheckedUpdate(powers, edit, Ok(ExecResultOf(insertId))) == PowersReplaced(powers, edit)
    ensures PowersAfterCheckedDelete(powers, id, Ok(ExecResultOf(insertId))) == PowersWithout(powers, id)
  {
    PowerService.ChangedReportsOutcome(insertId, e);
  }

  class Page {
    var items: seq<Item>
    var powers: seq<Power>
    var heroes: seq<Hero>
    var editItem: Option<Item>
    var editPower: Option<Power>
    var newItem: ItemForm
    var newPower: PowerForm
    var loading: bool

    /** The page as first rendered: empty lists, blank forms, loading. */
    constructor()
      ensures items == [] && powers == [] && heroes == [] && editItem.None? && editPower.None?
      ensures newItem == BlankItemForm && newPower == BlankPowerForm && loading
    {
      items, powers, heroes := [], [], [];
      editItem, editPower := None, None;
      newItem, newPower := BlankItemForm, BlankPowerForm;
      loading := true;
    }

    /** The load effect: a non-admin is redirected and nothing is fetched;
        otherwise the heroes are fetched first, and only when they arrive
        are the item and power lists (empty on a failed read) taken and
        loading ended. A failed hero fetch changes nothing. */
    method Load(isAdmin: bool, heroesReply: Reply<seq<Hero>>, itemsRead: Result<seq<Item>>,
                powersRead: Result<seq<Power>>) returns (redirected: bool)
      modifies this
      ensures redirected <==> !isAdmin
      ensures isAdmin && IsOk(heroesReply) ==>
                heroes == heroesReply.body && items == ItemService.GetAllItems(itemsRead) &&
                powers == PowerService.GetAllPowers(powersRead) && !loading
      ensures !(isAdmin && IsOk(heroesReply)) ==>
                heroes == old(heroes) && items == old(items) && powers == old(powers) && loading == old(loading)
      ensures editItem == old(editItem) && editPower == old(editPower)
      ensures newItem == old(newItem) && newPower == old(newPower)
    {
      if !isAdmin {
        return true;
      }
      redirected := false;
      if IsOk(heroesReply) {
        heroes := heroesReply.body;
        items := ItemService.GetAllItems(itemsRead);
        powers := PowerService.GetAllPowers(powersRead);
        loading := false;
      }
    }

    /** `handleAddItem`: an incomplete form is refused before any call; on a
        successful add exactly one entry carrying the new id is appended and
        the form is reset; on a failure nothing changes. */
    method HandleAddItem(outcome: Result<ExecResult>) returns (sent: Option<seq<Value>>)
      modifies this
      ensures sent.None? <==> !ItemFormComplete(old(newItem))
      ensures sent.Some? ==> sent.value == ItemService.AddItemParams(NewItem(old(newItem), 0, heroes))
      ensures sent.Some? && outcome.Ok? ==>
                items == old(items) + [NewItem(old(newItem), IdOf(outcome.value.insertId), heroes)] &&
                newItem == BlankItemForm
      ensures !(sent.Some? && outcome.Ok?) ==> items == old(items) && newItem == old(newItem)
      ensures powers == old(powers) && heroes == old(heroes) && newPower == old(newPower)
      ensures editItem == old(editItem) && editPower == old(editPower) && loading == old(loading)
    {
      if !ItemFormComplete(newItem) {
        return None;
      }
      sent := Some(ItemService.AddItemParams(NewItem(newItem, 0, heroes)));
      var id := ItemService.AddItem(outcome);
      if id.Ok? {
        items := items + [NewItem(newItem, IdOf(id.value), heroes)];
        newItem := BlankItemForm;
      }
    }

    /** `handleAddPower`: as for items, the form needing a name and a description. */
    method HandleAddPower(outcome: Result<ExecResult>) returns (sent: Option<seq<Value>>)
      modifies this
      ensures sent.None? <==> !PowerFormComplete(old(newPower))
      ensures sent.Some? ==> sent.value == PowerService.AddPowerParams(NewPower(old(newPower), 0, heroes))
      ensures sent.Some? && outcome.Ok? ==>
                powers == old(powers) + [NewPower(old(newPower), IdOf(outcome.value.insertId), heroes)] &&
                newPower == BlankPowerForm
      ensures !(sent.Some? && outcome.Ok?) ==> powers == old(powers) && newPower == old(newPower)
      ensures items == old(items) && heroes == old(heroes) && newItem == old(newItem)
      ensures editItem == old(editItem) && editPower == old(editPower) && loading == old(loading)
    {
      if !PowerFormComplete(newPower) {
        return None;
      }
      sent := Some(PowerService.AddPowerParams(NewPower(newPower, 0, heroes)));
      var id := PowerService.AddPower(outcome);
      if id.Ok? {
        powers := powers + [NewPower(newPower, IdOf(id.value), heroes)];
        newPower := BlankPowerForm;
      }
    }

    /** `handleUpdateItem`: nothing without an edited item; a thrown failure
        leaves the list and the selection alone; otherwise every entry with
        the edited id is replaced and the selection cleared. */
    method HandleUpdateItem(outcome: Result<ExecResult>) returns (sent: Option<seq<Value>>)
      modifies this
      ensures sent.None? <==> old(editItem).None?
      ensures sent.Some? ==> sent.value == ItemService.UpdateItemParams(old(editItem).value)
      ensures sent.Some? && RowsChanged(outcome).Ok? ==>
                items == ItemsReplaced(old(items), old(editItem).value) && editItem.None?
      ensures !(sent.Some? && RowsChanged(outcome).Ok?) ==> items == old(items) && editItem == old(editItem)
      ensures powers == old(powers) && heroes == old(heroes) && newItem == old(newItem)
      ensures newPower == old(newPower) && editPower == old(editPower) && loading == old(loading)
    {
      if editItem.None? {
        return None;
      }
      var edit := editItem.value;
      sent := Some(ItemService.UpdateItemParams(edit));
      var changed := RowsChanged(outcome);
      if changed.Ok? {
        items := ItemsReplaced(items, edit);
        editItem := None;
      }
    }

    /** `handleDeleteItem`: a thrown failure leaves the list alone; otherwise
        every entry with the id is removed. */
    method HandleDeleteItem(id: int, outcome: Result<ExecResult>)
      modifies this
      ensures items == if RowsChanged(outcome).Ok? then ItemsWithout(old(items), id) else old(items)
      ensures powers == old(powers) && heroes == old(heroes) && newItem == old(newItem)
      ensures newPower == old(newPower) && editItem == old(editItem) && editPower == old(editPower)
      ensures loading == old(loading)
    {
      var changed := RowsChanged(outcome);
      if changed.Ok? {
        items := ItemsWithout(items, id);
      }
    }

    /** `handleUpdatePower` as written: the edit is applied and the selection
        cleared whatever the service reports. */
    method HandleUpdatePower(outcome: Result<ExecResult>) returns (sent: Option<seq<Value>>)
      modifies this
      ensures sent.None? <==> old(editPower).None?
      ensures sent.Some? ==> sent.value == PowerService.UpdatePowerParams(old(editPower).value)
      ensures sent.Some? ==> powers == PowersAfterUpdate(old(powers), old(editPower).value, outcome) && editPower.None?
      ensures sent.None? ==> powers == old(powers) && editPower == old(editPower)
      ensures items == old(items) && heroes == old(heroes) && newItem == old(newItem)
      ensures newPower == old(newPower) && editItem == old(editItem) && loading == old(loading)
    {
      if editPower.None? {
        return None;
      }
      var edit := editPower.value;
      sent := Some(PowerService.UpdatePowerParams(edit));
      // the boolean `PowerService.Changed(outcome)` reports is not consulted
      powers := PowersReplaced(powers, edit);
      editPower := None;
    }

    /** `handleUpdatePower` as evidently intended: applied, and the selection
        cleared, only when the service reports the write. */
    method HandleUpdatePowerChecked(outcome: Result<ExecResult>) returns (sent: Option<seq<Value>>)
      modifies this
      ensures sent.None? <==> old(editPower).None?
      ensures sent.Some? ==> sent.value == PowerService.UpdatePowerParams(old(editPower).value)
      ensures sent.Some? ==> powers == PowersAfterCheckedUpdate(old(powers), old(editPower).value, outcome)
      ensures editPower == if sent.Some? && PowerService.Changed(outcome) then None else old(editPower)
      ensures sent.None? ==> powers == old(powers)
      ensures items == old(items) && heroes == old(heroes) && newItem == old(newItem)
      ensures newPower == old(newPower) && editItem == old(editItem) && loading == old(loading)
    {
      if editPower.None? {
        return None;
      }
      var edit := editPower.value;
      sent := Some(PowerService.UpdatePowerParams(edit));
      if PowerService.Changed(outcome) {
        powers := PowersReplaced(powers, edit);
        editPower := None;
      }
    }

    /** `handleDeletePower` as written: the entries are removed whatever the
        service reports. */
    method HandleDeletePower(id: int, outcome: Result<ExecResult>)
      modifies this
      ensures powers == PowersAfterDelete(old(powers), id, outcome)
      ensures items == old(items) && heroes == old(heroes) && newItem == old(newItem)
      ensures newPower == old(newPower) && editItem == old(editItem) && editPower == old(editPower)
      ensures loading == old(loading)
    {
      // the boolean `PowerService.Changed(outcome)` reports is not consulted
      powers := PowersWithout(powers, id);
    }

    /** `handleDeletePower` as evidently intended. */
    method HandleDeletePowerChecked(id: int, outcome: Result<ExecResult>)
      modifies this
      ensures powers == PowersAfterCheckedDelete(old(powers), id, outcome)
      ensures items == old(items) && heroes == old(heroes) && newItem == old(newItem)
      ensures newPower == old(newPower) && editItem == old(editItem) && editPower == old(editPower)
      ensures loading == old(loading)
    {
      if PowerService.Changed(outcome) {
        powers := PowersWithout(powers, id);
      }
    }
  }
}
