/** The editor of one round: the item and power pickers and their limits.
    Every handler computes a new round from the current one and hands it to
    the build editor, or refuses and hands nothing. */
module RoundEditor {
  import opened Wrappers
  import opened Types
  import Seqs

  /** No round holds more than six items. */
  const MaxTotalItems := 6

  /** How many powers a round may hold: one in rounds 1-2, two in 3-4,
      three in 5-6 and four from round 7 on. */
  function MaxPowersForRound(n: int): (cap: int)
    ensures 1 <= cap <= 4
    ensures cap == 4 <==> n > 6
    ensures cap == 1 <==> n <= 2
  {
    if n <= 2 then 1
    else if n <= 4 then 2
    else if n <= 6 then 3
    else 4
  }

  /** A later round never allows fewer powers than an earlier one. */
  lemma MaxPowersMonotone(a: int, b: int)
    requires a <= b
    ensures MaxPowersForRound(a) <= MaxPowersForRound(b)
  {
  }

  /** The cap grows by exactly one every two rounds over rounds 1 to 7. */
  lemma MaxPowersSteps(n: int)
    requires 1 <= n <= 7
    ensures MaxPowersForRound(n) == (n + 1) / 2
  {
  }

  datatype Refusal = AlreadySelected | LimitReached | NoSelection | PowerNotFound

  /** What a handler hands to the build editor: a new round, or nothing. */
  datatype Edit = Updated(round: Round) | Refused(why: Refusal)

  /** The round respects both limits. */
  predicate WithinCaps(r: Round) {
    |r.items| <= MaxTotalItems && |r.powers| <= MaxPowersForRound(r.roundNumber)
  }

  /** Picking an item: refused when its id is already in the round, then when
      the round is full; otherwise the item goes at the end. Neither the
      item's hero nor its category is checked. */
  function AddItem(round: Round, item: Item): (e: Edit)
    ensures e.Updated? <==> item.id !in ItemIds(round.items) && |round.items| < MaxTotalItems
    ensures item.id in ItemIds(round.items) ==> e == Refused(AlreadySelected)
    ensures e.Updated? ==>
              e.round.items == round.items + [item] && e.round.(items := round.items) == round
  {
    if item.id in ItemIds(round.items) then Refused(AlreadySelected)
    else if |round.items| >= MaxTotalItems then Refused(LimitReached)
    else Updated(round.(items := round.items + [item]))
  }

  /** A refused pick leaves the round as it was, so the cap and the distinct
      ids are kept; an accepted pick keeps them too. */
  lemma {:induction false} AddItemKeepsInvariants(round: Round, item: Item)
    requires WithinCaps(round) && DistinctItems(round.items)
    ensures AddItem(round, item).Updated? ==>
              WithinCaps(AddItem(round, item).round) && DistinctItems(AddItem(round, item).round.items)
  {
    var e := AddItem(round, item);
    if e.Updated? {
      var s := e.round.items;
      forall i, j | 0 <= i < j < |s| ensures s[i].id != s[j].id {
        if j == |round.items| {
          assert ItemIds(round.items)[i] == round.items[i].id;
        }
      }
    }
  }

  /** `allPowers.find(p => p.id === id)`: the first power with that id. */
  function FindPower(ps: seq<Power>, id: int): (r: Option<Power>)
    ensures r.Some? ==> r.value in ps && r.value.id == id
    ensures r.None? <==> id !in PowerIds(ps)
    ensures r.Some? ==> exists k :: 0 <= k < |ps| && ps[k] == r.value
                                   && forall j :: 0 <= j < k ==> ps[j].id != id
  {
    if ps == [] then None
    else if ps[0].id == id then
      assert PowerIds(ps)[0] == id;
      Some(ps[0])
    else
      var r := FindPower(ps[1..], id);
      assert PowerIds(ps) == [ps[0].id] + PowerIds(ps[1..]);
      if r.Some? then
        var k :| 0 <= k < |ps[1..]| && ps[1..][k] == r.value
                 && forall j :: 0 <= j < k ==> ps[1..][j].id != id;
        assert ps[k + 1] == r.value;
        r
      else r
  }

  /** The outcome of the power picker together with the picker's new selection. */
  datatype PowerPick = PowerPick(edit: Edit, selection: Option<int>)

  /** Adding the selected power: nothing happens without a selection, for a
      power already in the round, for a full round, or for an id missing from
      the catalogue. Otherwise the catalogue's power goes at the end and the
      selection is cleared. */
  function AddPower(round: Round, selection: Option<int>, allPowers: seq<Power>): (p: PowerPick)
    ensures selection.None? ==> p == PowerPick(Refused(NoSelection), None)
    ensures p.edit.Updated? <==>
              selection.Some? && selection.value !in PowerIds(round.powers)
              && |round.powers| < MaxPowersForRound(round.roundNumber)
              && selection.value in PowerIds(allPowers)
    ensures p.edit.Refused? ==> p.selection == selection
    ensures p.edit.Updated? ==>
              p.selection.None?
              && p.edit.round.(powers := round.powers) == round
              && |p.edit.round.powers| == |round.powers| + 1
              && p.edit.round.powers[..|round.powers|] == round.powers
              && Some(p.edit.round.powers[|round.powers|]) == FindPower(allPowers, selection.value)
  {
    match selection
    case None => PowerPick(Refused(NoSelection), selection)
    case Some(id) =>
      if id in PowerIds(round.powers) then PowerPick(Refused(AlreadySelected), selection)
      else if |round.powers| >= MaxPowersForRound(round.roundNumber) then PowerPick(Refused(LimitReached), selection)
      else
        match FindPower(allPowers, id)
        case None => PowerPick(Refused(PowerNotFound), selection)
        case Some(power) =>
          var powers := round.powers + [power];
          assert powers[..|round.powers|] == round.powers;
          PowerPick(Updated(round.(powers := powers)), None)
  }

  /** An accepted power keeps the power cap and the distinct power ids. */
  lemma {:induction false} AddPowerKeepsInvariants(round: Round, selection: Option<int>, allPowers: seq<Power>)
    requires WithinCaps(round) && DistinctPowers(round.powers)
    ensures AddPower(round, selection, allPowers).edit.Updated? ==>
              WithinCaps(AddPower(round, selection, allPowers).edit.round)
              && DistinctPowers(AddPower(round, selection, allPowers).edit.round.powers)
  {
    var p := AddPower(round, selection, allPowers);
    if p.edit.Updated? {
      var s := p.edit.round.powers;
      var n := |round.powers|;
      assert s[n].id == selection.value;
      forall i, j | 0 <= i < j < |s| ensures s[i].id != s[j].id {
        if j == n {
          assert s[i] == round.powers[i];
          assert PowerIds(round.powers)[i] == round.powers[i].id;
        } else {
          assert s[i] == round.powers[i] && s[j] == round.powers[j];
        }
      }
    }
  }

  /** Removing an item drops every entry with that id and nothing else: the
      others stay, each as often as before and in their order. */
  function RemoveItem(round: Round, id: int): (r: Round)
    ensures r.(items := round.items) == round
    ensures id !in ItemIds(r.items)
    ensures multiset(r.items) <= multiset(round.items)
    ensures forall x :: multiset(r.items)[x] == if x.id == id then 0 else multiset(round.items)[x]
    ensures Seqs.Subsequence(r.items, round.items)
  {
    var items := Seqs.Keep(round.items, (i: Item) => i.id != id);
    Seqs.KeepIsSubsequence(round.items, (i: Item) => i.id != id);
    assert forall x :: multiset(items)[x] == if x.id == id then 0 else multiset(round.items)[x] by {
      forall x ensures multiset(items)[x] == if x.id == id then 0 else multiset(round.items)[x] {
        Seqs.KeepCount(round.items, (i: Item) => i.id != id, x);
      }
    }
    assert forall k :: 0 <= k < |items| ==> ItemIds(items)[k] != id by {
      forall k | 0 <= k < |items| ensures ItemIds(items)[k] != id {
        assert Seqs.All(items, (i: Item) => i.id != id);
      }
    }
    round.(items := items)
  }

  /** An item survives removal exactly when its id differs from the removed one. */
  lemma RemoveItemMembers(round: Round, id: int, x: Item)
    ensures x in RemoveItem(round, id).items <==> x in round.items && x.id != id
  {
    Seqs.KeepMembers(round.items, (i: Item) => i.id != id, x);
  }

  /** Removing an id the round does not hold changes nothing. */
  lemma RemoveAbsentItem(round: Round, id: int)
    requires id !in ItemIds(round.items)
    ensures RemoveItem(round, id) == round
  {
    forall k | 0 <= k < |round.items| ensures round.items[k].id != id {
      assert ItemIds(round.items)[k] == round.items[k].id;
    }
    Seqs.KeepEverything(round.items, (i: Item) => i.id != id);
  }

  /** Removal keeps the limits, since it never lengthens the list. */
  lemma RemoveItemKeepsCaps(round: Round, id: int)
    requires WithinCaps(round)
    ensures WithinCaps(RemoveItem(round, id))
  {
    var r := RemoveItem(round, id);
    assert |multiset(r.items)| <= |multiset(round.items)|;
  }

  function RemovePower(round: Round, id: int): (r: Round)
    ensures r.(powers := round.powers) == round
    ensures id !in PowerIds(r.powers)
    ensures multiset(r.powers) <= multiset(round.powers)
    ensures forall x :: multiset(r.powers)[x] == if x.id == id then 0 else multiset(round.powers)[x]
    ensures Seqs.Subsequence(r.powers, round.powers)
  {
    var powers := Seqs.Keep(round.powers, (p: Power) => p.id != id);
    Seqs.KeepIsSubsequence(round.powers, (p: Power) => p.id != id);
    assert forall x :: multiset(powers)[x] == if x.id == id then 0 else multiset(round.powers)[x] by {
      forall x ensures multiset(powers)[x] == if x.id == id then 0 else multiset(round.powers)[x] {
        Seqs.KeepCount(round.powers, (p: Power) => p.id != id, x);
      }
    }
    assert forall k :: 0 <= k < |powers| ==> PowerIds(powers)[k] != id by {
      forall k | 0 <= k < |powers| ensures PowerIds(powers)[k] != id {
        assert Seqs.All(powers, (p: Power) => p.id != id);
      }
    }
    round.(powers := powers)
  }

  lemma RemovePowerMembers(round: Round, id: int, x: Power)
    ensures x in RemovePower(round, id).powers <==> x in round.powers && x.id != id
  {
    Seqs.KeepMembers(round.powers, (p: Power) => p.id != id, x);
  }

  lemma RemovePowerKeepsCaps(round: Round, id: int)
    requires WithinCaps(round)
    ensures WithinCaps(RemovePower(round, id))
  {
    var r := RemovePower(round, id);
    assert |multiset(r.powers)| <= |multiset(round.powers)|;
  }

  /** Removal keeps the ids of a round distinct. */
  lemma RemoveKeepsDistinct(round: Round, id: int)
    requires DistinctItems(round.items) && DistinctPowers(round.powers)
    ensures DistinctItems(RemoveItem(round, id).items) && DistinctPowers(RemoveItem(round, id).powers)
    ensures DistinctItems(RemovePower(round, id).items) && DistinctPowers(RemovePower(round, id).powers)
  {
    Seqs.KeepDistinct(round.items, (i: Item) => i.id != id, (i: Item) => i.id);
    Seqs.KeepDistinct(round.powers, (p: Power) => p.id != id, (p: Power) => p.id);
  }

  /** Leaving the explanation box stores its text and nothing else. */
  function SetExplanation(round: Round, text: string): (r: Round)
    ensures r.explanation == text && r.(explanation := round.explanation) == round
  {
    round.(explanation := text)
  }

  /** A power or item is offered for a hero when it is general (no hero or
      hero 0) or belongs to that hero. */
  predicate OfferedFor(heroId: Option<int>, selectedHeroId: Option<int>)
    ensures OfferedFor(heroId, selectedHeroId) && HasId(heroId) ==> heroId == selectedHeroId
    ensures heroId == None || heroId == Some(0) ==> OfferedFor(heroId, selectedHeroId)
  {
    !HasId(heroId) || heroId == selectedHeroId
  }

  function FilteredPowers(allPowers: seq<Power>, selectedHeroId: Option<int>): (r: seq<Power>)
    ensures forall k :: 0 <= k < |r| ==> OfferedFor(r[k].heroId, selectedHeroId)
    ensures multiset(r) <= multiset(allPowers)
  {
    var r := Seqs.Keep(allPowers, (p: Power) => OfferedFor(p.heroId, selectedHeroId));
    assert Seqs.All(r, (p: Power) => OfferedFor(p.heroId, selectedHeroId));
    r
  }

  /** Every offered catalogue power is in the list. */
  lemma FilteredPowersMembers(allPowers: seq<Power>, selectedHeroId: Option<int>, x: Power)
    ensures x in FilteredPowers(allPowers, selectedHeroId) <==>
            x in allPowers && OfferedFor(x.heroId, selectedHeroId)
  {
    Seqs.KeepMembers(allPowers, (p: Power) => OfferedFor(p.heroId, selectedHeroId), x);
  }

  predicate ItemOffered(i: Item, category: Category, selectedHeroId: Option<int>) {
    i.category == category && OfferedFor(i.heroId, selectedHeroId)
  }

  /** The items of one category offered for the hero, common before rare
      before epic, each group in catalogue order. */
  function ItemsByCategory(allItems: seq<Item>, category: Category, selectedHeroId: Option<int>): (r: seq<Item>)
    ensures multiset(r) <= multiset(allItems)
    ensures forall k :: 0 <= k < |r| ==> ItemOffered(r[k], category, selectedHeroId)
  {
    var kept := Seqs.Keep(allItems, (i: Item) => ItemOffered(i, category, selectedHeroId));
    var r := Seqs.SortByRank(kept, (i: Item) => RarityRank(i.rarity));
    Seqs.SortByRankCorrect(kept, (i: Item) => RarityRank(i.rarity));
    assert forall k :: 0 <= k < |r| ==> r[k] in multiset(kept);
    r
  }

  /** The picker list is ordered by rarity and holds exactly the offered
      catalogue items, each as often as in the catalogue. */
  lemma ItemsByCategoryCorrect(allItems: seq<Item>, category: Category, selectedHeroId: Option<int>)
    ensures Seqs.SortedByRank(ItemsByCategory(allItems, category, selectedHeroId), (i: Item) => RarityRank(i.rarity))
    ensures multiset(ItemsByCategory(allItems, category, selectedHeroId))
            == multiset(Seqs.Keep(allItems, (i: Item) => ItemOffered(i, category, selectedHeroId)))
    ensures forall x :: x in ItemsByCategory(allItems, category, selectedHeroId) <==>
                        x in allItems && ItemOffered(x, category, selectedHeroId)
  {
    var kept := Seqs.Keep(allItems, (i: Item) => ItemOffered(i, category, selectedHeroId));
    Seqs.SortByRankCorrect(kept, (i: Item) => RarityRank(i.rarity));
    forall x ensures x in ItemsByCategory(allItems, category, selectedHeroId) <==>
                     x in allItems && ItemOffered(x, category, selectedHeroId) {
      Seqs.KeepMembers(allItems, (i: Item) => ItemOffered(i, category, selectedHeroId), x);
      assert x in kept <==> x in multiset(kept);
    }
  }
}
