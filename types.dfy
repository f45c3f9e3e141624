/** The entities the client exchanges with the server: items, powers, rounds,
    builds and heroes, with the three-valued category, rarity and role. */
module Types {
  import opened Wrappers
  import opened Js

  datatype Category = Weapon | Ability | Survival
  datatype Rarity = Common | Rare | Epic
  datatype Role = Tank | DPS | Support

  /** An HTTP method the client issues. */
  datatype Method = GET | POST | PUT | DELETE

  /** A shop item. `cost` is absent when the server omitted it; `heroId` is
      absent (or 0) for an item every hero can buy. */
  datatype Item = Item(id: int, name: string, category: Category, description: string,
                       cost: Option<int>, rarity: Rarity, heroId: Option<int>,
                       heroName: Option<string>)

  /** A power; hero-specific when `heroId` holds a non-zero id. */
  datatype Power = Power(id: int, name: string, description: string,
                         heroId: Option<int>, heroName: Option<string>)

  datatype Round = Round(id: Option<int>, buildId: Option<int>, roundNumber: int,
                         explanation: string, items: seq<Item>, powers: seq<Power>)

  datatype Build = Build(id: Option<int>, userId: int, heroId: int, heroName: Option<string>,
                         heroRole: Option<string>, title: string, createdAt: Option<string>,
                         userName: Option<string>, isVerified: bool, rounds: seq<Round>)

  datatype Hero = Hero(id: int, name: string, role: Role)

  /** The sort key of a rarity: common 1, rare 2, epic 3. */
  function RarityRank(r: Rarity): int {
    match r
    case Common => 1
    case Rare => 2
    case Epic => 3
  }

  /** The sort key of a role: Tank 1, DPS 2, Support 3. */
  function RoleOrder(r: Role): int {
    match r
    case Tank => 1
    case DPS => 2
    case Support => 3
  }

  /** A truthy optional id: present and non-zero. */
  predicate HasId(h: Option<int>) {
    h.Some? && h.value != 0
  }

  /** `item.cost || 0` */
  function CostOf(i: Item): int {
    match i.cost
    case Some(c) => c
    case None => 0
  }

  /** The round slot a new build starts with. */
  function EmptyRound(n: int): Round {
    Round(None, None, n, "", [], [])
  }

  function ItemIds(s: seq<Item>): (ids: seq<int>)
    ensures |ids| == |s|
  {
    seq(|s|, i requires 0 <= i < |s| => s[i].id)
  }

  function PowerIds(s: seq<Power>): (ids: seq<int>)
    ensures |ids| == |s|
  {
    seq(|s|, i requires 0 <= i < |s| => s[i].id)
  }

  predicate DistinctItems(s: seq<Item>) {
    forall i, j :: 0 <= i < j < |s| ==> s[i].id != s[j].id
  }

  predicate DistinctPowers(s: seq<Power>) {
    forall i, j :: 0 <= i < j < |s| ==> s[i].id != s[j].id
  }
}
