/** The hero grid: the fetched heroes, filtered by the selected role and
    ordered Tank, DPS, Support. With every role selected the fetched list
    itself is sorted, and the cached answer keeps that order. */
module HeroGrid {
  import opened Wrappers
  import opened Types
  import opened Seqs

  /** The role buttons: every role, or one. */
  datatype RoleFilter = AllRoles | Only(role: Role)

  function Rank(h: Hero): int {
    RoleOrder(h.role)
  }

  predicate HasRole(h: Hero, role: Role) {
    h.role == role
  }

  /** `filteredHeroes`: nothing while loading or without data; otherwise
      the heroes of the selected role, by role order. */
  function FilteredHeroes(isLoading: bool, heroes: Option<seq<Hero>>, selected: RoleFilter): (shown: seq<Hero>)
    ensures isLoading || heroes.None? ==> shown == []
  {
    if isLoading || heroes.None? then []
    else if selected.AllRoles? then SortByRank(heroes.value, Rank)
    else SortByRank(Keep(heroes.value, (h: Hero) => HasRole(h, selected.role)), Rank)
  }

  /** With every role selected the grid shows each fetched hero once, only
      reordered, Tanks first and Supports last. */
  lemma AllRolesReorders(heroes: seq<Hero>)
    ensures multiset(FilteredHeroes(false, Some(heroes), AllRoles)) == multiset(heroes)
    ensures SortedByRank(FilteredHeroes(false, Some(heroes), AllRoles), Rank)
  {
    assert FilteredHeroes(false, Some(heroes), AllRoles) == SortByRank(heroes, Rank);
    forall i | 0 <= i < |heroes|
      ensures 1 <= Rank(heroes[i]) <= 3
    {
    }
    SortByRankCorrect(heroes, Rank);
  }

  /** With one role selected the grid shows exactly that role's heroes, in
      the fetched order: the sort has nothing to reorder. */
  lemma OneRoleSelects(heroes: seq<Hero>, role: Role, x: Hero)
    ensures FilteredHeroes(false, Some(heroes), Only(role)) == Keep(heroes, (h: Hero) => HasRole(h, role))
    ensures x in FilteredHeroes(false, Some(heroes), Only(role)) <==> x in heroes && x.role == role
  {
    var kept := Keep(heroes, (h: Hero) => HasRole(h, role));
    SortOneRank(kept, Rank, RoleOrder(role));
    KeepMembers(heroes, (h: Hero) => HasRole(h, role), x);
  }

  class Grid {
    var selectedRole: RoleFilter
    var heroes: Option<seq<Hero>>
    var isLoading: bool

    /** The grid as first rendered: every role selected, no data yet. */
    constructor()
      ensures selectedRole == AllRoles && heroes.None? && isLoading
    {
      selectedRole, heroes, isLoading := AllRoles, None, true;
    }

    /** The fetch has answered with the heroes. */
    method Loaded(data: seq<Hero>)
      modifies this
      ensures heroes == Some(data) && !isLoading && selectedRole == old(selectedRole)
    {
      heroes, isLoading := Some(data), false;
    }

    method SelectRole(role: RoleFilter)
      modifies this
      ensures selectedRole == role && heroes == old(heroes) && isLoading == old(isLoading)
    {
      selectedRole := role;
    }

    /** One render: the list shown; with every role selected the cached
        heroes are left sorted, otherwise they are untouched. */
    method Render() returns (shown: seq<Hero>)
      modifies this
      ensures shown == FilteredHeroes(old(isLoading), old(heroes), old(selectedRole))
      ensures heroes == if !old(isLoading) && old(heroes).Some? && old(selectedRole).AllRoles?
                        then Some(shown) else old(heroes)
      ensures selectedRole == old(selectedRole) && isLoading == old(isLoading)
    {
      if isLoading || heroes.None? {
        return [];
      }
      if selectedRole.AllRoles? {
        heroes := Some(SortByRank(heroes.value, Rank));
        shown := heroes.value;
      } else {
        var role := selectedRole.role;
        shown := SortByRank(Keep(heroes.value, (h: Hero) => HasRole(h, role)), Rank);
      }
    }
  }
}
