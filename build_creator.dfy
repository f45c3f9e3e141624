/** The build editor: seven round slots edited through the round editor, the
    cost of the round on screen, and submission with its gap filling. */
module BuildCreator {
  import opened Wrappers
  import opened Js
  import opened Types
  import RoundEditor
  import Seqs

  /** The slots a new build starts with. */
  function NewRounds(): (r: seq<Round>)
    ensures Slotted(r)
    ensures forall k :: 0 <= k < |r| ==> r[k].explanation == "" && r[k].items == [] && r[k].powers == []
  {
    seq(7, k requires 0 <= k < 7 => EmptyRound(k + 1))
  }

  /** Seven slots, slot `k` holding round `k + 1`. */
  predicate Slotted(rounds: seq<Round>) {
    |rounds| == 7 && forall k :: 0 <= k < 7 ==> rounds[k].roundNumber == k + 1
  }

  /** Every round is within its limits and holds no id twice. */
  predicate AllRoundsSound(rounds: seq<Round>) {
    forall k :: 0 <= k < |rounds| ==>
      RoundEditor.WithinCaps(rounds[k]) && DistinctItems(rounds[k].items) && DistinctPowers(rounds[k].powers)
  }

  /** Storing an edited round: every round with the edited round's number is
      replaced by it; the others and the length stay. */
  function UpdateRound(rounds: seq<Round>, updated: Round): (r: seq<Round>)
    ensures |r| == |rounds|
    ensures forall k :: 0 <= k < |r| ==>
              r[k] == if rounds[k].roundNumber == updated.roundNumber then updated else rounds[k]
  {
    Seqs.MapWhere(rounds, (x: Round) => x.roundNumber == updated.roundNumber, (x: Round) => updated)
  }

  /** On seven well-numbered slots, storing round `n` overwrites exactly slot
      `n - 1`, and a round numbered outside 1..7 is dropped. */
  lemma UpdateRoundSlotted(rounds: seq<Round>, updated: Round)
    requires Slotted(rounds)
    ensures 1 <= updated.roundNumber <= 7 ==>
              UpdateRound(rounds, updated) == rounds[updated.roundNumber - 1 := updated]
    ensures !(1 <= updated.roundNumber <= 7) ==> UpdateRound(rounds, updated) == rounds
    ensures Slotted(UpdateRound(rounds, updated))
  {
  }

  /** Storing a sound round keeps every round sound. */
  lemma UpdateRoundSound(rounds: seq<Round>, updated: Round)
    requires AllRoundsSound(rounds)
    requires RoundEditor.WithinCaps(updated) && DistinctItems(updated.items) && DistinctPowers(updated.powers)
    ensures AllRoundsSound(UpdateRound(rounds, updated))
  {
  }

  /** `rounds.findIndex(r => r.roundNumber === n)` */
  function IndexOfRound(rounds: seq<Round>, n: int): (r: Option<nat>)
    ensures r.Some? ==> r.value < |rounds| && rounds[r.value].roundNumber == n
                        && forall j :: 0 <= j < r.value ==> rounds[j].roundNumber != n
    ensures r.None? ==> forall j :: 0 <= j < |rounds| ==> rounds[j].roundNumber != n
  {
    if rounds == [] then None
    else if rounds[0].roundNumber == n then Some(0)
    else
      match IndexOfRound(rounds[1..], n)
      case None => None
      case Some(k) => Some(k + 1)
  }

  /** Only the round numbers decide where a round is found. */
  lemma IndexOfSameNumbers(a: seq<Round>, b: seq<Round>, n: int)
    requires |a| == |b| && forall k :: 0 <= k < |a| ==> a[k].roundNumber == b[k].roundNumber
    ensures IndexOfRound(a, n) == IndexOfRound(b, n)
  {
    var x, y := IndexOfRound(a, n), IndexOfRound(b, n);
    if x.Some? {
      assert b[x.value].roundNumber == n;
    }
    if y.Some? {
      assert a[y.value].roundNumber == n;
    }
  }

  lemma IndexOfSlotted(rounds: seq<Round>, n: int)
    requires Slotted(rounds)
    ensures IndexOfRound(rounds, n) == if 1 <= n <= 7 then Some(n - 1) else None
  {
    if 1 <= n <= 7 {
      assert rounds[n - 1].roundNumber == n;
    }
  }

  /** The sum of the item costs, a missing cost counting 0, added up from the
      first item on. */
  function ItemsCost(items: seq<Item>): (c: int)
    ensures |items| == 1 ==> c == CostOf(items[0])
    ensures (forall k :: 0 <= k < |items| ==> CostOf(items[k]) >= 0) ==> c >= 0
  {
    if items == [] then 0 else ItemsCost(items[..|items| - 1]) + CostOf(items[|items| - 1])
  }

  /** The cost of a list split in two is the sum of the costs of its parts;
      in particular an added item adds its own cost. */
  lemma {:induction false} ItemsCostAppend(a: seq<Item>, b: seq<Item>)
    ensures ItemsCost(a + b) == ItemsCost(a) + ItemsCost(b)
  {
    if b != [] {
      var c := a + b;
      assert c[..|c| - 1] == a + b[..|b| - 1];
      assert c[|c| - 1] == b[|b| - 1];
      ItemsCostAppend(a, b[..|b| - 1]);
    } else {
      assert a + b == a;
    }
  }

  /** With no cost above `c`, a round of at most six items costs at most `6 * c`. */
  lemma {:induction false} ItemsCostBound(items: seq<Item>, c: int)
    requires 0 <= c
    requires forall k :: 0 <= k < |items| ==> CostOf(items[k]) <= c
    ensures ItemsCost(items) <= |items| * c
  {
    if items != [] {
      var init := items[..|items| - 1];
      ItemsCostBound(init, c);
      assert ItemsCost(items) == ItemsCost(init) + CostOf(items[|items| - 1]);
      assert |items| * c == |init| * c + c;
    }
  }

  /** The cost shown for the selected tab: the items of the first round with
      that number, or 0 when there is none. */
  function ActiveCost(rounds: seq<Round>, active: int): (c: int)
    ensures (forall k :: 0 <= k < |rounds| ==> rounds[k].roundNumber != active) ==> c == 0
    ensures (forall k, j :: 0 <= k < |rounds| && 0 <= j < |rounds[k].items| ==> CostOf(rounds[k].items[j]) >= 0)
            ==> c >= 0
  {
    match IndexOfRound(rounds, active)
    case None => 0
    case Some(k) => ItemsCost(rounds[k].items)
  }

  /** The cost effect: finds the round and adds up its item costs one by one. */
  method RoundCost(rounds: seq<Round>, active: int) returns (cost: int)
    ensures cost == ActiveCost(rounds, active)
  {
    var found := IndexOfRound(rounds, active);
    cost := 0;
    if found.Some? {
      var items := rounds[found.value].items;
      var j := 0;
      while j < |items|
        invariant 0 <= j <= |items|
        invariant cost == ItemsCost(items[..j])
      {
        assert items[..j + 1][..j] == items[..j];
        cost := cost + CostOf(items[j]);
        j := j + 1;
      }
      assert items[..|items|] == items;
    }
  }

  /** A round has content: a non-blank explanation, an item or a power. */
  predicate Filled(r: Round) {
    !Blank(r.explanation) || |r.items| > 0 || |r.powers| > 0
  }

  function Numbers(rounds: seq<Round>): (ns: seq<int>)
    ensures |ns| == |rounds| && forall k :: 0 <= k < |rounds| ==> ns[k] == rounds[k].roundNumber
  {
    seq(|rounds|, k requires 0 <= k < |rounds| => rounds[k].roundNumber)
  }

  /** The numbers of the rounds with content, in slot order. */
  function FilledNumbers(rounds: seq<Round>): seq<int> {
    Numbers(Seqs.Keep(rounds, Filled))
  }

  lemma FilledNumbersMembers(rounds: seq<Round>, n: int)
    ensures n in FilledNumbers(rounds) <==>
            exists k :: 0 <= k < |rounds| && Filled(rounds[k]) && rounds[k].roundNumber == n
  {
    if n in FilledNumbers(rounds) {
      FilledNumberHasRound(rounds, n);
    }
    if exists k :: 0 <= k < |rounds| && Filled(rounds[k]) && rounds[k].roundNumber == n {
      var k :| 0 <= k < |rounds| && Filled(rounds[k]) && rounds[k].roundNumber == n;
      FilledRoundHasNumber(rounds, k);
    }
  }

  lemma FilledNumberHasRound(rounds: seq<Round>, n: int)
    requires n in FilledNumbers(rounds)
    ensures exists k :: 0 <= k < |rounds| && Filled(rounds[k]) && rounds[k].roundNumber == n
  {
    var kept := Seqs.Keep(rounds, Filled);
    var ns := Numbers(kept);
    var i :| 0 <= i < |ns| && ns[i] == n;
    Seqs.KeepMembers(rounds, Filled, kept[i]);
    var k :| 0 <= k < |rounds| && rounds[k] == kept[i];
    assert Filled(rounds[k]) && rounds[k].roundNumber == n;
  }

  lemma FilledRoundHasNumber(rounds: seq<Round>, k: int)
    requires 0 <= k < |rounds| && Filled(rounds[k])
    ensures rounds[k].roundNumber in FilledNumbers(rounds)
  {
    var kept := Seqs.Keep(rounds, Filled);
    Seqs.KeepMembers(rounds, Filled, rounds[k]);
    var i :| 0 <= i < |kept| && kept[i] == rounds[k];
    assert Numbers(kept)[i] == rounds[k].roundNumber;
  }

  /** `Math.min(...s)` on a non-empty list. */
  function MinOf(s: seq<int>): (m: int)
    requires s != []
    ensures m in s && forall x :: x in s ==> m <= x
  {
    if |s| == 1 then s[0]
    else
      var m := MinOf(s[1..]);
      assert forall x :: x in s ==> x == s[0] || x in s[1..];
      if s[0] <= m then s[0] else m
  }

  /** `Math.max(...s)` on a non-empty list. */
  function MaxOf(s: seq<int>): (m: int)
    requires s != []
    ensures m in s && forall x :: x in s ==> x <= m
  {
    if |s| == 1 then s[0]
    else
      var m := MaxOf(s[1..]);
      assert forall x :: x in s ==> x == s[0] || x in s[1..];
      if s[0] >= m then s[0] else m
  }

  /** Slot `k` is a gap the submit fills: it has no content, its number lies
      in `lo..hi`, and it is the first slot carrying that number. */
  predicate Dashes(rounds: seq<Round>, lo: int, hi: int, k: int)
    requires 0 <= k < |rounds|
  {
    lo <= rounds[k].roundNumber <= hi && !Filled(rounds[k])
    && IndexOfRound(rounds, rounds[k].roundNumber) == Some(k)
  }

  /** The rounds with the gaps numbered `lo..hi` given the explanation "-". */
  function Dashed(rounds: seq<Round>, lo: int, hi: int): (r: seq<Round>)
    ensures |r| == |rounds|
  {
    seq(|rounds|, k requires 0 <= k < |rounds| =>
      if Dashes(rounds, lo, hi, k) then rounds[k].(explanation := "-") else rounds[k])
  }

  /** What submit sends as the rounds: every empty round strictly between the
      first and the last round with content carries "-". */
  function GapFill(rounds: seq<Round>): (r: seq<Round>)
    ensures |r| == |rounds|
    ensures forall k :: 0 <= k < |rounds| ==> r[k] == rounds[k] || r[k] == rounds[k].(explanation := "-")
    ensures forall k :: 0 <= k < |rounds| && Filled(rounds[k]) ==> r[k] == rounds[k]
  {
    var ns := FilledNumbers(rounds);
    if ns == [] then rounds else Dashed(rounds, MinOf(ns), MaxOf(ns))
  }

  /** An empty range dashes nothing. */
  lemma DashedNone(rounds: seq<Round>, lo: int, hi: int)
    requires hi < lo
    ensures Dashed(rounds, lo, hi) == rounds
  {
  }

  /** One pass of the submit loop for the number `i`: the first round with
      that number, if it has no content, gets the explanation "-". */
  function FillOne(rounds: seq<Round>, i: int): (r: seq<Round>)
    ensures |r| == |rounds|
  {
    match IndexOfRound(rounds, i)
    case None => rounds
    case Some(k) => if !Filled(rounds[k]) then rounds[k := rounds[k].(explanation := "-")] else rounds
  }

  /** Widening the range by the number `i` is one more pass of the loop. */
  lemma DashedStep(rounds: seq<Round>, lo: int, i: int)
    requires lo <= i
    ensures Dashed(rounds, lo, i) == FillOne(Dashed(rounds, lo, i - 1), i)
  {
    var before := Dashed(rounds, lo, i - 1);
    IndexOfSameNumbers(before, rounds, i);
    forall k | 0 <= k < |rounds| ensures before[k].roundNumber == rounds[k].roundNumber {
    }
  }

  /** The rounds after the passes for `lo..i`, one number at a time. */
  function FillUpTo(rounds: seq<Round>, lo: int, i: int): (r: seq<Round>)
    ensures |r| == |rounds|
    decreases i - lo + 1
  {
    if i < lo then rounds else FillOne(FillUpTo(rounds, lo, i - 1), i)
  }

  /** One more pass extends the passes so far by the number `i`. */
  lemma FillPass(rounds: seq<Round>, lo: int, i: int, before: seq<Round>, after: seq<Round>)
    requires lo <= i && before == FillUpTo(rounds, lo, i - 1) && after == FillOne(before, i)
    ensures after == FillUpTo(rounds, lo, i)
  {
  }

  /** No passes happen below `lo`. */
  lemma FillUpToEmpty(rounds: seq<Round>, lo: int, hi: int, j: int)
    requires j == hi || (hi < lo && j == lo - 1)
    ensures FillUpTo(rounds, lo, j) == FillUpTo(rounds, lo, hi)
  {
  }

  /** The passes for `lo..i` together dash exactly the gaps numbered `lo..i`. */
  lemma {:induction false} FillUpToDashed(rounds: seq<Round>, lo: int, i: int)
    ensures FillUpTo(rounds, lo, i) == Dashed(rounds, lo, i)
    decreases i - lo + 1
  {
    if i < lo {
      DashedNone(rounds, lo, i);
    } else {
      FillUpToDashed(rounds, lo, i - 1);
      DashedStep(rounds, lo, i);
    }
  }

  /** The submit loop: walks the numbers from the first to the last round with
      content and writes "-" into each empty round it finds, in a copy of the
      rounds. */
  method FillGaps(rounds: seq<Round>) returns (processed: seq<Round>)
    ensures processed == GapFill(rounds)
  {
    var a := new Round[|rounds|](k requires 0 <= k < |rounds| => rounds[k]);
    assert a[..] == rounds;
    var ns := FilledNumbers(rounds);
    if |ns| > 0 {
      var lo, hi := MinOf(ns), MaxOf(ns);
      FillRange(a, lo, hi);
      FillUpToDashed(rounds, lo, hi);
    }
    processed := a[..];
  }

  /** The loop of the submit: for each number from `lo` to `hi`, the first
      round with that number gets "-" when it has no content. */
  method FillRange(a: array<Round>, lo: int, hi: int)
    modifies a
    ensures a[..] == FillUpTo(old(a[..]), lo, hi)
  {
    ghost var rounds := a[..];
    var i := lo;
    while i <= hi
      invariant lo <= i && (i <= hi + 1 || i == lo)
      invariant a[..] == FillUpTo(rounds, lo, i - 1)
    {
      ghost var before := a[..];
      var found := IndexOfRound(a[..], i);
      if found.Some? {
        var k := found.value;
        var round := a[k];
        if Blank(round.explanation) && |round.items| == 0 && |round.powers| == 0 {
          a[k] := round.(explanation := "-");
        }
      }
      FillPass(rounds, lo, i, before, a[..]);
      i := i + 1;
    }
    FillUpToEmpty(rounds, lo, hi, i - 1);
  }

  /** Filling gaps changes only explanations, never a round with content,
      and turns a changed round's empty explanation into "-". */
  lemma GapFillChangesOnlyGaps(rounds: seq<Round>)
    ensures |GapFill(rounds)| == |rounds|
    ensures forall k :: 0 <= k < |rounds| ==>
              GapFill(rounds)[k].(explanation := rounds[k].explanation) == rounds[k]
    ensures forall k :: 0 <= k < |rounds| && Filled(rounds[k]) ==> GapFill(rounds)[k] == rounds[k]
    ensures forall k :: 0 <= k < |rounds| && GapFill(rounds)[k] != rounds[k] ==>
              GapFill(rounds)[k].explanation == "-"
  {
  }

  /** Rounds numbered before the first or after the last round with content
      are left alone. */
  lemma GapFillOutsideRange(rounds: seq<Round>, k: int)
    requires 0 <= k < |rounds| && FilledNumbers(rounds) != []
    requires rounds[k].roundNumber < MinOf(FilledNumbers(rounds))
             || rounds[k].roundNumber > MaxOf(FilledNumbers(rounds))
    ensures GapFill(rounds)[k] == rounds[k]
  {
  }

  /** After filling, every slot between the first and the last round with
      content has content. */
  lemma {:induction false} GapFillLeavesNoGap(rounds: seq<Round>)
    requires Slotted(rounds) && FilledNumbers(rounds) != []
    ensures forall k :: 0 <= k < 7 && MinOf(FilledNumbers(rounds)) <= k + 1 <= MaxOf(FilledNumbers(rounds))
              ==> Filled(GapFill(rounds)[k])
  {
    var ns := FilledNumbers(rounds);
    forall k | 0 <= k < 7 && MinOf(ns) <= k + 1 <= MaxOf(ns) ensures Filled(GapFill(rounds)[k]) {
      IndexOfSlotted(rounds, k + 1);
      if !Filled(rounds[k]) {
        assert !IsWhitespace(GapFill(rounds)[k].explanation[0]);
      }
    }
  }

  /** The rounds with content after filling have numbers in the same range,
      and the rounds at both ends of the range still have content. */
  lemma {:induction false} GapFillKeepsRange(rounds: seq<Round>)
    requires FilledNumbers(rounds) != []
    ensures forall n :: n in FilledNumbers(GapFill(rounds)) ==>
              MinOf(FilledNumbers(rounds)) <= n <= MaxOf(FilledNumbers(rounds))
    ensures MinOf(FilledNumbers(rounds)) in FilledNumbers(GapFill(rounds))
    ensures MaxOf(FilledNumbers(rounds)) in FilledNumbers(GapFill(rounds))
  {
    var ns := FilledNumbers(rounds);
    var lo, hi := MinOf(ns), MaxOf(ns);
    var r := GapFill(rounds);
    GapFillChangesOnlyGaps(rounds);
    forall n | n in FilledNumbers(r) ensures lo <= n <= hi {
      FilledNumbersMembers(r, n);
      var k :| 0 <= k < |r| && Filled(r[k]) && r[k].roundNumber == n;
      if r[k] == rounds[k] {
        FilledNumbersMembers(rounds, n);
      }
    }
    FilledNumbersMembers(rounds, lo);
    FilledNumbersMembers(rounds, hi);
    FilledNumbersMembers(r, lo);
    FilledNumbersMembers(r, hi);
  }

  /** After filling, no slot is a gap in the range any more. */
  lemma {:induction false} GapFillNoDashLeft(rounds: seq<Round>)
    requires FilledNumbers(rounds) != []
    ensures forall k :: 0 <= k < |rounds| ==>
              !Dashes(GapFill(rounds), MinOf(FilledNumbers(rounds)), MaxOf(FilledNumbers(rounds)), k)
  {
    var ns := FilledNumbers(rounds);
    var lo, hi := MinOf(ns), MaxOf(ns);
    var r := GapFill(rounds);
    GapFillChangesOnlyGaps(rounds);
    assert r == Dashed(rounds, lo, hi);
    forall k | 0 <= k < |r| ensures !Dashes(r, lo, hi, k) {
      if Dashes(rounds, lo, hi, k) {
        assert r[k].explanation == "-";
        assert !IsWhitespace(r[k].explanation[0]);
      } else {
        assert r[k] == rounds[k];
        IndexOfSameNumbers(r, rounds, r[k].roundNumber);
      }
    }
  }

  /** Submitting twice fills nothing more: the first and last rounds with
      content stay where they were and every gap between them is filled. */
  lemma {:induction false} GapFillIdempotent(rounds: seq<Round>)
    ensures GapFill(GapFill(rounds)) == GapFill(rounds)
  {
    var ns := FilledNumbers(rounds);
    if ns != [] {
      var lo, hi := MinOf(ns), MaxOf(ns);
      var r := GapFill(rounds);
      var ms := FilledNumbers(r);
      GapFillKeepsRange(rounds);
      assert MinOf(ms) == lo && MaxOf(ms) == hi;
      GapFillNoDashLeft(rounds);
      assert Dashed(r, lo, hi) == r;
    }
  }

  /** On seven well-numbered slots the filled gaps are exactly the empty
      slots numbered from the first to the last round with content. */
  lemma GapFillSlotted(rounds: seq<Round>)
    requires Slotted(rounds) && FilledNumbers(rounds) != []
    ensures forall k :: 0 <= k < 7 ==>
              GapFill(rounds)[k] ==
                if MinOf(FilledNumbers(rounds)) <= k + 1 <= MaxOf(FilledNumbers(rounds)) && !Filled(rounds[k])
                then rounds[k].(explanation := "-") else rounds[k]
  {
    var lo, hi := MinOf(FilledNumbers(rounds)), MaxOf(FilledNumbers(rounds));
    forall k | 0 <= k < 7
      ensures GapFill(rounds)[k] ==
                if lo <= k + 1 <= hi && !Filled(rounds[k]) then rounds[k].(explanation := "-") else rounds[k]
    {
      IndexOfSlotted(rounds, k + 1);
    }
  }

  /** The body submit sends. */
  datatype BuildPayload = BuildPayload(id: Option<int>, userId: int, heroId: int, title: string,
                                       rounds: seq<Round>)

  datatype SubmitOutcome =
    | MissingExplanation
    | LoginRequired
    | Send(verb: Method, path: seq<string>, payload: BuildPayload)

  /** Some round has a non-blank explanation. */
  predicate HasExplanation(rounds: seq<Round>) {
    exists k :: 0 <= k < |rounds| && !Blank(rounds[k].explanation)
  }

  class BuildEditor {
    /** The build being edited, if any. */
    const editing: Option<Build>
    var rounds: seq<Round>
    var activeRound: int
    var currentRoundCost: int
    var selectedHeroId: Option<int>
    var isSubmitting: bool

    /** The cost on screen is the cost of the selected round. */
    predicate CostShown()
      reads this
    {
      currentRoundCost == ActiveCost(rounds, activeRound)
    }

    /** A new build: seven empty rounds, the first tab selected. */
    constructor New()
      ensures editing == None && rounds == NewRounds() && activeRound == 1
      ensures selectedHeroId == None && !isSubmitting
      ensures CostShown()
    {
      editing := None;
      rounds := NewRounds();
      activeRound := 1;
      selectedHeroId := None;
      isSubmitting := false;
      currentRoundCost := 0;
      new;
      IndexOfSlotted(rounds, 1);
      var c := RoundCost(rounds, activeRound);
      currentRoundCost := c;
    }

    /** Editing an existing build: its rounds as they are, its hero selected
        when its id is truthy. */
    constructor Edit(b: Build)
      ensures editing == Some(b) && rounds == b.rounds && activeRound == 1
      ensures selectedHeroId == (if b.heroId != 0 then Some(b.heroId) else None) && !isSubmitting
      ensures CostShown()
    {
      editing := Some(b);
      rounds := b.rounds;
      activeRound := 1;
      selectedHeroId := if b.heroId != 0 then Some(b.heroId) else None;
      isSubmitting := false;
      new;
      var c := RoundCost(rounds, activeRound);
      currentRoundCost := c;
    }

    /** Switching tabs recomputes the cost. */
    method SelectRound(n: int)
      modifies this
      ensures activeRound == n && CostShown()
      ensures rounds == old(rounds) && selectedHeroId == old(selectedHeroId)
      ensures isSubmitting == old(isSubmitting)
    {
      activeRound := n;
      currentRoundCost := RoundCost(rounds, activeRound);
    }

    /** Choosing a hero in the form. */
    method SelectHero(id: int)
      modifies this
      ensures selectedHeroId == Some(id)
      ensures rounds == old(rounds) && activeRound == old(activeRound)
      ensures currentRoundCost == old(currentRoundCost) && isSubmitting == old(isSubmitting)
    {
      selectedHeroId := Some(id);
    }

    /** Stores a round handed back by the round editor; the cost effect runs. */
    method Store(e: RoundEditor.Edit)
      modifies this
      ensures rounds == if e.Updated? then UpdateRound(old(rounds), e.round) else old(rounds)
      ensures CostShown()
      ensures activeRound == old(activeRound) && selectedHeroId == old(selectedHeroId)
      ensures isSubmitting == old(isSubmitting)
    {
      if e.Updated? {
        rounds := UpdateRound(rounds, e.round);
      }
      currentRoundCost := RoundCost(rounds, activeRound);
    }

    method AddItem(slot: nat, item: Item) returns (e: RoundEditor.Edit)
      requires slot < |rounds|
      modifies this
      ensures e == RoundEditor.AddItem(old(rounds)[slot], item)
      ensures rounds == if e.Updated? then UpdateRound(old(rounds), e.round) else old(rounds)
      ensures Slotted(old(rounds)) ==> Slotted(rounds)
      ensures AllRoundsSound(old(rounds)) ==> AllRoundsSound(rounds)
      ensures CostShown()
      ensures activeRound == old(activeRound) && selectedHeroId == old(selectedHeroId)
      ensures isSubmitting == old(isSubmitting)
    {
      e := RoundEditor.AddItem(rounds[slot], item);
      if AllRoundsSound(rounds) {
        RoundEditor.AddItemKeepsInvariants(rounds[slot], item);
        if e.Updated? {
          UpdateRoundSound(rounds, e.round);
        }
      }
      if e.Updated? && Slotted(rounds) {
        UpdateRoundSlotted(rounds, e.round);
      }
      Store(e);
    }

    /** The power picker of slot `slot` with `selection` chosen; returns the
        picker's new selection. */
    method AddPower(slot: nat, selection: Option<int>, allPowers: seq<Power>) returns (p: RoundEditor.PowerPick)
      requires slot < |rounds|
      modifies this
      ensures p == RoundEditor.AddPower(old(rounds)[slot], selection, allPowers)
      ensures rounds == if p.edit.Updated? then UpdateRound(old(rounds), p.edit.round) else old(rounds)
      ensures Slotted(old(rounds)) ==> Slotted(rounds)
      ensures AllRoundsSound(old(rounds)) ==> AllRoundsSound(rounds)
      ensures CostShown()
      ensures activeRound == old(activeRound) && selectedHeroId == old(selectedHeroId)
      ensures isSubmitting == old(isSubmitting)
    {
      p := RoundEditor.AddPower(rounds[slot], selection, allPowers);
      if AllRoundsSound(rounds) {
        RoundEditor.AddPowerKeepsInvariants(rounds[slot], selection, allPowers);
        if p.edit.Updated? {
          UpdateRoundSound(rounds, p.edit.round);
        }
      }
      if p.edit.Updated? && Slotted(rounds) {
        UpdateRoundSlotted(rounds, p.edit.round);
      }
      Store(p.edit);
    }

    method RemoveItem(slot: nat, id: int)
      requires slot < |rounds|
      modifies this
      ensures rounds == UpdateRound(old(rounds), RoundEditor.RemoveItem(old(rounds)[slot], id))
      ensures Slotted(old(rounds)) ==> Slotted(rounds)
      ensures AllRoundsSound(old(rounds)) ==> AllRoundsSound(rounds)
      ensures CostShown()
      ensures activeRound == old(activeRound) && selectedHeroId == old(selectedHeroId)
      ensures isSubmitting == old(isSubmitting)
    {
      var r := RoundEditor.RemoveItem(rounds[slot], id);
      if AllRoundsSound(rounds) {
        RoundEditor.RemoveItemKeepsCaps(rounds[slot], id);
        RoundEditor.RemoveKeepsDistinct(rounds[slot], id);
        UpdateRoundSound(rounds, r);
      }
      if Slotted(rounds) {
        UpdateRoundSlotted(rounds, r);
      }
      Store(RoundEditor.Updated(r));
    }

    method RemovePower(slot: nat, id: int)
      requires slot < |rounds|
      modifies this
      ensures rounds == UpdateRound(old(rounds), RoundEditor.RemovePower(old(rounds)[slot], id))
      ensures Slotted(old(rounds)) ==> Slotted(rounds)
      ensures AllRoundsSound(old(rounds)) ==> AllRoundsSound(rounds)
      ensures CostShown()
      ensures activeRound == old(activeRound) && selectedHeroId == old(selectedHeroId)
      ensures isSubmitting == old(isSubmitting)
    {
      var r := RoundEditor.RemovePower(rounds[slot], id);
      if AllRoundsSound(rounds) {
        RoundEditor.RemovePowerKeepsCaps(rounds[slot], id);
        RoundEditor.RemoveKeepsDistinct(rounds[slot], id);
        UpdateRoundSound(rounds, r);
      }
      if Slotted(rounds) {
        UpdateRoundSlotted(rounds, r);
      }
      Store(RoundEditor.Updated(r));
    }

    method SetExplanation(slot: nat, text: string)
      requires slot < |rounds|
      modifies this
      ensures rounds == UpdateRound(old(rounds), RoundEditor.SetExplanation(old(rounds)[slot], text))
      ensures Slotted(old(rounds)) ==> Slotted(rounds)
      ensures AllRoundsSound(old(rounds)) ==> AllRoundsSound(rounds)
      ensures CostShown()
      ensures activeRound == old(activeRound) && selectedHeroId == old(selectedHeroId)
      ensures isSubmitting == old(isSubmitting)
    {
      var r := RoundEditor.SetExplanation(rounds[slot], text);
      if AllRoundsSound(rounds) {
        UpdateRoundSound(rounds, r);
      }
      if Slotted(rounds) {
        UpdateRoundSlotted(rounds, r);
      }
      Store(RoundEditor.Updated(r));
    }

    /** Submitting the form: refused without any explanation, then refused
        with a redirect to the login page without a user; otherwise the
        gap-filled rounds go out, with PUT to the build's own address when
        editing and POST to the collection otherwise. */
    method Submit(userId: Option<int>, title: string, heroId: int) returns (o: SubmitOutcome)
      modifies this
      ensures !HasExplanation(old(rounds)) ==> o == MissingExplanation
      ensures HasExplanation(old(rounds)) && !HasId(userId) ==> o == LoginRequired
      ensures HasExplanation(old(rounds)) && HasId(userId) ==>
                o == Send(if editing.Some? then PUT else POST,
                          if editing.Some? then ["builds", OptionalToString(editing.value.id)] else ["builds"],
                          BuildPayload(if editing.Some? then editing.value.id else None,
                                       userId.value, heroId, title, GapFill(old(rounds))))
      ensures isSubmitting == o.Send?
      ensures rounds == old(rounds) && activeRound == old(activeRound)
      ensures currentRoundCost == old(currentRoundCost) && selectedHeroId == old(selectedHeroId)
    {
      isSubmitting := true;
      if !HasExplanation(rounds) {
        isSubmitting := false;
        return MissingExplanation;
      }
      if !HasId(userId) {
        isSubmitting := false;
        return LoginRequired;
      }
      var processed := FillGaps(rounds);
      var id := if editing.Some? then editing.value.id else None;
      var payload := BuildPayload(id, userId.value, heroId, title, processed);
      if editing.Some? {
        o := Send(PUT, ["builds", OptionalToString(editing.value.id)], payload);
      } else {
        o := Send(POST, ["builds"], payload);
      }
    }

    /** The request has settled, whatever its outcome. */
    method SubmitSettled()
      modifies this
      ensures !isSubmitting
      ensures rounds == old(rounds) && activeRound == old(activeRound)
      ensures currentRoundCost == old(currentRoundCost) && selectedHeroId == old(selectedHeroId)
    {
      isSubmitting := false;
    }
  }

  /** A new build with explanations in rounds 2 and 5 only. */
  function SecondAndFifth(x: string, y: string): seq<Round> {
    NewRounds()[1 := NewRounds()[1].(explanation := x)][4 := NewRounds()[4].(explanation := y)]
  }

  /** With non-blank explanations, only its second and fifth slots have content. */
  lemma SecondAndFifthFilled(x: string, y: string)
    requires !Blank(x) && !Blank(y)
    ensures Slotted(SecondAndFifth(x, y))
    ensures forall k :: 0 <= k < 7 ==> (Filled(SecondAndFifth(x, y)[k]) <==> k == 1 || k == 4)
  {
    var rs := SecondAndFifth(x, y);
    var blank := NewRounds();
    forall k | 0 <= k < 7 ensures rs[k].roundNumber == k + 1 && (Filled(rs[k]) <==> k == 1 || k == 4) {
      if k == 1 {
        assert rs[k] == blank[k].(explanation := x);
      } else if k == 4 {
        assert rs[k] == blank[k].(explanation := y);
      } else {
        assert rs[k] == blank[k];
      }
    }
  }

  /** When the rounds with content lie in slots `a..b`, with content at both
      ends, the numbers of the rounds with content run from `a + 1` to `b + 1`. */
  lemma FilledSpan(rounds: seq<Round>, a: int, b: int)
    requires Slotted(rounds) && 0 <= a <= b < 7 && Filled(rounds[a]) && Filled(rounds[b])
    requires forall k :: 0 <= k < 7 && Filled(rounds[k]) ==> a <= k <= b
    ensures FilledNumbers(rounds) != []
    ensures MinOf(FilledNumbers(rounds)) == a + 1 && MaxOf(FilledNumbers(rounds)) == b + 1
  {
    var ns := FilledNumbers(rounds);
    FilledNumbersMembers(rounds, a + 1);
    FilledNumbersMembers(rounds, b + 1);
    forall n | n in ns ensures a + 1 <= n <= b + 1 {
      FilledNumbersMembers(rounds, n);
    }
  }

  /** With content exactly at the ends of slots `a..b` and perhaps in between,
      the submit dashes the empty slots strictly inside and nothing else. */
  lemma GapFillBetween(rounds: seq<Round>, a: int, b: int)
    requires Slotted(rounds) && 0 <= a <= b < 7 && Filled(rounds[a]) && Filled(rounds[b])
    requires forall k :: 0 <= k < 7 && Filled(rounds[k]) ==> a <= k <= b
    ensures |GapFill(rounds)| == 7
    ensures forall k :: 0 <= k < 7 ==>
              GapFill(rounds)[k] == if a < k < b && !Filled(rounds[k]) then rounds[k].(explanation := "-") else rounds[k]
  {
    FilledSpan(rounds, a, b);
    GapFillSlotted(rounds);
  }

  /** A submitted new build with content in rounds 2 and 5 only sends rounds
      3 and 4 with the explanation "-". */
  lemma GapFillExample(x: string, y: string)
    requires !Blank(x) && !Blank(y)
    ensures var rs := SecondAndFifth(x, y);
            GapFill(rs) == rs[2 := rs[2].(explanation := "-")][3 := rs[3].(explanation := "-")]
  {
    var rs := SecondAndFifth(x, y);
    SecondAndFifthFilled(x, y);
    GapFillBetween(rs, 1, 4);
    var g := GapFill(rs);
    var want := rs[2 := rs[2].(explanation := "-")][3 := rs[3].(explanation := "-")];
    forall k | 0 <= k < 7 ensures g[k] == want[k] {
      if k == 2 || k == 3 {
        assert !Filled(rs[k]);
      }
    }
    assert g == want;
  }
}
