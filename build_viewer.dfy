/** The build page: per-round cost, who may delete, which rounds have an
    explanation to show, which tab opens first, which tabs are disabled, and
    the save toggle with its state fields. Requests are values; the server's
    answers are inputs. */
module BuildViewer {
  import opened Wrappers
  import opened Js
  import opened Types
  import opened Seqs
  import opened Database
  import opened AuthContext
  import BuildCreator
  import BuildService
  import ProtectedRoute

  /** `calculateTotalCost`: the item costs added up, a missing cost as 0. */
  function TotalCost(round: Round): (c: int)
    ensures round.items == [] ==> c == 0
    ensures (forall k :: 0 <= k < |round.items| ==> CostOf(round.items[k]) >= 0) ==> c >= 0
  {
    BuildCreator.ItemsCost(round.items)
  }

  /** The cost of a round's items, each counted once in list order, a missing
      cost adding nothing: with no priced item the total is 0, and with only
      non-negative costs it is never negative. */
  lemma {:induction false} TotalCostBounds(items: seq<Item>)
    ensures (forall i :: 0 <= i < |items| ==> items[i].cost.None?) ==> BuildCreator.ItemsCost(items) == 0
    ensures (forall i :: 0 <= i < |items| ==> CostOf(items[i]) >= 0) ==> BuildCreator.ItemsCost(items) >= 0
  {
    if items != [] {
      TotalCostBounds(items[..|items| - 1]);
    }
  }

  /** The viewer's total is the cost the editor shows for the same round. */
  lemma TotalCostAgreesWithEditor(rounds: seq<Round>, k: int)
    requires 0 <= k < |rounds|
    requires BuildCreator.IndexOfRound(rounds, rounds[k].roundNumber) == Some(k)
    ensures TotalCost(rounds[k]) == BuildCreator.ActiveCost(rounds, rounds[k].roundNumber)
  {
  }

  /** `canDelete`: an admin, or the signed-in author of the build. */
  predicate CanDelete(isAdmin: bool, s: Identity, build: Build)
    ensures CanDelete(isAdmin, s, build) && !isAdmin ==> s.isLoggedIn && s.userId == Some(build.userId)
    ensures !isAdmin && !s.isLoggedIn ==> !CanDelete(isAdmin, s, build)
  {
    isAdmin || (s.isLoggedIn && s.userId == Some(build.userId))
  }

  /** A signed-out viewer may delete only as an admin; the author may delete
      once signed in. */
  lemma DeletePermission(isAdmin: bool, session: Session, build: Build)
    ensures CanDelete(isAdmin, SignedOut, build) <==> isAdmin
    ensures session.id == build.userId ==> CanDelete(isAdmin, SignedIn(session, false), build)
    ensures !isAdmin && session.id != build.userId ==> !CanDelete(isAdmin, SignedIn(session, session.isAdmin), build)
  {
  }

  predicate Explained(r: Round) {
    !Blank(r.explanation)
  }

  /** `validRounds`: the rounds with a non-blank explanation, in order. */
  function ValidRounds(rounds: seq<Round>): (valid: seq<Round>)
    ensures |valid| <= |rounds|
    ensures forall i :: 0 <= i < |valid| ==> Explained(valid[i])
    ensures forall r :: multiset(valid)[r] == if Explained(r) then multiset(rounds)[r] else 0
    ensures Subsequence(valid, rounds)
  {
    KeepIsSubsequence(rounds, Explained);
    assert forall r :: multiset(Keep(rounds, Explained))[r] == if Explained(r) then multiset(rounds)[r] else 0 by {
      forall r ensures multiset(Keep(rounds, Explained))[r] == if Explained(r) then multiset(rounds)[r] else 0 {
        KeepCount(rounds, Explained, r);
      }
    }
    Keep(rounds, Explained)
  }

  /** A round is shown exactly when it is in the build and has an explanation;
      and these are exactly the rounds `createBuild` writes. */
  lemma ValidRoundsMembers(rounds: seq<Round>, r: Round)
    ensures r in ValidRounds(rounds) <==> r in rounds && Explained(r)
    ensures r in ValidRounds(rounds) <==> r in BuildService.Persisted(rounds)
  {
    KeepMembers(rounds, Explained, r);
    BuildService.PersistedRounds(rounds, r);
  }

  /** The first shown round is the first round of the build with an
      explanation: every round before it is blank. */
  lemma FirstValidRound(rounds: seq<Round>)
    requires ValidRounds(rounds) != []
    ensures exists k :: 0 <= k < |rounds| && rounds[k] == ValidRounds(rounds)[0] &&
                        Explained(rounds[k]) && forall j :: 0 <= j < k ==> !Explained(rounds[j])
  {
    KeepFirst(rounds, Explained);
  }

  /** The tab the page opens on: the first shown round's number, or "1". */
  function InitialTab(rounds: seq<Round>, current: string): (tab: string)
    ensures ValidRounds(rounds) == [] ==> tab == current
    ensures ValidRounds(rounds) != [] ==> tab == IntToString(ValidRounds(rounds)[0].roundNumber)
  {
    var valid := ValidRounds(rounds);
    if |valid| > 0 then IntToString(valid[0].roundNumber) else current
  }

  /** Tab `i` (0-based) is disabled when the build has no round there or its
      explanation is the empty string; blankness is not checked. */
  predicate TabDisabled(rounds: seq<Round>, i: int)
    ensures i < 0 || |rounds| <= i ==> TabDisabled(rounds, i)
    ensures 0 <= i < |rounds| && Explained(rounds[i]) ==> !TabDisabled(rounds, i)
  {
    !(0 <= i < |rounds|) || rounds[i].explanation == ""
  }

  /** Every shown round has its tab enabled, but a whitespace explanation
      enables a tab whose round is not shown. */
  lemma TabsAndShownRounds(rounds: seq<Round>, i: int)
    requires 0 <= i < |rounds|
    ensures Explained(rounds[i]) ==> !TabDisabled(rounds, i)
    ensures !TabDisabled([Round(None, None, 1, " ", [], [])], 0)
    ensures ValidRounds([Round(None, None, 1, " ", [], [])]) == []
  {
    var blank := Round(None, None, 1, " ", [], []);
    assert !Explained(blank) by { assert blank.explanation == [' ']; }
    assert ValidRounds([blank]) == ValidRounds([blank][1..]);
  }

  /** The page's save address for a user and a build: the same address the
      build service uses, with an absent build id written as "undefined". */
  function SaveUrl(userId: int, buildId: Option<int>): string {
    ApiUrl + "/users/" + IntToString(userId) + "/saved-builds/" + OptionalToString(buildId)
  }

  /** `isLoggedIn && userId && token` */
  predicate MaySave(s: Identity) {
    s.isLoggedIn && HasId(s.userId) && ProtectedRoute.HasToken(s.token)
  }

  class Viewer {
    var activeRound: string
    var saved: bool
    var isLoading: bool

    /** The page as first rendered: tab "1", not saved, not loading. */
    constructor()
      ensures activeRound == "1" && !saved && !isLoading
    {
      activeRound, saved, isLoading := "1", false, false;
    }

    /** The effect on a new build: open the first shown round's tab, if any. */
    method OpenFirstRound(build: Build)
      modifies this
      ensures activeRound == InitialTab(build.rounds, old(activeRound))
      ensures saved == old(saved) && isLoading == old(isLoading)
    {
      var valid := ValidRounds(build.rounds);
      if |valid| > 0 {
        activeRound := IntToString(valid[0].roundNumber);
      }
    }

    /** The effect that asks whether the build is saved: only for a
        signed-in user with an id and a build with an id; `saved` takes the
        answer of an ok response and is unchanged otherwise. */
    method CheckSaved(s: Identity, build: Build, reply: Reply<bool>) returns (sent: Option<Request>)
      modifies this
      ensures sent.Some? <==> s.isLoggedIn && HasId(s.userId) && HasId(build.id)
      ensures sent.Some? ==>
                sent.value == Request(GET, SaveUrl(s.userId.value, build.id) + "/check",
                                      Some(Bearer(s.token)), None)
      ensures saved == if sent.Some? && IsOk(reply) then reply.body else old(saved)
      ensures activeRound == old(activeRound) && isLoading == old(isLoading)
    {
      sent := None;
      if s.isLoggedIn && HasId(s.userId) && HasId(build.id) {
        sent := Some(Request(GET, SaveUrl(s.userId.value, build.id) + "/check", Some(Bearer(s.token)), None));
        if IsOk(reply) {
          saved := reply.body;
        }
      }
    }

    /** `handleSave`: without a signed-in user, id and token nothing is sent
        and nothing changes; otherwise an unsave (DELETE) or a save (POST) is
        sent, `saved` flips only on an ok response, and loading is over. */
    method HandleSave(s: Identity, build: Build, reply: Reply<()>) returns (sent: Option<Request>)
      modifies this
      ensures sent.None? <==> !MaySave(s)
      ensures sent.Some? ==>
                sent.value == Request(if old(saved) then DELETE else POST, SaveUrl(s.userId.value, build.id),
                                      Some("Bearer " + s.token.value), None)
      ensures saved == if sent.Some? && IsOk(reply) then !old(saved) else old(saved)
      ensures isLoading == if sent.Some? then false else old(isLoading)
      ensures activeRound == old(activeRound)
    {
      if !MaySave(s) {
        return None;
      }
      isLoading := true;
      var verb := if saved then DELETE else POST;
      sent := Some(Request(verb, SaveUrl(s.userId.value, build.id), Some("Bearer " + s.token.value), None));
      if IsOk(reply) {
        saved := !saved;
      }
      isLoading := false;
    }
  }
}
