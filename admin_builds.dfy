/** The admin page for builds: every build is fetched, normalised, and shown
    in two lists, pending and verified; verifying or rejecting a build flips
    its flag in the page's list once the server agrees. Requests are values
    and the server's answers are inputs. */
module AdminBuilds {
  import opened Wrappers
  import opened Js
  import opened Types
  import opened Seqs
  import opened Database
  import opened AuthContext
  import BuildService

  /** A build as the admin listing sends it: a row, and rounds that may be absent. */
  datatype AdminRow = AdminRow(row: BuildService.BuildRow, rounds: Option<seq<Round>>)

  /** The listing's mapping: the row normalised, absent rounds read as none. */
  function FromAdmin(r: AdminRow): (b: Build)
    ensures b.isVerified <==> r.row.isVerified == Num(1)
    ensures b.id == Some(r.row.id)
    ensures r.rounds.None? ==> b.rounds == []
    ensures r.rounds.Some? ==> b.rounds == r.rounds.value
  {
    BuildService.Normalise(r.row, if r.rounds.Some? then r.rounds.value else [])
  }

  predicate IsPending(b: Build) {
    !b.isVerified
  }

  predicate IsVerified(b: Build) {
    b.isVerified
  }

  /** The "Pending Builds" list. */
  function Pending(builds: seq<Build>): (r: seq<Build>)
    ensures forall i :: 0 <= i < |r| ==> !r[i].isVerified
  {
    Keep(builds, IsPending)
  }

  /** The "Verified Builds" list. */
  function Verified(builds: seq<Build>): (r: seq<Build>)
    ensures forall i :: 0 <= i < |r| ==> r[i].isVerified
  {
    Keep(builds, IsVerified)
  }

  /** The two lists partition the page's builds: each build is in exactly one
      of them, and together they hold every build once. */
  lemma PendingVerifiedPartition(builds: seq<Build>, b: Build)
    ensures b in builds <==> b in Pending(builds) || b in Verified(builds)
    ensures !(b in Pending(builds) && b in Verified(builds))
    ensures multiset(Pending(builds)) + multiset(Verified(builds)) == multiset(builds)
    ensures |Pending(builds)| + |Verified(builds)| == |builds|
  {
    KeepMembers(builds, IsPending, b);
    KeepMembers(builds, IsVerified, b);
    KeepSplit(builds, IsPending, IsVerified);
  }

  /** The builds after the server accepted a verify (`flag` true) or reject
      (`flag` false) of the build with the given id. */
  function WithFlag(builds: seq<Build>, id: int, flag: bool): (r: seq<Build>)
    ensures |r| == |builds|
    ensures forall k :: 0 <= k < |builds| ==>
              r[k] == if builds[k].id == Some(id) then builds[k].(isVerified := flag) else builds[k]
  {
    MapWhere(builds, (b: Build) => b.id == Some(id), (b: Build) => b.(isVerified := flag))
  }

  /** After a verify, the build leaves the pending list and nothing else
      does; after a reject, it leaves the verified list and nothing else does. */
  lemma FlagMovesOnlyThatBuild(builds: seq<Build>, id: int, x: Build)
    ensures x in Pending(WithFlag(builds, id, true)) <==> x in Pending(builds) && x.id != Some(id)
    ensures x in Verified(WithFlag(builds, id, false)) <==> x in Verified(builds) && x.id != Some(id)
  {
    var on := WithFlag(builds, id, true);
    var off := WithFlag(builds, id, false);
    KeepMembers(on, IsPending, x);
    KeepMembers(builds, IsPending, x);
    KeepMembers(off, IsVerified, x);
    KeepMembers(builds, IsVerified, x);
    if x in on && !x.isVerified {
      var k :| 0 <= k < |on| && on[k] == x;
      assert builds[k].id != Some(id);
    }
    if x in builds && !x.isVerified && x.id != Some(id) {
      var k :| 0 <= k < |builds| && builds[k] == x;
      assert on[k] == x;
    }
    if x in off && x.isVerified {
      var k :| 0 <= k < |off| && off[k] == x;
      assert builds[k].id != Some(id);
    }
    if x in builds && x.isVerified && x.id != Some(id) {
      var k :| 0 <= k < |builds| && builds[k] == x;
      assert off[k] == x;
    }
  }

  /** The page's verify and reject addresses are the ones the build
      service's statements are routed to. */
  lemma FlagUrlsMatchService(id: int)
    ensures RouteExecute(BuildService.VerifySql, [Num(1), Num(id)]).value.endpoint ==
            "/builds/" + IntToString(id) + "/verify"
    ensures RouteExecute(BuildService.UnverifySql, [Num(0), Num(id)]).value.endpoint ==
            "/builds/" + IntToString(id) + "/unverify"
  {
    BuildService.VerificationRoutes(id);
  }

  function FlagUrl(id: int, verify: bool): string {
    ApiUrl + "/builds/" + IntToString(id) + (if verify then "/verify" else "/unverify")
  }

  class Page {
    var builds: seq<Build>
    var loading: bool

    constructor()
      ensures builds == [] && loading
    {
      builds, loading := [], true;
    }

    /** The fetch effect: a non-admin is redirected and nothing is fetched;
        otherwise the admin listing is requested, an ok answer replaces the
        list with the normalised builds, any other answer keeps it, and
        loading is over on every path. */
    method Load(isAdmin: bool, token: Option<string>, reply: Reply<seq<AdminRow>>) returns (sent: Option<Request>)
      modifies this
      ensures sent.None? <==> !isAdmin
      ensures sent.Some? ==> sent.value == Request(GET, ApiUrl + "/builds/admin", Some(Bearer(token)), None)
      ensures builds == if sent.Some? && IsOk(reply) then Map(reply.body, FromAdmin) else old(builds)
      ensures loading == if sent.Some? then false else old(loading)
    {
      if !isAdmin {
        return None;
      }
      sent := Some(Request(GET, ApiUrl + "/builds/admin", Some(Bearer(token)), None));
      if IsOk(reply) {
        builds := Map(reply.body, FromAdmin);
      }
      loading := false;
    }

    /** `handleVerify` (`verify` true) and `handleReject` (`verify` false):
        on an ok answer the builds with that id take the new flag and the
        others are unchanged; otherwise the list is unchanged. */
    method SetFlag(token: Option<string>, id: int, verify: bool, reply: Reply<()>) returns (sent: Request)
      modifies this
      ensures sent == Request(POST, FlagUrl(id, verify), Some(Bearer(token)), None)
      ensures builds == if IsOk(reply) then WithFlag(old(builds), id, verify) else old(builds)
      ensures loading == old(loading)
    {
      sent := Request(POST, FlagUrl(id, verify), Some(Bearer(token)), None);
      if IsOk(reply) {
        builds := WithFlag(builds, id, verify);
      }
    }
  }
}
