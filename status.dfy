/** The status page's health summary: which of the four services count as
    operational, how many do, and the banner that count selects. The health
    answer is an input, absent until it has been fetched. */
module Status {
  import opened Wrappers
  import opened Js
  import opened Seqs

  /** The health answer: a JSON object, or nothing before it arrives. */
  type Health = Option<map<string, Value>>

  const ServiceKeys: seq<string> := ["api", "database", "frontend", "redis"]

  /** `getServiceStatus`: the service's health value is a string. The test
      for "connected" or "available" adds nothing to that. */
  predicate ServiceUp(health: Health, key: string)
    ensures ServiceUp(health, key) ==> health.Some? && key in health.value
    ensures health.None? ==> !ServiceUp(health, key)
  {
    health.Some? && key in health.value && health.value[key].Str?
  }

  /** Any string reads as operational, even "down"; anything else, or no
      answer at all, reads as not operational. */
  lemma AnyStringIsUp(m: map<string, Value>, key: string, text: string)
    ensures ServiceUp(Some(m[key := Str(text)]), key)
    ensures !ServiceUp(Some(m[key := Null]), key)
    ensures !ServiceUp(None, key)
  {
  }

  /** `getServiceStatus` as the filter callback. */
  function UpIn(health: Health): string -> bool {
    (k: string) => ServiceUp(health, k)
  }

  /** The operational count over the four fixed keys. */
  function OperationalCount(health: Health): (n: int)
    ensures 0 <= n <= 4
  {
    |Keep(ServiceKeys, UpIn(health))|
  }

  /** Over any list of keys, all are counted exactly when all are up ... */
  lemma CountAllOver(keys: seq<string>, health: Health)
    ensures |Keep(keys, UpIn(health))| == |keys| <==>
              forall k :: k in keys ==> ServiceUp(health, k)
  {
    var up := UpIn(health);
    if |Keep(keys, up)| == |keys| {
      KeepAll(keys, up);
      forall k | k in keys ensures ServiceUp(health, k) {
        var i :| 0 <= i < |keys| && keys[i] == k;
        assert up(keys[i]);
      }
    }
    if forall k :: k in keys ==> ServiceUp(health, k) {
      forall i | 0 <= i < |keys| ensures up(keys[i]) {
        assert keys[i] in keys;
      }
      KeepEverything(keys, up);
    }
  }

  /** ... and none exactly when none is. */
  lemma CountNoneOver(keys: seq<string>, health: Health)
    ensures |Keep(keys, UpIn(health))| == 0 <==>
              forall k :: k in keys ==> !ServiceUp(health, k)
  {
    var up := UpIn(health);
    if |Keep(keys, up)| == 0 {
      KeepEmpty(keys, up);
      forall k | k in keys ensures !ServiceUp(health, k) {
        var i :| 0 <= i < |keys| && keys[i] == k;
        assert !up(keys[i]);
      }
    }
    if forall k :: k in keys ==> !ServiceUp(health, k) {
      forall i | 0 <= i < |keys| ensures !up(keys[i]) {
        assert keys[i] in keys;
      }
      KeepNone(keys, up);
    }
  }

  /** The count is 4 exactly when every service is up. */
  lemma CountAllUp(health: Health)
    ensures OperationalCount(health) == 4 <==> forall k :: k in ServiceKeys ==> ServiceUp(health, k)
  {
    var keys := ServiceKeys;
    assert |keys| == 4;
    CountAllOver(keys, health);
  }

  /** The count is 0 exactly when no service is up. */
  lemma CountNoneUp(health: Health)
    ensures OperationalCount(health) == 0 <==> forall k :: k in ServiceKeys ==> !ServiceUp(health, k)
  {
    var keys := ServiceKeys;
    CountNoneOver(keys, health);
  }

  /** The overall banner, with its message and colour. */
  datatype Banner = Checking | AllOperational | AllDown | SomeIssues

  function Message(b: Banner): string {
    match b
    case Checking => "Checking system status..."
    case AllOperational => "\U{2705} All systems operational"
    case AllDown => "\U{274C} All services are down"
    case SomeIssues => "\U{26A0}\U{FE0F} Some services are experiencing issues"
  }

  function Colour(b: Banner): string {
    match b
    case Checking => "bg-gray-500"
    case AllOperational => "bg-green-600"
    case AllDown => "bg-red-600"
    case SomeIssues => "bg-yellow-500"
  }

  /** The banner as written: all four up, none up, or some. */
  function OverallBanner(health: Health): (b: Banner)
    ensures b == AllOperational <==> forall k :: k in ServiceKeys ==> ServiceUp(health, k)
    ensures b == AllDown <==> forall k :: k in ServiceKeys ==> !ServiceUp(health, k)
    ensures b == SomeIssues <==> 0 < OperationalCount(health) < 4
    ensures b != Checking
  {
    CountAllUp(health);
    CountNoneUp(health);
    var n := OperationalCount(health);
    if n == 4 then AllOperational else if n == 0 then AllDown else SomeIssues
  }

  /** Before the health answer arrives the banner as written says every
      service is down; the initial "checking" banner is never shown. */
  lemma DownBeforeHealthArrives()
    ensures OverallBanner(None) == AllDown
    ensures Message(OverallBanner(None)) == "\U{274C} All services are down"
  {
    assert forall k :: k in ServiceKeys ==> !ServiceUp(None, k);
  }

  /** The banner as evidently intended: "checking" until there is a health
      answer, then the count's banner. */
  function IntendedBanner(health: Health): (b: Banner)
    ensures b == Checking <==> health.None?
    ensures health.Some? ==> b == OverallBanner(health)
  {
    if health.None? then Checking else OverallBanner(health)
  }

  /** Once an answer is there, the intended banner says all down only when
      no service reports a string. */
  lemma IntendedDownOnlyFromAnswer(m: map<string, Value>)
    ensures IntendedBanner(Some(m)) == AllDown <==> forall k :: k in ServiceKeys ==> !(k in m && m[k].Str?)
  {
  }
}
