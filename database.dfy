/** The client's data access layer: SQL-shaped statements with positional
    parameters are translated into REST requests. A statement is seen through
    what the layer's regular expressions and substring probes take from it;
    the server's reply is an input. */
module Database {
  import opened Wrappers
  import opened Js
  import opened Types
  import Browser

  const ApiUrl := "https://owapi.luciousdev.nl/api"

  datatype Action = InsertInto | Update | DeleteFrom

  /** The leading `INSERT INTO | UPDATE | DELETE FROM` and the word after it. */
  datatype Head = Head(action: Action, word: string)

  /** A statement as the router sees it: its text; the word after the first
      `FROM`; the dotted name in the first `WHERE name = ?`; the leading
      action and its word; and which of the probe phrases the router looks
      for (`is_verified = 0`, `is_verified = 1`, `is_verified`, `SELECT 1`)
      occur in the text. */
  datatype Sql = Sql(text: string, fromWord: Option<string>, whereTarget: Option<string>,
                     head: Option<Head>, probes: set<string>)

  /** A search parameter: name and value. */
  type Pair = (string, string)

  /** The last dot-separated segment of a name, `name.split('.').pop()`. */
  function AfterLastDot(s: string): (r: string)
    ensures '.' !in r
    ensures |r| <= |s| && s[|s| - |r|..] == r
  {
    if s == [] then []
    else if s[|s| - 1] == '.' then []
    else
      var init := s[..|s| - 1];
      var r := AfterLastDot(init);
      assert s[|s| - (|r| + 1)..] == init[|init| - |r|..] + [s[|s| - 1]];
      r + [s[|s| - 1]]
  }

  /** The segment after the last dot is what follows that dot. */
  lemma {:induction false} AfterLastDotOf(a: string, b: string)
    requires '.' !in b
    ensures AfterLastDot(a + "." + b) == b
  {
    if b == [] {
    } else {
      var s := a + "." + b;
      assert s[..|s| - 1] == a + "." + b[..|b| - 1];
      AfterLastDotOf(a, b[..|b| - 1]);
    }
  }

  /** The conditions of a query: the `WHERE` field bound to the first
      parameter, recorded only when there are parameters and the field name
      is not empty. */
  function Conditions(sql: Sql, params: seq<Value>): (c: map<string, Value>)
    ensures params == [] ==> c == map[]
    ensures forall k :: k in c ==> '.' !in k && c[k] == params[0]
    ensures |c| <= 1
  {
    if |params| > 0 && sql.whereTarget.Some? && AfterLastDot(sql.whereTarget.value) != "" then
      map[AfterLastDot(sql.whereTarget.value) := params[0]]
    else map[]
  }

  /** `conditions[k]` */
  function Cond(c: map<string, Value>, k: string): Value {
    if k in c then c[k] else Undefined
  }

  /** `URLSearchParams.set`: replaces the value of a present name, else appends. */
  function SetParam(q: seq<Pair>, k: string, v: string): (r: seq<Pair>)
    ensures (k, v) in r
    ensures |r| == |q| || r == q + [(k, v)]
  {
    if q == [] then [(k, v)]
    else if q[0].0 == k then [(k, v)] + q[1..]
    else [q[0]] + SetParam(q[1..], k, v)
  }

  /** Where a query goes: an endpoint below the API root and search parameters. */
  datatype Target = Target(endpoint: string, query: seq<Pair>)

  /** The entity of a query: the word after `FROM`, lower-cased; "" without one. */
  function QueryEntity(sql: Sql): string {
    match sql.fromWord
    case None => ""
    case Some(w) => Lower(w)
  }

  /** `if (id) endpoint += '/' + id` */
  function IdSuffix(id: Value): string {
    if Truthy(id) then "/" + Template(id) else ""
  }

  const QueryEntities: set<string> :=
    {"heroes", "items", "powers", "builds", "b", "rounds", "rounditems", "roundpowers", "savedbuilds", "users"}

  /** The search parameters of a builds query. */
  function BuildsQuery(probes: set<string>, c: map<string, Value>): seq<Pair> {
    var q0 := if "is_verified = 0" in probes then SetParam([], "unverified", "true") else [];
    var q1 := if "is_verified = 1" in probes then SetParam(q0, "verified", "true") else q0;
    if Truthy(Cond(c, "user_id")) then SetParam(q1, "user_id", Template(Cond(c, "user_id"))) else q1
  }

  /** The routing table of `query`, by entity: probes are the phrases the
      statement contains, `c` its conditions. */
  function RouteEntity(e: string, probes: set<string>, c: map<string, Value>, params: seq<Value>): (r: Result<Target>)
    ensures r.Ok? <==> e in QueryEntities
    ensures r.Err? ==> r.error == "Unsupported entity: " + e
    ensures r.Ok? ==> |r.value.endpoint| > 0 && r.value.endpoint[0] == '/'
    ensures r.Ok? && r.value.query != [] ==> e in {"items", "builds", "b", "users"}
  {
    if e == "heroes" then Ok(Target("/heroes" + IdSuffix(Cond(c, "id")), []))
    else if e == "items" then
      Ok(Target("/items" + IdSuffix(Cond(c, "id")),
                if Truthy(Cond(c, "category")) then SetParam([], "category", Template(Cond(c, "category"))) else []))
    else if e == "powers" then Ok(Target("/powers" + IdSuffix(Cond(c, "id")), []))
    else if e == "builds" || e == "b" then
      Ok(Target("/builds" + IdSuffix(Or(Cond(c, "id"), Cond(c, "b.id"))), BuildsQuery(probes, c)))
    else if e == "rounds" then Ok(Target("/builds/" + Template(At(params, 0)) + "/rounds", []))
    else if e == "rounditems" then Ok(Target("/rounds/" + Template(At(params, 0)) + "/items", []))
    else if e == "roundpowers" then Ok(Target("/rounds/" + Template(At(params, 0)) + "/powers", []))
    else if e == "savedbuilds" then
      if "SELECT 1" in probes && |params| > 1 then
        Ok(Target("/users/" + Template(At(params, 0)) + "/saved-builds/" + Template(At(params, 1)) + "/check", []))
      else Ok(Target("/users/" + Template(At(params, 0)) + "/saved-builds", []))
    else if e == "users" then
      Ok(Target("/users" + IdSuffix(Cond(c, "id")),
                if Truthy(Cond(c, "username")) then SetParam([], "username", Template(Cond(c, "username"))) else []))
    else Err("Unsupported entity: " + e)
  }

  /** The routing table of `query`. */
  function RouteQuery(sql: Sql, params: seq<Value>): (r: Result<Target>)
    ensures r.Ok? <==> QueryEntity(sql) in QueryEntities
    ensures sql.fromWord.None? ==> r == Err("Unsupported entity: ")
  {
    RouteEntity(QueryEntity(sql), sql.probes, Conditions(sql, params), params)
  }

  /** The conditions of a one-parameter query whose `WHERE` names `prefix.field`. */
  lemma ConditionOn(sql: Sql, v: Value, prefix: string, field: string)
    requires sql.whereTarget == Some(prefix + "." + field)
    requires '.' !in field && field != ""
    ensures Conditions(sql, [v]) == map[field := v]
  {
    AfterLastDotOf(prefix, field);
  }

  /** The items row of the routing table. */
  lemma ItemsRow(probes: set<string>, c: map<string, Value>, params: seq<Value>)
    ensures RouteEntity("items", probes, c, params) ==
            Ok(Target("/items" + IdSuffix(Cond(c, "id")),
                      if Truthy(Cond(c, "category")) then SetParam([], "category", Template(Cond(c, "category"))) else []))
  {
  }

  /** The builds row of the routing table. */
  lemma BuildsRow(probes: set<string>, c: map<string, Value>, params: seq<Value>)
    ensures RouteEntity("builds", probes, c, params) ==
            Ok(Target("/builds" + IdSuffix(Or(Cond(c, "id"), Cond(c, "b.id"))), BuildsQuery(probes, c)))
  {
  }

  /** The powers row of the routing table. */
  lemma PowersRow(probes: set<string>, c: map<string, Value>, params: seq<Value>)
    ensures RouteEntity("powers", probes, c, params) == Ok(Target("/powers" + IdSuffix(Cond(c, "id")), []))
  {
  }

  /** A non-zero numeric id is appended to the endpoint; an absent one is not. */
  lemma IdSuffixOf(id: int)
    ensures id != 0 ==> IdSuffix(Num(id)) == "/" + IntToString(id)
    ensures IdSuffix(Undefined) == ""
  {
  }

  /** A one-parameter query whose `WHERE` names `prefix.field` is routed by
      the row of its entity with that single condition. */
  lemma WhereRoute(sql: Sql, v: Value, prefix: string, field: string, e: string)
    requires QueryEntity(sql) == e
    requires sql.whereTarget == Some(prefix + "." + field)
    requires '.' !in field && field != ""
    ensures RouteQuery(sql, [v]) == RouteEntity(e, sql.probes, map[field := v], [v])
  {
    ConditionOn(sql, v, prefix, field);
  }

  /** The round rows of the routing table: addressed by the first parameter. */
  lemma RoundRows(probes: set<string>, c: map<string, Value>, params: seq<Value>)
    ensures RouteEntity("rounds", probes, c, params) == Ok(Target("/builds/" + Template(At(params, 0)) + "/rounds", []))
    ensures RouteEntity("rounditems", probes, c, params) == Ok(Target("/rounds/" + Template(At(params, 0)) + "/items", []))
    ensures RouteEntity("roundpowers", probes, c, params) == Ok(Target("/rounds/" + Template(At(params, 0)) + "/powers", []))
  {
  }

  /** A query is routed exactly when its entity is one of the ten the table
      knows; any other entity is an error before anything is sent. */
  lemma RouteQueryDefined(sql: Sql, params: seq<Value>)
    ensures RouteQuery(sql, params).Ok? <==> QueryEntity(sql) in QueryEntities
    ensures RouteQuery(sql, params).Err? ==>
              RouteQuery(sql, params).error == "Unsupported entity: " + QueryEntity(sql)
  {
  }

  /** The id a builds query carries is the one bound to a field named `id`:
      a condition name never contains a dot, so `conditions['b.id']` is
      always absent. */
  lemma BuildsIdIsId(sql: Sql, params: seq<Value>)
    ensures IdSuffix(Or(Cond(Conditions(sql, params), "id"), Cond(Conditions(sql, params), "b.id")))
            == IdSuffix(Cond(Conditions(sql, params), "id"))
  {
    assert "b.id"[1] == '.';
    assert "b.id" !in Conditions(sql, params);
  }

  /** `k1=v1&k2=v2...`; the encoding of special characters is not modelled. */
  function QueryString(q: seq<Pair>): (s: string)
    ensures s == "" <==> q == []
  {
    if q == [] then ""
    else
      var first := q[0].0 + "=" + q[0].1;
      if |q| == 1 then first else first + "&" + QueryString(q[1..])
  }

  /** The request address: `?` and the search parameters follow the endpoint
      only when there are parameters. */
  function QueryUrl(t: Target): (url: string)
    ensures t.query == [] ==> url == ApiUrl + t.endpoint
    ensures t.query != [] ==> url == ApiUrl + t.endpoint + "?" + QueryString(t.query)
  {
    var qs := QueryString(t.query);
    ApiUrl + t.endpoint + (if qs != "" then "?" + qs else "")
  }

  /** What a statement does: method, endpoint and the data object. */
  datatype Effect = Effect(verb: Method, endpoint: string, data: map<string, Value>)

  const InsertEntities: set<string> :=
    {"builds", "rounds", "rounditems", "roundpowers", "savedbuilds", "users", "items", "powers"}
  const UpdateEntities: set<string> := {"builds", "items", "powers"}
  const DeleteEntities: set<string> := {"items", "powers", "savedbuilds"}

  function ItemData(p: seq<Value>): map<string, Value> {
    map["name" := At(p, 0), "category" := At(p, 1), "description" := At(p, 2),
        "rarity" := At(p, 4), "cost" := At(p, 3), "heroId" := At(p, 5)]
  }

  function PowerData(p: seq<Value>): map<string, Value> {
    map["name" := At(p, 0), "description" := At(p, 1), "heroId" := At(p, 2)]
  }

  /** The last parameter, `params[params.length - 1]`. */
  function Last(p: seq<Value>): Value {
    At(p, |p| - 1)
  }

  function RouteInsert(e: string, p: seq<Value>): (r: Result<Effect>)
    ensures r.Ok? <==> e in InsertEntities
    ensures r.Ok? ==> r.value.verb == POST
    ensures r.Err? ==> r.error == "Unsupported entity for INSERT: " + e
  {
    if e == "builds" then
      Ok(Effect(POST, "/builds", map["user_id" := At(p, 0), "hero_id" := At(p, 1), "title" := At(p, 2),
                                     "is_verified" := Bool(At(p, 3) == Num(1))]))
    else if e == "rounds" then
      Ok(Effect(POST, "/builds/" + Template(At(p, 0)) + "/rounds",
                map["round_number" := At(p, 1), "explanation" := At(p, 2)]))
    else if e == "rounditems" then
      Ok(Effect(POST, "/rounds/" + Template(At(p, 0)) + "/items", map["item_id" := At(p, 1)]))
    else if e == "roundpowers" then
      Ok(Effect(POST, "/rounds/" + Template(At(p, 0)) + "/powers", map["power_id" := At(p, 1)]))
    else if e == "savedbuilds" then
      Ok(Effect(POST, "/users/" + Template(At(p, 0)) + "/saved-builds/" + Template(At(p, 1)), map[]))
    else if e == "users" then
      Ok(Effect(POST, "/register", map["username" := At(p, 0), "password" := At(p, 1)]))
    else if e == "items" then Ok(Effect(POST, "/items", ItemData(p)))
    else if e == "powers" then Ok(Effect(POST, "/powers", PowerData(p)))
    else Err("Unsupported entity for INSERT: " + e)
  }

  function RouteUpdate(sql: Sql, e: string, p: seq<Value>): (r: Result<Effect>)
    ensures r.Ok? <==> e in UpdateEntities
    ensures r.Ok? ==> r.value.verb == if e == "builds" && "is_verified" in sql.probes then POST else PUT
    ensures r.Ok? && r.value.verb == POST ==> r.value.data == map[]
    ensures r.Err? ==> r.error == "Unsupported entity for UPDATE: " + e
  {
    if e == "builds" then
      if "is_verified" in sql.probes then
        Ok(Effect(POST, "/builds/" + Template(At(p, 1)) + "/" + (if At(p, 0) == Num(1) then "verify" else "unverify"),
                  map[]))
      else
        Ok(Effect(PUT, "/builds/" + Template(Last(p)),
                  map["hero_id" := At(p, 0), "title" := At(p, 1), "is_verified" := Bool(At(p, 2) == Num(1))]))
    else if e == "items" then Ok(Effect(PUT, "/items/" + Template(Last(p)), ItemData(p)))
    else if e == "powers" then Ok(Effect(PUT, "/powers/" + Template(Last(p)), PowerData(p)))
    else Err("Unsupported entity for UPDATE: " + e)
  }

  function RouteDelete(e: string, p: seq<Value>): (r: Result<Effect>)
    ensures r.Ok? <==> e in DeleteEntities
    ensures r.Ok? ==> r.value.verb == DELETE && r.value.data == map[]
    ensures r.Err? ==> r.error == "Unsupported entity for DELETE: " + e
  {
    if e == "items" then Ok(Effect(DELETE, "/items/" + Template(At(p, 0)), map[]))
    else if e == "powers" then Ok(Effect(DELETE, "/powers/" + Template(At(p, 0)), map[]))
    else if e == "savedbuilds" then
      Ok(Effect(DELETE, "/users/" + Template(At(p, 0)) + "/saved-builds/" + Template(At(p, 1)), map[]))
    else Err("Unsupported entity for DELETE: " + e)
  }

  /** The routing table of `execute`. */
  function RouteExecute(sql: Sql, params: seq<Value>): (r: Result<Effect>)
    ensures sql.head.None? ==> r == Err("Unsupported SQL operation: " + sql.text)
    ensures sql.head.Some? && sql.head.value.action == InsertInto ==> r == RouteInsert(Lower(sql.head.value.word), params)
    ensures sql.head.Some? && sql.head.value.action == Update ==> r == RouteUpdate(sql, Lower(sql.head.value.word), params)
    ensures sql.head.Some? && sql.head.value.action == DeleteFrom ==> r == RouteDelete(Lower(sql.head.value.word), params)
  {
    match sql.head
    case None => Err("Unsupported SQL operation: " + sql.text)
    case Some(h) =>
      var e := Lower(h.word);
      match h.action
      case InsertInto => RouteInsert(e, params)
      case Update => RouteUpdate(sql, e, params)
      case DeleteFrom => RouteDelete(e, params)
  }

  /** A statement is routed exactly when it starts with a known action and
      names an entity that action supports; inserts post, deletes delete,
      and updates put except the verification flag, which posts. */
  lemma RouteExecuteDefined(sql: Sql, params: seq<Value>)
    ensures RouteExecute(sql, params).Ok? <==>
              sql.head.Some? &&
              Lower(sql.head.value.word) in (match sql.head.value.action
                                             case InsertInto => InsertEntities
                                             case Update => UpdateEntities
                                             case DeleteFrom => DeleteEntities)
    ensures RouteExecute(sql, params).Ok? ==>
              RouteExecute(sql, params).value.verb ==
                match sql.head.value.action
                case InsertInto => POST
                case DeleteFrom => DELETE
                case Update =>
                  if Lower(sql.head.value.word) == "builds" && "is_verified" in sql.probes then POST else PUT
  {
  }

  /** `method !== 'DELETE' && Object.keys(data).length > 0`: the body, if any. */
  function Body(e: Effect): (b: Option<map<string, Value>>)
    ensures b.Some? ==> b.value == e.data
  {
    if e.verb != DELETE && |e.data| > 0 then Some(e.data) else None
  }

  /** A delete, a saved-build insert and a verification change never carry a body. */
  lemma NoBodyWithoutData(sql: Sql, params: seq<Value>)
    requires RouteExecute(sql, params).Ok?
    requires RouteExecute(sql, params).value.verb == DELETE || RouteExecute(sql, params).value.data == map[]
    ensures Body(RouteExecute(sql, params).value).None?
  {
  }

  /** What `execute` resolves to: the new row's id (or 0) and one affected row. */
  datatype ExecResult = ExecResult(insertId: Value, affectedRows: int)

  function ExecResultOf(id: Value): (r: ExecResult)
    ensures r.affectedRows == 1
    ensures Truthy(id) ==> r.insertId == id
    ensures !Truthy(id) ==> r.insertId == Num(0)
  {
    ExecResult(Or(id, Num(0)), 1)
  }

  /** `result.affectedRows > 0` after a write, a failure passed on. */
  function RowsChanged(r: Result<ExecResult>): (ok: Result<bool>)
    ensures ok.Ok? <==> r.Ok?
    ensures ok.Ok? ==> (ok.value <==> r.value.affectedRows > 0)
    ensures ok.Err? ==> ok.error == r.error
  {
    if r.Ok? then Ok(r.value.affectedRows > 0) else Err(r.error)
  }

  /** `execute` reports one affected row for every write it completes, so a
      caller's `affectedRows > 0` holds whenever the write does not fail. */
  lemma CompletedWriteChangesRows(id: Value)
    ensures RowsChanged(Ok(ExecResultOf(id))) == Ok(true)
  {
  }

  /** A request as it leaves the client. */
  datatype Request = Request(verb: Method, url: string, auth: Option<string>, body: Option<map<string, Value>>)

  /** The server's answer: none at all (the fetch rejected), or a status, the
      `error` field of an error body if it has one, and the body. */
  datatype Reply<T> = NoResponse | Response(status: int, error: Option<string>, body: T)

  predicate IsOk<T>(reply: Reply<T>) {
    reply.Response? && 200 <= reply.status <= 299
  }

  /** The message a failed response throws. */
  function ErrorMessage<T>(reply: Reply<T>): string {
    match reply
    case NoResponse => "Failed to fetch"
    case Response(status, error, _) =>
      if error.Some? && error.value != "" then error.value else "HTTP Error: " + IntToString(status)
  }

  class Db {
    const storage: Browser.SessionStorage

    constructor(storage: Browser.SessionStorage)
      ensures this.storage == storage
    {
      this.storage := storage;
    }

    /** The `Authorization` header: present exactly when a token is stored. */
    function AuthHeader(): (h: Option<string>)
      reads storage
      ensures h.Some? <==> storage.Holds(Browser.AuthTokenKey)
      ensures h.Some? ==> h.value == "Bearer " + storage.entries[Browser.AuthTokenKey]
    {
      var token := storage.Get(Browser.AuthTokenKey);
      if token.Some? && token.value != "" then Some("Bearer " + token.value) else None
    }

    /** A non-ok response fails, and a 401 first forgets the signed-in identity;
        an ok response yields its body. */
    method HandleResponse<T>(reply: Reply<T>) returns (r: Result<T>)
      requires reply.Response?
      modifies storage
      ensures IsOk(reply) ==> r == Ok(reply.body)
      ensures !IsOk(reply) ==> r == Err(ErrorMessage(reply))
      ensures storage.entries ==
                if !IsOk(reply) && reply.status == 401 then old(storage.entries) - Browser.IdentityKeys
                else old(storage.entries)
    {
      if !IsOk(reply) {
        if reply.status == 401 {
          storage.ClearIdentity();
        }
        return Err(ErrorMessage(reply));
      }
      return Ok(reply.body);
    }

    /** The routing step of `query`: the endpoint and search parameters for
        an entity, built up one condition at a time. */
    method Endpoint(e: string, probes: set<string>, c: map<string, Value>, params: seq<Value>) returns (t: Result<Target>)
      ensures t == RouteEntity(e, probes, c, params)
    {
      var endpoint := "";
      var query: seq<Pair> := [];
      if e == "heroes" {
        endpoint := "/heroes";
        if Truthy(Cond(c, "id")) { endpoint := endpoint + ("/" + Template(Cond(c, "id"))); }
        assert endpoint == "/heroes" + IdSuffix(Cond(c, "id"));
      } else if e == "items" {
        endpoint := "/items";
        if Truthy(Cond(c, "id")) { endpoint := endpoint + ("/" + Template(Cond(c, "id"))); }
        assert endpoint == "/items" + IdSuffix(Cond(c, "id"));
        if Truthy(Cond(c, "category")) { query := SetParam(query, "category", Template(Cond(c, "category"))); }
      } else if e == "powers" {
        endpoint := "/powers";
        if Truthy(Cond(c, "id")) { endpoint := endpoint + ("/" + Template(Cond(c, "id"))); }
        assert endpoint == "/powers" + IdSuffix(Cond(c, "id"));
      } else if e == "builds" || e == "b" {
        endpoint := "/builds";
        var id := Or(Cond(c, "id"), Cond(c, "b.id"));
        if Truthy(id) { endpoint := endpoint + ("/" + Template(id)); }
        assert endpoint == "/builds" + IdSuffix(id);
        if "is_verified = 0" in probes { query := SetParam(query, "unverified", "true"); }
        if "is_verified = 1" in probes { query := SetParam(query, "verified", "true"); }
        if Truthy(Cond(c, "user_id")) { query := SetParam(query, "user_id", Template(Cond(c, "user_id"))); }
        assert query == BuildsQuery(probes, c);
      } else if e == "rounds" {
        endpoint := "/builds/" + Template(At(params, 0)) + "/rounds";
      } else if e == "rounditems" {
        endpoint := "/rounds/" + Template(At(params, 0)) + "/items";
      } else if e == "roundpowers" {
        endpoint := "/rounds/" + Template(At(params, 0)) + "/powers";
      } else if e == "savedbuilds" {
        if "SELECT 1" in probes && |params| > 1 {
          endpoint := "/users/" + Template(At(params, 0)) + "/saved-builds/" + Template(At(params, 1)) + "/check";
        } else {
          endpoint := "/users/" + Template(At(params, 0)) + "/saved-builds";
        }
      } else if e == "users" {
        endpoint := "/users";
        if Truthy(Cond(c, "id")) { endpoint := endpoint + ("/" + Template(Cond(c, "id"))); }
        assert endpoint == "/users" + IdSuffix(Cond(c, "id"));
        if Truthy(Cond(c, "username")) { query := SetParam(query, "username", Template(Cond(c, "username"))); }
      } else {
        return Err("Unsupported entity: " + e);
      }
      return Ok(Target(endpoint, query));
    }

    /** `query`: builds the conditions, the endpoint and the search parameters
        step by step, sends a GET, and hands back the reply's rows. */
    method Query<T>(sql: Sql, params: seq<Value>, reply: Reply<seq<T>>) returns (sent: Option<Request>, r: Result<seq<T>>)
      modifies storage
      ensures RouteQuery(sql, params).Err? ==>
                sent == None && r == Err(RouteQuery(sql, params).error) && storage.entries == old(storage.entries)
      ensures RouteQuery(sql, params).Ok? ==>
                sent == Some(Request(GET, QueryUrl(RouteQuery(sql, params).value), old(AuthHeader()), None))
      ensures r.Ok? <==> RouteQuery(sql, params).Ok? && IsOk(reply)
      ensures r.Ok? ==> r.value == reply.body
      ensures storage.entries ==
                if sent.Some? && reply.Response? && !IsOk(reply) && reply.status == 401
                then old(storage.entries) - Browser.IdentityKeys else old(storage.entries)
    {
      var entity := if sql.fromWord.Some? then Lower(sql.fromWord.value) else "";
      var conditions: map<string, Value> := map[];
      if |params| > 0 {
        if sql.whereTarget.Some? {
          var field := AfterLastDot(sql.whereTarget.value);
          if field != "" {
            conditions := conditions[field := params[0]];
          }
        }
      }
      assert conditions == Conditions(sql, params);
      assert entity == QueryEntity(sql);
      var routed := Endpoint(entity, sql.probes, conditions, params);
      if routed.Err? {
        return None, Err(routed.error);
      }
      var endpoint, query := routed.value.endpoint, routed.value.query;
      assert RouteQuery(sql, params) == Ok(Target(endpoint, query));
      sent := Some(Request(GET, QueryUrl(Target(endpoint, query)), AuthHeader(), None));
      if reply.NoResponse? {
        return sent, Err(ErrorMessage(reply));
      }
      r := HandleResponse(reply);
    }

    /** The routing step of `execute`: the method, endpoint and data for a
        statement's action and entity. */
    method WriteEffect(sql: Sql, params: seq<Value>) returns (e: Result<Effect>)
      ensures e == RouteExecute(sql, params)
    {
      if sql.head.None? {
        return Err("Unsupported SQL operation: " + sql.text);
      }
      var action := sql.head.value.action;
      var entity := Lower(sql.head.value.word);
      var verb := POST;
      var endpoint := "";
      var data: map<string, Value> := map[];
      match action {
        case InsertInto =>
          verb := POST;
          if entity == "builds" {
            endpoint := "/builds";
            data := map["user_id" := At(params, 0), "hero_id" := At(params, 1), "title" := At(params, 2),
                        "is_verified" := Bool(At(params, 3) == Num(1))];
          } else if entity == "rounds" {
            endpoint := "/builds/" + Template(At(params, 0)) + "/rounds";
            data := map["round_number" := At(params, 1), "explanation" := At(params, 2)];
          } else if entity == "rounditems" {
            endpoint := "/rounds/" + Template(At(params, 0)) + "/items";
            data := map["item_id" := At(params, 1)];
          } else if entity == "roundpowers" {
            endpoint := "/rounds/" + Template(At(params, 0)) + "/powers";
            data := map["power_id" := At(params, 1)];
          } else if entity == "savedbuilds" {
            endpoint := "/users/" + Template(At(params, 0)) + "/saved-builds/" + Template(At(params, 1));
            verb := POST;
            data := map[];
          } else if entity == "users" {
            endpoint := "/register";
            data := map["username" := At(params, 0), "password" := At(params, 1)];
          } else if entity == "items" {
            endpoint := "/items";
            data := ItemData(params);
          } else if entity == "powers" {
            endpoint := "/powers";
            data := PowerData(params);
          } else {
            return Err("Unsupported entity for INSERT: " + entity);
          }
        case Update =>
          verb := PUT;
          if entity == "builds" {
            if "is_verified" in sql.probes {
              endpoint := "/builds/" + Template(At(params, 1)) + "/"
                          + (if At(params, 0) == Num(1) then "verify" else "unverify");
              verb := POST;
            } else {
              endpoint := "/builds/" + Template(Last(params));
              data := map["hero_id" := At(params, 0), "title" := At(params, 1),
                          "is_verified" := Bool(At(params, 2) == Num(1))];
            }
          } else if entity == "items" {
            endpoint := "/items/" + Template(Last(params));
            data := ItemData(params);
          } else if entity == "powers" {
            endpoint := "/powers/" + Template(Last(params));
            data := PowerData(params);
          } else {
            return Err("Unsupported entity for UPDATE: " + entity);
          }
        case DeleteFrom =>
          verb := DELETE;
          if entity == "items" {
            endpoint := "/items/" + Template(At(params, 0));
          } else if entity == "powers" {
            endpoint := "/powers/" + Template(At(params, 0));
          } else if entity == "savedbuilds" {
            endpoint := "/users/" + Template(At(params, 0)) + "/saved-builds/" + Template(At(params, 1));
          } else {
            return Err("Unsupported entity for DELETE: " + entity);
          }
      }
      return Ok(Effect(verb, endpoint, data));
    }

    /** `execute`: the routed write is sent with the auth header and, unless it
        deletes, a body when there is data. The reply's body stands for the
        `id` field of the parsed answer, which becomes the insert id. */
    method Execute(sql: Sql, params: seq<Value>, reply: Reply<Value>) returns (sent: Option<Request>, r: Result<ExecResult>)
      modifies storage
      ensures RouteExecute(sql, params).Err? ==>
                sent == None && r == Err(RouteExecute(sql, params).error) && storage.entries == old(storage.entries)
      ensures RouteExecute(sql, params).Ok? ==>
                sent == Some(Request(RouteExecute(sql, params).value.verb,
                                     ApiUrl + RouteExecute(sql, params).value.endpoint,
                                     old(AuthHeader()), Body(RouteExecute(sql, params).value)))
      ensures r.Ok? <==> RouteExecute(sql, params).Ok? && IsOk(reply)
      ensures r.Ok? ==> r.value == ExecResultOf(reply.body)
      ensures storage.entries ==
                if sent.Some? && reply.Response? && !IsOk(reply) && reply.status == 401
                then old(storage.entries) - Browser.IdentityKeys else old(storage.entries)
    {
      var routed := WriteEffect(sql, params);
      if routed.Err? {
        return None, Err(routed.error);
      }
      var verb, endpoint, data := routed.value.verb, routed.value.endpoint, routed.value.data;
      var body := if verb != DELETE && |data| > 0 then Some(data) else None;
      sent := Some(Request(verb, ApiUrl + endpoint, AuthHeader(), body));
      if reply.NoResponse? {
        return sent, Err(ErrorMessage(reply));
      }
      var result := HandleResponse(reply);
      if result.Err? {
        return sent, Err(result.error);
      }
      r := Ok(ExecResult(Or(result.value, Num(0)), 1));
    }

    /** `verifyToken`: false without a token (nothing sent); a rejected token
        is forgotten with the rest of the identity; an unreachable server
        yields false and forgets nothing. */
    method VerifyToken(reply: Reply<()>) returns (sent: bool, ok: bool)
      modifies storage
      ensures sent <==> old(storage.Holds(Browser.AuthTokenKey))
      ensures ok <==> sent && IsOk(reply)
      ensures storage.entries ==
                if sent && reply.Response? && !IsOk(reply) then old(storage.entries) - Browser.IdentityKeys
                else old(storage.entries)
    {
      var token := storage.Get(Browser.AuthTokenKey);
      if token.None? || token.value == "" {
        return false, false;
      }
      sent := true;
      if reply.NoResponse? {
        return sent, false;
      }
      if !IsOk(reply) {
        storage.ClearIdentity();
        return sent, false;
      }
      ok := true;
    }
  }
}
