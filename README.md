# Overwatch Stadium Builder — a Dafny model of the front end's core

Overwatch Stadium Builder is a React single-page application. Players use it to write "builds" for
the Stadium mode. A build has seven rounds. Each round holds items, powers and an explanation.
Other players can read, save and delete builds, and admins verify them.

The application never talks to a database itself. Its services (`BuildService`, `ItemService`,
`PowerService`) write SQL strings. The `DatabaseService` singleton reads those strings and turns
each one into a request to a REST API. The pages and components hold the state behind the screens:
- the build editor (`BuildCreator`, `RoundEditor`);
- the build page (`BuildViewer`);
- the two route guards (`ProtectedRoute`, `AdminRoute`);
- the admin pages (`AdminBuilds`, `AdminItemPowers`);
- the hero grid (`HeroGrid`);
- the status page (`Status`).

The session lives in `AuthContext` and in the browser's `sessionStorage`.

This project models that core in Dafny, one module per source file, plus these shared modules:
- `Wrappers`: `Option` and `Result`.
- `Js`: JSON values, JavaScript truthiness, `trim()`-blankness, and decimal text for integers.
- `Seqs`: the JavaScript array operations `filter` and `map`, plus a stable sort by rank.
- `Types`: the entities of `src/types/index.ts`.
- `Browser`: `sessionStorage`, as a class with one map field.

How the model is shaped:
- **Pure parts are functions.** This covers the SQL-to-REST router, the services' result mapping,
  the round editor's edits, the gap filling on submit, the filters, and the route decisions.
- **Stateful parts are classes.** A component's `useState` variables become the fields of a class.
  The store, the editor, the viewer, the admin pages and the grid are classes like this. Their
  handlers are methods that say exactly what the new state is.
- **Loops are methods.** A loop in the source (the cost sum, the gap filling, the round slots, the
  item and power lookups, the statements `createBuild` issues) is a method. Each is proved equal
  to the function that specifies it.
- **Requests are values.** A request a handler sends is returned as a value. The server's answer
  is a parameter, so the model covers both its success and its failure.

## Model

| member | source | states |
|---|---|---|
| Database.AfterLastDot | src/services/DatabaseService.ts:52 | a `WHERE` field loses its table prefix: the result is a dot-free suffix of the input, and `a.b` gives `b` |
| Database.AfterLastDotOf | src/services/DatabaseService.ts:52 | splitting at the last dot and taking the tail returns exactly the part after it |
| Database.Conditions | src/services/DatabaseService.ts:47-57 | only the first parameter is ever bound, to at most one field, and nothing is bound without parameters |
| Database.SetParam | src/services/DatabaseService.ts:101-115 | a query parameter, once set, is present, and setting one adds at most one pair |
| Database.RouteQueryDefined | src/services/DatabaseService.ts:63-119 | a query is routed exactly when its `FROM` entity is one of the ten names the table knows (`b` is the builds alias); otherwise it is the error `Unsupported entity: <entity>` |
| Database.RouteEntity | src/services/DatabaseService.ts:59-119 | a known entity gets an endpoint starting with `/`, search parameters only for items, builds and users; any other entity is the error `Unsupported entity: <entity>` |
| Database.RouteQuery | src/services/DatabaseService.ts:42-119 | a query is routed exactly when its lower-cased `FROM` word is a known entity; with no `FROM` it is `Unsupported entity: ` |
| Database.BuildsIdIsId | src/services/DatabaseService.ts:80-87 | for builds, `id` and `b.id` are the same condition |
| Database.QueryString | src/services/DatabaseService.ts:122 | the query string is empty exactly when there are no parameters |
| Database.QueryUrl | src/services/DatabaseService.ts:122-123 | the address is the API base plus the endpoint, with `?query` added only when parameters exist |
| Database.RouteExecuteDefined | src/services/DatabaseService.ts:140-291 | a write is routed exactly for the supported insert, update and delete shapes, and with the verb that action calls for |
| Database.RouteInsert | src/services/DatabaseService.ts:154-225 | an insert is routed exactly for the eight insertable entities, always as a POST; otherwise `Unsupported entity for INSERT: <entity>` |
| Database.RouteUpdate | src/services/DatabaseService.ts:227-270 | an update is routed exactly for builds, items and powers; it is a bodiless POST for a builds statement touching `is_verified`, else a PUT; otherwise `Unsupported entity for UPDATE: <entity>` |
| Database.RouteDelete | src/services/DatabaseService.ts:272-291 | a delete is routed exactly for items, powers and saved builds, as a bodiless DELETE; otherwise `Unsupported entity for DELETE: <entity>` |
| Database.RouteExecute | src/services/DatabaseService.ts:139-291 | no leading `INSERT INTO`/`UPDATE`/`DELETE FROM`: `Unsupported SQL operation: <sql>`; otherwise the action's table decides, on the lower-cased entity |
| Database.Body | src/services/DatabaseService.ts:304-306 | a body is attached only with the effect's own data |
| Database.NoBodyWithoutData | src/services/DatabaseService.ts:304-306 | a DELETE, or a write with no data, sends no body |
| Database.ExecResultOf | src/services/DatabaseService.ts:312-315 | one affected row, with a falsy `id` read as insert id 0 |
| Database.RowsChanged | src/services/ItemService.ts:83-94 | the update and delete outcome is `affectedRows > 0` on success, and the same error otherwise |
| Database.CompletedWriteChangesRows | src/services/DatabaseService.ts:312-315 | every completed write reports a change |
| Database.Db.AuthHeader | src/services/DatabaseService.ts:15-18 | an `Authorization: Bearer <token>` header exists exactly when a token is stored |
| Database.Db.HandleResponse | src/services/DatabaseService.ts:20-37 | an ok reply yields its body; otherwise an error with the server's message or `HTTP Error: <status>`; a 401 clears the four identity keys and nothing else |
| Database.Db.Query | src/services/DatabaseService.ts:39-134 | the GET the router chooses is sent; the result is the reply's body exactly when the route exists and the reply is ok |
| Database.Db.Endpoint | src/services/DatabaseService.ts:59-119 | the endpoint and search parameters built one condition at a time are the routing table's row for the entity, or its "Unsupported entity" error |
| Database.Db.WriteEffect | src/services/DatabaseService.ts:139-291 | the method, endpoint and data picked by action and entity are the write routing table's, or its "Unsupported" errors |
| Database.Db.Execute | src/services/DatabaseService.ts:136-320 | the routed write is sent, with a body only when allowed; success yields `ExecResultOf` of the reply |
| Database.Db.VerifyToken | src/services/DatabaseService.ts:322-345 | `/me` is asked only with a stored token; the result is true exactly for an ok answer; only a received non-ok answer clears the identity keys, while no answer at all leaves storage as it was |
| ItemService.GetAllItems | src/services/ItemService.ts:7-18 | the rows on success, an empty list on failure |
| ItemService.GetItemsByCategory | src/services/ItemService.ts:20-31 | the rows on success, an empty list on failure, exactly as `getAllItems` treats its answer |
| ItemService.GetItemsByHero | src/services/ItemService.ts:33-58 | as written: with no hero, each fetched row comes back in its place with only `heroId` and `heroName` cleared; with a hero, the rows unchanged; a failed read gives no items |
| ItemService.GeneralItems | src/services/ItemService.ts:35-42 | corrected: exactly the items that have no hero, never more than were fetched |
| ItemService.GeneralItemsCorrect | src/services/ItemService.ts:35-42 | an item is listed as general exactly when some fetched item is heroless and matches it |
| ItemService.GeneralListingRelabelsHeroItems | src/services/ItemService.ts:33-42 | the "general" request equals the all-items request, and a hero-specific item comes back relabelled as general |
| ItemService.AllItemsRoute | src/services/ItemService.ts:9 | `getAllItems` is routed to `GET /items` |
| ItemService.NoConditionRoute | src/services/DatabaseService.ts:69-73 | items with no condition go to `/items` |
| ItemService.ItemsByCategoryRoute | src/services/ItemService.ts:22 | a category listing goes to `/items?category=<name>` |
| ItemService.CategoryRoute | src/services/DatabaseService.ts:69-73 | a non-empty category condition becomes the `category` query parameter |
| ItemService.ItemsByHeroRoute | src/services/ItemService.ts:33-47 | the hero listing is routed to plain `/items`, whatever the hero |
| ItemService.HeroItemsRoute | src/services/ItemService.ts:44-47 | the hero query binds `hero_id`, which the items row ignores, so it reaches plain `/items` |
| ItemService.GetItemById | src/services/ItemService.ts:60-73 | the first row when there is one; nothing when the list is empty or the query failed |
| ItemService.ItemByIdRoute | src/services/ItemService.ts:62 | a non-zero id goes to `/items/<id>` |
| ItemService.LowerItems | src/services/DatabaseService.ts:43-44 | the table name `Items` is matched as `items` |
| ItemService.AddItemRoute | src/services/ItemService.ts:75-81 | `addItem` POSTs the six fields to `/items` with a body |
| ItemService.ItemDataOf | src/services/DatabaseService.ts:201-211 | the insert's body names the first six parameters by their fields |
| ItemService.UpdateItemRoute | src/services/ItemService.ts:83-89 | `updateItem` PUTs to `/items/<id>` with the item's fields |
| ItemService.DeleteItemRoute | src/services/ItemService.ts:91-94 | `deleteItem` DELETEs `/items/<id>` with no body |
| ItemService.AddItem | src/services/ItemService.ts:75-81 | the new id is the write's insert id; a failed write is rethrown |
| PowerService.GetAllPowers | src/services/PowerService.ts:7-18 | the rows on success, an empty list on failure |
| PowerService.GetPowersByHero | src/services/PowerService.ts:20-45 | as written: with no hero, each fetched row comes back in its place with only `heroId` and `heroName` cleared; with a hero, the rows unchanged; a failed read gives no powers |
| PowerService.GeneralPowers | src/services/PowerService.ts:22-29 | corrected: exactly the powers that have no hero |
| PowerService.GeneralPowersCorrect | src/services/PowerService.ts:22-29 | a power is listed as general exactly when some fetched power is heroless and matches it |
| PowerService.GeneralListingRelabelsHeroPowers | src/services/PowerService.ts:20-29 | the "general" request equals the all-powers request, and a hero power is relabelled as general |
| PowerService.LowerPowers | src/services/DatabaseService.ts:43-44 | the table name `Powers` is matched as `powers` |
| PowerService.NoConditionRoute | src/services/DatabaseService.ts:75-78 | powers with no condition go to `/powers` |
| PowerService.PowerListRoutes | src/services/PowerService.ts:9-32 | both power listings go to plain `/powers` |
| PowerService.HeroPowersRoute | src/services/PowerService.ts:31-34 | the hero query binds `hero_id`, which the powers row ignores, so it reaches plain `/powers` |
| PowerService.GetPowerById | src/services/PowerService.ts:47-60 | the first row, or nothing |
| PowerService.PowerByIdRoute | src/services/PowerService.ts:49 | a non-zero id goes to `/powers/<id>` |
| PowerService.PowerDataOf | src/services/DatabaseService.ts:213-220 | the insert's body names the first three parameters by their fields |
| PowerService.AddPowerRoute | src/services/PowerService.ts:62-73 | `addPower` POSTs name, description and hero to `/powers` |
| PowerService.UpdatePowerRoute | src/services/PowerService.ts:75-86 | `updatePower` PUTs to `/powers/<id>` |
| PowerService.DeletePowerRoute | src/services/PowerService.ts:88-96 | `deletePower` DELETEs `/powers/<id>` with no body |
| PowerService.AddPower | src/services/PowerService.ts:62-73 | the new id is the write's insert id; a failure is rethrown |
| PowerService.Changed | src/services/PowerService.ts:75-96 | update and delete report true exactly when the write succeeded with rows changed; an error becomes false |
| PowerService.ChangedReportsOutcome | src/services/PowerService.ts:75-96 | a completed write reports true, a failed one false |
| RoundEditor.MaxPowersForRound | src/components/RoundEditor.tsx:38-43 | the power cap is between 1 and 4: 1 up to round 2, 4 from round 7 |
| RoundEditor.MaxPowersMonotone | src/components/RoundEditor.tsx:38-43 | a later round never allows fewer powers |
| RoundEditor.MaxPowersSteps | src/components/RoundEditor.tsx:38-43 | for rounds 1 to 7 the cap is (n+1)/2 |
| RoundEditor.AddItem | src/components/RoundEditor.tsx:55-84 | an item is added exactly when it is not already there and there are fewer than 6; a duplicate is refused as already selected; added means appended |
| RoundEditor.AddItemKeepsInvariants | src/components/RoundEditor.tsx:55-84 | adding keeps the caps and the items distinct |
| RoundEditor.FindPower | src/components/RoundEditor.tsx:90 | the power with that id, or nothing exactly when there is none |
| RoundEditor.AddPower | src/components/RoundEditor.tsx:86-123 | no selection is refused; otherwise the power is added exactly when it exists, is new and is under the round's cap; the selection clears only on success |
| RoundEditor.AddPowerKeepsInvariants | src/components/RoundEditor.tsx:86-123 | adding keeps the caps and the powers distinct |
| RoundEditor.RemoveItem | src/components/RoundEditor.tsx:125-133 | only the items change: every entry with the id is gone, every other entry stays as often as before, and the survivors keep their order (a subsequence of the old list) |
| RoundEditor.RemoveItemMembers | src/components/RoundEditor.tsx:125-133 | an item survives exactly when its id differs |
| RoundEditor.RemoveAbsentItem | src/components/RoundEditor.tsx:125-133 | removing an absent id leaves the round as it was |
| RoundEditor.RemoveItemKeepsCaps | src/components/RoundEditor.tsx:125-133 | removing keeps the caps |
| RoundEditor.RemovePower | src/components/RoundEditor.tsx:135-143 | only the powers change: every entry with the id is gone, every other entry stays as often as before, and the survivors keep their order |
| RoundEditor.RemovePowerMembers | src/components/RoundEditor.tsx:135-143 | a power survives exactly when its id differs |
| RoundEditor.RemovePowerKeepsCaps | src/components/RoundEditor.tsx:135-143 | removing keeps the caps |
| RoundEditor.RemoveKeepsDistinct | src/components/RoundEditor.tsx:125-143 | removing an item or a power keeps the round's item ids and power ids distinct |
| RoundEditor.SetExplanation | src/components/RoundEditor.tsx:47-53 | only the explanation changes |
| RoundEditor.FilteredPowers | src/components/RoundEditor.tsx:28 | only general powers or the selected hero's, taken from the list |
| RoundEditor.FilteredPowersMembers | src/components/RoundEditor.tsx:28 | a power is offered exactly when it is in the list and general or the hero's |
| RoundEditor.OfferedFor | src/components/RoundEditor.tsx:28 | an entry tied to a hero is offered only for that hero; an entry with no hero or hero 0 is offered for every hero |
| RoundEditor.ItemsByCategory | src/components/RoundEditor.tsx:146-162 | the picker list takes each catalogue item at most as often as it occurs, and only offered items of the category |
| RoundEditor.ItemsByCategoryCorrect | src/components/RoundEditor.tsx:146-162 | the category's offered items, a permutation of the filtered list, ordered common, rare, epic |
| BuildCreator.NewRounds | src/components/BuildCreator.tsx:57-65 | seven empty rounds, numbered 1 to 7 in their slots |
| BuildCreator.UpdateRound | src/components/BuildCreator.tsx:137-143 | the rounds with that number are replaced, and the others are kept |
| BuildCreator.UpdateRoundSlotted | src/components/BuildCreator.tsx:137-143 | with slotted rounds, only the round's own slot changes, and an out-of-range number changes nothing |
| BuildCreator.UpdateRoundSound | src/components/BuildCreator.tsx:137-143 | storing a sound round keeps every round within caps and without duplicates |
| BuildCreator.IndexOfRound | src/components/BuildCreator.tsx:106 | `find`: the first round with that number, or none when no round has it |
| BuildCreator.IndexOfSameNumbers | src/components/BuildCreator.tsx:106 | lists with the same numbers find at the same place |
| BuildCreator.IndexOfSlotted | src/components/BuildCreator.tsx:106 | in slotted rounds, round n is at n-1 |
| BuildCreator.ItemsCost | src/components/BuildCreator.tsx:110-112 | a single item costs its own cost (0 when missing); non-negative costs never sum below 0 |
| BuildCreator.ActiveCost | src/components/BuildCreator.tsx:103-117 | no round with the selected number costs 0; with non-negative item costs the shown cost is never negative |
| BuildCreator.ItemsCostAppend | src/components/BuildCreator.tsx:110-112 | the cost sum is additive over concatenation |
| BuildCreator.ItemsCostBound | src/components/BuildCreator.tsx:110-112 | with each cost at most c, the total is at most count times c |
| BuildCreator.RoundCost | src/components/BuildCreator.tsx:103-117 | the loop computes the cost of the active round, a missing cost as 0, and 0 when no round matches |
| BuildCreator.Numbers | src/components/BuildCreator.tsx:182 | the round numbers, in order |
| BuildCreator.FilledNumbersMembers | src/components/BuildCreator.tsx:176-182 | a number is listed exactly when some round with it has content |
| BuildCreator.MinOf | src/components/BuildCreator.tsx:186 | the least of the numbers |
| BuildCreator.MaxOf | src/components/BuildCreator.tsx:187 | the greatest of the numbers |
| BuildCreator.Dashed | src/components/BuildCreator.tsx:190-203 | the loop's result keeps the round count |
| BuildCreator.DashedNone | src/components/BuildCreator.tsx:190 | an empty range changes nothing |
| BuildCreator.GapFill | src/components/BuildCreator.tsx:172-204 | the submitted rounds keep their count; each round is unchanged or only gets the explanation "-", and a round with content is never changed |
| BuildCreator.FillOne | src/components/BuildCreator.tsx:191-202 | one step keeps the round count |
| BuildCreator.DashedStep | src/components/BuildCreator.tsx:190-203 | each loop step fills one more round number |
| BuildCreator.FillUpTo | src/components/BuildCreator.tsx:190-203 | the passes so far keep the round count |
| BuildCreator.FillUpToDashed | src/components/BuildCreator.tsx:190-203 | the passes for `lo..i` dash exactly the gaps numbered `lo..i` |
| BuildCreator.FillRange | src/components/BuildCreator.tsx:190-203 | the loop over the array leaves it as the passes for `lo..hi` make it |
| BuildCreator.FillGaps | src/components/BuildCreator.tsx:172-204 | the copied rounds come out gap-filled |
| BuildCreator.GapFillChangesOnlyGaps | src/components/BuildCreator.tsx:172-204 | only empty rounds change, and only their explanation, which becomes "-" |
| BuildCreator.GapFillOutsideRange | src/components/BuildCreator.tsx:190 | rounds before the first filled round are untouched |
| BuildCreator.GapFillLeavesNoGap | src/components/BuildCreator.tsx:172-204 | with slotted rounds, every round from the first to the last filled one has content afterwards |
| BuildCreator.GapFillKeepsRange | src/components/BuildCreator.tsx:172-204 | the filled range is the same before and after |
| BuildCreator.GapFillNoDashLeft | src/components/BuildCreator.tsx:190-203 | every round left empty lies outside the filled range |
| BuildCreator.GapFillIdempotent | src/components/BuildCreator.tsx:172-204 | filling twice is filling once |
| BuildCreator.GapFillSlotted | src/components/BuildCreator.tsx:172-204 | for slotted rounds, round k gets "-" exactly when it is empty and inside the filled range |
| BuildCreator.FilledSpan | src/components/BuildCreator.tsx:176-182 | content confined to slots `a..b`, present at both ends, gives the range `a+1..b+1` |
| BuildCreator.GapFillBetween | src/components/BuildCreator.tsx:172-204 | then exactly the empty slots strictly between `a` and `b` get "-" |
| BuildCreator.SecondAndFifthFilled | src/components/BuildCreator.tsx:57-65 | a new build with two non-blank explanations has content in those two slots only |
| BuildCreator.GapFillExample | src/components/BuildCreator.tsx:172-204 | for any non-blank explanations in rounds 2 and 5, exactly rounds 3 and 4 are sent with "-" |
| BuildCreator.BuildEditor.New | src/components/BuildCreator.tsx:46-65 | a new build: seven empty rounds, tab 1, no hero, not submitting, cost shown for tab 1 |
| BuildCreator.BuildEditor.Edit | src/components/BuildCreator.tsx:46-65 | an edited build's own rounds, and its hero when that id is truthy |
| BuildCreator.BuildEditor.SelectRound | src/components/BuildCreator.tsx:103-117 | switching tabs recomputes the cost shown |
| BuildCreator.BuildEditor.SelectHero | src/components/BuildCreator.tsx:128-135 | a hero choice changes only the selected hero |
| BuildCreator.BuildEditor.Store | src/components/BuildCreator.tsx:137-143 | an edit stores the round and keeps the cost shown current |
| BuildCreator.BuildEditor.AddItem | src/components/RoundEditor.tsx:55-84 | the round editor's item add is applied to the editor's rounds, keeping slots and soundness |
| BuildCreator.BuildEditor.AddPower | src/components/RoundEditor.tsx:86-123 | the round editor's power add is applied, keeping slots and soundness |
| BuildCreator.BuildEditor.RemoveItem | src/components/RoundEditor.tsx:125-133 | the removal is applied to the rounds; the slot numbering and the caps-and-distinct-ids invariant of every round are kept |
| BuildCreator.BuildEditor.RemovePower | src/components/RoundEditor.tsx:135-143 | the removal is applied to the rounds; the slot numbering and the caps-and-distinct-ids invariant are kept |
| BuildCreator.BuildEditor.SetExplanation | src/components/RoundEditor.tsx:47-53 | the explanation is applied to the rounds; the slot numbering and the caps-and-distinct-ids invariant are kept |
| BuildCreator.BuildEditor.Submit | src/components/BuildCreator.tsx:145-220 | no explanation: refused; no user: sent to log in; otherwise PUT to `/builds/<id>` when editing, POST `/builds` when not, with the gap-filled rounds; submitting only when sent |
| BuildCreator.BuildEditor.SubmitSettled | src/components/BuildCreator.tsx:260-262 | the request has settled: not submitting |
| BuildService.Normalise | src/services/BuildService.ts:21-33 | a row becomes a build, verified exactly when `is_verified === 1` |
| BuildService.StrictVerifiedFlag | src/services/BuildService.ts:32 | `true` and `"1"` are not verified; only the number 1 is |
| BuildService.GetBuilds | src/services/BuildService.ts:11-40 | one build per row, each normalised with its rounds; it succeeds exactly when the listing and every row's rounds read succeed, and otherwise passes on the listing's error or that of a failed rounds read |
| BuildService.GetUnverifiedBuilds | src/services/BuildService.ts:42-72 | the same over the unverified listing, every build marked unverified; any failed rounds read fails the listing |
| BuildService.GetBuildById | src/services/BuildService.ts:74-106 | nothing for no rows, else the first row normalised with its rounds; a failed listing or a failed rounds read for that row is passed on |
| BuildService.NormaliseRows | src/services/BuildService.ts:20-34 | `Promise.all` over the rows: all rows normalised in order when every rounds read succeeds, otherwise the error of some failed read |
| BuildService.LowerBuilds | src/services/DatabaseService.ts:43-44 | `Builds` matches `builds` |
| BuildService.BuildListRoutes | src/services/BuildService.ts:11-72 | the listings go to `/builds` and `/builds?unverified=true` |
| BuildService.BuildByIdRoute | src/services/BuildService.ts:74-86 | one build goes to `/builds/<id>` |
| BuildService.UserBuildsRoute | src/services/BuildService.ts:108-139 | a user's builds are read from `/builds?user_id=<id>` |
| BuildService.LowerRounds | src/services/DatabaseService.ts:43-44 | `Rounds` matches `rounds` |
| BuildService.LowerRoundItems | src/services/DatabaseService.ts:43-44 | `RoundItems` matches `rounditems` |
| BuildService.LowerRoundPowers | src/services/DatabaseService.ts:43-44 | `RoundPowers` matches `roundpowers` |
| BuildService.RoundsRoute | src/services/BuildService.ts:328 | a build's rounds go to `/builds/<id>/rounds` |
| BuildService.RoundItemsRoute | src/services/BuildService.ts:397-404 | a round's item links are read from `/rounds/<id>/items` |
| BuildService.RoundPowersRoute | src/services/BuildService.ts:417-424 | a round's power links are read from `/rounds/<id>/powers` |
| BuildService.BlankSlots | src/services/BuildService.ts:333-340 | seven blank rounds, numbered 1 to 7 |
| BuildService.Slots | src/services/BuildService.ts:333-357 | always seven rounds |
| BuildService.LastNumbered | src/services/BuildService.ts:343-357 | the last stored round with a number, or none |
| BuildService.SlotsLastWins | src/services/BuildService.ts:343-357 | slot k holds the last stored round numbered k+1, or stays blank |
| BuildService.SlotsAreSlotted | src/services/BuildService.ts:333-357 | the result is numbered by slot, as the editor expects |
| BuildService.RoundsForBuild | src/services/BuildService.ts:325-364 | the loop computes the seven slots |
| BuildService.Found | src/services/BuildService.ts:405-408 | never more found than looked up |
| BuildService.FoundMembers | src/services/BuildService.ts:405-408 | found exactly when a lookup returned it |
| BuildService.FoundAppend | src/services/BuildService.ts:405-408 | lookups concatenate |
| BuildService.ItemsForRound | src/services/BuildService.ts:397-415 | the loop keeps each item found, in order, and skips the misses |
| BuildService.PowersForRound | src/services/BuildService.ts:417-435 | the same for powers |
| BuildService.CreateBuildRoute | src/services/BuildService.ts:188-208 | the build insert is POSTed to `/builds` |
| BuildService.LowerOfLower | src/services/DatabaseService.ts:43-44 | lower-case text is unchanged by lower-casing |
| BuildService.RoundStatementRoutes | src/services/BuildService.ts:366-395 | the round, item-link and power-link inserts go to their endpoints |
| BuildService.CreateRound | src/services/BuildService.ts:366-395 | the loop issues the round insert, then one link per item, then one per power |
| BuildService.PersistedRounds | src/services/BuildService.ts:199 | a round is written exactly when it has a non-blank explanation; a round added last is written last, exactly when it has one |
| BuildService.Persisted | src/services/BuildService.ts:199 | each written round has a non-blank explanation and is one of the given rounds, and they keep their input order (a subsequence) |
| BuildService.PersistedCount | src/services/BuildService.ts:199 | a round with an explanation is written as often as it occurs, any other never |
| BuildService.RoundsStatementsStep | src/services/BuildService.ts:199-201 | the statement list grows round by round |
| BuildService.CreateBuild | src/services/BuildService.ts:188-208 | the build insert first, then the statements of each explained round |
| BuildService.RoundInserts | src/services/BuildService.ts:366-375 | one round insert per round |
| BuildService.RoundStatementsOneInsert | src/services/BuildService.ts:366-395 | each round issues exactly one round insert |
| BuildService.RoundInsertsInOrder | src/services/BuildService.ts:199-201 | the round inserts are issued in round order |
| BuildService.CreateBuildWritesPersisted | src/services/BuildService.ts:188-208 | `createBuild` inserts exactly the explained rounds, in order |
| BuildService.VerificationRoutes | src/services/BuildService.ts:232-256 | verify and unverify POST to `/builds/<id>/verify` and `/unverify` without a body |
| BuildService.DeleteBuild | src/services/BuildService.ts:210-230 | sent only with a stored token; DELETE `/builds/<id>`; true exactly on an ok reply |
| BuildService.ToggleSaved | src/services/BuildService.ts:258-300 | save POSTs and unsave DELETEs `/users/<u>/saved-builds/<b>`; true exactly on ok |
| BuildService.IsBuildSaved | src/services/BuildService.ts:302-323 | true exactly when a request went out, was ok, and said saved |
| AuthContext.Restore | src/contexts/AuthContext.tsx:52-76 | signed in exactly when token, user id and username are all stored; signed out otherwise |
| AuthContext.Bearer | src/components/BuildViewer.tsx:54 | the header text, "Bearer null" without a token |
| AuthContext.ReloadAfterLogin | src/contexts/AuthContext.tsx:145-155 | what login stores restores the same identity on reload |
| AuthContext.ReloadAfterLogout | src/contexts/AuthContext.tsx:255-264 | after logout a reload is signed out |
| AuthContext.AuthStore.constructor | src/contexts/AuthContext.tsx:42-47 | signed out and loading |
| AuthContext.AuthStore.Init | src/contexts/AuthContext.tsx:52-76 | the identity is the one restored from storage, and loading is over; the start-up token check (`VerifyToken`) is called exactly when a session was restored, which then holds a non-empty token |
| AuthContext.AuthStore.Adopt | src/contexts/AuthContext.tsx:145-155 | a session is stored and adopted |
| AuthContext.AuthStore.Login | src/contexts/AuthContext.tsx:121-174 | POST `/login`; on ok the session is stored and adopted; otherwise nothing changes |
| AuthContext.AuthStore.Register | src/contexts/AuthContext.tsx:176-238 | mismatched passwords send nothing; on ok the new user is signed in as a non-admin |
| AuthContext.AuthStore.Logout | src/contexts/AuthContext.tsx:240-271 | POST `/logout` only with a token; always signed out, with the identity keys cleared |
| AuthContext.AuthStore.VerifyToken | src/contexts/AuthContext.tsx:78-95 | a valid token keeps the identity; an invalid one signs out |
| Browser.SessionStorage.ClearIdentity | src/services/DatabaseService.ts:24-27 | the four identity keys are removed and nothing else |
| ProtectedRoute.Decide | src/components/ProtectedRoute.tsx:35-53 | spinner while loading or verifying; otherwise children exactly when signed in with a token and user id, else to login with the page recorded |
| ProtectedRoute.ToastOnlyWithRedirect | src/components/ProtectedRoute.tsx:24-32 | the toast appears only together with the login redirect |
| ProtectedRoute.SignedOutRedirects | src/components/ProtectedRoute.tsx:48-50 | a signed-out visitor is sent to login |
| ProtectedRoute.LoginOpens | src/components/ProtectedRoute.tsx:35-53 | a login with a token and id opens the page |
| ProtectedRoute.RestoredOpens | src/components/ProtectedRoute.tsx:35-53 | a restored session opens the page exactly when its stored token and id are usable |
| ProtectedRoute.Guard.OnAuthChange | src/components/ProtectedRoute.tsx:17-22 | verification starts exactly when loading is over, a token is held and none is running, and ends when done; once started, the token is valid exactly when one is stored and the answer is ok, a valid token keeps the identity and any other outcome signs out, and only a received rejection clears the stored identity; when not started nothing changes |
| AdminRoute.Decide | src/components/AdminRoute.tsx:27-47 | spinner while loading; login without a session; home for a non-admin; children for an admin |
| AdminRoute.ToastMatchesRedirect | src/components/AdminRoute.tsx:16-24 | the toast appears only with a redirect |
| AdminRoute.AdminImpliesSignedIn | src/components/AdminRoute.tsx:37-47 | an admin the admin route admits is also admitted by the protected route |
| AdminRoute.NonAdminSentHome | src/components/AdminRoute.tsx:42-44 | a signed-in non-admin goes home |
| BuildViewer.TotalCostBounds | src/components/BuildViewer.tsx:72-74 | no priced items total 0, and non-negative costs never total negative |
| BuildViewer.TotalCost | src/components/BuildViewer.tsx:72-74 | a round without items totals 0; non-negative costs never total below 0 |
| BuildViewer.TotalCostAgreesWithEditor | src/components/BuildViewer.tsx:72-74 | the viewer's total equals the editor's cost for the same round |
| BuildViewer.DeletePermission | src/components/BuildViewer.tsx:35 | the author or an admin may delete, and no one else |
| BuildViewer.CanDelete | src/components/BuildViewer.tsx:35 | a non-admin may delete only when signed in as the build's author; signed out, only an admin may |
| BuildViewer.ValidRounds | src/components/BuildViewer.tsx:38 | the shown rounds are the explained ones, each as often as it occurs, in the build's order (a subsequence) |
| BuildViewer.ValidRoundsMembers | src/components/BuildViewer.tsx:38 | the rounds shown are exactly the rounds `createBuild` writes |
| BuildViewer.FirstValidRound | src/components/BuildViewer.tsx:41-45 | the first round shown is the first explained round |
| BuildViewer.InitialTab | src/components/BuildViewer.tsx:41-45 | the first shown round's tab, or the current one when no round is shown |
| BuildViewer.TabsAndShownRounds | src/components/BuildViewer.tsx:426 | a shown round's tab is enabled, but a whitespace explanation enables a tab with nothing shown |
| BuildViewer.TabDisabled | src/components/BuildViewer.tsx:426 | a tab with no round behind it is disabled; a tab whose round has a non-blank explanation is enabled |
| BuildViewer.Viewer.constructor | src/components/BuildViewer.tsx:28-31 | tab "1", not saved, not loading |
| BuildViewer.Viewer.OpenFirstRound | src/components/BuildViewer.tsx:41-45 | the tab becomes the initial tab |
| BuildViewer.Viewer.CheckSaved | src/components/BuildViewer.tsx:48-71 | asks only with a user and a build id; takes an ok answer |
| BuildViewer.Viewer.HandleSave | src/components/BuildViewer.tsx:91-159 | needs a user, id and token; DELETE when saved, else POST; flips only on ok; loading is over |
| AdminBuilds.FromAdmin | src/pages/AdminBuilds.tsx:44-55 | normalised, absent rounds read as none |
| AdminBuilds.Pending | src/pages/AdminBuilds.tsx:174 | only unverified builds |
| AdminBuilds.Verified | src/pages/AdminBuilds.tsx:228 | only verified builds |
| AdminBuilds.PendingVerifiedPartition | src/pages/AdminBuilds.tsx:174-228 | each build is in exactly one list, and together they hold every build once |
| AdminBuilds.WithFlag | src/pages/AdminBuilds.tsx:84-88 | the builds with that id take the flag, and the others are kept |
| AdminBuilds.FlagMovesOnlyThatBuild | src/pages/AdminBuilds.tsx:71-148 | verifying moves only that build out of pending, and rejecting moves only that build out of verified |
| AdminBuilds.FlagUrlsMatchService | src/pages/AdminBuilds.tsx:75 | the page's addresses are the service's |
| AdminBuilds.Page.constructor | src/pages/AdminBuilds.tsx:14-15 | no builds, loading |
| AdminBuilds.Page.Load | src/pages/AdminBuilds.tsx:18-67 | a non-admin gets no request; an ok answer replaces the list; loading is over |
| AdminBuilds.Page.SetFlag | src/pages/AdminBuilds.tsx:71-148 | POST verify or unverify; the flag changes only on ok |
| AdminItemPowers.FindHero | src/pages/AdminItemPowers.tsx:282 | the first hero with that id, or none |
| AdminItemPowers.HeroNameById | src/pages/AdminItemPowers.tsx:280-284 | no name without an id or a matching hero |
| AdminItemPowers.FilteredItems | src/pages/AdminItemPowers.tsx:286-290 | only the items matching both filters |
| AdminItemPowers.FilteredPowers | src/pages/AdminItemPowers.tsx:292-294 | only the powers matching the hero filter |
| AdminItemPowers.FilteredItemsMembers | src/pages/AdminItemPowers.tsx:286-290 | an item is listed exactly when it matches, and "all" shows everything |
| AdminItemPowers.NumberIsNotAll | src/pages/AdminItemPowers.tsx:287 | a hero id never reads as "all" |
| AdminItemPowers.HeroFilterSelectsHero | src/pages/AdminItemPowers.tsx:286-294 | a hero filter shows exactly that hero's items and powers |
| AdminItemPowers.Validation | src/pages/AdminItemPowers.tsx:89-148 | blank forms are refused; a name and description suffice for an item with a cost |
| AdminItemPowers.ItemsReplaced | src/pages/AdminItemPowers.tsx:196-198 | the edited item replaces its id's entries, and the rest are kept |
| AdminItemPowers.PowersReplaced | src/pages/AdminItemPowers.tsx:221-223 | the same for powers |
| AdminItemPowers.PowersAfterUpdate | src/pages/AdminItemPowers.tsx:214-237 | as written: whatever the service's outcome, every power with the edited id is replaced by the edit and the rest stay in place |
| AdminItemPowers.ItemsWithout | src/pages/AdminItemPowers.tsx:244 | the id is gone |
| AdminItemPowers.PowersWithout | src/pages/AdminItemPowers.tsx:264 | the id is gone |
| AdminItemPowers.DeleteKeepsOthers | src/pages/AdminItemPowers.tsx:244 | exactly the other items remain, in order |
| AdminItemPowers.DeletePowerKeepsOthers | src/pages/AdminItemPowers.tsx:264 | exactly the other powers remain, in order |
| AdminItemPowers.PowersAfterDelete | src/pages/AdminItemPowers.tsx:260-279 | as written: whatever the service's outcome, exactly the powers with another id remain |
| AdminItemPowers.IdOf | src/pages/AdminItemPowers.tsx:108-121 | the id recorded for a new row is the numeric id returned, or 0 for anything else |
| AdminItemPowers.NewItem | src/pages/AdminItemPowers.tsx:100-124 | the appended item carries the new id and the form's fields; it is linked to a hero exactly when the form names a non-zero hero, and has a hero name only then |
| AdminItemPowers.PowersAfterCheckedUpdate | src/pages/AdminItemPowers.tsx:214-237 | corrected: the edit is applied only when the write reports a change |
| AdminItemPowers.PowersAfterCheckedDelete | src/pages/AdminItemPowers.tsx:260-279 | corrected: the removal is applied only when the write reports a change |
| AdminItemPowers.FailedPowerWriteStillApplied | src/pages/AdminItemPowers.tsx:214-279 | as written, a failed update or delete is still shown as done |
| AdminItemPowers.CheckedPowerWrites | src/pages/AdminItemPowers.tsx:214-279 | the corrected versions keep the list on failure and apply the change on success |
| AdminItemPowers.Page.constructor | src/pages/AdminItemPowers.tsx:17-43 | empty lists, blank forms, loading |
| AdminItemPowers.Page.Load | src/pages/AdminItemPowers.tsx:45-86 | a non-admin is redirected; the lists take the answers |
| AdminItemPowers.Page.HandleAddItem | src/pages/AdminItemPowers.tsx:88-138 | an incomplete form is refused; on success the item is appended and the form reset |
| AdminItemPowers.Page.HandleAddPower | src/pages/AdminItemPowers.tsx:140-187 | the same for powers |
| AdminItemPowers.Page.HandleUpdateItem | src/pages/AdminItemPowers.tsx:189-212 | applied and closed only on success |
| AdminItemPowers.Page.HandleDeleteItem | src/pages/AdminItemPowers.tsx:239-258 | removed only on success |
| AdminItemPowers.Page.HandleUpdatePower | src/pages/AdminItemPowers.tsx:214-237 | as written: applied whatever the outcome |
| AdminItemPowers.Page.HandleUpdatePowerChecked | src/pages/AdminItemPowers.tsx:214-237 | corrected: applied and closed only when changed |
| AdminItemPowers.Page.HandleDeletePower | src/pages/AdminItemPowers.tsx:260-279 | as written: removed whatever the outcome |
| AdminItemPowers.Page.HandleDeletePowerChecked | src/pages/AdminItemPowers.tsx:260-279 | corrected: removed only when changed |
| Status.AnyStringIsUp | src/pages/Status.tsx:89-92 | any string value counts as up, and null or no answer as down |
| Status.ServiceUp | src/pages/Status.tsx:89-92 | a service is up only when the answer arrived and names it; no answer means down |
| Status.OperationalCount | src/pages/Status.tsx:94-97 | between 0 and 4 |
| Status.CountAllOver | src/pages/Status.tsx:94-97 | over any keys, all are counted exactly when all are up |
| Status.CountNoneOver | src/pages/Status.tsx:94-97 | over any keys, none is counted exactly when none is up |
| Status.CountAllUp | src/pages/Status.tsx:94-97 | the count is 4 exactly when all four services are up |
| Status.CountNoneUp | src/pages/Status.tsx:94-97 | the count is 0 exactly when no service is up |
| Status.OverallBanner | src/pages/Status.tsx:99-111 | as written: all operational, all down or some issues by the count; never "checking" |
| Status.DownBeforeHealthArrives | src/pages/Status.tsx:99-111 | before the answer, the banner says every service is down |
| Status.IntendedBanner | src/pages/Status.tsx:99-111 | corrected: "checking" exactly until the answer arrives |
| Status.IntendedDownOnlyFromAnswer | src/pages/Status.tsx:89-111 | with an answer, all down only when no service reports a string |
| HeroGrid.FilteredHeroes | src/components/HeroGrid.tsx:24-30 | nothing while loading or without data |
| HeroGrid.AllRolesReorders | src/components/HeroGrid.tsx:24-30 | every hero once, ordered Tank, DPS, Support |
| HeroGrid.OneRoleSelects | src/components/HeroGrid.tsx:24-30 | exactly that role's heroes, in fetched order |
| HeroGrid.Grid.constructor | src/components/HeroGrid.tsx:9 | every role selected, no data |
| HeroGrid.Grid.Loaded | src/components/HeroGrid.tsx:11-20 | the data arrives and loading ends |
| HeroGrid.Grid.SelectRole | src/components/HeroGrid.tsx:9 | only the selection changes |
| HeroGrid.Grid.Render | src/components/HeroGrid.tsx:24-30 | the list shown; with all roles the cached array is left sorted |

## Left out

- Networking, `async`/`await`, promise rejection from `fetch` itself, React rendering, toasts and
  `console` logging: requests are values and the server's answers are parameters.
- The regular expressions in `DatabaseService.query` and `execute`. Each SQL statement is
  represented by what those expressions extract (action, table, `WHERE` fields, probe phrases).
- Percent-encoding of query-string values and of path segments.
- `window.location` redirects and `navigate` calls: they appear only as outcomes such as
  `LoginRequired` or a redirect flag.
- The singleton pattern of `DatabaseService`: the model passes one `Db` explicitly.
- `BuildService.getUserSavedBuilds`: a nested listing that adds nothing beyond `GetBuilds` and
  `IsBuildSaved`.
- `BuildService.CreateBuild` assumes every write succeeds. A failed insert, which aborts the
  JavaScript loop, is not modelled.
- `BuildService.RoundsForBuild` requires stored round numbers in 1..7. The source does not check
  this; JavaScript would write past the seven slots.
- `Js.ParseNumber`: `Number("")`, `NaN`, exponents and fractions are outside the model; a
  non-numeral reads as absent.
- `AdminItemPowers.IdOf`: a non-numeric insert id is recorded as 0.
- Failures of `response.json()` while parsing a body.
- `BuildService.NormaliseRows`: `Promise.all` rejects with whichever rounds read fails first in time; the
  model passes on the error of the first failing row in list order, and its contract promises only
  that the error is that of some failed read.
- `Database.Db.Execute`: the reply body stands for the answer's `id` field only. A null or absent
  JSON body, on which `result.id` throws in `execute` (src/services/DatabaseService.ts:312), is not
  modelled.
- `HeroGrid.Grid.Render`: the in-place `Array.sort` is modelled on the cached sequence, not on an
  array shared with the query cache.
- react-query caching and refetching on the pages; the stale-time settings.
- `AdminItemPowers.Page.Load`: the heroes, items and powers answers are inputs; a failed heroes
  fetch leaves the lists as they were.
- The status page's monitor tabs, time formatting and uptime figures.

## Findings

| source | as written | input that shows it | evidently intended | confidence | as-written member | corrected member |
|---|---|---|---|---|---|---|
| src/services/ItemService.ts:33-42 | `getItemsByHero(null)` sends the same request as `getAllItems` and clears the hero of every item | a hero-specific item (hero 3) comes back labelled as general | only items without a hero | not executed | ItemService.GeneralListingRelabelsHeroItems | ItemService.GeneralItemsCorrect |
| src/services/PowerService.ts:20-29 | `getPowersByHero(null)` sends the same request as `getAllPowers` and clears the hero of every power | a hero power (hero 5) comes back labelled as general | only powers without a hero | not executed | PowerService.GeneralListingRelabelsHeroPowers | PowerService.GeneralPowersCorrect |
| src/pages/AdminItemPowers.tsx:214-279 | `updatePower` and `deletePower` return false on failure, and the page applies the change anyway | an update or delete answered `HTTP Error: 500` still changes the list | apply the change only when the service reports success | not executed | AdminItemPowers.FailedPowerWriteStillApplied | AdminItemPowers.CheckedPowerWrites |
| src/pages/Status.tsx:94-111 | with no health answer yet, the count is 0 and the banner says every service is down | the first render, before the health query answers | show "Checking system status..." until the answer arrives | not executed | Status.DownBeforeHealthArrives | Status.IntendedBanner |
