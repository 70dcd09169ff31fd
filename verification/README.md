# Weekly production planning: a Dafny model

This project models the core of a weekly production-planning application.
It has a NestJS back end (`SemaineService`) and an Angular planning view (`PlanificationComponent`).

A planning week (`Semaine`) is created from the product catalogue.
- Every distinct catalogue line becomes a `SemaineLigne` of the week.
- Every catalogue product becomes a `LigneReference` under its line.
- A reference holds six nullable day slots, `lundi` to `samedi`, each holding one `ProductionData` record.

Writing a slot merges the update over the stored record and re-derives three fields:
- the production delta;
- the production percentage, rounded to two decimals;
- the warehouse delta.

Besides the weeks there are flat planning rows (`Planification`), one per week / day / line / reference.
- They are created with JavaScript `||` defaults, updated field by field and deleted by id.
- They are summarised per day and per line.

A week's statistics sum the planned and declared quantities over every slot and give a completion rate.

The front-end view keeps, for one line and one week, six days of editable rows.
- It sums planned quantities per day and per week.
- It derives labour hours and operators from a planned quantity.
- It adds and removes rows.

## How the model is built

The database is one immutable value, `Store.Db`:
- four tables as `map<nat, _>` from generated ids to rows;
- one auto-increment counter per table.

`Store.Valid` collects the constraints the schema and the service keep:
- fresh ids below their counters;
- every line owned by an existing week, and every reference by an existing line;
- every flat row pointing at the week whose name it carries, on a working day;
- unique week names;
- unique (week, line name) pairs;
- unique flat-row keys.

Every service operation is a pure function from a `Db` to a `Result` of the new `Db` (or an answer) and an `Error` (`NotFound`, `Conflict`, `BadRequest` or `InternalServerError`).

The model resolves two choices the database leaves open. A `findOne` with several matches returns the row with the smallest id, and a `find` lists rows in increasing id order. Without `ORDER BY` the database promises neither; see "Left out".

The JavaScript details the behaviour depends on are written out:
- `x || d`, where `0` and `''` are falsy;
- object spread, as `Production.Merge`;
- `Math.round`, as `floor(x + 1/2)`;
- `Math.ceil` of a quotient;
- `splice` with a negative or out-of-range start;
- the `TypeError` of indexing past the end of `days`;
- an object used as a dictionary, as an association list of buckets in order of first appearance.

| file | module | models |
|---|---|---|
| wrappers.dfy | Wrappers | `Option` and `Result` |
| jsmath.dfy | JsMath | `Math.round`, two-decimal rounding, `Math.ceil(n / d)` |
| days.dfy | Days | the six working days and `joursValides` |
| production.dfy | Production | `ProductionData`, update bodies, `calculateAutoFields`, the spread merge |
| store.dfy | Store | the entities, the tables, their constraints, `findOne` / `find` |
| catalogue.dfy | Catalogue | the catalogue queries behind week creation |
| weeks.dfy | Weeks | `createSemaine`, `deleteSemaine` |
| slot_updates.dfy | SlotUpdates | `updateProductionData`, `updateProductionSimple` |
| planning.dfy | FlatPlanning | `createPlanification`, `updatePlanification`, `deletePlanification` |
| plan_stats.dfy | PlanStats | `getPlanificationStats` |
| week_stats.dfy | WeekStats | `getSemaineStats` |
| planning_view.dfy | PlanningView | the planning component's helpers and handlers |

## Model

| member | source | states |
|---|---|---|
| Days.ParseDay | backpro/src/semaine/semaine.service.ts:38-41 | a day name is accepted exactly when it is one of the six working days, and it maps back to the same name |
| Days.DayNamesRoundTrip | backpro/src/semaine/entities/ligne-reference.entity.ts:13-30 | the six slot names, in order, are the accepted day names, and every day parses back from its name |
| JsMath.JsRoundIsNearest | backpro/src/semaine/semaine.service.ts:769 | `Math.round` lands within half a unit of its argument |
| JsMath.Round2Error | backpro/src/semaine/semaine.service.ts:769 | rounding to two decimals moves a value by at most 0.005 |
| JsMath.CeilDivBounds | prod/src/app/planification/planification.component.ts:236 | `Math.ceil(n / d)` is the least multiple count covering n |
| Production.PcsProdBounds | backpro/src/semaine/semaine.service.ts:758 | the production percentage is the declared-over-planned ratio within 0.005, and 0 when nothing is planned |
| Production.CalculateAutoFields | backpro/src/semaine/semaine.service.ts:737-772 | null gives the all-zero record; otherwise each input field is taken or defaulted, and the three derived fields agree with the inputs |
| Production.NullIsZero | backpro/src/semaine/semaine.service.ts:738-751 | null and an empty object both give the all-zero record, which is itself consistent |
| Production.FixedPointIffDerived | backpro/src/semaine/semaine.service.ts:753-771 | a complete record is unchanged by the derivation exactly when its derived fields are consistent |
| Production.CalculateAutoFieldsIdempotent | backpro/src/semaine/semaine.service.ts:737-772 | deriving the derivation's own output changes nothing |
| Production.DerivedFieldsIgnored | backpro/src/semaine/semaine.service.ts:753-771 | values sent for the derived fields have no effect |
| Production.Merge | backpro/src/semaine/semaine.service.ts:527-528 | `{ ...currentData, ...updateData }` over the slot or `{}`, field by field through `Over`; its properties are stated by `MergedSlot` and `MergeIdempotent` |
| Production.Over | backpro/src/semaine/semaine.service.ts:528 | in `{ ...current, ...update }` a property the update carries wins, otherwise the current one stays |
| Production.MergedSlot | backpro/src/semaine/semaine.service.ts:527-529 | the record written into a slot takes each input field from the update, else from the slot, else the default, and is consistent |
| Production.ReapplyUpdate | backpro/src/semaine/semaine.service.ts:527-529 | merging the same update over its own result reproduces that result |
| Production.MergeIdempotent | backpro/src/semaine/semaine.service.ts:528 | merging an update twice is merging it once |
| Production.ExamplePlanned200Produced150 | backpro/src/semaine/semaine.service.ts:753-771 | planned 200 and produced 150 give a delta of 50, 75 percent and a warehouse delta of -150 |
| Store.LigneReference.WithSlot | backpro/src/semaine/entities/ligne-reference.entity.ts:13-30 | writing one day slot sets that slot and leaves the other five, the line and the code alone |
| Store.WithOwnSlot | backpro/src/semaine/entities/ligne-reference.entity.ts:13-30 | writing back a slot's own value changes nothing |
| Store.EmptyDbValid | backpro/src/semaine/entities/semaine-ligne.entity.ts:7 | the empty database satisfies every constraint |
| Store.FindSemaine | backpro/src/semaine/semaine.service.ts:57-59 | a found week carries the name; when none is found, no week carries it |
| Store.FindLigne | backpro/src/semaine/semaine.service.ts:691-701 | a found line belongs to the week and carries the name; when none is found, no such line exists |
| Store.FindReference | backpro/src/semaine/semaine.service.ts:703-712 | the found reference is the first one under the line with the code; when none is found, none exists |
| Store.FindPlanification | backpro/src/semaine/semaine.service.ts:44-51 | a found flat row has the key; when none is found, no row has it |
| Store.FindSemaineComplete | backpro/src/semaine/entities/semaine.entity.ts:12-13 | in a valid store a week name is found exactly when some week carries it |
| Store.NoRowNamed | backpro/src/semaine/entities/planification.entity.ts:45-46 | in a valid store a week name that is not found appears on no flat row |
| Store.LignesOf | backpro/src/semaine/semaine.service.ts:575-578 | exactly the lines of the week are listed |
| Store.LignesOfSorted | backpro/src/semaine/semaine.service.ts:575-578 | the listed line ids are strictly increasing, so each line appears once |
| Store.ReferenceIdsOf | backpro/src/semaine/entities/semaine-ligne.entity.ts:24-25 | every listed id is a stored reference of the line |
| Store.ReferenceIdsOfSorted | backpro/src/semaine/entities/semaine-ligne.entity.ts:24-25 | the listed reference ids are strictly increasing, so each reference appears once |
| Store.ReferenceIdsOfComplete | backpro/src/semaine/entities/semaine-ligne.entity.ts:24-25 | every stored reference of the line is listed |
| Store.ReferencesOf | backpro/src/semaine/entities/semaine-ligne.entity.ts:24-25 | every listed reference is a stored reference of the line |
| Store.ReferencesOfIds | backpro/src/semaine/entities/semaine-ligne.entity.ts:24-25 | the listed references are the rows of the listed ids, one each, in the same order |
| Store.ReferencesOfComplete | backpro/src/semaine/entities/semaine-ligne.entity.ts:24-25 | every stored reference of the line is in the list |
| Store.PlanificationIdsOf | backpro/src/semaine/semaine.service.ts:266-268 | every listed id is a stored flat row carrying the week name |
| Store.PlanificationIdsOfSorted | backpro/src/semaine/semaine.service.ts:266-268 | the listed flat-row ids are strictly increasing, so each row appears once |
| Store.PlanificationIdsOfComplete | backpro/src/semaine/semaine.service.ts:266-268 | every stored flat row carrying the week name is listed |
| Store.PlanificationsOf | backpro/src/semaine/semaine.service.ts:266-268 | every listed flat row is stored and carries the week name |
| Store.PlanificationsOfIds | backpro/src/semaine/semaine.service.ts:266-268 | the listed flat rows are the rows of the listed ids, one each, in the same order |
| Store.PlanificationsOfComplete | backpro/src/semaine/semaine.service.ts:266-268 | every stored flat row carrying the week name is in the list |
| Catalogue.DistinctLines | backpro/src/semaine/semaine.service.ts:340-346 | each catalogue line name is listed exactly once, and nothing else |
| Catalogue.ReferencesOfLine | backpro/src/semaine/semaine.service.ts:361-364 | the codes of the line's products in catalogue order; `ReferencesOfAbsentLine`, `EveryProductFannedOutOnce` and `Weeks.CreateSemaineReferenceCodes` state its properties |
| Catalogue.LineImageUrl | backpro/src/semaine/semaine.service.ts:343 | stands for `MAX(product.imageUrl)` of the line as its first non-null URL in catalogue order; `LineImageUrlChosen` states the two facts it shares with the SQL maximum |
| Catalogue.LineImageName | backpro/src/semaine/semaine.service.ts:344 | stands for `MAX(product.imageOriginalName)` of the line as its first non-null name in catalogue order; `LineImageNameChosen` states the two facts it shares with the SQL maximum |
| Catalogue.LineImageUrlChosen | backpro/src/semaine/semaine.service.ts:343 | the line's image URL is one of its products' URLs, and null only when all of them are null |
| Catalogue.LineImageNameChosen | backpro/src/semaine/semaine.service.ts:344 | the line's image name is one of its products' names, and null only when all of them are null |
| Catalogue.TotalReferencesAppend | backpro/src/semaine/semaine.service.ts:351-376 | the references of two lists of lines add up |
| Catalogue.ReferencesOfAbsentLine | backpro/src/semaine/semaine.service.ts:361-364 | a line the catalogue does not mention has no references |
| Catalogue.EveryProductFannedOutOnce | backpro/src/semaine/semaine.service.ts:351-376 | over the distinct lines, every catalogue product becomes exactly one reference |
| Catalogue.NoDupCardinality | backpro/src/semaine/semaine.service.ts:340-346 | a duplicate-free list is as long as its set of elements |
| Catalogue.DistinctLinesCount | backpro/src/semaine/semaine.service.ts:340-346 | there are as many distinct lines as line names in the catalogue |
| Catalogue.ExampleTwoLines | backpro/src/semaine/semaine.service.ts:340-346 | products r1 and r2 of line A and r3 of line B give the lines [A, B] |
| Weeks.NewReferenceZero | backpro/src/semaine/semaine.service.ts:369-389 | a created reference holds the zero record in all six slots |
| Weeks.InsertReferences | backpro/src/semaine/semaine.service.ts:395-397 | saving a line's references consumes one id each and touches no other table |
| Weeks.InsertReferencesKeys | backpro/src/semaine/semaine.service.ts:395-397 | the new reference ids are exactly the next consecutive ids |
| Weeks.InsertReferencesAt | backpro/src/semaine/semaine.service.ts:367-397 | the j-th code becomes the reference with the j-th fresh id, all slots zero, under the line |
| Weeks.AddSemaine | backpro/src/semaine/semaine.service.ts:331-338 | the week saved under the next week id; `AddSemaineValid` states what it keeps |
| Weeks.InsertLigne | backpro/src/semaine/semaine.service.ts:352-397 | one turn of the loop saves the line under the next line id and consumes one reference id per product of the line |
| Weeks.InsertLignes | backpro/src/semaine/semaine.service.ts:351-398 | the loop consumes one line id per distinct line and one reference id per product of those lines, and leaves weeks and flat rows alone |
| Weeks.InsertLignesLineAt | backpro/src/semaine/semaine.service.ts:352-358 | the i-th distinct line becomes the line with the i-th fresh id, owned by the week, with its image |
| Weeks.InsertLignesNewReference | backpro/src/semaine/semaine.service.ts:367-397 | every fresh reference id holds an all-zero reference under one of the fresh lines |
| Weeks.InsertLignesNames | backpro/src/semaine/semaine.service.ts:351-358 | a week that owned no line gets exactly one line per inserted name |
| Weeks.InsertLignesFreshReferences | backpro/src/semaine/semaine.service.ts:367-397 | every reference the loop adds is all zero under a line of the week |
| Weeks.InsertLignesValid | backpro/src/semaine/semaine.service.ts:351-398 | inserting the distinct lines of a fresh week keeps every constraint, including unique line names within the week |
| Weeks.CreateSemaine | backpro/src/semaine/semaine.service.ts:322-417 | a taken name is a 409 and changes nothing; otherwise the week gets the next id and the counts report what was inserted |
| Weeks.NoLineOfNextWeek | backpro/src/semaine/entities/semaine-ligne.entity.ts:20-21 | in a valid store no line belongs to the week id not yet handed out |
| Weeks.AddSemaineValid | backpro/src/semaine/semaine.service.ts:331-338 | saving a week under the next id and an unused name keeps every constraint |
| Weeks.CreateSemaineStore | backpro/src/semaine/semaine.service.ts:322-398 | an unused name succeeds, and the store returned is the week saved under the next id followed by its lines |
| Weeks.NewWeekValid | backpro/src/semaine/semaine.service.ts:331-398 | saving a week under an unused name and then its lines keeps every constraint |
| Weeks.CreateSemaineValid | backpro/src/semaine/semaine.service.ts:322-417 | creation keeps every constraint |
| Weeks.CreateSemaineCounts | backpro/src/semaine/semaine.service.ts:348-410 | the reported totals are the number of distinct catalogue lines and the number of catalogue products |
| Weeks.CreateSemaineLines | backpro/src/semaine/semaine.service.ts:351-358 | the new week's lines are named after exactly the catalogue's lines |
| Weeks.CreateSemaineReferences | backpro/src/semaine/semaine.service.ts:367-397 | every new reference starts all zero under a line of the new week |
| Weeks.InsertLigneReferenceAt | backpro/src/semaine/semaine.service.ts:361-397 | product j of the line becomes the reference with the j-th id the turn hands out |
| Weeks.InsertLignesReferenceAt | backpro/src/semaine/semaine.service.ts:351-397 | product j of the i-th inserted line becomes the reference at the j-th id of that line's block, under that line |
| Weeks.InsertLignesReferenceOwner | backpro/src/semaine/semaine.service.ts:351-397 | a fresh reference under the i-th inserted line has an id in that line's block |
| Weeks.IncreasingRange | backpro/src/semaine/semaine.service.ts:361-397 | a strictly increasing id list holding exactly a range of ids is that range, in order |
| Weeks.InsertLignesOldReferences | backpro/src/semaine/semaine.service.ts:351-397 | references that were stored stay, under lines that were stored |
| Weeks.InsertLignesLineIds | backpro/src/semaine/semaine.service.ts:351-397 | the reference ids listed under the i-th inserted line are exactly that line's block |
| Weeks.InsertLignesLineBlock | backpro/src/semaine/semaine.service.ts:351-397 | the block of ids of the i-th inserted line holds its products' codes, in catalogue order |
| Weeks.CodesOfRange | backpro/src/semaine/entities/semaine-ligne.entity.ts:24-25 | when the reference ids of a line are exactly a range of ids, the line lists the codes of those rows, in id order |
| Weeks.InsertLignesLineCodes | backpro/src/semaine/semaine.service.ts:351-397 | the references listed under the i-th inserted line carry its products' codes, in catalogue order |
| Weeks.InsertLignesLineOfWeek | backpro/src/semaine/semaine.service.ts:351-358 | a line of the week after the insertion is the line of one inserted name |
| Weeks.InsertLignesCodesAt | backpro/src/semaine/semaine.service.ts:351-397 | a line of the week found by id lists its products' codes, in catalogue order |
| Weeks.InsertLignesCodes | backpro/src/semaine/semaine.service.ts:351-397 | every line of the week lists, in id order, one reference per catalogue product of that line, with the products' codes in catalogue order |
| Weeks.CreateSemaineReferenceCodes | backpro/src/semaine/semaine.service.ts:322-397 | after creation, every line of the new week lists, in id order, one reference per catalogue product of that line, with the products' codes in catalogue order |
| Weeks.DeleteSemaine | backpro/src/semaine/semaine.service.ts:544-571 | an unknown id is a 404; otherwise the week, its lines, their references and the flat rows with its name are removed, and nothing else changes |
| Weeks.DeleteSemaineValid | backpro/src/semaine/semaine.service.ts:544-571 | deletion keeps every constraint and leaves nothing dangling |
| Weeks.DeleteSemaineFreesName | backpro/src/semaine/semaine.service.ts:544-571 | after deletion no week carries the deleted name |
| Weeks.InsertedLignesOfWeek | backpro/src/semaine/semaine.service.ts:351-398 | after the insertion the lines of the new week are exactly the inserted ones, and old lines are untouched |
| Weeks.InsertedReferencesOfWeek | backpro/src/semaine/semaine.service.ts:351-398 | after the insertion the references under the new week's lines are exactly the inserted ones, and old references are untouched |
| Weeks.DeleteRestores | backpro/src/semaine/semaine.service.ts:544-571 | deleting a week whose rows are all that was added to a store gives back that store's tables |
| Weeks.InsertThenDelete | backpro/src/semaine/semaine.service.ts:331-571 | saving a week under a fresh id with its lines and then deleting it gives back the tables it was added to |
| Weeks.NewWeekDeleteRestores | backpro/src/semaine/semaine.service.ts:322-571 | deleting a week just saved with its lines gives back the tables it was added to |
| Weeks.CreateThenDelete | backpro/src/semaine/semaine.service.ts:322-571 | creating a week and deleting it again restores all four tables |
| Weeks.DeleteThenRecreate | backpro/src/semaine/semaine.service.ts:322-330 | a deleted week's name can be used for a new week at once |
| SlotUpdates.UpdateProductionData | backpro/src/semaine/semaine.service.ts:509-542 | an unknown reference or day is a 404; otherwise only the chosen slot changes, to the merged and re-derived record |
| SlotUpdates.UpdateProductionDataValid | backpro/src/semaine/semaine.service.ts:509-542 | rewriting a slot keeps every constraint |
| SlotUpdates.UpdateProductionDataIdempotent | backpro/src/semaine/semaine.service.ts:509-542 | sending the same update twice leaves the store as sending it once |
| SlotUpdates.ResolveReference | backpro/src/semaine/semaine.service.ts:682-712 | a resolved id is a reference designated by week name, line name and code; in a valid store a failed resolution means none is |
| SlotUpdates.UpdateProductionSimple | backpro/src/semaine/semaine.service.ts:670-735 | an invalid day is a 404; a key that designates nothing is a 500; otherwise it is the update by id of the designated reference |
| SlotUpdates.UpdateProductionSimpleSucceeds | backpro/src/semaine/semaine.service.ts:670-735 | in a valid store the update succeeds exactly when the day is valid and the key designates a reference |
| SlotUpdates.UnknownKeyIsInternalError | backpro/src/semaine/semaine.service.ts:681-734 | an unknown week answers with the internal error as written, and with a 404 as intended |
| SlotUpdates.UpdateProductionSimpleIntended | backpro/src/semaine/semaine.service.ts:670-735 | the intended update fails only with a 404, and agrees with the written one whenever either succeeds |
| SlotUpdates.UpdateProductionSimpleIntendedNotFound | backpro/src/semaine/semaine.service.ts:670-735 | the intended update is a 404 exactly when the day is invalid or the key designates nothing |
| FlatPlanning.NewPlanification | backpro/src/semaine/semaine.service.ts:66-76 | the new row has the request's key and week; the packaging is never empty, is the one sent when it is non-empty, and is "200" exactly when none or a falsy one was sent; each quantity and the operator count is the one sent, or 0 when none was sent |
| FlatPlanning.NoRowOfUnknownWeek | backpro/src/semaine/entities/planification.entity.ts:45-46 | in a valid store no flat row names a week that does not exist |
| FlatPlanning.CreatePlanification | backpro/src/semaine/semaine.service.ts:34-90 | an invalid day is a 400, then a taken key is a 409, then an unknown week is a 404; otherwise the row built from the request and the found week is added under the next id and nothing else changes |
| FlatPlanning.CreatePlanificationValid | backpro/src/semaine/semaine.service.ts:34-90 | creation keeps every constraint, in particular unique flat-row keys |
| FlatPlanning.AddPlanificationValid | backpro/src/semaine/semaine.service.ts:66-80 | saving a row under the next id keeps every constraint when its week exists, its day is a working day and its key is unused |
| FlatPlanning.CreateThenFind | backpro/src/semaine/semaine.service.ts:44-80 | after a creation, looking the key up finds the new row |
| FlatPlanning.ApplyUpdate | backpro/src/semaine/semaine.service.ts:101-107 | every field the body carries is overwritten, the others and the key are kept |
| FlatPlanning.ApplyUpdateIdempotent | backpro/src/semaine/semaine.service.ts:101-107 | applying the same body twice is applying it once |
| FlatPlanning.EmptyUpdateIsIdentity | backpro/src/semaine/semaine.service.ts:101-107 | an empty body changes no field |
| FlatPlanning.UpdatePlanification | backpro/src/semaine/semaine.service.ts:92-122 | an unknown id is a 404; otherwise only that row changes, to the body applied over it, with its key kept |
| FlatPlanning.UpdatePlanificationValid | backpro/src/semaine/semaine.service.ts:92-122 | an update keeps every constraint |
| FlatPlanning.UpdatePlanificationIdempotent | backpro/src/semaine/semaine.service.ts:92-122 | sending the same update twice leaves the store as sending it once |
| FlatPlanning.DeletePlanification | backpro/src/semaine/semaine.service.ts:242-263 | an unknown id is a 404; otherwise exactly that row is removed, its key is reported and constraints are kept |
| FlatPlanning.CreateThenDeletePlanification | backpro/src/semaine/semaine.service.ts:34-263 | creating a row and deleting it restores the rows, reports the created key, and the key is no longer found |
| PlanStats.SumRowsCount | backpro/src/semaine/semaine.service.ts:270-281 | the row count of the totals is the number of rows |
| PlanStats.BumpLookup | backpro/src/semaine/semaine.service.ts:284-296 | adding a row to its bucket adds its totals there and changes no other bucket |
| PlanStats.Group | backpro/src/semaine/semaine.service.ts:283-310 | the grouping loop, one bucket per key in order of first appearance; `GroupLookup`, `GroupKeys` and `GroupConserves` state its properties |
| PlanStats.GroupLookup | backpro/src/semaine/semaine.service.ts:283-310 | each bucket holds the totals of exactly the rows with that key |
| PlanStats.BumpKeyMember | backpro/src/semaine/semaine.service.ts:284-296 | after adding a row, the keys are the old keys plus the row's key |
| PlanStats.GroupKeysNoDup | backpro/src/semaine/semaine.service.ts:283-310 | grouping never lists a key twice |
| PlanStats.GroupKeyMember | backpro/src/semaine/semaine.service.ts:283-310 | a key is listed exactly when some row has it |
| PlanStats.GroupKeys | backpro/src/semaine/semaine.service.ts:283-310 | the bucket keys have no duplicates and are exactly the keys some row has |
| PlanStats.GroupConserves | backpro/src/semaine/semaine.service.ts:277-310 | the buckets add up to the overall totals |
| PlanStats.StatsOf | backpro/src/semaine/semaine.service.ts:270-319 | the answer over a row list: the totals and both groupings |
| PlanStats.ComputeStats | backpro/src/semaine/semaine.service.ts:277-311 | the single pass computes the totals and both groupings of the row list |
| PlanStats.GetPlanificationStats | backpro/src/semaine/semaine.service.ts:265-320 | the answer computed over exactly the week's rows: the count, per-day and per-line buckets that each total their rows, without duplicate keys, and that add up to the totals |
| PlanStats.DayKeysAreWorkingDays | backpro/src/semaine/semaine.service.ts:283-296 | in a valid store every per-day key is a working day |
| PlanStats.NoRowsOfUnknownWeek | backpro/src/semaine/semaine.service.ts:266-268 | in a valid store a name no week carries has no flat rows |
| PlanStats.UnknownWeekIsEmpty | backpro/src/semaine/semaine.service.ts:265-320 | an unknown week name gives zero totals and no buckets, not an error |
| WeekStats.Taux | backpro/src/semaine/semaine.service.ts:599-610 | the completion rate is 0 when nothing is planned, otherwise the declared-over-planned percentage within 0.005 |
| WeekStats.SumDays | backpro/src/semaine/semaine.service.ts:586-595 | the loop over the six days adds each slot's quantity, skipping empty slots and zeros |
| WeekStats.SumReferences | backpro/src/semaine/semaine.service.ts:585-596 | the loop over a line's references adds their planned and declared sums |
| WeekStats.StatsOf | backpro/src/semaine/semaine.service.ts:573-612 | the answer for a known week: its name, line count, reference count, the sums over every slot of its lines' references, and the rate |
| WeekStats.GetSemaineStats | backpro/src/semaine/semaine.service.ts:573-612 | an unknown week is a 404; otherwise the name, the line count, the sums over all slots and a rate of 0 when nothing is planned |
| WeekStats.ZeroLinesSum | backpro/src/semaine/semaine.service.ts:584-598 | lines whose references are all zero add nothing |
| WeekStats.InsertedWeekReferencesZero | backpro/src/semaine/semaine.service.ts:367-397 | after inserting a fresh week's lines, every reference under that week is all zero |
| WeekStats.CreatedWeekReferencesZero | backpro/src/semaine/semaine.service.ts:367-397 | every reference under a line of a new week is all zero |
| WeekStats.CreatedWeekStatsZero | backpro/src/semaine/semaine.service.ts:573-612 | a week just created reports nothing planned, nothing declared and a 0 rate |
| PlanningView.WeekDaysAreWorkingDays | prod/src/app/planification/planification.component.ts:61 | the view's columns are the six days the service accepts, in the same order |
| PlanningView.DayTotal | prod/src/app/planification/planification.component.ts:300-302 | the sum of the day's planned quantities; `SumQteAppend`, `SumQteSnoc` and `SumQteRemove` state its properties |
| PlanningView.WeekTotal | prod/src/app/planification/planification.component.ts:305-312 | 0 with nothing loaded, else the sum of the day totals; `SumDaysUpdate` states its property |
| PlanningView.SumQteAppend | prod/src/app/planification/planification.component.ts:300-302 | the day total of concatenated rows is the sum of their totals |
| PlanningView.SumQteSnoc | prod/src/app/planification/planification.component.ts:300-302 | appending a row adds its quantity to the day total |
| PlanningView.SumQteRemove | prod/src/app/planification/planification.component.ts:300-302 | removing a row lowers the day total by its quantity |
| PlanningView.SumDaysUpdate | prod/src/app/planification/planification.component.ts:305-312 | replacing a day changes the week total by the change in that day's total |
| PlanningView.OnQtePlanifierChange | prod/src/app/planification/planification.component.ts:233-241 | only hours and operators change; nothing planned gives 0 and 0; the hours are the nearest integer to quantity / 50, and the operators are the fewest 8-hour shifts covering them |
| PlanningView.OnQtePlanifierChangeIdempotent | prod/src/app/planification/planification.component.ts:233-241 | handling the same quantity twice changes nothing more |
| PlanningView.OperatorExamples | prod/src/app/planification/planification.component.ts:233-241 | 200 pieces need 1 operator; 1000 pieces need 20 hours and 3 operators |
| PlanningView.AddNewReference | prod/src/app/planification/planification.component.ts:243-266 | nothing loaded changes nothing; a bad day index throws; otherwise only that day grows, by one empty row with packaging 200 |
| PlanningView.AddNewReferenceKeepsTotals | prod/src/app/planification/planification.component.ts:243-266 | adding a row keeps the week total and grows the day by one row |
| PlanningView.SpliceOne | prod/src/app/planification/planification.component.ts:271 | `splice(start, 1)` removes the element at an in-range start, counts a negative start from the end (the first element below `-length`), and removes nothing at or past the end |
| PlanningView.RemoveReference | prod/src/app/planification/planification.component.ts:268-273 | a bad day index throws; a day's only row is never removed; otherwise the chosen row goes (counted from the end when negative, the first below `-length`), an index at or past the end changes nothing, and other days are untouched |
| PlanningView.RemoveReferenceTotal | prod/src/app/planification/planification.component.ts:268-273 | removing a row lowers the week total by its quantity |
| PlanningView.AddThenRemoveLast | prod/src/app/planification/planification.component.ts:243-273 | adding a row to a non-empty day and removing the last row gives back the original view |

## Left out

- Persistence failures: every `save` and `remove` succeeds. The `catch` blocks that turn a database failure into a 500 are not modelled, except where a thrown 404 is caught (`updateProductionSimple`).
- Atomicity: the source writes a week, its lines and their references in separate statements, so a failure midway leaves part of them behind. The model's operations are all-or-nothing.
- Concurrency: two requests racing between the existence check and the save are not modelled. The flat-row key is unique only because `createPlanification` checks for it, since the table has no unique index.
- Dates and timestamps: `dateDebut` and `dateFin` are kept as the request's strings, and `createdAt` / `updatedAt` are left out.
- The creating administrator is kept as an id, because the `Admin` entity is not part of this model.
- Numbers are unbounded integers and exact reals. IEEE-754 rounding in `pcsProd` and `tauxRealisation`, and integers beyond 2^53, are not modelled.
- Production.CalculateAutoFields, FlatPlanning.ApplyUpdate: an update body is a record of optional fields, and an absent field is `None`. An explicit JSON `null`, `NaN` or a value of the wrong type in a field is not modelled. For `FlatPlanning.ApplyUpdate` this matters: `updatePlanification` tests `!== undefined` (backpro/src/semaine/semaine.service.ts:103-108), so an explicit `null` is copied onto the row, and saving it into the non-null column then fails as a 500.
- Catalogue.LineImageUrl, Catalogue.LineImageName: `MAX(imageUrl)` and `MAX(imageOriginalName)` are modelled as the first non-null value of the line in catalogue order. That is not the SQL maximum, whose order depends on the database's collation; the two values differ whenever a line's products carry different URLs or names. Only the facts in `LineImageUrlChosen` and `LineImageNameChosen`, which hold of the maximum too, are promised.
- Catalogue.ReferencesOfLine: references are listed in catalogue order. SQL `find` without `ORDER BY` gives no order, so `Weeks.CreateSemaineReferenceCodes` describes one possible order.
- Catalogue.DistinctLines: lines are listed in order of first appearance in the catalogue. `GROUP BY` without `ORDER BY` gives no order, so the order of the new week's line ids is one possible outcome.
- Store.LignesOf, Store.ReferencesOf, Store.PlanificationsOf: rows are listed in increasing id order. A `find` without `ORDER BY` promises no order. The sums and counts do not depend on it; the order of the buckets of `PlanStats.Group` does.
- Store.FindSemaine, Store.FindLigne, Store.FindReference, Store.FindPlanification: with several matches the smallest id is returned. The database promises no particular row.
- String comparison: names and codes are compared exactly. MySQL compares them under the column's collation, whose default ignores letter case and accents. As a result, weeks named "S46" and "s46", or "S46é" and "S46e", are two weeks in the model, while the database treats the second as a duplicate and answers 409. The same gap affects line names and reference codes: `Catalogue.DistinctLines` (`GROUP BY`), `Catalogue.ReferencesOfLine`, `Store.FindLigne`, `Store.FindReference`, `Store.FindPlanification` and `Store.PlanificationsOf`. The uniqueness constraints in `Store.Valid` are stated with exact comparison.
- PlanStats.Group: buckets are listed in order of first appearance. A JavaScript object enumerates integer-like keys (a line named "12") first, in ascending numeric order, so the serialised `parLigne` can list its buckets in another order. The contents of each bucket are the same.
- PlanStats.Group: a key equal to a name inherited from `Object.prototype` ("constructor", "toString", "valueOf", "__proto__", ...) is not modelled. In the source `!stats.parLigne[key]` is then false, so no bucket is created, the row is counted in no bucket, and `count++` writes onto the inherited object. The model gives such a key an ordinary bucket. Day keys are working days and cannot collide; line names can.
- The read-only endpoints are not modelled beyond the lookups they share with the operations above: `getPlanificationsBySemaine`, `getPlanificationsBySemaineAndLigne`, `getPlanificationsBySemaineLigneJour`, `getAllPlanifications`, `getSemaines`, `getSemaineById`, `getSemaineLignes`, `getLigneReferences`, `getAllSemainesWithLignes` and `getSemaineComplete`.
- The controller, authentication and request validation are left out. The model's inputs are the bodies after validation.
- From the planning component, these are left out as they are not planning logic: the mock line and week data, the particle animation, `savePlanification` (a timer), `exportToExcel` (a message only), success messages and `backToLines`.
- PlanningView.OnQtePlanifierChange: the view's numbers are modelled as integers. A fractional quantity typed into the form is not modelled.
- WeekStats.GetSemaineStats: the rate's contract gives the zero case and the 0.005 bound through `Taux`. The rate is not restated as a ratio of the sums in the method's own contract.

## Findings

| source | as written | input that shows it | evidently intended | confidence | as-written member | corrected member |
|---|---|---|---|---|---|---|
| backpro/src/semaine/semaine.service.ts:681-734 | the 404s for an unknown week, line or reference are thrown inside the `try`, and the `catch` rethrows them as a 500 | `updateProductionSimple('lundi', { semaine: 'semaine46', ligne: 'L04', reference: 'RA1' })` on an empty database | a 404 naming what was not found, as `updateProductionData` answers | high, not executed | SlotUpdates.UnknownKeyIsInternalError | SlotUpdates.UpdateProductionSimpleIntended |
