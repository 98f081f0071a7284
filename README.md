# Keystone Heroes — verified model of the event pipelines, report views and dungeon tables

Keystone Heroes imports Mythic+ runs from Warcraft Logs (WCL), condenses each fight's raw
combat-log events into a few events worth showing, and renders a report page: a timeline of
casts, a dungeon map with pulls and zone changes, and a header with timing, deaths and a sortable
player table. This project models the core of that pipeline in Dafny and proves what it promises.

- **Event pipelines** (`soa.dfy`, `volcanic.dfy`, `other.dfy`, `nw.dfy`, with the shared
  `events.dfy`, `chunking.dfy`, `reducer.dfy`, `seqs.dfy`):
  - the event classifiers, each an event type plus one or more ability ids;
  - the Spires of Ascension spear pipeline: filter, then chunk by a 10-second gap, then keep the
    first event of each chunk;
  - the Volcanic affix pipeline: filter, then keep the first hit per player;
  - the profession-item grouping;
  - the Necrotic Wake classifiers.
- **Event processors** (`applydebuff.dfy`, `applybuffstack.dfy`, `records.dfy`): turning one
  event into a stored record, or into nothing.
- **Report views** (`castrow.dfy`, `map.dfy`, `meta.dfy`, `violent.dfy`):
  - the cooldown cell of a cast row;
  - the map's zone tabs, the next pull in a zone, and the zone-change segments;
  - the timer delta, death penalty, covenant indicator, chest stars and player-table sorting;
  - the damage total of the Violent Detonation row.
- **Client store** (`store.dfy`):
  - the report store's selected pull;
  - the map-options store, whose toggles and colour setters persist into browser storage and are
    restored from it on reload.
- **Dungeon tables** (`dungeons.dfy`, `prisma_dungeons.dfy`, `decimal.dfy`): the static dungeon
  table with timers, bosses, zones and unit counts; the seed table of the database; and the
  `Object.entries`/`Number.parseInt` round trip that turns either map into a list.

Browser storage is a value of type `Option<StoredEntry>`:

- `None` means no entry;
- `Options(map)` is a parsed JSON object of string values;
- `Corrupt` is text that `JSON.parse` rejects.

The cooldown arithmetic of the cast row (`x / 1000 <= cd`, `Math.floor(x / 1000 / cd)`) is
modelled exactly over the integers. A zero cooldown yields the JavaScript values `Infinity`,
`-Infinity` and `NaN`, and these are modelled as cases of `CastRow.Quotient`.

## Model

| member | source | states |
|---|---|---|
| Seqs.Filter | packages/@keystone-heroes/wcl/src/queries/events/dungeons/soa.ts:43 | `Array.prototype.filter`: exactly the elements satisfying the predicate are kept, with multiplicities bounded by the input |
| Seqs.FilterIsSubsequence | packages/@keystone-heroes/wcl/src/queries/events/dungeons/soa.ts:43 | a filtered list keeps the input's order (it is a subsequence of the input) |
| Seqs.FindIndex | packages/@keystone-heroes/web/src/components/report/Map.tsx:101-103 | `findIndex`: -1 iff no element matches; otherwise the index matches and no earlier one does |
| Seqs.Find | packages/@keystone-heroes/web/src/components/report/Map.tsx:919-929 | `find`: `None` iff nothing matches; otherwise the first matching member of the list |
| Events.SubsequenceOfSortedIsSorted | packages/@keystone-heroes/wcl/src/queries/events/dungeons/soa.ts:42-44 | any order-preserving selection from a timestamp-sorted event list is still sorted |
| Chunking.Chunks | packages/@keystone-heroes/wcl/src/queries/events/dungeons/soa.ts:34-36 | the chunk-by-threshold reducer: chunks are non-empty and concatenate back to the input |
| Chunking.ChunkGaps | packages/@keystone-heroes/wcl/src/queries/events/dungeons/soa.ts:34-36 | inside a chunk consecutive events are less than the threshold apart; a new chunk starts only at a gap of at least the threshold |
| Chunking.Heads | packages/@keystone-heroes/wcl/src/queries/events/dungeons/soa.ts:47 | `flatMap(chunk => chunk[0])`: exactly one event per chunk |
| Chunking.HeadsAt | packages/@keystone-heroes/wcl/src/queries/events/dungeons/soa.ts:47 | the event for chunk i is that chunk's first event |
| Chunking.ChunksStep | packages/@keystone-heroes/wcl/src/queries/events/dungeons/soa.ts:34-36 | each new event opens a chunk when it follows the previous event by at least the threshold, and otherwise joins the last chunk |
| Chunking.ChunkStarts | packages/@keystone-heroes/wcl/src/queries/events/dungeons/soa.ts:44-47 | the chunk starts begin with the first event and are drawn from the input |
| Chunking.HeadsAreChunkStarts | packages/@keystone-heroes/wcl/src/queries/events/dungeons/soa.ts:44-47 | the heads of the chunks are exactly the events that open a new chunk |
| Chunking.ChunkStartsSubsequence | packages/@keystone-heroes/wcl/src/queries/events/dungeons/soa.ts:44-47 | the chunk starts keep the input's order |
| Chunking.ChunkStartsSpacing | packages/@keystone-heroes/wcl/src/queries/events/dungeons/soa.ts:34-36 | for sorted input, consecutive chunk starts are at least the threshold apart |
| PlayerReducer.FirstPerKey | packages/@keystone-heroes/wcl/src/queries/events/affixes/volcanic.ts:43 | `reduceEventsByPlayer`: the same keys as the input survive, each exactly once |
| PlayerReducer.FirstPerKeySubsequence | packages/@keystone-heroes/wcl/src/queries/events/affixes/volcanic.ts:43 | the reduced list keeps the input's order |
| PlayerReducer.FirstPerKeyKeepsFirst | packages/@keystone-heroes/wcl/src/queries/events/affixes/volcanic.ts:43 | every surviving event is the first input event with its key |
| PlayerReducer.FirstOfEveryKeyKept | packages/@keystone-heroes/wcl/src/queries/events/affixes/volcanic.ts:43 | conversely, the first input event of every key survives |
| Soa.IsSoaSpearEvent | packages/@keystone-heroes/wcl/src/queries/events/dungeons/soa.ts:29-32 | an event is a spear event iff it is an `applydebuff` of ability 339917 |
| Soa.SpearEvents | packages/@keystone-heroes/wcl/src/queries/events/dungeons/soa.ts:43 | exactly the spear events of the input, as an order-preserving selection |
| Soa.GetSOAEvents | packages/@keystone-heroes/wcl/src/queries/events/dungeons/soa.ts:38-48 | the result is the chunk starts of the spear events at a 10 000 ms threshold; all of them are spear debuffs |
| Soa.OneEventPerChunk | packages/@keystone-heroes/wcl/src/queries/events/dungeons/soa.ts:44-47 | the result holds exactly the first event of each chunk, one per chunk |
| Soa.GetSOAEventsSubsequence | packages/@keystone-heroes/wcl/src/queries/events/dungeons/soa.ts:38-48 | the result is an order-preserving selection of the input events |
| Soa.GetSOAEventsSpacing | packages/@keystone-heroes/wcl/src/queries/events/dungeons/soa.ts:34-36 | for sorted input, two reported spear usages are at least 10 s apart |
| Soa.NoSpearNoUsage | packages/@keystone-heroes/wcl/src/queries/events/dungeons/soa.ts:38-48 | without spear events nothing is reported |
| Soa.ChunkExample | packages/@keystone-heroes/wcl/src/queries/events/dungeons/soa.ts:34-36 | events at 0, 5 s and 20 s form two chunks, reported as the events at 0 and 20 s |
| Volcanic.IsVolcanicEvent | packages/@keystone-heroes/wcl/src/queries/events/affixes/volcanic.ts:30-33 | a `damage` event that carries ability id 209862; it agrees with the query's type and ability conditions |
| Volcanic.VolcanicEvents | packages/@keystone-heroes/wcl/src/queries/events/affixes/volcanic.ts:43 | exactly the Volcanic hits of the input, as an order-preserving selection |
| Volcanic.GetVolcanicEvents | packages/@keystone-heroes/wcl/src/queries/events/affixes/volcanic.ts:35-44 | empty without the Volcanic affix; otherwise Volcanic hits only, at most one per target, in input order |
| Volcanic.FirstHitPerTarget | packages/@keystone-heroes/wcl/src/queries/events/affixes/volcanic.ts:43 | each reported hit is the first Volcanic hit on its target, and every hit target is reported |
| Volcanic.SamePlayerExample | packages/@keystone-heroes/wcl/src/queries/events/affixes/volcanic.ts:35-44 | two hits on the same player are reported as the earlier one alone |
| Professions.IsLeatherworkingDrumsEvent | packages/@keystone-heroes/wcl/src/queries/events/other.ts:19-22 | an `applybuff` of the drums ability |
| Professions.IsInvisibilityEvent | packages/@keystone-heroes/wcl/src/queries/events/other.ts:24-30 | an `applybuff` of either invisibility ability |
| Professions.IsEngineeringBattleRezEvent | packages/@keystone-heroes/wcl/src/queries/events/other.ts:32-35 | a `cast` of the engineering battle-rez ability |
| Professions.ClassifiersDisjoint | packages/@keystone-heroes/wcl/src/queries/events/other.ts:19-35 | no event satisfies two of the three classifiers |
| Professions.FilterProfessionEvents | packages/@keystone-heroes/wcl/src/queries/events/other.ts:52-60 | an event is in the result iff one classifier accepts it; no input occurrence is taken twice |
| Professions.ProfessionEventGroups | packages/@keystone-heroes/wcl/src/queries/events/other.ts:55-59 | the result is drums, then invisibility, then battle rez, each group being that classifier's filter |
| Professions.ProfessionEventGroupsInInputOrder | packages/@keystone-heroes/wcl/src/queries/events/other.ts:55-59 | each group is an order-preserving selection of the input |
| Professions.GroupsNotSortedByTime | packages/@keystone-heroes/wcl/src/queries/events/other.ts:59 | a later drums event is listed before an earlier potion: the result is grouped, not sorted by time |
| NecroticWake.IsNwSpearEvent | packages/@keystone-heroes/wcl/src/queries/events/dungeons/shadowlands/nw.ts:31-34 | a `damage` event of ability 328351 |
| NecroticWake.IsNwHammerEvent | packages/@keystone-heroes/wcl/src/queries/events/dungeons/shadowlands/nw.ts:36-39 | a `damage` event of ability 328128 |
| NecroticWake.IsNwOrbEvent | packages/@keystone-heroes/wcl/src/queries/events/dungeons/shadowlands/nw.ts:41-44 | a `damage` event of ability 328406 |
| NecroticWake.IsNwKyrianOrbDamageEvent | packages/@keystone-heroes/wcl/src/queries/events/dungeons/shadowlands/nw.ts:46-49 | a `damage` event of ability 344421 |
| NecroticWake.IsNwKyrianOrbHealEvent | packages/@keystone-heroes/wcl/src/queries/events/dungeons/shadowlands/nw.ts:51-54 | a `heal` event of ability 344422 |
| NecroticWake.ClassifiersDisjoint | packages/@keystone-heroes/wcl/src/queries/events/dungeons/shadowlands/nw.ts:4-12 | the five ids are distinct, so at most one classifier accepts any event |
| NecroticWake.FilterExpressionOrder | packages/@keystone-heroes/wcl/src/queries/events/dungeons/shadowlands/nw.ts:23-29 | the five queries, in order orb, hammer, spear, kyrian heal, kyrian damage, match the classifiers of the same name |
| ApplyDebuff.ApplyDebuffProcessor | src/wcl/transform/events/applydebuff.ts:27-43 | a record is produced iff the ability is a tracked debuff; it copies the timestamp, ability and the three actor ids |
| ApplyDebuff.SpearDebuffRecorded | src/wcl/transform/events/applydebuff.ts:13-14 | the Spires spear debuff is always recorded |
| ApplyDebuff.DebuffDecisionIgnoresActors | src/wcl/transform/events/applydebuff.ts:31 | whether a record is produced does not depend on the actors |
| ApplyBuffStack.ApplyBuffStackProcessor | src/wcl/transform/events/applybuffstack.ts:19-34 | a record is produced iff the target player id is truthy and the ability is tracked; it carries the stack count |
| ApplyBuffStack.LanternBuffRecorded | src/wcl/transform/events/applybuffstack.ts:11-17 | the Sanguine Depths lantern buff on a player is always recorded |
| CastRow.FloorDiv | src/web/components/report/rows/CastRow.tsx:51-55 | `Math.floor(x / d)`: the floor quotient for a non-zero divisor; `Infinity`, `-Infinity` or `NaN` for a zero one |
| CastRow.HasLastUse | src/web/components/report/rows/CastRow.tsx:44-51 | the last use is truthy iff `lastUse ?? 0` is non-zero, so both readings of the last use agree |
| CastRow.UsedUnderCooldown | src/web/components/report/rows/CastRow.tsx:47-49 | true iff the cooldown is non-zero and the seconds since the last use (0 when unknown) are at most the cooldown |
| CastRow.PossibleUsageCount | src/web/components/report/rows/CastRow.tsx:51-55 | 0 without a last use; otherwise the floor of (elapsed + cd) / (1000 · cd), with the zero-cooldown special values |
| CastRow.DelayedTooHard | src/web/components/report/rows/CastRow.tsx:57 | red only when a previous use is recorded |
| CastRow.FirstUseNotDelayed | src/web/components/report/rows/CastRow.tsx:51-57 | a first use is never flagged as delayed |
| CastRow.DelayedIffTwoCooldowns | src/web/components/report/rows/CastRow.tsx:51-57 | for a positive cooldown, delayed iff elapsed + cd ≥ 2000 · cd |
| CastRow.UnderCooldownNotDelayed | src/web/components/report/rows/CastRow.tsx:47-57 | a use within the cooldown is not flagged as delayed |
| CastRow.ZeroCooldown | src/web/components/report/rows/CastRow.tsx:44-57 | a zero cooldown is never "under cooldown"; it is delayed iff time has passed since the last use (`Infinity > 1`) |
| CastRow.MissedUses | src/web/components/report/rows/CastRow.tsx:103-109 | the tooltip count exists iff the use is delayed; it is the usage count minus one, and at least 1 |
| CastRow.RenderCastRow | src/web/components/report/rows/CastRow.tsx:35-42 | no row for an unknown ability; the ability cell spans 3 columns and no cooldown cell is shown iff the cooldown is the dummy value |
| CastRow.CooldownCellContents | src/web/components/report/rows/CastRow.tsx:96-121 | red is `DelayedTooHard`, green is `UsedUnderCooldown`, the tooltip is `MissedUses` and yellow with "first use" marks a missing last use; red iff elapsed + cd ≥ 2000 · cd for a positive cooldown, and never together with green |
| Store.ReportStore.constructor | packages/@keystone-heroes/web/src/store.ts:11-20 | the selected pull starts at 1 |
| Store.ReportStore.SetSelectedPull | packages/@keystone-heroes/web/src/store.ts:11-20 | sets the selected pull |
| Store.Persist | packages/@keystone-heroes/web/src/store.ts:158-187 | throws iff the stored text is unparsable; otherwise the key is set or removed and the other keys are kept; an empty object is removed |
| Store.PersistKeepsOtherKeys | packages/@keystone-heroes/web/src/store.ts:163-176 | persisting one key leaves every other key's stored value unchanged |
| Store.PersistIdempotent | packages/@keystone-heroes/web/src/store.ts:158-187 | persisting the same key and value twice equals persisting once |
| Store.RestoreFrom | packages/@keystone-heroes/web/src/store.ts:128-152 | unparsable or missing storage leaves the options unchanged; otherwise every stored key overrides its option, and flags use the truthiness of the stored text |
| Store.DefaultsInSync | packages/@keystone-heroes/web/src/store.ts:47-112 | the default options agree with empty storage |
| Store.ReloadRestores | packages/@keystone-heroes/web/src/store.ts:128-187 | options kept in sync with storage are recovered from storage on reload, except that the map starts hidden |
| Store.RestoreIdempotent | packages/@keystone-heroes/web/src/store.ts:128-152 | restoring twice equals restoring once |
| Store.MapOptionsStore.constructor | packages/@keystone-heroes/web/src/store.ts:47-112 | a new store holds the default options over the given storage |
| Store.MapOptionsStore.ToggleMapOptions | packages/@keystone-heroes/web/src/store.ts:88-94 | flips visibility only; storage is untouched and stays in sync |
| Store.MapOptionsStore.ToggleMapChangeLines | packages/@keystone-heroes/web/src/store.ts:55-66 | succeeds iff storage parses; then flips the flag and stores "0" when hiding and removes the key when showing; on failure nothing changes; keeps storage in sync |
| Store.MapOptionsStore.TogglePOIs | packages/@keystone-heroes/web/src/store.ts:67-75 | the same as the map-change lines, for the points of interest |
| Store.MapOptionsStore.TogglePullConnectionLines | packages/@keystone-heroes/web/src/store.ts:76-87 | the same as the map-change lines, for the pull connection lines |
| Store.MapOptionsStore.SetPullConnectionLineColor | packages/@keystone-heroes/web/src/store.ts:96-103 | sets the colour even when persisting throws; stores it when storage parses; keeps storage in sync |
| Store.MapOptionsStore.ResetPullConnectionLineColor | packages/@keystone-heroes/web/src/store.ts:104-110 | restores the default colour and removes the stored key |
| Store.MapOptionsStore.SetInvisPullConnectionLineColor | packages/@keystone-heroes/web/src/store.ts:120-126 | the same as the pull-connection colour, for the invisible-pull colour |
| Store.MapOptionsStore.ResetInvisPullConnectionLineColor | packages/@keystone-heroes/web/src/store.ts:112-119 | restores the default invisible-pull colour and removes the stored key |
| Store.MapOptionsStore.RestoreFromLocalStorage | packages/@keystone-heroes/web/src/store.ts:128-152 | the new options are `RestoreFrom` of the old options and storage; storage is unchanged |
| MapView.NextTab | packages/@keystone-heroes/web/src/components/report/Map.tsx:119-151 | other keys keep the tab; the right and left arrows move one tab forward or back, wrapping, and stay in range |
| MapView.NextTabWraps | packages/@keystone-heroes/web/src/components/report/Map.tsx:133-148 | right on the last tab gives the first; left on the first gives the last |
| MapView.NextTabInverse | packages/@keystone-heroes/web/src/components/report/Map.tsx:133-148 | left undoes right and right undoes left |
| MapView.InitialTab | packages/@keystone-heroes/web/src/components/report/Map.tsx:101-103 | no tab (the `TypeError` of reading a missing pull's zone) iff the selected pull does not exist; otherwise the index of the first zone holding that pull, or -1 iff no zone does |
| MapView.OnDoorClick | packages/@keystone-heroes/web/src/components/report/Map.tsx:242-250 | switches to the tab of the door's zone when it exists, otherwise keeps the tab |
| MapView.ZonePulls | packages/@keystone-heroes/web/src/components/report/Map.tsx:276 | exactly the pulls in the zone, as an order-preserving selection of the fight's pulls |
| MapView.NextPull | packages/@keystone-heroes/web/src/components/report/Map.tsx:306-309 | the next pull in the zone is shown iff it is the immediately following pull id |
| MapView.PullConnectionTarget | packages/@keystone-heroes/web/src/components/report/Map.tsx:512-518 | no connection line while `renderPullConnectionLines` is off; otherwise a line to the next pull exactly when `NextPull` has one |
| MapView.DoorBetween | packages/@keystone-heroes/web/src/components/report/Map.tsx:919-929 | a door exists iff the zone's door list has one leading to the other zone, and it is the first such door in that list |
| MapView.SegmentAt | packages/@keystone-heroes/web/src/components/report/Map.tsx:908-984 | no connector for the first pull; a connector at pull i is keyed i, well placed at a door of this zone, and enters iff pull i lies in this zone |
| MapView.SegmentsUpTo | packages/@keystone-heroes/web/src/components/report/Map.tsx:897-985 | every segment is keyed by a zone change at a placed door, and keys strictly increase |
| MapView.MapChangeSegments | packages/@keystone-heroes/web/src/components/report/Map.tsx:897-985 | no connectors while `renderMapChangeLines` is off (Map.tsx:875-881); otherwise all connectors of the zone's map are well placed, with strictly increasing keys |
| MapView.SegmentsComplete | packages/@keystone-heroes/web/src/components/report/Map.tsx:875-961 | while map-change lines are shown, and only then, every entry into or exit from the zone with a door on record yields a segment keyed by that pull |
| MapView.SegmentsKeep | packages/@keystone-heroes/web/src/components/report/Map.tsx:897-985 | later pulls never remove a segment |
| MapView.NoZoneChangeNoSegments | packages/@keystone-heroes/web/src/components/report/Map.tsx:909-918 | without a zone change no segment is drawn |
| Meta.Insert | src/web/components/report/Meta.tsx:542-556 | inserting into an ascending list keeps it ascending and one longer, headed by the new player or the old head |
| Meta.InsertIsPermutation | src/web/components/report/Meta.tsx:542-556 | inserting adds exactly the new player to the multiset of rows |
| Meta.SortByMetric | src/web/components/report/Meta.tsx:542-556 | sorting by dps, hps or item level gives an ascending permutation |
| Meta.Reverse | src/web/components/report/Meta.tsx:558-562 | element i of the result is element n-1-i of the input |
| Meta.ReverseIsPermutation | src/web/components/report/Meta.tsx:558-562 | reversing is a permutation |
| Meta.OrderedPlayers | src/web/components/report/Meta.tsx:542-562 | always a permutation; role order is kept as given; metric sorts are ascending, or descending when the order is `desc` |
| Meta.PlayerTableSort.constructor | src/web/components/report/Meta.tsx:538-540 | starts sorted by role with no order |
| Meta.PlayerTableSort.Displayed | src/web/components/report/Meta.tsx:542-562 | the table shows a permutation of the players in the order its state names |
| Meta.PlayerTableSort.Click | src/web/components/report/Meta.tsx:564-580 | role resets the order; a new column sorts descending; the same column flips the order |
| Meta.IsTimed | src/web/components/report/Meta.tsx:161-162 | timed iff at most 750 ms over the timer: always within the timer, never beyond the slack |
| Meta.DisplayedDelta | src/web/components/report/Meta.tsx:161-175 | "+" iff the run is timed with 750 ms of slack, and the shown difference matches the sign |
| Meta.SlackShowsNegativePlus | src/web/components/report/Meta.tsx:161-175 | a run 500 ms over the timer shows as "+" with a negative difference |
| Meta.DeathPenalty | src/web/components/report/Meta.tsx:178-188 | shown iff there are deaths, as 5 s per death |
| Meta.DeathPenaltyStep | src/web/components/report/Meta.tsx:178-188 | one more death adds 5000 ms |
| Meta.AnyHasCovenant | src/web/components/report/Meta.tsx:218-220 | true iff some player has the covenant |
| Meta.CovenantIndicator | src/web/components/report/Meta.tsx:214-222 | hidden iff the dungeon has no known covenant; otherwise tells whether some player has it |
| Meta.StarCount | src/web/components/report/Meta.tsx:721-728 | one star per chest, none for a negative count |
| ViolentDetonation.TotalDamageDone | packages/@keystone-heroes/web/src/components/report/rows/ViolentDetonationDamageRow.tsx:24-27 | the total is non-negative when every damage amount is |
| ViolentDetonation.TotalIsSumOfDamageDone | packages/@keystone-heroes/web/src/components/report/rows/ViolentDetonationDamageRow.tsx:24-27 | the fold equals the sum of damage over the damage-done events |
| ViolentDetonation.OnlyDamageTakenTotalsZero | packages/@keystone-heroes/web/src/components/report/rows/ViolentDetonationDamageRow.tsx:24-27 | damage-taken events alone total zero |
| ViolentDetonation.TotalAppend | packages/@keystone-heroes/web/src/components/report/rows/ViolentDetonationDamageRow.tsx:24-27 | the total of a concatenation is the sum of the totals |
| ViolentDetonation.DamageTakenIgnored | packages/@keystone-heroes/web/src/components/report/rows/ViolentDetonationDamageRow.tsx:25 | inserting a damage-taken event anywhere does not change the total |
| ViolentDetonation.TotalPermutation | packages/@keystone-heroes/web/src/components/report/rows/ViolentDetonationDamageRow.tsx:24-27 | the total does not depend on event order |
| Decimal.DecimalString | packages/@keystone-heroes/db/src/data/dungeons.ts:357-365 | a map key's text is a non-empty digit string without a leading zero |
| Decimal.ParseDecimalString | packages/@keystone-heroes/db/src/data/dungeons.ts:357-365 | `Number.parseInt` of a key's text gives back the key |
| DungeonData.CreateDungeonTimer | packages/@keystone-heroes/db/src/data/dungeons.ts:5-11 | the one-chest time is the minutes in ms; two and three chests are 80 % and 60 % of it |
| DungeonData.TimerDecreasing | packages/@keystone-heroes/db/src/data/dungeons.ts:5-11 | for a positive duration, one chest > two chests > three chests > 0 |
| DungeonData.DungeonMapKeys | packages/@keystone-heroes/db/src/data/dungeons.ts:346-355 | the map's keys are exactly the eight dungeon ids |
| DungeonData.DungeonCount | packages/@keystone-heroes/db/src/data/dungeons.ts:346-355 | the map holds eight dungeons |
| DungeonData.DungeonIDsAscending | packages/@keystone-heroes/db/src/data/dungeons.ts:61-70 | the ids are strictly ascending, the order of `Object.entries` for integer keys |
| DungeonData.DungeonsOf | packages/@keystone-heroes/db/src/data/dungeons.ts:357-365 | one entry per key, with the key (parsed back from its text) as id and the map's value; generic in the value type, so the seed table's `dungeons` (prisma/dungeons.ts:183-190) uses it too |
| DungeonData.Dungeons | packages/@keystone-heroes/db/src/data/dungeons.ts:357-365 | the list has an entry for each id, in ascending order, with the map's data |
| DungeonData.DungeonsCoverMap | packages/@keystone-heroes/db/src/data/dungeons.ts:357-365 | every map entry appears in the list under its own id with its own data |
| DungeonData.DungeonsInIdOrder | packages/@keystone-heroes/db/src/data/dungeons.ts:357-365 | the list's ids are strictly ascending, so no dungeon appears twice |
| DungeonData.DeOtherSideIgnoresBosses | packages/@keystone-heroes/db/src/data/dungeons.ts:279-288 | De Other Side ignores its bosses plus exactly three further units |
| DungeonData.TableWellFormed | packages/@keystone-heroes/db/src/data/dungeons.ts:105-344 | every dungeon's unit counts are non-negative and its zones are numbered 1..n |
| PrismaDungeons.SeedMapKeys | prisma/dungeons.ts:61-181 | the seed table covers the same dungeon ids as the dungeon table |
| PrismaDungeons.Dungeons | prisma/dungeons.ts:183-190 | eight entries in ascending id order, with the map's data |
| PrismaDungeons.AllShadowlands | prisma/dungeons.ts:90-179 | every seeded dungeon belongs to Shadowlands |
| PrismaDungeons.AgreesWithDungeonTable | prisma/dungeons.ts:72-181 | the seed table agrees with the dungeon table on timer, slug and bosses, and on the name except for Theatre of Pain |

## Left out

- The pull segmenter and the cooldown tracker of the event pipeline are not part of this model.
- `createIsSpecificEvent`, `createChunkByThresholdReducer` and `reduceEventsByPlayer` live in a
  `utils` file that is not part of this model. They are modelled from their call sites and their
  names:
  - a type check plus an ability id, or a set of ids;
  - a chunk closes at a gap of at least the threshold;
  - the first event per key is kept.
- Query strings are modelled only as the event type and ability ids they select. Conditions on
  `source.type` and `target.type` are not modelled. The drums query asks for `cast` while its
  classifier accepts `applybuff`; the model keeps the classifier's type.
- The ids of the imported debuff and buff sets, `SD_LANTERN_BUFF` and `DUMMY_CD` come from files
  that are not part of this model. They are unspecified constants; only the known members are
  used.
- Floating point: `/ 1000 / cd` and the timer factors 0.8 and 0.6 are modelled as exact rational
  or integer arithmetic; no rounding is modelled.
- `Meta.SortByMetric`: stability of the sort is not proved. The role comparator always answers
  1. That comparator is inconsistent, so ECMAScript leaves the resulting order to the
  implementation. The model assumes V8's behaviour: TimSort sees one ascending run and keeps the
  input order.
- `Store.MapOptionsStore.RestoreFromLocalStorage`: a stored colour `"0"` is turned into `false`
  by the source, but is kept as the string here. Non-string stored values, unknown keys and the
  map-change colour are not modelled.
- Browser storage holds JSON text; it is modelled as a string map, with one `Corrupt` value for
  any text that does not parse.
- `Decimal.ParseDecimal`: accepts only digit strings, which is all `Object.entries` produces for
  the integer keys here.
- Rendering (JSX, class names beyond the three cooldown colours, the chest-plural title), map
  geometry (door coordinates, midpoints, polylines), focus handling and refs are not modelled.
  The door table is a parameter.
- `MapView.PullConnectionTarget`: the source also draws no connection line when a scaled
  coordinate or midpoint of the line is 0 (a falsy number). That depends on geometry, which is
  not modelled. The `renderMapChangeLines` and `renderPullConnectionLines` options are passed
  in as parameters, not read from the store.
- zustand subscriptions and React hooks are replaced by explicit state in classes; re-render
  timing is not modelled.
