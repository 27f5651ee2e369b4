# Mission Roulette, modelled in Dafny

Mission Roulette is a web tool for planning a game session of Star Citizen. Its data is a mission graph with four parts:

- **mission types**;
- **missions**, called *subsystems*, each with a time, alignment tags and a `disabled` flag;
- **star systems** and their **planets**;
- **links**, each saying that a mission can be done on a given planet.

The tool has two pages:

- **The roulette page** (`roulette-script.js`) draws a random playlist. Its missions fit the chosen alignment, mission type and system. The playlist is built until the chosen duration is used up, and each entry adds the travel time from the previous stop. A slider label shows the chosen duration.
- **The editor page** (`script.js`) edits the graph. It can delete a record, and deleting cascades to that record's links. It can add types and systems, submit mission and planet forms, draw and remove links, and disable missions. It counts a planet's legal and illegal missions, and it can import a dataset.

This project models those operations and proves what they promise.

Modules:

- `Collections`: an Option type and the array operations the source uses: `filter`, `findIndex`/`find`, and tabulation.
- `Dataset`: the records. Each keyed table is a `Table`, i.e. the keys in enumeration order plus the map of records. `Put` models `obj[k] = v` and `Remove` models `delete obj[k]`.
- `Budget`: the playlist loop's time budget, stated over the cost of each candidate entry.
- `Roulette`: the selection filter and the travel rule. `Generate` is the function a run computes. `GeneratePlaylist`/`FillPlaylist` are the loop, proved to compute `Generate`.
- `RouletteProperties`: what a generated playlist satisfies.
  - Every entry honours the filters and follows a link.
  - Travel is priced from the previous stop.
  - The total adds up, and the budget and its overrun allowance hold.
  - The loop stops for a reason.
  - A longer duration extends the playlist.
- `Duration`: the slider's label, and a parser that reads it back.
- `Editor`: the editor's `appData` as a class, `AppData`. Its methods change the state in place, and each is proved to compute a function of the old state.
- `EditorProperties`: what those functions promise.
  - Deletion cascades to links.
  - Links never repeat.
  - A splice removes exactly one link.
  - A resubmitted mission keeps its `disabled` flag.
  - Toggling twice restores the table.
  - The planet counts are bounded.
  - Deletion, adding a type or system, writing a mission or planet, the disable toggle, removing a link and adding a link between existing records keep the links pointing at existing records. Import is the exception: an imported file brings its own links, which are taken as they are.

Random draws are a parameter `pick`: `pick(k, n)` is `Math.floor(Math.random() * n)` at the k-th call of `Math.random`. Pass `i` of the loop makes calls `2i` (the mission) and `2i + 1` (the link). Fresh ids from `generateId` are parameters too.

## Model

| member | source | states |
|---|---|---|
| Collections.Filter | roulette-script.js:140-142 | `Array.prototype.filter`: the result keeps exactly the elements that satisfy the predicate and is no longer than the input |
| Collections.FindIndex | roulette-script.js:144 | `findIndex`: the index found satisfies the predicate and no earlier element does; the length of the list means none does |
| Collections.FilterConcat | script.js:261-262 | filtering a concatenation filters each part, keeping the relative order |
| Collections.FilterFilter | script.js:261-268 | filtering by p and then by q equals filtering once by both |
| Collections.FilterMultiplicity | script.js:149-150 | a kept element occurs as often as before; a dropped one not at all |
| Collections.FilterKeepsDistinct | script.js:149-150 | filtering a list without repeats gives a list without repeats |
| Collections.FilterMonotone | script.js:261-268 | a weaker predicate keeps at least as many elements |
| Collections.TabulateAt | roulette-script.js:197-202 | element k of a tabulation is the value at k |
| Collections.TabulatePrefix | roulette-script.js:197-202 | a shorter tabulation is a prefix of a longer one |
| Dataset.Put | script.js:356-357 | `obj[k] = v`: k maps to v, no other key changes, an existing key keeps its place, a new key is enumerated last |
| Dataset.Remove | script.js:148 | `delete obj[k]`: k is gone, every other record stays, the remaining keys keep their order |
| Dataset.FirstKeyWhere | roulette-script.js:144 | `Object.keys(obj).find(...)`: the first key in enumeration order whose record matches; none exactly when no record matches |
| Budget.Taken | roulette-script.js:162-208 | how many candidate entries the loop appends; never more than there are |
| Budget.Sum | roulette-script.js:193-205 | the running total of the first n candidate costs, as `totalTime += missionTime` adds them; its properties are the contracts of SumAtLeastCount, SumOfPrefix and SumIsEntriesTime |
| Budget.Admits | roulette-script.js:162-195 | whether the loop appends candidate i: time remains and, unless it is the first, it overruns by at most 10; stated through AdmittedBeforeTaken, RefusedAtTaken and FirstAlwaysTaken |
| Budget.SumAtLeastCount | roulette-script.js:193 | with positive costs, n entries take at least n minutes |
| Budget.SumOfPrefix | roulette-script.js:205 | the running total over a prefix agrees with the total over the whole |
| Budget.AdmittedBeforeTaken | roulette-script.js:162-195 | every entry before the stopping point passed both loop checks |
| Budget.RefusedAtTaken | roulette-script.js:162-195 | the loop stops at an entry it refuses, or where the candidates end |
| Budget.StopsAtFirstRefusal | roulette-script.js:162-195 | the first refused entry is where the loop stops |
| Budget.TakesAdmitted | roulette-script.js:195-207 | an entry that passes both checks is appended |
| Budget.TakenWithinHorizon | roulette-script.js:162 | with costs of at least a minute, the loop stops within `duration` entries |
| Budget.FirstAlwaysTaken | roulette-script.js:162-195 | the first entry is taken, whatever it costs, exactly when the duration is positive |
| Budget.WithinBudget | roulette-script.js:162-195 | time remained before every appended entry; with two or more entries the total is at most duration + 10 |
| Budget.StopsForAReason | roulette-script.js:162-195 | the loop stops because the candidates ran out, no time remains, or the next entry (not the first) would overrun by more than 10 |
| Budget.TakenMonotone | roulette-script.js:162-195 | a longer duration never takes fewer entries |
| Budget.TakenIgnoresLaterCosts | roulette-script.js:162-208 | candidates beyond the stopping point do not change where the loop stops |
| Roulette.TypeKey | roulette-script.js:144 | the key of the first mission type, in enumeration order, with the chosen name; none exactly when no type has that name |
| Roulette.SystemKey | roulette-script.js:148 | the key of the first system, in enumeration order, with the chosen name; none exactly when no system has that name |
| Roulette.MissionPool | roulette-script.js:140-147 | a mission is in the pool exactly when it is enabled, carries the chosen alignment (or 'any') and belongs to the type found by name (or 'any') |
| Roulette.ValidPlanetIds | roulette-script.js:148-151 | with 'any', all planet keys in order; otherwise exactly the planets of the system found by name |
| Roulette.ValidLinks | roulette-script.js:171 | exactly the links from the mission into a valid planet |
| Roulette.AvailableMissions | roulette-script.js:163-165 | exactly the pool missions with a link into a valid planet |
| Roulette.SameSystemTravelTime | roulette-script.js:184-189 | 5 exactly when the name lower-cases to "stanton", 7 exactly when it lower-cases to "pyro", otherwise 0 |
| Roulette.SameSystemTimes | roulette-script.js:184-189 | every system's same-system travel time, none negative |
| Roulette.ToLowerCase | roulette-script.js:185-187 | the lower-cased name has the same length and no upper-case letter; each of A-Z becomes its lower-case letter and every other character is kept |
| Roulette.TravelTime | roulette-script.js:177-191 | the travel time from the previous stop; its table is the contract of TravelTimeTable |
| Roulette.AvailableReady | roulette-script.js:163-172 | an available mission of a ready dataset takes some time and has a valid link to draw |
| Roulette.LinkReady | roulette-script.js:171-175 | a valid link leaves its mission and ends on a planet whose system exists |
| Roulette.SessionForValid | roulette-script.js:163-175 | in a ready dataset every draw finds a mission with some time, a link, a planet and a system |
| Roulette.EntryOfRun | roulette-script.js:197-202 | entry k of a run is what pass k draws |
| Roulette.MissionAt | roulette-script.js:168 | the mission pass i draws; PickValid states it is the available mission at the drawn index |
| Roulette.LinkAt | roulette-script.js:171-172 | the link pass i draws; PickValid states it is one of that mission's valid links |
| Roulette.PickAt | roulette-script.js:168-175 | the mission, planet and system pass i draws; PickValid states the planet exists and the system is its parent |
| Roulette.EntryAt | roulette-script.js:177-202 | entry i as line 197 pushes it; EntryInSession states what it is made of and how its travel is priced |
| Roulette.CostAt | roulette-script.js:193 | the minutes entry i takes; CostPositive and CostIsEntryMinutes state it is at least 1 and equals mission plus travel time |
| Roulette.Run | roulette-script.js:155-211 | the longest run of drawn entries the budget admits, with its total; RunWithinBudget states its budget facts |
| Roulette.Generate | roulette-script.js:138-212 | the playlist generatePlaylist returns; its properties are the contracts of the RouletteProperties lemmas (PlaylistHonoursFilters, PlaylistTravelTimes, PlaylistWithinBudget, FirstEntryAlwaysTaken, PlaylistStopsForAReason, LongerDurationExtends) |
| Roulette.PickValid | roulette-script.js:168-175 | each pass draws an available mission, one of its valid links, the planet the link leads to and that planet's system |
| Roulette.CostPositive | roulette-script.js:193 | every drawn entry costs at least a minute |
| Roulette.CostsPositive | roulette-script.js:193 | every candidate cost is at least a minute |
| Roulette.DrawEntry | roulette-script.js:168-193 | one pass builds the stream's entry for that pass and its cost, which is at least a minute |
| Roulette.GeneratePlaylist | roulette-script.js:138-212 | generatePlaylist returns `Generate`: empty when the pool is empty, otherwise the run of the loop |
| Roulette.FillPlaylist | roulette-script.js:155-211 | the while loop builds the longest run of drawn entries the budget admits, with its total time |
| Roulette.AdmitsNext | roulette-script.js:195-205 | an entry that passes line 195 is appended and its cost is added to the total |
| Roulette.EntriesExtend | roulette-script.js:197-207 | appending the next entry extends the run, and that entry's stop is the next pass's previous stop |
| Roulette.Refuse | roulette-script.js:162-195 | a pass that fails either check is where the run stops |
| RouletteProperties.EntriesPrefix | roulette-script.js:197-202 | a shorter run of the stream is a prefix of a longer one |
| RouletteProperties.SumIsEntriesTime | roulette-script.js:193-205 | the running total is the sum of the entries' mission and travel times |
| RouletteProperties.CostIsEntryMinutes | roulette-script.js:193 | a pass's cost is its entry's mission time plus travel time |
| RouletteProperties.CostsPrefix | roulette-script.js:193 | the costs over a shorter horizon are a prefix of those over a longer one |
| RouletteProperties.EntryInSession | roulette-script.js:168-191 | an entry is an available mission with a valid link to its planet, the planet's system, and travel priced from the previous entry's stop |
| RouletteProperties.AvailableFromPool | roulette-script.js:153-166 | a mission can only be available when the pool is not empty |
| RouletteProperties.PoolMemberHonours | roulette-script.js:140-147 | a pool mission is enabled, carries the alignment and belongs to a type with the chosen name |
| RouletteProperties.ValidPlanetHonours | roulette-script.js:148-151 | a valid planet lies in a system with the chosen name |
| RouletteProperties.SessionEntryHonours | roulette-script.js:140-175 | every drawn entry honours the filters |
| RouletteProperties.PlaylistHonoursFilters | roulette-script.js:140-175 | every entry of a playlist is an enabled mission of the chosen alignment and type, on a planet of the chosen system, joined by a link of the dataset |
| RouletteProperties.UnknownTypeGivesEmptyPlaylist | roulette-script.js:144-153 | a type name no record has empties the pool, and the playlist is empty |
| RouletteProperties.UnknownSystemGivesEmptyPlaylist | roulette-script.js:148-166 | a system name no record has leaves no valid planet, and the playlist is empty |
| RouletteProperties.TravelTimeTable | roulette-script.js:177-191 | travel is 0 before the first stop or on the same planet, 9 to another system, and otherwise 5 in Stanton and 7 in Pyro |
| RouletteProperties.SystemNamesIgnoreCase | roulette-script.js:185-187 | "Stanton", "STANTON" and "PYRO" get their system's time; "Nyx" gets 0 |
| RouletteProperties.StantonInAnyCase | roulette-script.js:185-187 | every capitalisation of "stanton" gets Stanton's same-system travel time |
| RouletteProperties.LowerCaseTwice | roulette-script.js:185-187 | lower-casing a name twice is lower-casing it once |
| RouletteProperties.TravelTimeIgnoresCase | roulette-script.js:185-187 | any two names that lower-case alike get the same same-system travel time, and a name costs what its lower-cased form costs |
| RouletteProperties.PlaylistTravelTimes | roulette-script.js:177-207 | every entry's travel time is priced from the stop of the entry before it |
| RouletteProperties.EntryTravel | roulette-script.js:177-207 | entry k's travel time is priced from entry k - 1's stop |
| RouletteProperties.FirstEntryTravelsNowhere | roulette-script.js:177-181 | the first entry has no travel time |
| RouletteProperties.RunWithinBudget | roulette-script.js:162-207 | a run's total is the sum of its entries, time remained before each one, the overrun is at most 10 once there are two entries, and there are at most `duration` entries |
| RouletteProperties.PlaylistWithinBudget | roulette-script.js:162-210 | the playlist's totalTime is the sum of its entries' times, time remained before each entry, with two or more entries it is at most duration + 10, and there are at most `duration` entries |
| RouletteProperties.FirstEntryAlwaysTaken | roulette-script.js:153-195 | a playlist is non-empty exactly when the duration is positive and some mission is available |
| RouletteProperties.PlaylistStopsForAReason | roulette-script.js:162-195 | the loop stopped because nothing was available, no time remained, or the next draw would overrun by more than 10 |
| RouletteProperties.LongerDurationExtends | roulette-script.js:157-208 | with the same draws, the playlist for a shorter duration is a prefix of the one for a longer duration |
| Duration.DigitChar | roulette-script.js:56 | a digit value's character is a digit |
| Duration.DigitValue | roulette-script.js:56 | a digit character's value is below 10 and gives back the character |
| Duration.NatToString | roulette-script.js:56-62 | the decimal text of a number is non-empty, all digits, with no leading zero |
| Duration.ValueOfNatToString | roulette-script.js:56-62 | the decimal text reads back as the number |
| Duration.DigitRun | roulette-script.js:56-62 | this parser is not in the source: it is the reader LabelRoundTrip uses to show the label is unambiguous; the length of the leading run of digits, which stops at a non-digit |
| Duration.DigitRunOfDigits | roulette-script.js:56-62 | this parser is not in the source: it is the reader LabelRoundTrip uses to show the label is unambiguous; a run of digits ends where the digits end |
| Duration.ReadNat | roulette-script.js:56-62 | this parser is not in the source: it is the reader LabelRoundTrip uses to show the label is unambiguous; reading a number consumes a non-empty prefix and returns the rest |
| Duration.ReadNatToString | roulette-script.js:56-62 | this parser is not in the source: it is the reader LabelRoundTrip uses to show the label is unambiguous; a number's text followed by a non-digit reads back as the number and the rest |
| Duration.DurationLabel | roulette-script.js:55-63 | the slider's label; its properties are the contracts of LabelShape and LabelRoundTrip |
| Duration.HoursLabel | roulette-script.js:58-62 | the label from an hour up; its property is the contract of HoursLabelRoundTrip |
| Duration.AfterUnit | roulette-script.js:60-62 | this parser is not in the source: it is the reader LabelRoundTrip uses to show the label is unambiguous; what follows the hour word and its space is a suffix of the text |
| Duration.AfterUnitOf | roulette-script.js:60-62 | this parser is not in the source: it is the reader LabelRoundTrip uses to show the label is unambiguous; " hour " and " hours " are both skipped |
| Duration.AfterNumberWithMinutes | roulette-script.js:58-62 | this parser is not in the source: it is the reader LabelRoundTrip uses to show the label is unambiguous; hours followed by " M minutes" read back as 60 * hours + M |
| Duration.ParseLabelOf | roulette-script.js:56-62 | this parser is not in the source: it is the reader LabelRoundTrip uses to show the label is unambiguous; a label is read from the number that starts it |
| Duration.LabelRoundTrip | roulette-script.js:55-63 | every duration's label reads back as that duration, so no two durations share a label |
| Duration.HoursLabelRoundTrip | roulette-script.js:58-62 | a label from an hour up reads back as its hours and minutes |
| Duration.HoursAndMinutesRoundTrip | roulette-script.js:58-62 | "H hour(s) M minutes" reads back as 60H + M |
| Duration.WholeHoursRoundTrip | roulette-script.js:58-62 | "H hour(s)" reads back as 60H |
| Duration.LabelShape | roulette-script.js:55-63 | under an hour the label counts minutes; otherwise it starts with the hours and " hour", is plural exactly from 120 minutes, and ends in " minutes" exactly when the minutes past the hour are not zero |
| Duration.LabelExamples | roulette-script.js:55-62 | 45 gives "45 minutes", 60 gives "1 hour", 120 gives "2 hours" |
| Duration.LabelWithMinutesExample | roulette-script.js:58-62 | 90 gives "1 hour 30 minutes" |
| Editor.AppData.constructor | script.js:3-9 | the editor starts with empty tables and no links |
| Editor.AppData.DeleteItem | script.js:145-153 | the new dataset is `Deleted` of the old one: the record is removed, plus the links from a deleted mission or into a deleted planet |
| Editor.AppData.AddType | script.js:356 | a new mission type is stored under a fresh key and nothing else changes |
| Editor.AppData.AddSystem | script.js:357 | a new system is stored under a fresh key and nothing else changes |
| Editor.AppData.SubmitSubsystem | script.js:358-376 | the record under the edited or fresh key becomes the form's mission; its tags come in form order and an edited record keeps its `disabled` flag |
| Editor.AppData.SubmitPlanet | script.js:377-386 | the planet under the edited or fresh key becomes the form's planet and nothing else changes |
| Editor.AppData.AddLink | script.js:412-413 | the link is appended unless an equal link exists |
| Editor.AppData.RemoveLinkAt | script.js:343-346 | `splice(index, 1)` removes the link at that index and nothing else changes |
| Editor.AppData.ToggleDisabled | script.js:229-232 | the mission's `disabled` flag flips and nothing else changes |
| Editor.AppData.PlanetMissionCounts | script.js:258-269 | the counts are exactly the number of links into the planet from existing, enabled missions that carry "legal", and the same for "illegal" |
| Editor.AppData.Import | script.js:460-467 | a file is accepted exactly when it has mission types and subsystems; if accepted it replaces the dataset, otherwise nothing changes |
| Editor.Deleted | script.js:145-153 | the dataset after deleteItem; its properties are the contracts of DeleteMissionCascades, DeletePlanetCascades, DeleteParentLeavesChildren and DeleteKeepsLinksSound |
| Editor.WithLink | script.js:412-413 | the links after a drag; its properties are the contracts of WithLinkAddsOnce and RemoveUndoesAdd |
| Editor.WithoutLinkAt | script.js:345 | the links after `splice(index, 1)`; its properties are the contract of WithoutLinkAtRemovesOne |
| Editor.Toggled | script.js:229-232 | the missions after the disable button; its properties are the contract of ToggleTwiceRestores |
| Editor.Alignment | script.js:361-363 | the tags the form submits; its properties are the contract of AlignmentTags |
| Editor.SubmittedMission | script.js:365-373 | the record the subsystem form writes; its properties are the contract of SubmitKeepsDisabled |
| Editor.Accepts | script.js:462 | whether the import check accepts a file; Editor.AppData.Import states it decides the outcome |
| Editor.Adopted | script.js:462-463 | the dataset an accepted file becomes; Editor.AppData.Import states it is the new state |
| EditorProperties.DeleteMissionCascades | script.js:148-149 | deleting a mission removes it and exactly the links from it; other links keep their multiplicity and order; other tables are unchanged |
| EditorProperties.DeletePlanetCascades | script.js:148-150 | deleting a planet removes it and exactly the links into it; other links keep their multiplicity and their order; other tables are unchanged |
| EditorProperties.DeleteParentLeavesChildren | script.js:148 | deleting a type or system removes only that record; links, missions and planets stay |
| EditorProperties.DeleteKeepsLinksSound | script.js:145-153 | deletion keeps every link resolved and keeps links without repeats |
| EditorProperties.WithLinkAddsOnce | script.js:412-413 | after a drag the link is present, the old list is a prefix, the list grows by at most one, adding again changes nothing, and no repeats appear |
| EditorProperties.WithoutLinkAtRemovesOne | script.js:345 | splice removes exactly one occurrence of the element at index; the others keep their order; in a list without repeats that link is gone |
| EditorProperties.RemoveUndoesAdd | script.js:412-413 | removing the link a drag just appended restores the list |
| EditorProperties.LinkEditsKeepLinksResolved | script.js:412-413 | adding a link between existing records, or removing one, keeps every link resolved |
| EditorProperties.AlignmentTags | script.js:361-363 | the submitted tags contain "legal" exactly when it was checked, and "illegal" exactly when it was checked, each once, legal first |
| EditorProperties.SubmitKeepsDisabled | script.js:358-373 | resubmitting keeps the `disabled` flag, a new mission is enabled, and resubmitting a record's own form writes it back unchanged when its tags are already in form order (legal before illegal, no repeats) |
| EditorProperties.SubmitReordersTags | script.js:361-363 | the form rebuilds the tags from its two check boxes, legal first, so a record tagged illegal then legal is written back as legal then illegal, and so changed |
| EditorProperties.PutWritesOneKey | script.js:356-386 | an upsert writes one key, enumerates a new key last, keeps an existing key's place, and changes no other record |
| EditorProperties.UpsertsKeepLinksResolved | script.js:229-386 | adding a type or system, writing a mission or a planet, and the disable toggle keep every link resolved |
| EditorProperties.ToggleTwiceRestores | script.js:230 | the toggle flips one flag, changes nothing else, and toggling twice restores the table |
| EditorProperties.CountedLinks | script.js:261-267 | a link is counted for a tag exactly when it leads into the planet from an existing, enabled mission with that tag |
| EditorProperties.CountsBoundedByLinks | script.js:261-267 | a planet never counts more missions of a tag than it has incoming links |
| EditorProperties.DisablingNeverRaisesCounts | script.js:258-269 | disabling a mission never raises a planet's counts |

## Left out

- The DOM, rendering, the canvas, drag geometry, clipboard, `fetch`, `FileReader` and `JSON.parse` are not modelled. The model starts from the parsed data and from the user's choices.
- `crewSize` and the other user choices the generator does not read are not modelled.
- `displayPlaylist` is not modelled. This includes the travel-reason text ("new planet" / "new system", roulette-script.js:238-245), which is presentation.
- `findKey` (roulette-script.js:289-291) is not modelled as a search by object identity. The pool holds mission keys directly, and this gives the same key because every record is a distinct object.
- Roulette.Entry: an entry stores the mission, planet and system keys, not the records themselves.
- `Math.random` is the parameter `pick`. The proofs hold for every `pick` that returns an index below the length it is scaled by. They say nothing about the distribution.
- `crypto.randomUUID` (script.js:59-61) is not modelled. Fresh ids are parameters, required not to be in use.
- `confirm` dialogs are not modelled. `DeleteItem` and `RemoveLinkAt` are the operations after the user confirmed; a cancel changes nothing.
- Roulette.GeneratePlaylist: for an empty pool the source returns `[]` without a `totalTime` property. The model returns total time 0.
- Roulette.MissionPool: `sub.parentId === typeId` with an undefined `typeId` would match a mission without a `parentId`. In the model every mission has a string `parentId`, so an unknown type name matches nothing.
- Roulette.GeneratePlaylist requires a ready dataset. Every enabled mission must take more than 0 minutes, or the loop need not end. Every planet's system must exist, or line 185 reads a property of `undefined`.
- Roulette.ToLowerCase lowercases only the ASCII letters A-Z. Other characters are left as they are.
- `if (lastPlanetId)` is modelled with JavaScript truthiness: a previous planet whose key is the empty string counts as no previous stop.
- Integer keys, which JavaScript enumerates before string keys, are not modelled. Keys are enumerated in insertion order.
- EditorProperties.SubmitKeepsDisabled: a record whose tags are not in form order (for instance illegal before legal, as an imported file may carry) is not written back unchanged: the form rebuilds its tags legal first, as SubmitReordersTags shows.
- Editor.AppData.Import: a file that lacks systems, planets or links is modelled with those parts empty. The source stores `undefined` there.
- Editor.AppData.Import: nothing is proved about the links an imported file carries. They may point at records that do not exist, as in the source.
- Editor.AppData.Import: malformed JSON is not modelled. The import takes an already parsed file, and only the presence of each part is checked.
- Editor.AppData.SubmitSubsystem: `parseInt` of the time field is taken to give an integer; `NaN` is not modelled.
- Duration.DurationLabel: `parseInt` of the slider value is taken to give a non-negative integer.
- Editor.AppData.AddLink: `links.some(...)` is modelled as membership of an equal link.
- Editor.AppData.ToggleDisabled: the button mutates the record object in place. The model writes the flipped record back under its key, which has the same effect on the table.
- Editor.AppData: the editor form fields other than the ones submitted, the node selection state and canvas resizing are not modelled.
