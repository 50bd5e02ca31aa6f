# Utilities endpoint of the Industry 4.0 dashboard proxy, in Dafny

The dashboard proxy keeps its demo data in six string-keyed maps of a data
grid: customers, facilities, production lines, machines, runs and calendar
entries. Its utilities endpoint manages that data in three ways:

- `resetAll` wipes all six maps, puts one customer per company of a fixed
  table, and generates the four template facilities.
- `resetFacility` removes one stored facility together with its lines, runs
  and calendar entries, then generates the facility again if the facility
  table has a row with that id.
- `summaries` reports six dashboard tiles, counting entries and sorting
  them into warning and error buckets.

The model has eight modules:

- `Tables`: the constant tables (companies, facilities, lines, machines, run
  names) and `MS_IN_HOUR`. The tables are passed around as a `Config`; the
  lemmas are proved for any `Config` satisfying `ValidConfig` (distinct
  facility, line and machine ids; line and machine ids free of `/`; machine
  ids that do not start with a space), and
  `Tables.DemoValid` shows that the demo tables satisfy it.
- `Keys`: the composite keys `fid/lid` and `fid/lid/mid`, plus the key
  `fid/lid / mid` that the facility reset removes machines under.
- `Entities`: the stored records as datatypes, and `Snapshot`, the six maps
  as one value.
- `Draws`: the inputs the endpoint draws from `Math.random()`,
  `UUID.randomUUID()` and `new Date()`, taken as parameters (a fraction in
  [0, 1), a string, a millisecond timestamp).
- `Seeding`: facility generation as a function `Populate` of the store and
  the draws, with lemmas on exactly which keys it adds and what it stores
  under them.
- `Reset`: `ResetAllSpec` and `ResetFacilitySpec` as functions of the store.
  It also holds the store invariant `Inv` that both resets keep, and the
  lemmas on their effects. `Inv` says that each facility is stored under its
  own id, that every stored machine key ends in a table machine id, that every
  stored facility's machine keys `fid/lid/mid` are all stored
  (`MachinesCovered`), that each calendar entry is stored under its own id,
  and that every company has a customer once a facility is stored.
- `Summaries`: the tiles as pure functions, Java's `equalsIgnoreCase`, and
  the status buckets.
- `Endpoint`: the class `UtilsEndpoint` with the six maps as fields. Its
  methods change them with the endpoint's loops and are proved to end in the
  state the functions above describe.

The model reproduces the quirks of the code as written:

- The facility reset removes machines under `fid/lid / mid` (with spaces),
  but they are stored under `fid/lid/mid`, so it never removes a machine.
  `Reset.ClearLinesKeepsMachines` proves this. It relies on the fact that
  the last segment of a stored machine key is a table machine id, while the
  removal key's last segment starts with a space.
- The calendar clean-up runs once per stored line, so a stored facility
  without lines keeps its calendar entries (`Reset.ClearLinesCalendar`).
- The "lines" tile counts the runs map, and the machines tile is labelled
  "runs"/"Runs" (`Summaries.TileLabels`).

## Model

| member | source | states |
|---|---|---|
| Tables.DemoValid | dashboard-proxy/src/main/java/com/redhat/iot/proxy/rest/UtilsEndpoint.java:378-431 | the demo tables have distinct facility ids, distinct line ids and distinct machine ids; line and machine ids contain no `/` (facility ids are not required to be slash-free); no machine id starts with a space |
| Tables.CompaniesDistinct | dashboard-proxy/src/main/java/com/redhat/iot/proxy/rest/UtilsEndpoint.java:378-396 | the 17 company names are pairwise distinct |
| Keys.LastSegment | dashboard-proxy/src/main/java/com/redhat/iot/proxy/rest/UtilsEndpoint.java:124-126 | the result is the slash-free suffix of the key that follows its last `/` |
| Keys.MachineKeyLastSegment | dashboard-proxy/src/main/java/com/redhat/iot/proxy/rest/UtilsEndpoint.java:195 | a stored machine key `fid/lid/mid` ends in the segment `mid` |
| Keys.StaleMachineKeyLastSegment | dashboard-proxy/src/main/java/com/redhat/iot/proxy/rest/UtilsEndpoint.java:126 | the removal key `fid/lid / mid` ends in the segment `" " + mid` |
| Keys.LineKeyInjective | dashboard-proxy/src/main/java/com/redhat/iot/proxy/rest/UtilsEndpoint.java:227 | two lines of one facility share a key only if they have the same line id |
| Keys.MachineKeyInjective | dashboard-proxy/src/main/java/com/redhat/iot/proxy/rest/UtilsEndpoint.java:195 | two machine keys of one facility coincide only if line ids and machine ids both coincide |
| Draws.Pick | dashboard-proxy/src/main/java/com/redhat/iot/proxy/rest/UtilsEndpoint.java:237-239 | `rand` always returns an element of its non-empty array |
| Draws.PickReachesEvery | dashboard-proxy/src/main/java/com/redhat/iot/proxy/rest/UtilsEndpoint.java:237-239 | every element of the array is returned for some fraction in [0, 1) |
| Draws.Capacity | dashboard-proxy/src/main/java/com/redhat/iot/proxy/rest/UtilsEndpoint.java:159 | the rounded capacity lies in 0..10000 |
| Draws.Utilization | dashboard-proxy/src/main/java/com/redhat/iot/proxy/rest/UtilsEndpoint.java:162 | a generated utilization lies in [0.9, 1.0) |
| Draws.StartOffset | dashboard-proxy/src/main/java/com/redhat/iot/proxy/rest/UtilsEndpoint.java:211 | a run starts less than two hours before the clock reading |
| Draws.EndOffset | dashboard-proxy/src/main/java/com/redhat/iot/proxy/rest/UtilsEndpoint.java:212 | a run ends less than four hours after the clock reading |
| Seeding.BuildMachine | dashboard-proxy/src/main/java/com/redhat/iot/proxy/rest/UtilsEndpoint.java:177-196 | a machine of a generated line: the row's name, id and type, status "ok", description "The machine", and the ids of its facility and line; `Seeding.PutMachinesValues` proves it is what is stored under `fid/lid/mid`, and `Summaries.PutMachinesNominal` that its status is "ok" |
| Seeding.BuildMachines | dashboard-proxy/src/main/java/com/redhat/iot/proxy/rest/UtilsEndpoint.java:175-200 | a line holds one machine per machine-table row, in table order, each carrying its facility and line ids |
| Seeding.BuildRun | dashboard-proxy/src/main/java/com/redhat/iot/proxy/rest/UtilsEndpoint.java:202-212 | a run has status "ok", a name from the run table, the customer stored under some company, and `start <= now <= end` with `now - start` under 2 h and `end - now` under 4 h |
| Seeding.BuildLines | dashboard-proxy/src/main/java/com/redhat/iot/proxy/rest/UtilsEndpoint.java:164-174 | a facility holds one line per line-table row, in table order |
| Seeding.BuildLine | dashboard-proxy/src/main/java/com/redhat/iot/proxy/rest/UtilsEndpoint.java:166-212 | a generated line: the row's name and id, "The line", status "ok", the facility id, its machines (`Seeding.BuildMachines`) and its current run (`Seeding.BuildRun`); `Seeding.PutLinesValues` proves it is what is stored under `fid/lid` |
| Seeding.BuildCalEntry | dashboard-proxy/src/main/java/com/redhat/iot/proxy/rest/UtilsEndpoint.java:214-222 | the calendar entry of a line's run; `Seeding.PopulateCalendar` proves its type "run", facility id, start, end, colour and title `name(customer)` |
| Seeding.BuildFacility | dashboard-proxy/src/main/java/com/redhat/iot/proxy/rest/UtilsEndpoint.java:156-232 | the generated facility: the template's name and id, the name as address, the drawn capacity and utilization, and its lines; `Seeding.PopulateShape` proves the bounds and the one-line-per-row shape |
| Seeding.StoreLine | dashboard-proxy/src/main/java/com/redhat/iot/proxy/rest/UtilsEndpoint.java:166-230 | one pass of the line loop: the puts of the line's machines, calendar entry, run and line; `Seeding.PopulateLinesStep` proves that generating one more line is exactly this pass |
| Seeding.Populate | dashboard-proxy/src/main/java/com/redhat/iot/proxy/rest/UtilsEndpoint.java:147-235 | `populateFacility` as a function of the store and the draws; `Seeding.PopulateKeys`, `Seeding.PopulateShape`, `Seeding.PopulateRuns`, `Seeding.PopulateCalendar` and `Seeding.PopulateGrowth` prove what it adds and stores |
| Seeding.PopulateLinesStep | dashboard-proxy/src/main/java/com/redhat/iot/proxy/rest/UtilsEndpoint.java:166-230 | generating one more line does exactly the puts of one pass of the line loop |
| Seeding.PutMachinesKeys | dashboard-proxy/src/main/java/com/redhat/iot/proxy/rest/UtilsEndpoint.java:177-198 | the machine loop adds exactly the keys `fid/lid/mid` of the table and keeps every other entry |
| Seeding.PutMachinesValues | dashboard-proxy/src/main/java/com/redhat/iot/proxy/rest/UtilsEndpoint.java:177-198 | under each `fid/lid/mid` the machine loop leaves the machine built from that table row |
| Seeding.PutLineMachinesKeys | dashboard-proxy/src/main/java/com/redhat/iot/proxy/rest/UtilsEndpoint.java:166-198 | over all lines, exactly the keys `fid/lid/mid` for every line and machine are added, others kept |
| Seeding.PutLineMachinesValues | dashboard-proxy/src/main/java/com/redhat/iot/proxy/rest/UtilsEndpoint.java:166-198 | after all lines, each `fid/lid/mid` holds the machine of that line and row (none is overwritten by a later line) |
| Seeding.PutLinesKeys | dashboard-proxy/src/main/java/com/redhat/iot/proxy/rest/UtilsEndpoint.java:227 | exactly the keys `fid/lid` of the line table are added to the lines map, others kept |
| Seeding.PutLinesValues | dashboard-proxy/src/main/java/com/redhat/iot/proxy/rest/UtilsEndpoint.java:227 | each `fid/lid` holds the line built from that row |
| Seeding.PutRunsKeys | dashboard-proxy/src/main/java/com/redhat/iot/proxy/rest/UtilsEndpoint.java:225 | exactly the drawn run ids are added to the runs map, others kept |
| Seeding.PutRunsValues | dashboard-proxy/src/main/java/com/redhat/iot/proxy/rest/UtilsEndpoint.java:225 | with distinct run ids, each id holds the run of its line |
| Seeding.PutCalendarKeys | dashboard-proxy/src/main/java/com/redhat/iot/proxy/rest/UtilsEndpoint.java:214-223 | exactly the drawn calendar ids are added to the calendar map, others kept |
| Seeding.PutCalendarValues | dashboard-proxy/src/main/java/com/redhat/iot/proxy/rest/UtilsEndpoint.java:214-223 | with distinct calendar ids, each id holds the entry of its line's run |
| Seeding.PopulateKeys | dashboard-proxy/src/main/java/com/redhat/iot/proxy/rest/UtilsEndpoint.java:147-235 | generating facility `t` leaves customers alone and adds exactly `t.fid`, its line keys, its machine keys, its run ids and its calendar ids, keeping every other entry of every map |
| Seeding.PopulateShape | dashboard-proxy/src/main/java/com/redhat/iot/proxy/rest/UtilsEndpoint.java:156-234 | the stored facility has the template's name and id, capacity in 0..10000, utilization in [0.9, 1), one line per table row, each stored under `fid/lid`, each machine stored under `fid/lid/mid` and equal to the one in the facility's line |
| Seeding.PopulateRuns | dashboard-proxy/src/main/java/com/redhat/iot/proxy/rest/UtilsEndpoint.java:209-225 | the runs map holds each line's current run under its id |
| Seeding.PopulateCalendar | dashboard-proxy/src/main/java/com/redhat/iot/proxy/rest/UtilsEndpoint.java:214-223 | each line's calendar entry has type "run", the facility's id, the run's start and end, the line's colour and the title `name(customer)` |
| Seeding.PopulateGrowth | dashboard-proxy/src/main/java/com/redhat/iot/proxy/rest/UtilsEndpoint.java:214-225 | with fresh run and calendar ids, the runs and calendar maps each grow by the number of lines |
| Seeding.DistinctRidsCount | dashboard-proxy/src/main/java/com/redhat/iot/proxy/rest/UtilsEndpoint.java:206 | distinct drawn run ids give as many keys as lines |
| Seeding.DistinctCidsCount | dashboard-proxy/src/main/java/com/redhat/iot/proxy/rest/UtilsEndpoint.java:215 | distinct drawn calendar ids give as many keys as lines |
| Reset.SeedCustomers | dashboard-proxy/src/main/java/com/redhat/iot/proxy/rest/UtilsEndpoint.java:97-100 | the customer loop as a function of the customers map; `Reset.SeedCustomersKeys` and `Reset.SeedCustomersValues` prove which keys it adds and what it stores |
| Reset.SeedCustomersKeys | dashboard-proxy/src/main/java/com/redhat/iot/proxy/rest/UtilsEndpoint.java:97-100 | the customer loop adds exactly the company names as keys |
| Reset.SeedCustomersValues | dashboard-proxy/src/main/java/com/redhat/iot/proxy/rest/UtilsEndpoint.java:97-100 | each company maps to a customer of that name with password "password"; other keys keep their values |
| Reset.Seeded | dashboard-proxy/src/main/java/com/redhat/iot/proxy/rest/UtilsEndpoint.java:90-100 | after clearing and the customer loop, every company has a customer |
| Reset.PopulateAll | dashboard-proxy/src/main/java/com/redhat/iot/proxy/rest/UtilsEndpoint.java:102-104 | generating the facilities never changes the customers map |
| Reset.ResetAllSpec | dashboard-proxy/src/main/java/com/redhat/iot/proxy/rest/UtilsEndpoint.java:80-104 | the store after `resetAll` has a customer for every company; it does not depend on the store before, and `Reset.ResetAllCustomers`, `Reset.ResetAllFacilities`, `Reset.ResetAllLinesAndMachines`, `Reset.ResetAllRunsAndCalendar` and `Reset.ResetAllInv` prove every map's contents |
| Reset.CalendarIdsOf | dashboard-proxy/src/main/java/com/redhat/iot/proxy/rest/UtilsEndpoint.java:130-135 | the ids of the calendar entries of facility `fid`; `Reset.CalendarClearOnce` and `Reset.ClearLinesCalendar` prove the clean-up removes exactly these |
| Reset.ClearLine | dashboard-proxy/src/main/java/com/redhat/iot/proxy/rest/UtilsEndpoint.java:124-135 | one pass of the removal loop; `Reset.StaleKeysNotStored`, `Reset.ClearLinesLinesAndRuns` and `Reset.ClearLinesCalendar` prove what it removes |
| Reset.Cleared | dashboard-proxy/src/main/java/com/redhat/iot/proxy/rest/UtilsEndpoint.java:122-137 | after the removal phase `fid` is no longer stored and the customers are unchanged; `Reset.ClearedEffects` proves its effect on the other maps |
| Reset.ResetFacilitySpec | dashboard-proxy/src/main/java/com/redhat/iot/proxy/rest/UtilsEndpoint.java:109-144 | the facility reset never changes the customers; `Reset.ResetFacilityUnknown`, `Reset.ResetFacilityRegenerates`, `Reset.ResetFacilityRetires` and the lemmas below prove its effect on the other maps |
| Reset.ClearLines | dashboard-proxy/src/main/java/com/redhat/iot/proxy/rest/UtilsEndpoint.java:123-137 | the line loop of the reset never touches customers or facilities |
| Reset.RepopulateMatching | dashboard-proxy/src/main/java/com/redhat/iot/proxy/rest/UtilsEndpoint.java:139-143 | regenerating the matching templates never changes customers |
| Reset.StaleKeyNotStored | dashboard-proxy/src/main/java/com/redhat/iot/proxy/rest/UtilsEndpoint.java:126 | a removal key `fid/lid / mid` is never a key of a machines map whose keys end in table machine ids |
| Reset.StaleKeysNotStored | dashboard-proxy/src/main/java/com/redhat/iot/proxy/rest/UtilsEndpoint.java:125-127 | removing a line's machines under those keys leaves the machines map as it was |
| Reset.ClearLinesKeepsMachines | dashboard-proxy/src/main/java/com/redhat/iot/proxy/rest/UtilsEndpoint.java:123-137 | the reset's line loop never removes a machine |
| Reset.ClearLinesLinesAndRuns | dashboard-proxy/src/main/java/com/redhat/iot/proxy/rest/UtilsEndpoint.java:123-137 | the line loop removes exactly the `fid/lid` keys and the current-run ids of the facility's lines |
| Reset.CalendarClearOnce | dashboard-proxy/src/main/java/com/redhat/iot/proxy/rest/UtilsEndpoint.java:130-135 | one clean-up leaves no entry of the facility, so repeating it changes nothing |
| Reset.ClearLinesCalendar | dashboard-proxy/src/main/java/com/redhat/iot/proxy/rest/UtilsEndpoint.java:123-137 | with at least one line, exactly the facility's calendar entries are removed; with none, the calendar is unchanged |
| Reset.RepopulateNone | dashboard-proxy/src/main/java/com/redhat/iot/proxy/rest/UtilsEndpoint.java:139-143 | when no template has the id, the regeneration loop does nothing |
| Reset.RepopulateOne | dashboard-proxy/src/main/java/com/redhat/iot/proxy/rest/UtilsEndpoint.java:139-143 | with distinct template ids, the loop generates exactly the template with that id |
| Reset.ResetFacilityUnknown | dashboard-proxy/src/main/java/com/redhat/iot/proxy/rest/UtilsEndpoint.java:117-120 | resetting an id that is not stored leaves all six maps unchanged |
| Reset.ClearedEffects | dashboard-proxy/src/main/java/com/redhat/iot/proxy/rest/UtilsEndpoint.java:122-137 | the removal phase keeps customers and machines, drops only `fid` from facilities, the facility's line keys from lines, its run ids from runs, and its calendar entries when it had lines |
| Reset.ResetFacilityRegenerates | dashboard-proxy/src/main/java/com/redhat/iot/proxy/rest/UtilsEndpoint.java:109-144 | for a template id, the reset is the removal phase followed by generating that template |
| Reset.ResetFacilityRetires | dashboard-proxy/src/main/java/com/redhat/iot/proxy/rest/UtilsEndpoint.java:139-143 | a stored id without a template stays removed, and the machines map is unchanged |
| Reset.ResetFacilityFacilitiesAndMachines | dashboard-proxy/src/main/java/com/redhat/iot/proxy/rest/UtilsEndpoint.java:109-144 | for a template id, customers are untouched, the facilities map changes only at `fid` (which holds the new facility), the machines map changes only at the facility's `fid/lid/mid` keys, and its key set is unchanged |
| Reset.InvCoversMachines | dashboard-proxy/src/main/java/com/redhat/iot/proxy/rest/UtilsEndpoint.java:109-144 | under the store invariant, every machine key `fid/lid/mid` of a stored facility is stored |
| Reset.ResetFacilityMachineKeys | dashboard-proxy/src/main/java/com/redhat/iot/proxy/rest/UtilsEndpoint.java:109-144 | whatever the id, the facility reset leaves the set of stored machine keys unchanged |
| Reset.ResetFacilityLinesRunsCalendar | dashboard-proxy/src/main/java/com/redhat/iot/proxy/rest/UtilsEndpoint.java:109-144 | lines, runs and calendar are the old maps minus the facility's entries plus the regenerated ones, and calendar entries survive when the facility had no lines |
| Reset.PutCalendarKeepsIds | dashboard-proxy/src/main/java/com/redhat/iot/proxy/rest/UtilsEndpoint.java:223 | each calendar entry is stored under its own id |
| Reset.BuiltFacilityMidsKnown | dashboard-proxy/src/main/java/com/redhat/iot/proxy/rest/UtilsEndpoint.java:177-200 | a generated facility's machines carry only table machine ids |
| Reset.GeneratedMachineKeysEndInIds | dashboard-proxy/src/main/java/com/redhat/iot/proxy/rest/UtilsEndpoint.java:195 | every generated machine key ends in a table machine id |
| Reset.PopulateMachineKeysEndInIds | dashboard-proxy/src/main/java/com/redhat/iot/proxy/rest/UtilsEndpoint.java:147-235 | generating a facility keeps every machine key ending in a table machine id |
| Reset.PopulateKeepsInv | dashboard-proxy/src/main/java/com/redhat/iot/proxy/rest/UtilsEndpoint.java:147-235 | facility generation keeps the store invariant |
| Reset.PopulateKeepsCovered | dashboard-proxy/src/main/java/com/redhat/iot/proxy/rest/UtilsEndpoint.java:147-235 | after generating a facility, every stored facility's machine keys are stored |
| Reset.ClearedKeepsInv | dashboard-proxy/src/main/java/com/redhat/iot/proxy/rest/UtilsEndpoint.java:122-137 | the removal phase keeps the store invariant |
| Reset.RepopulateKeepsInv | dashboard-proxy/src/main/java/com/redhat/iot/proxy/rest/UtilsEndpoint.java:139-143 | the regeneration loop keeps the store invariant |
| Reset.ResetFacilityKeepsInv | dashboard-proxy/src/main/java/com/redhat/iot/proxy/rest/UtilsEndpoint.java:109-144 | the facility reset keeps the store invariant |
| Reset.PopulateAllKeepsInv | dashboard-proxy/src/main/java/com/redhat/iot/proxy/rest/UtilsEndpoint.java:102-104 | generating every facility keeps the store invariant |
| Reset.ResetAllInv | dashboard-proxy/src/main/java/com/redhat/iot/proxy/rest/UtilsEndpoint.java:80-104 | the store after `resetAll` satisfies the invariant |
| Reset.ResetAllCustomers | dashboard-proxy/src/main/java/com/redhat/iot/proxy/rest/UtilsEndpoint.java:90-100 | after `resetAll` the customer keys are exactly the company names, each customer named after its key with password "password" |
| Reset.PopulateFacilities | dashboard-proxy/src/main/java/com/redhat/iot/proxy/rest/UtilsEndpoint.java:232-234 | generation changes the facilities map only by putting the new facility under its id |
| Reset.PopulateAllFacilityKeys | dashboard-proxy/src/main/java/com/redhat/iot/proxy/rest/UtilsEndpoint.java:102-104 | generating the first n templates adds exactly their ids to the facilities map |
| Reset.PopulateAllFacilityValues | dashboard-proxy/src/main/java/com/redhat/iot/proxy/rest/UtilsEndpoint.java:102-104 | each template id then holds the facility built from that template |
| Reset.ResetAllFacilities | dashboard-proxy/src/main/java/com/redhat/iot/proxy/rest/UtilsEndpoint.java:80-104 | after `resetAll` the facility keys are exactly the template ids, each holding its generated facility |
| Reset.PopulateAllLinesAndMachines | dashboard-proxy/src/main/java/com/redhat/iot/proxy/rest/UtilsEndpoint.java:102-104 | generating the first n templates adds exactly their line keys and machine keys |
| Reset.ResetAllLinesAndMachines | dashboard-proxy/src/main/java/com/redhat/iot/proxy/rest/UtilsEndpoint.java:80-104 | after `resetAll` the lines and machines maps hold exactly the generated keys; no earlier entry survives |
| Reset.PopulateAllRunsAndCalendar | dashboard-proxy/src/main/java/com/redhat/iot/proxy/rest/UtilsEndpoint.java:102-104 | generating the first n templates adds exactly their drawn run and calendar ids |
| Reset.ResetAllRunsAndCalendar | dashboard-proxy/src/main/java/com/redhat/iot/proxy/rest/UtilsEndpoint.java:80-104 | after `resetAll` the runs and calendar maps hold exactly the drawn ids; no earlier entry survives |
| Reset.DistinctElementsCount | dashboard-proxy/src/main/java/com/redhat/iot/proxy/rest/UtilsEndpoint.java:97-100 | n distinct names give n customer keys |
| Reset.ResetAllDemo | dashboard-proxy/src/main/java/com/redhat/iot/proxy/rest/UtilsEndpoint.java:80-104 | with the demo tables, `resetAll` leaves 17 customers, all with password "password", and exactly the facilities `facility-1` to `facility-4` |
| Summaries.CharsEqualIgnoreCase | dashboard-proxy/src/main/java/com/redhat/iot/proxy/rest/UtilsEndpoint.java:315 | Java's per-character rule of `equalsIgnoreCase` (equal, equal upper-cased, or equal upper- then lower-cased); `Summaries.CharsEqualIgnoreCaseIff` proves it is equality of lower-case forms |
| Summaries.EqualsIgnoreCase | dashboard-proxy/src/main/java/com/redhat/iot/proxy/rest/UtilsEndpoint.java:315 | `equalsIgnoreCase`: same length and matching characters; `Summaries.EqualsIgnoreCaseIff` proves it is equality of lower-case forms |
| Summaries.LowerAll | dashboard-proxy/src/main/java/com/redhat/iot/proxy/rest/UtilsEndpoint.java:314-321 | lower-casing keeps the length and maps each character |
| Summaries.CharsEqualIgnoreCaseIff | dashboard-proxy/src/main/java/com/redhat/iot/proxy/rest/UtilsEndpoint.java:314-321 | two characters match ignoring case exactly when their lower-case forms are equal |
| Summaries.EqualsIgnoreCaseIff | dashboard-proxy/src/main/java/com/redhat/iot/proxy/rest/UtilsEndpoint.java:314-321 | two strings match ignoring case exactly when their lower-case forms are equal |
| Summaries.StatusBucketsDistinct | dashboard-proxy/src/main/java/com/redhat/iot/proxy/rest/UtilsEndpoint.java:337-345 | "ok" is neither "warning" nor "error", and no status is in both buckets |
| Summaries.RunStatuses | dashboard-proxy/src/main/java/com/redhat/iot/proxy/rest/UtilsEndpoint.java:337-345 | the status of every stored run, under the run's key |
| Summaries.MachineStatuses | dashboard-proxy/src/main/java/com/redhat/iot/proxy/rest/UtilsEndpoint.java:361-369 | the status of every stored machine, under the machine's key |
| Summaries.WithStatus | dashboard-proxy/src/main/java/com/redhat/iot/proxy/rest/UtilsEndpoint.java:313-321 | a status bucket holds only stored keys |
| Summaries.WithStatusLowerCase | dashboard-proxy/src/main/java/com/redhat/iot/proxy/rest/UtilsEndpoint.java:313-321 | a stored key is in the bucket exactly when its status and the bucket name have the same lower-case form |
| Summaries.StatusBucketsDisjoint | dashboard-proxy/src/main/java/com/redhat/iot/proxy/rest/UtilsEndpoint.java:337-345 | no key is in both the "warning" and the "error" bucket |
| Summaries.FacilityBands | dashboard-proxy/src/main/java/com/redhat/iot/proxy/rest/UtilsEndpoint.java:278-286 | no facility is in both the warning band and the error band, and a facility is in neither exactly when its utilization is 0.5 or at least 0.7 |
| Summaries.DisjointPartsBound | dashboard-proxy/src/main/java/com/redhat/iot/proxy/rest/UtilsEndpoint.java:278-289 | two disjoint buckets of one map together count at most its size |
| Summaries.ClientsTileAfterResetAll | dashboard-proxy/src/main/java/com/redhat/iot/proxy/rest/UtilsEndpoint.java:294-303 | with distinct company names, the clients tile after `resetAll` counts the companies and shows no warning and no error |
| Summaries.RunsTile | dashboard-proxy/src/main/java/com/redhat/iot/proxy/rest/UtilsEndpoint.java:305-352 | a runs-backed tile counts the runs, its warning and error counts are the bucket sizes, and together they do not exceed the count |
| Summaries.RunsSummary | dashboard-proxy/src/main/java/com/redhat/iot/proxy/rest/UtilsEndpoint.java:330-352 | the tile "runs"/"Runs" over the runs map; `Summaries.RunsTile` proves its counts and `Summaries.TileLabels` its labels |
| Summaries.LinesSummary | dashboard-proxy/src/main/java/com/redhat/iot/proxy/rest/UtilsEndpoint.java:305-328 | the tile "lines"/"Lines", which also counts the runs map; `Summaries.TileLabels` proves it equals the runs tile but for its labels |
| Summaries.FacilitySummary | dashboard-proxy/src/main/java/com/redhat/iot/proxy/rest/UtilsEndpoint.java:270-292 | the facilities tile counts the facilities, warning and error are the utilization bands, and together they do not exceed the count |
| Summaries.MachinesSummary | dashboard-proxy/src/main/java/com/redhat/iot/proxy/rest/UtilsEndpoint.java:354-376 | the machines tile is labelled "runs"/"Runs", counts the machines, and its buckets are by status and do not exceed the count |
| Summaries.Summaries | dashboard-proxy/src/main/java/com/redhat/iot/proxy/rest/UtilsEndpoint.java:244-268 | six tiles, whose counts are the sizes of customers, runs, runs, facilities and machines, then the fixed operators tile `OperatorsSummary` (line 260-266: 23/4/1); no tile has more warnings plus errors than its count |
| Summaries.TileLabels | dashboard-proxy/src/main/java/com/redhat/iot/proxy/rest/UtilsEndpoint.java:305-376 | the lines tile is the runs tile under another name and title, and the machines tile is also named "runs" |
| Summaries.NominalSummaries | dashboard-proxy/src/main/java/com/redhat/iot/proxy/rest/UtilsEndpoint.java:270-376 | a store whose runs and machines are all "ok" and whose utilizations are at least 0.9 shows no warnings or errors on the first five tiles |
| Summaries.PutMachinesNominal | dashboard-proxy/src/main/java/com/redhat/iot/proxy/rest/UtilsEndpoint.java:177-198 | the machine loop puts only machines with status "ok" |
| Summaries.PutLineMachinesNominal | dashboard-proxy/src/main/java/com/redhat/iot/proxy/rest/UtilsEndpoint.java:166-198 | all machines generated for a facility have status "ok" |
| Summaries.PutRunsNominal | dashboard-proxy/src/main/java/com/redhat/iot/proxy/rest/UtilsEndpoint.java:202-225 | the line loop puts only runs with status "ok" |
| Summaries.PopulateNominal | dashboard-proxy/src/main/java/com/redhat/iot/proxy/rest/UtilsEndpoint.java:147-235 | facility generation keeps the store nominal |
| Summaries.PopulateAllNominal | dashboard-proxy/src/main/java/com/redhat/iot/proxy/rest/UtilsEndpoint.java:102-104 | generating every facility keeps the store nominal |
| Summaries.RepopulateNominal | dashboard-proxy/src/main/java/com/redhat/iot/proxy/rest/UtilsEndpoint.java:139-143 | the regeneration loop keeps the store nominal |
| Summaries.ResetAllSummaries | dashboard-proxy/src/main/java/com/redhat/iot/proxy/rest/UtilsEndpoint.java:80-104 | right after `resetAll` the first five tiles show no warnings or errors |
| Summaries.ResetFacilitySummaries | dashboard-proxy/src/main/java/com/redhat/iot/proxy/rest/UtilsEndpoint.java:109-144 | a facility reset of a nominal store leaves it nominal, with no warnings or errors on the first five tiles |
| Summaries.ResetAllDemoSummaries | dashboard-proxy/src/main/java/com/redhat/iot/proxy/rest/UtilsEndpoint.java:244-268 | with the demo tables, after `resetAll` the clients tile counts 17, the facilities tile 4, and the first five tiles show no warnings or errors |
| Endpoint.UtilsEndpoint.constructor | dashboard-proxy/src/main/java/com/redhat/iot/proxy/rest/UtilsEndpoint.java:36-44 | the endpoint starts over the demo tables with six empty maps, which satisfy the store invariant |
| Endpoint.UtilsEndpoint.ResetAll | dashboard-proxy/src/main/java/com/redhat/iot/proxy/rest/UtilsEndpoint.java:80-104 | clearing, the customer loop and the facility loop end in `ResetAllSpec` of the draws, whatever the maps held before, and the store invariant holds |
| Endpoint.UtilsEndpoint.PutCustomers | dashboard-proxy/src/main/java/com/redhat/iot/proxy/rest/UtilsEndpoint.java:97-100 | the customer loop changes only the customers map, to `SeedCustomers` of the old one |
| Endpoint.UtilsEndpoint.PopulateFacilities | dashboard-proxy/src/main/java/com/redhat/iot/proxy/rest/UtilsEndpoint.java:102-104 | the facility loop ends in `PopulateAll` of the old maps |
| Endpoint.UtilsEndpoint.ResetFacility | dashboard-proxy/src/main/java/com/redhat/iot/proxy/rest/UtilsEndpoint.java:109-144 | the early return, the removal loops and the regeneration loop end in `ResetFacilitySpec` of the old maps, and keep the store invariant |
| Endpoint.UtilsEndpoint.RemoveLine | dashboard-proxy/src/main/java/com/redhat/iot/proxy/rest/UtilsEndpoint.java:124-135 | one pass of the removal loop ends in `ClearLine` of the old maps |
| Endpoint.UtilsEndpoint.PopulateFacility | dashboard-proxy/src/main/java/com/redhat/iot/proxy/rest/UtilsEndpoint.java:147-235 | the line loop and the final put end in `Populate` of the old maps |
| Endpoint.UtilsEndpoint.PutLine | dashboard-proxy/src/main/java/com/redhat/iot/proxy/rest/UtilsEndpoint.java:166-230 | one pass of the line loop, machine loop included, ends in `StoreLine` of the old maps and returns the line `BuildLine` describes |
| Endpoint.UtilsEndpoint.GetSummaries | dashboard-proxy/src/main/java/com/redhat/iot/proxy/rest/UtilsEndpoint.java:244-268 | the list built tile by tile is `Summaries` of the current maps |
| Endpoint.StaleMachineKeysPrefix | dashboard-proxy/src/main/java/com/redhat/iot/proxy/rest/UtilsEndpoint.java:125-127 | each pass of the machine-removal loop removes one more key |

## Left out

- `health` and `simulatorAlert`: the first is a constant HTTP 200 reply; the second builds JSON and publishes an MQTT message through an alerts service that is not part of this model.
- The data-grid service (`DGService`) is replaced by the six map fields of `UtilsEndpoint`. Concurrent requests and remote-cache behaviour are not modelled: each operation runs alone.
- `Math.random()`, `UUID.randomUUID()` and `new Date()` are parameters (`Draws.FacilityDraw`, `Draws.LineDraw`). Fractions are required to lie in [0, 1), as Java guarantees. The model does not assume UUIDs are fresh; the lemmas that count or look up runs and calendar entries require distinct ids (`RidsDistinct`, `CidsDistinct`) and say so.
- Floating point: capacity, utilization and the run-time offsets are computed over `real`, not IEEE doubles. `Math.round` is floor(x + 0.5) and `Math.floor` is `.Floor`. The `(int)` casts of the offsets are exact, because the offsets stay below 2^31.
- Machine telemetry, the facility location (`LatLng`) and the calendar entry's JSON details are not modelled; the machine's description "The machine" is. A calendar entry keeps only the id of its facility, not the facility object.
- Seeding.BuildRun: the customer lookup for a run (line 207) returns null for a missing company, and the calendar title (line 216) would then throw. The model requires every company to have a customer (`CustomersSeeded`) instead of modelling that exception. The store invariant `Reset.Inv` makes this hold whenever a facility is stored.
- Draws.Utilization: the bound `r < 1.0` holds over reals. In IEEE doubles `.90 + .1 * Math.random()` can round up to exactly 1.0, so the source only guarantees `r <= 1.0`.
- Summaries.ClientSummary: the `Summary` class is not part of this model. Its warning and error counts are taken to default to 0 when not set, as for Java `long` fields.
- Summaries.EqualsIgnoreCase: case folding covers ASCII letters only; Java's `equalsIgnoreCase` also folds other Unicode letters.
- `dashboard/app/services/reports.js` fetches the summaries over HTTP and broadcasts them; it is UI plumbing and not part of this model.
- `populateFacility`'s line loop and `resetFacility`'s removal loop each have one pass split out as its own method (`PutLine`, `RemoveLine`), and `resetAll`'s two loops are `PutCustomers` and `PopulateFacilities`. The order of puts and removals is the source's.
