/**
 * The two reset operations of the utilities endpoint as functions of the
 * store. `ResetAllSpec` clears every map, puts one customer per company and
 * generates every facility of the table; `ResetFacilitySpec` removes one
 * stored facility's entries and generates it again from its template.
 */
module Reset {
  import opened Tables
  import opened Keys
  import opened Entities
  import opened Draws
  import opened Seeding

  // ---------------------------------------------------------------------------
  // Reset of the whole store

  /** The customers map after the first `n` companies have been put, each named after its company, with password "password". */
  function SeedCustomers(c: Config, m: map<string, Customer>, n: nat): map<string, Customer>
    requires n <= |c.companies|
  {
    if n == 0 then m else SeedCustomers(c, m, n - 1)[c.companies[n - 1] := Customer(c.companies[n - 1], "password")]
  }

  /** Seeding adds exactly the first `n` company names as keys. */
  lemma {:induction false} SeedCustomersKeys(c: Config, m: map<string, Customer>, n: nat)
    requires n <= |c.companies|
    ensures SeedCustomers(c, m, n).Keys == m.Keys + set i | 0 <= i < n :: c.companies[i]
  {
    if n > 0 {
      SeedCustomersKeys(c, m, n - 1);
      assert (set i | 0 <= i < n :: c.companies[i]) == (set i | 0 <= i < n - 1 :: c.companies[i]) + {c.companies[n - 1]};
    }
  }

  /** Each seeded company maps to its own customer; every other key keeps its value. */
  lemma {:induction false} SeedCustomersValues(c: Config, m: map<string, Customer>, n: nat)
    requires n <= |c.companies|
    ensures forall i :: 0 <= i < n ==>
      c.companies[i] in SeedCustomers(c, m, n) && SeedCustomers(c, m, n)[c.companies[i]] == Customer(c.companies[i], "password")
    ensures forall k :: k in m && k !in c.companies[..n] ==> k in SeedCustomers(c, m, n) && SeedCustomers(c, m, n)[k] == m[k]
  {
    if n > 0 {
      SeedCustomersValues(c, m, n - 1);
      assert c.companies[..n] == c.companies[..n - 1] + [c.companies[n - 1]];
    }
  }

  /** The store once every map has been cleared and every company's customer put. */
  function Seeded(c: Config): (r: Snapshot)
    ensures CustomersSeeded(c, r.customers)
  {
    SeedCustomersKeys(c, map[], |c.companies|);
    EmptyStore.(customers := SeedCustomers(c, map[], |c.companies|))
  }

  /** One facility draw per row of the facility table, each well formed. */
  ghost predicate WellFormedDraws(c: Config, ds: seq<FacilityDraw>)
  {
    |ds| == |c.facilities| && forall i :: 0 <= i < |ds| ==> WellFormedDraw(c, ds[i])
  }

  /** The store after the first `n` facilities of the table have been generated, in table order. */
  function PopulateAll(c: Config, s: Snapshot, ds: seq<FacilityDraw>, n: nat): (r: Snapshot)
    requires ValidConfig(c) && CustomersSeeded(c, s.customers) && WellFormedDraws(c, ds) && n <= |c.facilities|
    ensures r.customers == s.customers
  {
    if n == 0 then s else Populate(c, PopulateAll(c, s, ds, n - 1), c.facilities[n - 1], ds[n - 1])
  }

  /** The store after `resetAll`: it does not depend on the store before. */
  function ResetAllSpec(c: Config, ds: seq<FacilityDraw>): (r: Snapshot)
    requires ValidConfig(c) && WellFormedDraws(c, ds)
    ensures CustomersSeeded(c, r.customers)
  {
    PopulateAll(c, Seeded(c), ds, |c.facilities|)
  }

  // ---------------------------------------------------------------------------
  // Reset of one facility

  /** The ids of the calendar entries that refer to facility `fid`, read from the entries themselves. */
  function CalendarIdsOf(cal: map<string, CalEntry>, fid: string): set<string>
  {
    set k | k in cal && cal[k].facilityFid == fid :: cal[k].cid
  }

  /** The keys the scoped reset removes for the machines of line `lid`: `fid/lid / mid`. */
  function StaleMachineKeys(fid: string, lid: string, ms: seq<Machine>): set<string>
  {
    set j | 0 <= j < |ms| :: StaleMachineKey(fid, lid, ms[j].mid)
  }

  /**
   * What the scoped reset removes for one stored line `l` of facility `f`:
   * its line key, its machines under the spaced key, its current run, and
   * every calendar entry of the requested facility `fid`.
   */
  function ClearLine(s: Snapshot, f: Facility, fid: string, l: Line): Snapshot
  {
    s.(lines := s.lines - {LineKey(f.fid, l.lid)},
       machines := s.machines - StaleMachineKeys(f.fid, l.lid, l.machines),
       runs := s.runs - {l.currentRun.rid},
       calendar := s.calendar - CalendarIdsOf(s.calendar, fid))
  }

  /** The store after the first `n` lines of `f` have been cleared. */
  function ClearLines(s: Snapshot, f: Facility, fid: string, n: nat): (r: Snapshot)
    requires n <= |f.lines|
    ensures r.customers == s.customers && r.facilities == s.facilities
  {
    if n == 0 then s else ClearLine(ClearLines(s, f, fid, n - 1), f, fid, f.lines[n - 1])
  }

  /** The store after facility `fid` has been removed together with the entries of its lines. */
  function Cleared(s: Snapshot, fid: string): (r: Snapshot)
    requires fid in s.facilities
    ensures fid !in r.facilities && r.customers == s.customers
  {
    var f := s.facilities[fid];
    ClearLines(s.(facilities := s.facilities - {fid}), f, fid, |f.lines|)
  }

  /** The store after every one of the first `n` templates whose id is `fid` has been generated. */
  function RepopulateMatching(c: Config, s: Snapshot, fid: string, ds: seq<FacilityDraw>, n: nat): (r: Snapshot)
    requires ValidConfig(c) && CustomersSeeded(c, s.customers) && WellFormedDraws(c, ds) && n <= |c.facilities|
    ensures r.customers == s.customers
  {
    if n == 0 then s
    else
      var p := RepopulateMatching(c, s, fid, ds, n - 1);
      if c.facilities[n - 1].fid == fid then Populate(c, p, c.facilities[n - 1], ds[n - 1]) else p
  }

  /**
   * The store after `reset/{fid}`. An unknown facility leaves the store as it
   * was; a known one is cleared and generated again from each template whose
   * id is `fid`. Generation looks up the run's customer, so the customers must
   * be there whenever the facility is.
   */
  function ResetFacilitySpec(c: Config, s: Snapshot, fid: string, ds: seq<FacilityDraw>): (r: Snapshot)
    requires ValidConfig(c) && WellFormedDraws(c, ds)
    requires fid in s.facilities ==> CustomersSeeded(c, s.customers)
    ensures r.customers == s.customers
  {
    if fid !in s.facilities then s else RepopulateMatching(c, Cleared(s, fid), fid, ds, |c.facilities|)
  }

  // ---------------------------------------------------------------------------
  // What every operation keeps

  /** Every machine on the lines of `f` has an id from the machine table. */
  ghost predicate MidsKnown(c: Config, f: Facility)
  {
    forall i, j :: 0 <= i < |f.lines| && 0 <= j < |f.lines[i].machines| ==> f.lines[i].machines[j].mid in MachineIds(c)
  }

  /** Every stored facility's machine keys `fid/lid/mid` are keys of the machines map. */
  ghost predicate MachinesCovered(c: Config, s: Snapshot)
  {
    forall k :: k in s.facilities ==> MachineKeysOf(c, k, |c.lines|) <= s.machines.Keys
  }

  /**
   * What the store keeps across the operations: facilities and calendar
   * entries are stored under their own ids, stored facilities carry only
   * machine ids from the table, every machine key ends in such an id, every
   * stored facility's machine keys are present, and the customers are there
   * as soon as there is a facility.
   */
  ghost predicate Inv(c: Config, s: Snapshot)
  {
    && (forall k :: k in s.facilities ==> s.facilities[k].fid == k && MidsKnown(c, s.facilities[k]))
    && (forall k :: k in s.machines ==> LastSegment(k) in MachineIds(c))
    && MachinesCovered(c, s)
    && (forall k :: k in s.calendar ==> s.calendar[k].cid == k)
    && (|s.facilities| > 0 ==> CustomersSeeded(c, s.customers))
  }

  // ---------------------------------------------------------------------------
  // The spaced machine key

  /**
   * A key built with " / " before a table machine id is never a stored
   * machine key: its last segment starts with a space, and no table machine
   * id does.
   */
  lemma StaleKeyNotStored(c: Config, m: map<string, Machine>, fid: string, lid: string, mid: string)
    requires ValidConfig(c) && mid in MachineIds(c)
    requires forall k :: k in m ==> LastSegment(k) in MachineIds(c)
    ensures StaleMachineKey(fid, lid, mid) !in m
  {
    var j :| 0 <= j < |c.machines| && c.machines[j].mid == mid;
    StaleMachineKeyLastSegment(fid, lid, mid);
    var last := LastSegment(StaleMachineKey(fid, lid, mid));
    assert last[0] == ' ';
  }

  /** Removing a stored line's spaced machine keys removes nothing. */
  lemma StaleKeysNotStored(c: Config, m: map<string, Machine>, fid: string, l: Line)
    requires ValidConfig(c)
    requires forall j :: 0 <= j < |l.machines| ==> l.machines[j].mid in MachineIds(c)
    requires forall k :: k in m ==> LastSegment(k) in MachineIds(c)
    ensures m - StaleMachineKeys(fid, l.lid, l.machines) == m
  {
    forall k | k in StaleMachineKeys(fid, l.lid, l.machines)
      ensures k !in m
    {
      var j :| 0 <= j < |l.machines| && k == StaleMachineKey(fid, l.lid, l.machines[j].mid);
      StaleKeyNotStored(c, m, fid, l.lid, l.machines[j].mid);
    }
  }

  /** Clearing the lines of a facility whose machines come from the table leaves the machines map as it was. */
  lemma {:induction false} ClearLinesKeepsMachines(c: Config, s: Snapshot, f: Facility, fid: string, n: nat)
    requires ValidConfig(c) && MidsKnown(c, f) && n <= |f.lines|
    requires forall k :: k in s.machines ==> LastSegment(k) in MachineIds(c)
    ensures ClearLines(s, f, fid, n).machines == s.machines
  {
    if n > 0 {
      ClearLinesKeepsMachines(c, s, f, fid, n - 1);
      StaleKeysNotStored(c, s.machines, f.fid, f.lines[n - 1]);
    }
  }

  // ---------------------------------------------------------------------------
  // What clearing a facility removes

  /** The line keys of the first `n` stored lines of `f`. */
  function StoredLineKeys(f: Facility, n: nat): set<string>
    requires n <= |f.lines|
  {
    set i | 0 <= i < n :: LineKey(f.fid, f.lines[i].lid)
  }

  /** The run ids of the first `n` stored lines of `f`. */
  function StoredRids(f: Facility, n: nat): set<string>
    requires n <= |f.lines|
  {
    set i | 0 <= i < n :: f.lines[i].currentRun.rid
  }

  /** Clearing the first `n` lines removes exactly their line keys and their current runs. */
  lemma {:induction false} ClearLinesLinesAndRuns(s: Snapshot, f: Facility, fid: string, n: nat)
    requires n <= |f.lines|
    ensures ClearLines(s, f, fid, n).lines == s.lines - StoredLineKeys(f, n)
    ensures ClearLines(s, f, fid, n).runs == s.runs - StoredRids(f, n)
  {
    if n > 0 {
      ClearLinesLinesAndRuns(s, f, fid, n - 1);
      assert StoredLineKeys(f, n) == StoredLineKeys(f, n - 1) + {LineKey(f.fid, f.lines[n - 1].lid)};
      assert StoredRids(f, n) == StoredRids(f, n - 1) + {f.lines[n - 1].currentRun.rid};
    }
  }

  /** With entries stored under their ids, removing a facility's entries leaves none of them, so removing again removes nothing. */
  lemma CalendarClearOnce(cal: map<string, CalEntry>, fid: string)
    requires forall k :: k in cal ==> cal[k].cid == k
    ensures forall k :: k in cal - CalendarIdsOf(cal, fid) ==> cal[k].facilityFid != fid
    ensures CalendarIdsOf(cal - CalendarIdsOf(cal, fid), fid) == {}
  {
  }

  /**
   * The calendar entries of `fid` are removed once per stored line, so a
   * facility without lines keeps them and one with lines loses all of them.
   */
  lemma {:induction false} ClearLinesCalendar(s: Snapshot, f: Facility, fid: string, n: nat)
    requires n <= |f.lines|
    requires forall k :: k in s.calendar ==> s.calendar[k].cid == k
    ensures n == 0 ==> ClearLines(s, f, fid, n).calendar == s.calendar
    ensures n > 0 ==> ClearLines(s, f, fid, n).calendar == s.calendar - CalendarIdsOf(s.calendar, fid)
  {
    if n > 1 {
      ClearLinesCalendar(s, f, fid, n - 1);
      CalendarClearOnce(s.calendar, fid);
      assert ClearLines(s, f, fid, n).calendar == ClearLines(s, f, fid, n - 1).calendar - {};
    }
  }

  // ---------------------------------------------------------------------------
  // Generating again

  /** Without a template of id `fid` among the first `n`, nothing is generated. */
  lemma {:induction false} RepopulateNone(c: Config, s: Snapshot, fid: string, ds: seq<FacilityDraw>, n: nat)
    requires ValidConfig(c) && CustomersSeeded(c, s.customers) && WellFormedDraws(c, ds) && n <= |c.facilities|
    requires forall i :: 0 <= i < n ==> c.facilities[i].fid != fid
    ensures RepopulateMatching(c, s, fid, ds, n) == s
  {
    if n > 0 {
      RepopulateNone(c, s, fid, ds, n - 1);
    }
  }

  /** Facility ids in the table are distinct, so the template of id `fid` is generated once, with its own draw. */
  lemma {:induction false} RepopulateOne(c: Config, s: Snapshot, fid: string, ds: seq<FacilityDraw>, n: nat, i: nat)
    requires ValidConfig(c) && CustomersSeeded(c, s.customers) && WellFormedDraws(c, ds) && n <= |c.facilities|
    requires i < n && c.facilities[i].fid == fid
    ensures RepopulateMatching(c, s, fid, ds, n) == Populate(c, s, c.facilities[i], ds[i])
  {
    if n - 1 == i {
      RepopulateNone(c, s, fid, ds, n - 1);
    } else {
      RepopulateOne(c, s, fid, ds, n - 1, i);
      assert c.facilities[n - 1].fid != fid;
    }
  }

  // ---------------------------------------------------------------------------
  // What resetting one facility does

  /** Resetting a facility that is not stored changes nothing. */
  lemma ResetFacilityUnknown(c: Config, s: Snapshot, fid: string, ds: seq<FacilityDraw>)
    requires ValidConfig(c) && WellFormedDraws(c, ds) && fid !in s.facilities
    ensures ResetFacilitySpec(c, s, fid, ds) == s
  {
  }

  /** The store with facility `fid` removed and the entries of its stored lines cleared, before anything is generated. */
  lemma ClearedEffects(c: Config, s: Snapshot, fid: string)
    requires ValidConfig(c) && Inv(c, s) && fid in s.facilities
    ensures var r := Cleared(s, fid);
      var f := s.facilities[fid];
      && r.customers == s.customers
      && r.facilities == s.facilities - {fid}
      && r.machines == s.machines
      && r.lines == s.lines - StoredLineKeys(f, |f.lines|)
      && r.runs == s.runs - StoredRids(f, |f.lines|)
      && r.calendar == (if |f.lines| == 0 then s.calendar else s.calendar - CalendarIdsOf(s.calendar, fid))
  {
    var f := s.facilities[fid];
    var s' := s.(facilities := s.facilities - {fid});
    ClearLinesKeepsMachines(c, s', f, fid, |f.lines|);
    ClearLinesLinesAndRuns(s', f, fid, |f.lines|);
    ClearLinesCalendar(s', f, fid, |f.lines|);
  }

  /** A stored facility with a template is cleared and then generated from that template with its draw. */
  lemma ResetFacilityRegenerates(c: Config, s: Snapshot, fid: string, ds: seq<FacilityDraw>, i: nat)
    requires ValidConfig(c) && WellFormedDraws(c, ds) && Inv(c, s) && fid in s.facilities
    requires i < |c.facilities| && c.facilities[i].fid == fid
    ensures ResetFacilitySpec(c, s, fid, ds) == Populate(c, Cleared(s, fid), c.facilities[i], ds[i])
  {
    RepopulateOne(c, Cleared(s, fid), fid, ds, |c.facilities|, i);
  }

  /** A stored facility without a template is only cleared. */
  lemma ResetFacilityRetires(c: Config, s: Snapshot, fid: string, ds: seq<FacilityDraw>)
    requires ValidConfig(c) && WellFormedDraws(c, ds) && Inv(c, s) && fid in s.facilities
    requires forall i :: 0 <= i < |c.facilities| ==> c.facilities[i].fid != fid
    ensures ResetFacilitySpec(c, s, fid, ds) == Cleared(s, fid)
    ensures fid !in ResetFacilitySpec(c, s, fid, ds).facilities
    ensures ResetFacilitySpec(c, s, fid, ds).machines == s.machines
  {
    RepopulateNone(c, Cleared(s, fid), fid, ds, |c.facilities|);
    ClearedEffects(c, s, fid);
  }

  /**
   * Resetting a stored facility that has a template keeps the set of stored
   * facilities, replaces that facility by a freshly generated one, and removes
   * no machine: the machines are put again under the same keys and every
   * other machine keeps its value.
   */
  lemma ResetFacilityFacilitiesAndMachines(c: Config, s: Snapshot, fid: string, ds: seq<FacilityDraw>, i: nat)
    requires ValidConfig(c) && WellFormedDraws(c, ds) && Inv(c, s) && fid in s.facilities
    requires i < |c.facilities| && c.facilities[i].fid == fid
    ensures var r := ResetFacilitySpec(c, s, fid, ds);
      && r.customers == s.customers
      && Extends(s.facilities, r.facilities, {fid})
      && r.facilities[fid] == BuildFacility(c, c.facilities[i], ds[i], s.customers)
      && Extends(s.machines, r.machines, MachineKeysOf(c, fid, |c.lines|))
      && r.machines.Keys == s.machines.Keys
  {
    var t := c.facilities[i];
    var cl := Cleared(s, fid);
    var r := ResetFacilitySpec(c, s, fid, ds);
    var f := BuildFacility(c, t, ds[i], s.customers);
    var keys := MachineKeysOf(c, fid, |c.lines|);
    ResetFacilityRegenerates(c, s, fid, ds, i);
    assert cl.customers == s.customers && cl.facilities == s.facilities - {fid} && cl.machines == s.machines by {
      ClearedEffects(c, s, fid);
    }
    assert r.customers == s.customers && Extends(s.machines, r.machines, keys) by {
      PopulateKeys(c, cl, t, ds[i]);
    }
    assert r.facilities == (s.facilities - {fid})[fid := f] by {
      PopulateFacilities(c, cl, t, ds[i]);
    }
    ReplaceExtends(s.facilities, fid, f);
    assert keys <= s.machines.Keys by {
      InvCoversMachines(c, s, fid);
    }
    ExtendsWithinKeys(s.machines, r.machines, keys);
  }

  /** Under the invariant, a stored facility's machine keys are all stored. */
  lemma InvCoversMachines(c: Config, s: Snapshot, fid: string)
    requires Inv(c, s) && fid in s.facilities
    ensures MachineKeysOf(c, fid, |c.lines|) <= s.machines.Keys
  {
    assert MachinesCovered(c, s);
  }

  /**
   * The scoped reset never changes which machine keys are stored: it removes
   * none (the spaced keys are never stored), and the keys it generates were
   * already there for the facility it replaces.
   */
  lemma ResetFacilityMachineKeys(c: Config, s: Snapshot, fid: string, ds: seq<FacilityDraw>)
    requires ValidConfig(c) && WellFormedDraws(c, ds) && Inv(c, s)
    ensures ResetFacilitySpec(c, s, fid, ds).machines.Keys == s.machines.Keys
  {
    if fid in s.facilities {
      if i :| 0 <= i < |c.facilities| && c.facilities[i].fid == fid {
        ResetFacilityFacilitiesAndMachines(c, s, fid, ds, i);
      } else {
        ResetFacilityRetires(c, s, fid, ds);
      }
    }
  }

  /**
   * Resetting a stored facility that has a template replaces the line keys and
   * runs of its stored lines by those of the generated ones; the facility's
   * calendar entries are replaced too, unless the stored facility had no lines.
   */
  lemma ResetFacilityLinesRunsCalendar(c: Config, s: Snapshot, fid: string, ds: seq<FacilityDraw>, i: nat)
    requires ValidConfig(c) && WellFormedDraws(c, ds) && Inv(c, s) && fid in s.facilities
    requires i < |c.facilities| && c.facilities[i].fid == fid
    ensures var r := ResetFacilitySpec(c, s, fid, ds);
      var f := s.facilities[fid];
      && Extends(s.lines - StoredLineKeys(f, |f.lines|), r.lines, LineKeysOf(c, fid, |c.lines|))
      && Extends(s.runs - StoredRids(f, |f.lines|), r.runs, RidsOf(ds[i], |c.lines|))
      && (|f.lines| > 0 ==> Extends(s.calendar - CalendarIdsOf(s.calendar, fid), r.calendar, CidsOf(ds[i], |c.lines|)))
      && (|f.lines| == 0 ==> Extends(s.calendar, r.calendar, CidsOf(ds[i], |c.lines|)))
  {
    var cl := Cleared(s, fid);
    var f := s.facilities[fid];
    var r := ResetFacilitySpec(c, s, fid, ds);
    ResetFacilityRegenerates(c, s, fid, ds, i);
    assert && cl.lines == s.lines - StoredLineKeys(f, |f.lines|)
           && cl.runs == s.runs - StoredRids(f, |f.lines|)
           && cl.calendar == (if |f.lines| == 0 then s.calendar else s.calendar - CalendarIdsOf(s.calendar, fid)) by {
      ClearedEffects(c, s, fid);
    }
    assert && Extends(cl.lines, r.lines, LineKeysOf(c, fid, |c.lines|))
           && Extends(cl.runs, r.runs, RidsOf(ds[i], |c.lines|))
           && Extends(cl.calendar, r.calendar, CidsOf(ds[i], |c.lines|)) by {
      PopulateKeys(c, cl, c.facilities[i], ds[i]);
    }
  }

  // ---------------------------------------------------------------------------
  // The store invariant is kept

  /** Every entry the generator puts in the calendar is stored under its own id. */
  lemma {:induction false} PutCalendarKeepsIds(c: Config, m: map<string, CalEntry>, fid: string, d: FacilityDraw, customers: map<string, Customer>, n: nat)
    requires ValidConfig(c) && CustomersSeeded(c, customers) && WellFormedDraw(c, d) && n <= |c.lines|
    requires forall k :: k in m ==> m[k].cid == k
    ensures forall k :: k in PutCalendar(c, m, fid, d, customers, n) ==> PutCalendar(c, m, fid, d, customers, n)[k].cid == k
  {
    if n > 0 {
      PutCalendarKeepsIds(c, m, fid, d, customers, n - 1);
    }
  }

  /** A generated facility carries only machine ids from the table. */
  lemma BuiltFacilityMidsKnown(c: Config, t: FacilityTemplate, d: FacilityDraw, customers: map<string, Customer>)
    requires CanPopulate(c, customers, d)
    ensures MidsKnown(c, BuildFacility(c, t, d, customers))
  {
    var f := BuildFacility(c, t, d, customers);
    forall i, j | 0 <= i < |f.lines| && 0 <= j < |f.lines[i].machines|
      ensures f.lines[i].machines[j].mid in MachineIds(c)
    {
      assert f.lines[i].machines[j] == BuildMachine(t.fid, c.lines[i].lid, c.machines[j]);
    }
  }

  /** Every machine key the generator puts ends in a table machine id. */
  lemma GeneratedMachineKeysEndInIds(c: Config, fid: string)
    requires ValidConfig(c)
    ensures forall k :: k in MachineKeysOf(c, fid, |c.lines|) ==> LastSegment(k) in MachineIds(c)
  {
    forall k | k in MachineKeysOf(c, fid, |c.lines|)
      ensures LastSegment(k) in MachineIds(c)
    {
      var i, j :| 0 <= i < |c.lines| && 0 <= j < |c.machines| && k == MachineKey(fid, c.lines[i].lid, c.machines[j].mid);
      MachineKeyLastSegment(fid, c.lines[i].lid, c.machines[j].mid);
    }
  }

  /** Generating a facility keeps the invariant. */
  lemma PopulateKeepsInv(c: Config, s: Snapshot, t: FacilityTemplate, d: FacilityDraw)
    requires CanPopulate(c, s.customers, d) && Inv(c, s)
    ensures Inv(c, Populate(c, s, t, d))
  {
    var r := Populate(c, s, t, d);
    BuiltFacilityMidsKnown(c, t, d, s.customers);
    assert forall k :: k in r.facilities ==> r.facilities[k].fid == k && MidsKnown(c, r.facilities[k]);
    PopulateMachineKeysEndInIds(c, s, t, d);
    PopulateKeepsCovered(c, s, t, d);
    PutCalendarKeepsIds(c, s.calendar, t.fid, d, s.customers, |c.lines|);
  }

  /** After generating a facility every stored facility's machine keys are still present, the new one's included. */
  lemma PopulateKeepsCovered(c: Config, s: Snapshot, t: FacilityTemplate, d: FacilityDraw)
    requires CanPopulate(c, s.customers, d) && MachinesCovered(c, s)
    ensures MachinesCovered(c, Populate(c, s, t, d))
  {
    var r := Populate(c, s, t, d);
    assert r.machines.Keys == s.machines.Keys + MachineKeysOf(c, t.fid, |c.lines|) by {
      PutLineMachinesKeys(c, s.machines, t.fid, |c.lines|);
    }
    assert r.facilities.Keys == s.facilities.Keys + {t.fid} by {
      PopulateFacilities(c, s, t, d);
    }
  }

  /** After generating a facility every machine key still ends in a table machine id. */
  lemma PopulateMachineKeysEndInIds(c: Config, s: Snapshot, t: FacilityTemplate, d: FacilityDraw)
    requires CanPopulate(c, s.customers, d)
    requires forall k :: k in s.machines ==> LastSegment(k) in MachineIds(c)
    ensures forall k :: k in Populate(c, s, t, d).machines ==> LastSegment(k) in MachineIds(c)
  {
    PutLineMachinesKeys(c, s.machines, t.fid, |c.lines|);
    GeneratedMachineKeysEndInIds(c, t.fid);
  }

  /** Clearing a stored facility keeps the invariant. */
  lemma ClearedKeepsInv(c: Config, s: Snapshot, fid: string)
    requires ValidConfig(c) && Inv(c, s) && fid in s.facilities
    ensures Inv(c, Cleared(s, fid))
  {
    ClearedEffects(c, s, fid);
  }

  /** Generating the matching templates keeps the invariant. */
  lemma {:induction false} RepopulateKeepsInv(c: Config, s: Snapshot, fid: string, ds: seq<FacilityDraw>, n: nat)
    requires ValidConfig(c) && CustomersSeeded(c, s.customers) && WellFormedDraws(c, ds) && n <= |c.facilities|
    requires Inv(c, s)
    ensures Inv(c, RepopulateMatching(c, s, fid, ds, n))
  {
    if n > 0 {
      RepopulateKeepsInv(c, s, fid, ds, n - 1);
      if c.facilities[n - 1].fid == fid {
        PopulateKeepsInv(c, RepopulateMatching(c, s, fid, ds, n - 1), c.facilities[n - 1], ds[n - 1]);
      }
    }
  }

  /** Resetting one facility keeps the invariant. */
  lemma ResetFacilityKeepsInv(c: Config, s: Snapshot, fid: string, ds: seq<FacilityDraw>)
    requires ValidConfig(c) && WellFormedDraws(c, ds) && Inv(c, s)
    ensures Inv(c, ResetFacilitySpec(c, s, fid, ds))
  {
    if fid in s.facilities {
      ClearedKeepsInv(c, s, fid);
      RepopulateKeepsInv(c, Cleared(s, fid), fid, ds, |c.facilities|);
    }
  }

  /** Generating the first `n` facilities keeps the invariant. */
  lemma {:induction false} PopulateAllKeepsInv(c: Config, s: Snapshot, ds: seq<FacilityDraw>, n: nat)
    requires ValidConfig(c) && CustomersSeeded(c, s.customers) && WellFormedDraws(c, ds) && n <= |c.facilities|
    requires Inv(c, s)
    ensures Inv(c, PopulateAll(c, s, ds, n))
  {
    if n > 0 {
      PopulateAllKeepsInv(c, s, ds, n - 1);
      PopulateKeepsInv(c, PopulateAll(c, s, ds, n - 1), c.facilities[n - 1], ds[n - 1]);
    }
  }

  /** The store after resetting everything satisfies the invariant, whatever it was before. */
  lemma ResetAllInv(c: Config, ds: seq<FacilityDraw>)
    requires ValidConfig(c) && WellFormedDraws(c, ds)
    ensures Inv(c, ResetAllSpec(c, ds))
  {
    PopulateAllKeepsInv(c, Seeded(c), ds, |c.facilities|);
  }

  // ---------------------------------------------------------------------------
  // What resetting everything does

  /** After resetting everything there is one customer per company, named after it, with password "password", and no other. */
  lemma ResetAllCustomers(c: Config, ds: seq<FacilityDraw>)
    requires ValidConfig(c) && WellFormedDraws(c, ds)
    ensures var r := ResetAllSpec(c, ds);
      && r.customers.Keys == (set i | 0 <= i < |c.companies| :: c.companies[i])
      && forall k :: k in r.customers ==> r.customers[k] == Customer(k, "password")
  {
    SeedCustomersKeys(c, map[], |c.companies|);
    SeedCustomersValues(c, map[], |c.companies|);
  }

  /** Generating a facility stores it under its id and touches no other facility. */
  lemma PopulateFacilities(c: Config, s: Snapshot, t: FacilityTemplate, d: FacilityDraw)
    requires CanPopulate(c, s.customers, d)
    ensures Populate(c, s, t, d).facilities == s.facilities[t.fid := BuildFacility(c, t, d, s.customers)]
  {
  }

  /** The ids of the first `n` facility templates. */
  function TemplateIds(ts: seq<FacilityTemplate>, n: nat): set<string>
    requires n <= |ts|
  {
    set i | 0 <= i < n :: ts[i].fid
  }

  /** Generating the first `n` facilities stores each of them under its id, and no other key. */
  lemma {:induction false} PopulateAllFacilityKeys(c: Config, s: Snapshot, ds: seq<FacilityDraw>, n: nat)
    requires ValidConfig(c) && CustomersSeeded(c, s.customers) && WellFormedDraws(c, ds) && n <= |c.facilities|
    ensures PopulateAll(c, s, ds, n).facilities.Keys == s.facilities.Keys + TemplateIds(c.facilities, n)
  {
    if n > 0 {
      var p := PopulateAll(c, s, ds, n - 1);
      var t := c.facilities[n - 1];
      PopulateAllFacilityKeys(c, s, ds, n - 1);
      PopulateFacilities(c, p, t, ds[n - 1]);
      FacilityKeysStep(s.facilities.Keys, p.facilities, PopulateAll(c, s, ds, n).facilities, c.facilities, n, BuildFacility(c, t, ds[n - 1], p.customers));
    }
  }

  /** Storing the `n`-th template's facility adds its id to the keys of the first `n - 1`. */
  lemma FacilityKeysStep(base: set<string>, pm: map<string, Facility>, qm: map<string, Facility>, ts: seq<FacilityTemplate>, n: nat, f: Facility)
    requires 0 < n <= |ts|
    requires pm.Keys == base + TemplateIds(ts, n - 1)
    requires qm == pm[ts[n - 1].fid := f]
    ensures qm.Keys == base + TemplateIds(ts, n)
  {
    assert TemplateIds(ts, n) == TemplateIds(ts, n - 1) + {ts[n - 1].fid};
  }

  /** Facility ids in the table are distinct, so no generated facility overwrites another. */
  lemma {:induction false} PopulateAllFacilityValues(c: Config, s: Snapshot, ds: seq<FacilityDraw>, n: nat)
    requires ValidConfig(c) && CustomersSeeded(c, s.customers) && WellFormedDraws(c, ds) && n <= |c.facilities|
    ensures forall i :: 0 <= i < n ==> c.facilities[i].fid in PopulateAll(c, s, ds, n).facilities
    ensures forall i :: 0 <= i < n ==>
      PopulateAll(c, s, ds, n).facilities[c.facilities[i].fid] == BuildFacility(c, c.facilities[i], ds[i], s.customers)
  {
    if n > 0 {
      PopulateAllFacilityValues(c, s, ds, n - 1);
      PopulateFacilities(c, PopulateAll(c, s, ds, n - 1), c.facilities[n - 1], ds[n - 1]);
      assert forall i :: 0 <= i < n - 1 ==> c.facilities[i].fid != c.facilities[n - 1].fid;
    }
  }

  /** After resetting everything the stored facilities are exactly those of the table, each freshly generated. */
  lemma ResetAllFacilities(c: Config, ds: seq<FacilityDraw>)
    requires ValidConfig(c) && WellFormedDraws(c, ds)
    ensures var r := ResetAllSpec(c, ds);
      && r.facilities.Keys == TemplateIds(c.facilities, |c.facilities|)
      && forall i :: 0 <= i < |c.facilities| ==>
           r.facilities[c.facilities[i].fid] == BuildFacility(c, c.facilities[i], ds[i], r.customers)
  {
    var s := Seeded(c);
    var r := ResetAllSpec(c, ds);
    assert r == PopulateAll(c, s, ds, |c.facilities|);
    assert s.facilities.Keys == {} && r.customers == s.customers;
    assert r.facilities.Keys == TemplateIds(c.facilities, |c.facilities|) by {
      PopulateAllFacilityKeys(c, s, ds, |c.facilities|);
    }
    PopulateAllFacilityValues(c, s, ds, |c.facilities|);
  }

  /** The line keys of every line of the first `n` facilities of the table. */
  function AllLineKeys(c: Config, n: nat): set<string>
    requires n <= |c.facilities|
  {
    set i, l | 0 <= i < n && 0 <= l < |c.lines| :: LineKey(c.facilities[i].fid, c.lines[l].lid)
  }

  /** The machine keys of every machine of the first `n` facilities of the table. */
  function AllMachineKeys(c: Config, n: nat): set<string>
    requires n <= |c.facilities|
  {
    set i, l, j | 0 <= i < n && 0 <= l < |c.lines| && 0 <= j < |c.machines| :: MachineKey(c.facilities[i].fid, c.lines[l].lid, c.machines[j].mid)
  }

  lemma AllLineKeysSplit(c: Config, n: nat)
    requires 0 < n <= |c.facilities|
    ensures AllLineKeys(c, n) == AllLineKeys(c, n - 1) + LineKeysOf(c, c.facilities[n - 1].fid, |c.lines|)
  {
    forall k | k in AllLineKeys(c, n)
      ensures k in AllLineKeys(c, n - 1) + LineKeysOf(c, c.facilities[n - 1].fid, |c.lines|)
    {
      var i, l :| 0 <= i < n && 0 <= l < |c.lines| && k == LineKey(c.facilities[i].fid, c.lines[l].lid);
      if i < n - 1 {
        assert k in AllLineKeys(c, n - 1);
      } else {
        assert k in LineKeysOf(c, c.facilities[n - 1].fid, |c.lines|);
      }
    }
  }

  lemma AllMachineKeysSplit(c: Config, n: nat)
    requires 0 < n <= |c.facilities|
    ensures AllMachineKeys(c, n) == AllMachineKeys(c, n - 1) + MachineKeysOf(c, c.facilities[n - 1].fid, |c.lines|)
  {
    forall k | k in AllMachineKeys(c, n)
      ensures k in AllMachineKeys(c, n - 1) + MachineKeysOf(c, c.facilities[n - 1].fid, |c.lines|)
    {
      var i, l, j :| 0 <= i < n && 0 <= l < |c.lines| && 0 <= j < |c.machines| && k == MachineKey(c.facilities[i].fid, c.lines[l].lid, c.machines[j].mid);
      if i < n - 1 {
        assert k in AllMachineKeys(c, n - 1);
      } else {
        assert k in MachineKeysOf(c, c.facilities[n - 1].fid, |c.lines|);
      }
    }
  }

  /** Generating the first `n` facilities puts exactly their line keys and their machine keys. */
  lemma {:induction false} PopulateAllLinesAndMachines(c: Config, s: Snapshot, ds: seq<FacilityDraw>, n: nat)
    requires ValidConfig(c) && CustomersSeeded(c, s.customers) && WellFormedDraws(c, ds) && n <= |c.facilities|
    ensures Extends(s.lines, PopulateAll(c, s, ds, n).lines, AllLineKeys(c, n))
    ensures Extends(s.machines, PopulateAll(c, s, ds, n).machines, AllMachineKeys(c, n))
  {
    if n > 0 {
      var p := PopulateAll(c, s, ds, n - 1);
      var t := c.facilities[n - 1];
      var q := PopulateAll(c, s, ds, n);
      PopulateAllLinesAndMachines(c, s, ds, n - 1);
      assert q == Populate(c, p, t, ds[n - 1]);
      assert Extends(p.lines, q.lines, LineKeysOf(c, t.fid, |c.lines|)) && Extends(p.machines, q.machines, MachineKeysOf(c, t.fid, |c.lines|)) by {
        PopulateKeys(c, p, t, ds[n - 1]);
      }
      ExtendsTrans(s.lines, p.lines, PopulateAll(c, s, ds, n).lines, AllLineKeys(c, n - 1), LineKeysOf(c, t.fid, |c.lines|));
      ExtendsTrans(s.machines, p.machines, PopulateAll(c, s, ds, n).machines, AllMachineKeys(c, n - 1), MachineKeysOf(c, t.fid, |c.lines|));
      AllLineKeysSplit(c, n);
      AllMachineKeysSplit(c, n);
    }
  }

  /** After resetting everything the lines and machines maps hold exactly the keys of the generated lines and machines. */
  lemma ResetAllLinesAndMachines(c: Config, ds: seq<FacilityDraw>)
    requires ValidConfig(c) && WellFormedDraws(c, ds)
    ensures ResetAllSpec(c, ds).lines.Keys == AllLineKeys(c, |c.facilities|)
    ensures ResetAllSpec(c, ds).machines.Keys == AllMachineKeys(c, |c.facilities|)
  {
    PopulateAllLinesAndMachines(c, Seeded(c), ds, |c.facilities|);
  }

  /** The run ids drawn for the first `n` facilities. */
  function AllRids(ds: seq<FacilityDraw>, n: nat): set<string>
    requires n <= |ds|
  {
    set i, l | 0 <= i < n && 0 <= l < |ds[i].lines| :: ds[i].lines[l].rid
  }

  /** The calendar entry ids drawn for the first `n` facilities. */
  function AllCids(ds: seq<FacilityDraw>, n: nat): set<string>
    requires n <= |ds|
  {
    set i, l | 0 <= i < n && 0 <= l < |ds[i].lines| :: ds[i].lines[l].cid
  }

  lemma AllRidsSplit(ds: seq<FacilityDraw>, n: nat)
    requires 0 < n <= |ds|
    ensures AllRids(ds, n) == AllRids(ds, n - 1) + RidsOf(ds[n - 1], |ds[n - 1].lines|)
  {
    forall k | k in AllRids(ds, n)
      ensures k in AllRids(ds, n - 1) + RidsOf(ds[n - 1], |ds[n - 1].lines|)
    {
      var i, l :| 0 <= i < n && 0 <= l < |ds[i].lines| && k == ds[i].lines[l].rid;
      if i < n - 1 {
        assert k in AllRids(ds, n - 1);
      } else {
        assert k in RidsOf(ds[n - 1], |ds[n - 1].lines|);
      }
    }
  }

  lemma AllCidsSplit(ds: seq<FacilityDraw>, n: nat)
    requires 0 < n <= |ds|
    ensures AllCids(ds, n) == AllCids(ds, n - 1) + CidsOf(ds[n - 1], |ds[n - 1].lines|)
  {
    forall k | k in AllCids(ds, n)
      ensures k in AllCids(ds, n - 1) + CidsOf(ds[n - 1], |ds[n - 1].lines|)
    {
      var i, l :| 0 <= i < n && 0 <= l < |ds[i].lines| && k == ds[i].lines[l].cid;
      if i < n - 1 {
        assert k in AllCids(ds, n - 1);
      } else {
        assert k in CidsOf(ds[n - 1], |ds[n - 1].lines|);
      }
    }
  }

  /** Generating the first `n` facilities puts exactly the run ids and calendar ids drawn for them. */
  lemma {:induction false} PopulateAllRunsAndCalendar(c: Config, s: Snapshot, ds: seq<FacilityDraw>, n: nat)
    requires ValidConfig(c) && CustomersSeeded(c, s.customers) && WellFormedDraws(c, ds) && n <= |c.facilities|
    ensures Extends(s.runs, PopulateAll(c, s, ds, n).runs, AllRids(ds, n))
    ensures Extends(s.calendar, PopulateAll(c, s, ds, n).calendar, AllCids(ds, n))
  {
    if n > 0 {
      var p := PopulateAll(c, s, ds, n - 1);
      var d := ds[n - 1];
      var q := PopulateAll(c, s, ds, n);
      PopulateAllRunsAndCalendar(c, s, ds, n - 1);
      assert q == Populate(c, p, c.facilities[n - 1], d);
      assert Extends(p.runs, q.runs, RidsOf(d, |c.lines|)) && Extends(p.calendar, q.calendar, CidsOf(d, |c.lines|)) by {
        PopulateKeys(c, p, c.facilities[n - 1], d);
      }
      ExtendsTrans(s.runs, p.runs, PopulateAll(c, s, ds, n).runs, AllRids(ds, n - 1), RidsOf(d, |c.lines|));
      ExtendsTrans(s.calendar, p.calendar, PopulateAll(c, s, ds, n).calendar, AllCids(ds, n - 1), CidsOf(d, |c.lines|));
      AllRidsSplit(ds, n);
      AllCidsSplit(ds, n);
    }
  }

  /**
   * After resetting everything the runs and calendar maps hold exactly the ids
   * drawn while generating: no entry from before the reset survives.
   */
  lemma ResetAllRunsAndCalendar(c: Config, ds: seq<FacilityDraw>)
    requires ValidConfig(c) && WellFormedDraws(c, ds)
    ensures ResetAllSpec(c, ds).runs.Keys == AllRids(ds, |ds|)
    ensures ResetAllSpec(c, ds).calendar.Keys == AllCids(ds, |ds|)
  {
    PopulateAllRunsAndCalendar(c, Seeded(c), ds, |c.facilities|);
  }

  /** A sequence without repeated elements has as many distinct elements as it is long. */
  lemma {:induction false} DistinctElementsCount(xs: seq<string>, n: nat)
    requires n <= |xs| && forall i, j :: 0 <= i < j < |xs| ==> xs[i] != xs[j]
    ensures |set i | 0 <= i < n :: xs[i]| == n
  {
    if n > 0 {
      DistinctElementsCount(xs, n - 1);
      assert (set i | 0 <= i < n :: xs[i]) == (set i | 0 <= i < n - 1 :: xs[i]) + {xs[n - 1]};
      assert xs[n - 1] !in (set i | 0 <= i < n - 1 :: xs[i]);
    }
  }

  /**
   * With the demo tables, resetting everything leaves seventeen customers,
   * all with password "password", and the four facilities facility-1 to
   * facility-4.
   */
  lemma ResetAllDemo(ds: seq<FacilityDraw>)
    requires WellFormedDraws(Demo, ds)
    ensures ValidConfig(Demo)
    ensures |ResetAllSpec(Demo, ds).customers| == 17
    ensures forall k :: k in ResetAllSpec(Demo, ds).customers ==> ResetAllSpec(Demo, ds).customers[k].password == "password"
    ensures ResetAllSpec(Demo, ds).facilities.Keys == {"facility-1", "facility-2", "facility-3", "facility-4"}
  {
    DemoValid();
    ResetAllCustomers(Demo, ds);
    ResetAllFacilities(Demo, ds);
    CompaniesDistinct();
    DistinctElementsCount(Companies, |Companies|);
    DemoFacilityIds();
  }

  lemma DemoFacilityCount()
    ensures |{"facility-1", "facility-2", "facility-3", "facility-4"}| == 4
  {
    assert "facility-1"[9] == '1' && "facility-2"[9] == '2' && "facility-3"[9] == '3' && "facility-4"[9] == '4';
  }

  lemma DemoFacilityIds()
    ensures (set i | 0 <= i < |FacilityTemplates| :: FacilityTemplates[i].fid) == {"facility-1", "facility-2", "facility-3", "facility-4"}
  {
    var ids := set i | 0 <= i < |FacilityTemplates| :: FacilityTemplates[i].fid;
    assert FacilityTemplates[0].fid in ids && FacilityTemplates[1].fid in ids;
    assert FacilityTemplates[2].fid in ids && FacilityTemplates[3].fid in ids;
  }
}
