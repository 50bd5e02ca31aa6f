/**
 * The utilities endpoint over the data grid's six string-keyed maps. Its
 * operations change the maps step by step, as the endpoint does; each is
 * proved to leave the maps in the state the corresponding function of the
 * `Seeding`, `Reset` and `Summaries` modules describes.
 */
module Endpoint {
  import opened Tables
  import opened Keys
  import opened Entities
  import opened Draws
  import opened Seeding
  import opened Reset
  import opened Summaries

  class UtilsEndpoint {
    /** The static tables the endpoint generates from. */
    const tables: Config
    var customers: map<string, Customer>
    var facilities: map<string, Facility>
    var lines: map<string, Line>
    var machines: map<string, Machine>
    var runs: map<string, Run>
    var calendar: map<string, CalEntry>

    /** The six maps as one value. */
    function State(): Snapshot
      reads this
    {
      Snapshot(customers, facilities, lines, machines, runs, calendar)
    }

    constructor()
      ensures tables == Demo && ValidConfig(tables)
      ensures State() == EmptyStore && Inv(tables, State())
    {
      tables := Demo;
      DemoValid();
      customers, facilities, lines, machines, runs, calendar := map[], map[], map[], map[], map[], map[];
    }

    /** `resetAll`: clears every map, puts one customer per company, then generates every facility of the table. */
    method ResetAll(ds: seq<FacilityDraw>)
      requires ValidConfig(tables) && WellFormedDraws(tables, ds)
      modifies this
      ensures State() == ResetAllSpec(tables, ds)
      ensures Inv(tables, State())
    {
      var c := tables;
      facilities := map[];
      lines := map[];
      customers := map[];
      machines := map[];
      runs := map[];
      calendar := map[];
      assert State() == EmptyStore;
      PutCustomers();
      assert State() == Seeded(c);
      PopulateFacilities(ds);
      ResetAllInv(c, ds);
    }

    /** Generates every facility of the table, in table order, over the current maps. */
    method PopulateFacilities(ds: seq<FacilityDraw>)
      requires ValidConfig(tables) && CustomersSeeded(tables, customers) && WellFormedDraws(tables, ds)
      modifies this
      ensures State() == PopulateAll(tables, old(State()), ds, |tables.facilities|)
    {
      var c := tables;
      ghost var s0 := State();
      var k := 0;
      while k < |c.facilities|
        invariant 0 <= k <= |c.facilities|
        invariant State() == PopulateAll(c, s0, ds, k)
      {
        PopulateFacility(c.facilities[k], ds[k]);
        k := k + 1;
      }
    }

    /** Puts one customer per company, with the fixed password, over the current customers. */
    method PutCustomers()
      modifies this
      ensures State() == old(State()).(customers := SeedCustomers(tables, old(customers), |tables.companies|))
    {
      var c := tables;
      ghost var s0 := State();
      var i := 0;
      while i < |c.companies|
        invariant 0 <= i <= |c.companies|
        invariant State() == s0.(customers := SeedCustomers(c, s0.customers, i))
      {
        customers := customers[c.companies[i] := Customer(c.companies[i], "password")];
        i := i + 1;
      }
    }

    /**
     * `reset/{fid}`: nothing for an unknown facility; otherwise removes the
     * facility and, line by line, the line, its machines under the spaced key,
     * its run and every calendar entry of the facility, then generates the
     * facility again from each template with that id.
     */
    method ResetFacility(fid: string, ds: seq<FacilityDraw>)
      requires ValidConfig(tables) && WellFormedDraws(tables, ds)
      requires fid in facilities ==> CustomersSeeded(tables, customers)
      modifies this
      ensures State() == ResetFacilitySpec(tables, old(State()), fid, ds)
      ensures Inv(tables, old(State())) ==> Inv(tables, State())
    {
      var c := tables;
      if fid !in facilities {
        return;
      }
      var f := facilities[fid];
      facilities := facilities - {fid};
      ghost var start := State();
      var i := 0;
      while i < |f.lines|
        invariant 0 <= i <= |f.lines|
        invariant State() == ClearLines(start, f, fid, i)
      {
        RemoveLine(f, fid, f.lines[i]);
        i := i + 1;
      }
      ghost var cleared := State();
      assert cleared == Cleared(old(State()), fid);
      var k := 0;
      while k < |c.facilities|
        invariant 0 <= k <= |c.facilities|
        invariant State() == RepopulateMatching(c, cleared, fid, ds, k)
      {
        if c.facilities[k].fid == fid {
          PopulateFacility(c.facilities[k], ds[k]);
        }
        k := k + 1;
      }
      if Inv(c, old(State())) {
        ResetFacilityKeepsInv(c, old(State()), fid, ds);
      }
    }

    /**
     * One pass of the line loop of a facility reset: removes the line under
     * `fid/lid`, each of its machines under the spaced key `fid/lid / mid`,
     * its run, and every calendar entry whose facility is `fid`.
     */
    method RemoveLine(f: Facility, fid: string, l: Line)
      modifies this
      ensures State() == ClearLine(old(State()), f, fid, l)
    {
      lines := lines - {LineKey(f.fid, l.lid)};
      ghost var m0 := machines;
      var j := 0;
      while j < |l.machines|
        invariant 0 <= j <= |l.machines|
        invariant customers == old(customers) && facilities == old(facilities) && lines == old(lines) - {LineKey(f.fid, l.lid)}
        invariant runs == old(runs) && calendar == old(calendar)
        invariant machines == m0 - StaleMachineKeys(f.fid, l.lid, l.machines[..j])
      {
        StaleMachineKeysPrefix(f.fid, l.lid, l.machines, j);
        machines := machines - {StaleMachineKey(f.fid, l.lid, l.machines[j].mid)};
        j := j + 1;
      }
      assert l.machines[..j] == l.machines;
      runs := runs - {l.currentRun.rid};
      var oldEntries := CalendarIdsOf(calendar, fid);
      calendar := calendar - oldEntries;
    }

    /**
     * Generates facility `t`: line by line (see `PutLine`), then the facility
     * itself, holding the lines in table order.
     */
    method PopulateFacility(t: FacilityTemplate, d: FacilityDraw)
      requires CanPopulate(tables, customers, d)
      modifies this
      ensures State() == Populate(tables, old(State()), t, d)
    {
      var c := tables;
      ghost var s0 := State();
      var ls: seq<Line> := [];
      var i := 0;
      while i < |c.lines|
        invariant 0 <= i <= |c.lines|
        invariant State() == PopulateLines(c, s0, t, d, i)
        invariant ls == BuildLines(c, t, d, s0.customers, i)
      {
        var line := PutLine(t, d, i);
        ls := ls + [line];
        PopulateLinesStep(c, s0, t, d, i);
        i := i + 1;
      }
      var fac := Facility(t.name, t.fid, Capacity(d.capacityFrac), t.name, Utilization(d.utilizationFrac), ls);
      facilities := facilities[t.fid := fac];
    }

    /**
     * One pass of the line loop of facility generation: each machine is put
     * under `fid/lid/mid`, then the line's run is built, its calendar entry
     * and run are put, and the line is put under `fid/lid`.
     */
    method PutLine(t: FacilityTemplate, d: FacilityDraw, i: nat) returns (line: Line)
      requires CanPopulate(tables, customers, d) && i < |tables.lines|
      modifies this
      ensures line == BuildLine(tables, t.fid, tables.lines[i], d.lines[i], old(customers))
      ensures State() == StoreLine(tables, old(State()), t, d, i)
    {
      var c := tables;
      var lt := c.lines[i];
      var ld := d.lines[i];
      ghost var p := State();
      var ms: seq<Machine> := [];
      var j := 0;
      while j < |c.machines|
        invariant 0 <= j <= |c.machines|
        invariant State() == p.(machines := PutMachines(c, p.machines, t.fid, lt.lid, j))
        invariant ms == BuildMachines(c, t.fid, lt.lid, j)
      {
        var m := BuildMachine(t.fid, lt.lid, c.machines[j]);
        ms := ms + [m];
        machines := machines[MachineKey(t.fid, lt.lid, m.mid) := m];
        j := j + 1;
      }
      var run := BuildRun(c, customers, ld);
      line := Line(lt.name, lt.lid, "The line", "ok", t.fid, ms, run);
      var entry := BuildCalEntry(t.fid, lt, run, ld);
      calendar := calendar[entry.cid := entry];
      runs := runs[run.rid := run];
      lines := lines[LineKey(t.fid, line.lid) := line];
    }

    /** `summaries`: the six tiles, in order, read from the current maps. */
    method GetSummaries() returns (result: seq<Summary>)
      ensures result == Summaries.Summaries(State())
    {
      result := [ClientSummary(customers)];
      result := result + [RunsSummary(runs)];
      result := result + [LinesSummary(runs)];
      result := result + [FacilitySummary(facilities)];
      result := result + [MachinesSummary(machines)];
      result := result + [OperatorsSummary];
    }
  }

  /** The spaced keys of the first `j + 1` machines are those of the first `j` and one more. */
  lemma StaleMachineKeysPrefix(fid: string, lid: string, ms: seq<Machine>, j: nat)
    requires j < |ms|
    ensures StaleMachineKeys(fid, lid, ms[..j + 1]) == StaleMachineKeys(fid, lid, ms[..j]) + {StaleMachineKey(fid, lid, ms[j].mid)}
  {
    var a := ms[..j + 1];
    assert a[j] == ms[j];
    forall k | k in StaleMachineKeys(fid, lid, a)
      ensures k in StaleMachineKeys(fid, lid, ms[..j]) + {StaleMachineKey(fid, lid, ms[j].mid)}
    {
      var x :| 0 <= x < |a| && k == StaleMachineKey(fid, lid, a[x].mid);
      if x < j {
        assert ms[..j][x] == a[x];
      }
    }
    forall k | k in StaleMachineKeys(fid, lid, ms[..j])
      ensures k in StaleMachineKeys(fid, lid, a)
    {
      var x :| 0 <= x < j && k == StaleMachineKey(fid, lid, ms[..j][x].mid);
      assert a[x] == ms[..j][x];
    }
  }
}
