/**
 * Generation of one facility from a template, as a function of the store it
 * writes into and the random inputs it consumes. `Populate` is the state the
 * store is in after the generator has run; the lemmas say which keys it adds,
 * what it stores under them, and that it leaves every other entry alone.
 */
module Seeding {
  import opened Tables
  import opened Keys
  import opened Entities
  import opened Draws

  /** Every company name has a customer, which the run's customer lookup relies on. */
  predicate CustomersSeeded(c: Config, customers: map<string, Customer>)
  {
    forall i :: 0 <= i < |c.companies| ==> c.companies[i] in customers
  }

  function BuildMachine(fid: string, lid: string, mt: MachineTemplate): Machine
  {
    Machine(mt.name, mt.mid, "ok", "The machine", mt.machineType, fid, lid)
  }

  /** The machines of one line, one per row of the machine table, in table order. */
  function BuildMachines(c: Config, fid: string, lid: string, n: nat): (r: seq<Machine>)
    requires n <= |c.machines|
    ensures |r| == n
    ensures forall j :: 0 <= j < n ==> r[j] == BuildMachine(fid, lid, c.machines[j])
  {
    if n == 0 then [] else BuildMachines(c, fid, lid, n - 1) + [BuildMachine(fid, lid, c.machines[n - 1])]
  }

  /** The current run of a line: a random name, a random company's customer and a window around `now`. */
  function BuildRun(c: Config, customers: map<string, Customer>, ld: LineDraw): (r: Run)
    requires ValidConfig(c) && CustomersSeeded(c, customers) && WellFormedLineDraw(ld)
    ensures r.rid == ld.rid && r.status == "ok"
    ensures r.name in c.runNames
    ensures exists i :: 0 <= i < |c.companies| && r.customer == customers[c.companies[i]]
    ensures r.start <= ld.now <= r.end
    ensures ld.now - r.start < 2 * MsInHour && r.end - ld.now < 4 * MsInHour
  {
    var company := Pick(c.companies, ld.companyPick);
    Run(ld.rid, Pick(c.runNames, ld.runPick), customers[company], "Standard Run", "ok",
        ld.now - StartOffset(ld.startFrac), ld.now + EndOffset(ld.endFrac))
  }

  function BuildLine(c: Config, fid: string, lt: LineTemplate, ld: LineDraw, customers: map<string, Customer>): Line
    requires ValidConfig(c) && CustomersSeeded(c, customers) && WellFormedLineDraw(ld)
  {
    Line(lt.name, lt.lid, "The line", "ok", fid, BuildMachines(c, fid, lt.lid, |c.machines|), BuildRun(c, customers, ld))
  }

  /** The calendar entry that mirrors a line's run; its JSON details are not part of this model. */
  function BuildCalEntry(fid: string, lt: LineTemplate, run: Run, ld: LineDraw): CalEntry
  {
    CalEntry(ld.cid, run.name + "(" + run.customer.name + ")", run.start, run.end, fid, lt.color, "run")
  }

  function BuildFacility(c: Config, t: FacilityTemplate, d: FacilityDraw, customers: map<string, Customer>): Facility
    requires ValidConfig(c) && CustomersSeeded(c, customers) && WellFormedDraw(c, d)
  {
    Facility(t.name, t.fid, Capacity(d.capacityFrac), t.name, Utilization(d.utilizationFrac),
      BuildLines(c, t, d, customers, |c.lines|))
  }

  function BuildLines(c: Config, t: FacilityTemplate, d: FacilityDraw, customers: map<string, Customer>, n: nat): (r: seq<Line>)
    requires ValidConfig(c) && CustomersSeeded(c, customers) && WellFormedDraw(c, d) && n <= |c.lines|
    ensures |r| == n
    ensures forall i :: 0 <= i < n ==> r[i] == BuildLine(c, t.fid, c.lines[i], d.lines[i], customers)
  {
    if n == 0 then [] else BuildLines(c, t, d, customers, n - 1) + [BuildLine(c, t.fid, c.lines[n - 1], d.lines[n - 1], customers)]
  }

  /** What generating a facility needs: valid tables, every company's customer, and well-formed draws. */
  ghost predicate CanPopulate(c: Config, customers: map<string, Customer>, d: FacilityDraw)
  {
    ValidConfig(c) && CustomersSeeded(c, customers) && WellFormedDraw(c, d)
  }

  /** The machines map after the first `n` machines of line `lid` have been put. */
  function PutMachines(c: Config, m: map<string, Machine>, fid: string, lid: string, n: nat): map<string, Machine>
    requires n <= |c.machines|
  {
    if n == 0 then m
    else PutMachines(c, m, fid, lid, n - 1)[MachineKey(fid, lid, c.machines[n - 1].mid) := BuildMachine(fid, lid, c.machines[n - 1])]
  }

  /** The machines map after the machines of the first `n` lines of facility `fid` have been put. */
  function PutLineMachines(c: Config, m: map<string, Machine>, fid: string, n: nat): map<string, Machine>
    requires n <= |c.lines|
  {
    if n == 0 then m
    else PutMachines(c, PutLineMachines(c, m, fid, n - 1), fid, c.lines[n - 1].lid, |c.machines|)
  }

  /** The lines map after the first `n` lines of facility `fid` have been put under `fid/lid`. */
  function PutLines(c: Config, m: map<string, Line>, fid: string, d: FacilityDraw, customers: map<string, Customer>, n: nat): map<string, Line>
    requires ValidConfig(c) && CustomersSeeded(c, customers) && WellFormedDraw(c, d) && n <= |c.lines|
  {
    if n == 0 then m
    else PutLines(c, m, fid, d, customers, n - 1)[LineKey(fid, c.lines[n - 1].lid) := BuildLine(c, fid, c.lines[n - 1], d.lines[n - 1], customers)]
  }

  /** The runs map after the runs of the first `n` lines have been put under their run ids. */
  function PutRuns(c: Config, m: map<string, Run>, d: FacilityDraw, customers: map<string, Customer>, n: nat): map<string, Run>
    requires ValidConfig(c) && CustomersSeeded(c, customers) && WellFormedDraw(c, d) && n <= |c.lines|
  {
    if n == 0 then m
    else PutRuns(c, m, d, customers, n - 1)[d.lines[n - 1].rid := BuildRun(c, customers, d.lines[n - 1])]
  }

  /** The calendar after the entries of the first `n` lines have been put under their entry ids. */
  function PutCalendar(c: Config, m: map<string, CalEntry>, fid: string, d: FacilityDraw, customers: map<string, Customer>, n: nat): map<string, CalEntry>
    requires ValidConfig(c) && CustomersSeeded(c, customers) && WellFormedDraw(c, d) && n <= |c.lines|
  {
    if n == 0 then m
    else PutCalendar(c, m, fid, d, customers, n - 1)[d.lines[n - 1].cid := BuildCalEntry(fid, c.lines[n - 1], BuildRun(c, customers, d.lines[n - 1]), d.lines[n - 1])]
  }

  /** The store after line `i` of facility `t` has been generated and written: its machines, calendar entry, run and the line itself. */
  function StoreLine(c: Config, s: Snapshot, t: FacilityTemplate, d: FacilityDraw, i: nat): Snapshot
    requires CanPopulate(c, s.customers, d) && i < |c.lines|
  {
    var lt := c.lines[i];
    var ld := d.lines[i];
    var line := BuildLine(c, t.fid, lt, ld, s.customers);
    s.(machines := PutMachines(c, s.machines, t.fid, lt.lid, |c.machines|),
       calendar := s.calendar[ld.cid := BuildCalEntry(t.fid, lt, line.currentRun, ld)],
       runs := s.runs[ld.rid := line.currentRun],
       lines := s.lines[LineKey(t.fid, lt.lid) := line])
  }

  /**
   * The store after the first `n` lines of facility `t` have been written.
   * The four maps are written independently of one another, so each is given
   * by its own function; customers and facilities are not touched.
   */
  function PopulateLines(c: Config, s: Snapshot, t: FacilityTemplate, d: FacilityDraw, n: nat): Snapshot
    requires CanPopulate(c, s.customers, d) && n <= |c.lines|
  {
    s.(lines := PutLines(c, s.lines, t.fid, d, s.customers, n),
       machines := PutLineMachines(c, s.machines, t.fid, n),
       runs := PutRuns(c, s.runs, d, s.customers, n),
       calendar := PutCalendar(c, s.calendar, t.fid, d, s.customers, n))
  }

  /** Writing line after line, one `StoreLine` at a time, is what `PopulateLines` describes. */
  lemma PopulateLinesStep(c: Config, s: Snapshot, t: FacilityTemplate, d: FacilityDraw, i: nat)
    requires CanPopulate(c, s.customers, d) && i < |c.lines|
    ensures PopulateLines(c, s, t, d, i + 1) == StoreLine(c, PopulateLines(c, s, t, d, i), t, d, i)
  {
  }

  /** The store after facility `t` has been generated: all its lines, then the facility itself. */
  function Populate(c: Config, s: Snapshot, t: FacilityTemplate, d: FacilityDraw): Snapshot
    requires CanPopulate(c, s.customers, d)
  {
    var p := PopulateLines(c, s, t, d, |c.lines|);
    p.(facilities := p.facilities[t.fid := BuildFacility(c, t, d, s.customers)])
  }

  // ---------------------------------------------------------------------------
  // The keys a facility's generation writes

  function LineKeysOf(c: Config, fid: string, n: nat): set<string>
    requires n <= |c.lines|
  {
    set i | 0 <= i < n :: LineKey(fid, c.lines[i].lid)
  }

  function MachineKeysOfLine(c: Config, fid: string, lid: string, n: nat): set<string>
    requires n <= |c.machines|
  {
    set j | 0 <= j < n :: MachineKey(fid, lid, c.machines[j].mid)
  }

  function MachineKeysOf(c: Config, fid: string, n: nat): set<string>
    requires n <= |c.lines|
  {
    set i, j | 0 <= i < n && 0 <= j < |c.machines| :: MachineKey(fid, c.lines[i].lid, c.machines[j].mid)
  }

  function RidsOf(d: FacilityDraw, n: nat): set<string>
    requires n <= |d.lines|
  {
    set i | 0 <= i < n :: d.lines[i].rid
  }

  function CidsOf(d: FacilityDraw, n: nat): set<string>
    requires n <= |d.lines|
  {
    set i | 0 <= i < n :: d.lines[i].cid
  }

  predicate RidsDistinct(d: FacilityDraw)
  {
    forall i, j :: 0 <= i < j < |d.lines| ==> d.lines[i].rid != d.lines[j].rid
  }

  predicate CidsDistinct(d: FacilityDraw)
  {
    forall i, j :: 0 <= i < j < |d.lines| ==> d.lines[i].cid != d.lines[j].cid
  }

  /** `q` is `m` with the keys `added` put: it has exactly the keys of both, and every other key of `m` keeps its value. */
  ghost predicate Extends<V>(m: map<string, V>, q: map<string, V>, added: set<string>)
  {
    q.Keys == m.Keys + added && forall k :: k in m && k !in added ==> q[k] == m[k]
  }

  /** Putting only keys that are already there leaves the key set as it was. */
  lemma ExtendsWithinKeys<V>(m: map<string, V>, q: map<string, V>, added: set<string>)
    requires Extends(m, q, added) && added <= m.Keys
    ensures q.Keys == m.Keys
  {
  }

  /** Removing a stored key and putting it back puts just that key. */
  lemma ReplaceExtends<V>(m: map<string, V>, k: string, v: V)
    requires k in m
    ensures Extends(m, (m - {k})[k := v], {k})
  {
  }

  /** Putting `a` and then `b` puts `a + b`. */
  lemma ExtendsTrans<V>(m: map<string, V>, p: map<string, V>, q: map<string, V>, a: set<string>, b: set<string>)
    requires Extends(m, p, a) && Extends(p, q, b)
    ensures Extends(m, q, a + b)
  {
    forall k | k in m && k !in a + b
      ensures q[k] == m[k]
    {
      assert k in p;
    }
  }

  // ---------------------------------------------------------------------------
  // Machines of one line

  /** Putting one key puts exactly that key. */
  lemma ExtendsPut<V>(m: map<string, V>, k: string, v: V)
    ensures Extends(m, m[k := v], {k})
  {
  }

  /** Putting a line's machines adds exactly its machine keys and changes no other entry. */
  lemma {:induction false} PutMachinesKeys(c: Config, m: map<string, Machine>, fid: string, lid: string, n: nat)
    requires n <= |c.machines|
    ensures Extends(m, PutMachines(c, m, fid, lid, n), MachineKeysOfLine(c, fid, lid, n))
  {
    if n > 0 {
      var last := MachineKey(fid, lid, c.machines[n - 1].mid);
      var p := PutMachines(c, m, fid, lid, n - 1);
      PutMachinesKeys(c, m, fid, lid, n - 1);
      ExtendsPut(p, last, BuildMachine(fid, lid, c.machines[n - 1]));
      ExtendsTrans(m, p, PutMachines(c, m, fid, lid, n), MachineKeysOfLine(c, fid, lid, n - 1), {last});
      assert MachineKeysOfLine(c, fid, lid, n) == MachineKeysOfLine(c, fid, lid, n - 1) + {last};
    }
  }

  /** After a line's machines are put, each of its machine keys holds the generated machine. */
  lemma {:induction false} PutMachinesValues(c: Config, m: map<string, Machine>, fid: string, lid: string, n: nat)
    requires ValidConfig(c) && n <= |c.machines|
    ensures forall j :: 0 <= j < n ==> MachineKey(fid, lid, c.machines[j].mid) in PutMachines(c, m, fid, lid, n)
    ensures forall j :: 0 <= j < n ==>
      PutMachines(c, m, fid, lid, n)[MachineKey(fid, lid, c.machines[j].mid)] == BuildMachine(fid, lid, c.machines[j])
  {
    if n > 0 {
      PutMachinesValues(c, m, fid, lid, n - 1);
      var last := MachineKey(fid, lid, c.machines[n - 1].mid);
      forall j | 0 <= j < n - 1
        ensures MachineKey(fid, lid, c.machines[j].mid) != last
      {
        if MachineKey(fid, lid, c.machines[j].mid) == last {
          MachineKeyInjective(fid, lid, c.machines[j].mid, lid, c.machines[n - 1].mid);
        }
      }
    }
  }

  // ---------------------------------------------------------------------------
  // The four maps a facility's lines are written into

  /** After `n` lines the lines map holds exactly the old keys and those lines' keys; other entries keep their values. */
  lemma {:induction false} PutLinesKeys(c: Config, m: map<string, Line>, fid: string, d: FacilityDraw, customers: map<string, Customer>, n: nat)
    requires ValidConfig(c) && CustomersSeeded(c, customers) && WellFormedDraw(c, d) && n <= |c.lines|
    ensures Extends(m, PutLines(c, m, fid, d, customers, n), LineKeysOf(c, fid, n))
  {
    if n > 0 {
      PutLinesKeys(c, m, fid, d, customers, n - 1);
      var last := LineKey(fid, c.lines[n - 1].lid);
      assert LineKeysOf(c, fid, n) == LineKeysOf(c, fid, n - 1) + {last};
      forall k | k in m && k !in LineKeysOf(c, fid, n)
        ensures PutLines(c, m, fid, d, customers, n)[k] == m[k]
      {
        assert k != last && k !in LineKeysOf(c, fid, n - 1);
      }
    }
  }

  /** After `n` lines each of their keys holds the generated line. */
  lemma {:induction false} PutLinesValues(c: Config, m: map<string, Line>, fid: string, d: FacilityDraw, customers: map<string, Customer>, n: nat)
    requires ValidConfig(c) && CustomersSeeded(c, customers) && WellFormedDraw(c, d) && n <= |c.lines|
    ensures forall i :: 0 <= i < n ==> LineKey(fid, c.lines[i].lid) in PutLines(c, m, fid, d, customers, n)
    ensures forall i :: 0 <= i < n ==>
      PutLines(c, m, fid, d, customers, n)[LineKey(fid, c.lines[i].lid)] == BuildLine(c, fid, c.lines[i], d.lines[i], customers)
  {
    if n > 0 {
      var p := PutLines(c, m, fid, d, customers, n - 1);
      var q := PutLines(c, m, fid, d, customers, n);
      PutLinesValues(c, m, fid, d, customers, n - 1);
      EarlierLineKeysDiffer(c, fid, n - 1);
      forall i | 0 <= i < n
        ensures LineKey(fid, c.lines[i].lid) in q && q[LineKey(fid, c.lines[i].lid)] == BuildLine(c, fid, c.lines[i], d.lines[i], customers)
      {
        if i < n - 1 {
          assert q[LineKey(fid, c.lines[i].lid)] == p[LineKey(fid, c.lines[i].lid)];
        }
      }
    }
  }

  /** The key of line `n` differs from the keys of the lines before it. */
  lemma EarlierLineKeysDiffer(c: Config, fid: string, n: nat)
    requires ValidConfig(c) && n < |c.lines|
    ensures forall i :: 0 <= i < n ==> LineKey(fid, c.lines[i].lid) != LineKey(fid, c.lines[n].lid)
  {
    forall i | 0 <= i < n
      ensures LineKey(fid, c.lines[i].lid) != LineKey(fid, c.lines[n].lid)
    {
      if LineKey(fid, c.lines[i].lid) == LineKey(fid, c.lines[n].lid) {
        LineKeyInjective(fid, c.lines[i].lid, c.lines[n].lid);
      }
    }
  }

  lemma MachineKeysOfSplit(c: Config, fid: string, n: nat)
    requires 0 < n <= |c.lines|
    ensures MachineKeysOf(c, fid, n) == MachineKeysOf(c, fid, n - 1) + MachineKeysOfLine(c, fid, c.lines[n - 1].lid, |c.machines|)
  {
    var lid := c.lines[n - 1].lid;
    forall k | k in MachineKeysOf(c, fid, n)
      ensures k in MachineKeysOf(c, fid, n - 1) + MachineKeysOfLine(c, fid, lid, |c.machines|)
    {
      var i, j :| 0 <= i < n && 0 <= j < |c.machines| && k == MachineKey(fid, c.lines[i].lid, c.machines[j].mid);
      if i < n - 1 {
        assert k in MachineKeysOf(c, fid, n - 1);
      } else {
        assert k in MachineKeysOfLine(c, fid, lid, |c.machines|);
      }
    }
  }

  lemma {:induction false} PutLineMachinesKeys(c: Config, m: map<string, Machine>, fid: string, n: nat)
    requires ValidConfig(c) && n <= |c.lines|
    ensures Extends(m, PutLineMachines(c, m, fid, n), MachineKeysOf(c, fid, n))
  {
    if n > 0 {
      var lid := c.lines[n - 1].lid;
      var p := PutLineMachines(c, m, fid, n - 1);
      PutLineMachinesKeys(c, m, fid, n - 1);
      PutMachinesKeys(c, p, fid, lid, |c.machines|);
      ExtendsTrans(m, p, PutLineMachines(c, m, fid, n), MachineKeysOf(c, fid, n - 1), MachineKeysOfLine(c, fid, lid, |c.machines|));
      MachineKeysOfSplit(c, fid, n);
    }
  }

  /** A machine key of one line is none of another line's machine keys. */
  lemma MachineKeyOtherLine(c: Config, fid: string, i: nat, j: nat, i': nat)
    requires ValidConfig(c) && i < |c.lines| && i' < |c.lines| && i != i' && j < |c.machines|
    ensures MachineKey(fid, c.lines[i].lid, c.machines[j].mid) !in MachineKeysOfLine(c, fid, c.lines[i'].lid, |c.machines|)
  {
    if MachineKey(fid, c.lines[i].lid, c.machines[j].mid) in MachineKeysOfLine(c, fid, c.lines[i'].lid, |c.machines|) {
      var j' :| 0 <= j' < |c.machines| && MachineKey(fid, c.lines[i'].lid, c.machines[j'].mid) == MachineKey(fid, c.lines[i].lid, c.machines[j].mid);
      MachineKeyInjective(fid, c.lines[i'].lid, c.machines[j'].mid, c.lines[i].lid, c.machines[j].mid);
    }
  }

  /** After `n` lines each of their machine keys holds the generated machine. */
  lemma {:induction false} PutLineMachinesValues(c: Config, m: map<string, Machine>, fid: string, n: nat)
    requires ValidConfig(c) && n <= |c.lines|
    ensures forall i, j :: 0 <= i < n && 0 <= j < |c.machines| ==>
      MachineKey(fid, c.lines[i].lid, c.machines[j].mid) in PutLineMachines(c, m, fid, n)
    ensures forall i, j :: 0 <= i < n && 0 <= j < |c.machines| ==>
      PutLineMachines(c, m, fid, n)[MachineKey(fid, c.lines[i].lid, c.machines[j].mid)] == BuildMachine(fid, c.lines[i].lid, c.machines[j])
  {
    if n > 0 {
      var lid := c.lines[n - 1].lid;
      var p := PutLineMachines(c, m, fid, n - 1);
      PutLineMachinesValues(c, m, fid, n - 1);
      PutLineMachinesValuesStep(c, p, fid, n - 1);
      PutMachinesValues(c, p, fid, lid, |c.machines|);
      var q := PutLineMachines(c, m, fid, n);
      assert q == PutMachines(c, p, fid, lid, |c.machines|);
      forall i, j | 0 <= i < n && 0 <= j < |c.machines|
        ensures MachineKey(fid, c.lines[i].lid, c.machines[j].mid) in q
        ensures q[MachineKey(fid, c.lines[i].lid, c.machines[j].mid)] == BuildMachine(fid, c.lines[i].lid, c.machines[j])
      {
        if i == n - 1 {
          assert c.lines[i].lid == lid;
        }
      }
    }
  }

  /** Putting line `n`'s machines keeps the generated machines of the lines before it. */
  lemma PutLineMachinesValuesStep(c: Config, p: map<string, Machine>, fid: string, n: nat)
    requires ValidConfig(c) && n < |c.lines|
    requires forall i, j :: 0 <= i < n && 0 <= j < |c.machines| ==>
      MachineKey(fid, c.lines[i].lid, c.machines[j].mid) in p &&
      p[MachineKey(fid, c.lines[i].lid, c.machines[j].mid)] == BuildMachine(fid, c.lines[i].lid, c.machines[j])
    ensures forall i, j :: 0 <= i < n && 0 <= j < |c.machines| ==>
      MachineKey(fid, c.lines[i].lid, c.machines[j].mid) in PutMachines(c, p, fid, c.lines[n].lid, |c.machines|) &&
      PutMachines(c, p, fid, c.lines[n].lid, |c.machines|)[MachineKey(fid, c.lines[i].lid, c.machines[j].mid)] == BuildMachine(fid, c.lines[i].lid, c.machines[j])
  {
    var q := PutMachines(c, p, fid, c.lines[n].lid, |c.machines|);
    PutMachinesKeys(c, p, fid, c.lines[n].lid, |c.machines|);
    forall i, j | 0 <= i < n && 0 <= j < |c.machines|
      ensures MachineKey(fid, c.lines[i].lid, c.machines[j].mid) in q
      ensures q[MachineKey(fid, c.lines[i].lid, c.machines[j].mid)] == BuildMachine(fid, c.lines[i].lid, c.machines[j])
    {
      var k := MachineKey(fid, c.lines[i].lid, c.machines[j].mid);
      MachineKeyOtherLine(c, fid, i, j, n);
      assert k in p && k !in MachineKeysOfLine(c, fid, c.lines[n].lid, |c.machines|);
    }
  }

  /** After `n` lines the runs map holds exactly the old keys and the `n` run ids; other entries keep their values. */
  lemma {:induction false} PutRunsKeys(c: Config, m: map<string, Run>, d: FacilityDraw, customers: map<string, Customer>, n: nat)
    requires ValidConfig(c) && CustomersSeeded(c, customers) && WellFormedDraw(c, d) && n <= |c.lines|
    ensures Extends(m, PutRuns(c, m, d, customers, n), RidsOf(d, n))
  {
    if n > 0 {
      PutRunsKeys(c, m, d, customers, n - 1);
      assert RidsOf(d, n) == RidsOf(d, n - 1) + {d.lines[n - 1].rid};
      forall k | k in m && k !in RidsOf(d, n)
        ensures PutRuns(c, m, d, customers, n)[k] == m[k]
      {
        assert k != d.lines[n - 1].rid && k !in RidsOf(d, n - 1);
      }
    }
  }

  /** With distinct run ids, each of the first `n` lines' runs is stored under its run id. */
  lemma {:induction false} PutRunsValues(c: Config, m: map<string, Run>, d: FacilityDraw, customers: map<string, Customer>, n: nat)
    requires ValidConfig(c) && CustomersSeeded(c, customers) && WellFormedDraw(c, d) && n <= |c.lines| && RidsDistinct(d)
    ensures forall i :: 0 <= i < n ==> d.lines[i].rid in PutRuns(c, m, d, customers, n)
    ensures forall i :: 0 <= i < n ==> PutRuns(c, m, d, customers, n)[d.lines[i].rid] == BuildRun(c, customers, d.lines[i])
  {
    if n > 0 {
      PutRunsValues(c, m, d, customers, n - 1);
      assert forall i :: 0 <= i < n - 1 ==> d.lines[i].rid != d.lines[n - 1].rid;
    }
  }

  /** After `n` lines the calendar holds exactly the old keys and the `n` entry ids; other entries keep their values. */
  lemma {:induction false} PutCalendarKeys(c: Config, m: map<string, CalEntry>, fid: string, d: FacilityDraw, customers: map<string, Customer>, n: nat)
    requires ValidConfig(c) && CustomersSeeded(c, customers) && WellFormedDraw(c, d) && n <= |c.lines|
    ensures Extends(m, PutCalendar(c, m, fid, d, customers, n), CidsOf(d, n))
  {
    if n > 0 {
      PutCalendarKeys(c, m, fid, d, customers, n - 1);
      assert CidsOf(d, n) == CidsOf(d, n - 1) + {d.lines[n - 1].cid};
      forall k | k in m && k !in CidsOf(d, n)
        ensures PutCalendar(c, m, fid, d, customers, n)[k] == m[k]
      {
        assert k != d.lines[n - 1].cid && k !in CidsOf(d, n - 1);
      }
    }
  }

  /** With distinct entry ids, each of the first `n` lines has its calendar entry under its entry id. */
  lemma {:induction false} PutCalendarValues(c: Config, m: map<string, CalEntry>, fid: string, d: FacilityDraw, customers: map<string, Customer>, n: nat)
    requires ValidConfig(c) && CustomersSeeded(c, customers) && WellFormedDraw(c, d) && n <= |c.lines| && CidsDistinct(d)
    ensures forall i :: 0 <= i < n ==> d.lines[i].cid in PutCalendar(c, m, fid, d, customers, n)
    ensures forall i :: 0 <= i < n ==>
      PutCalendar(c, m, fid, d, customers, n)[d.lines[i].cid]
        == BuildCalEntry(fid, c.lines[i], BuildRun(c, customers, d.lines[i]), d.lines[i])
  {
    if n > 0 {
      PutCalendarValues(c, m, fid, d, customers, n - 1);
      assert forall i :: 0 <= i < n - 1 ==> d.lines[i].cid != d.lines[n - 1].cid;
    }
  }

  // ---------------------------------------------------------------------------
  // What generating one facility does to the store

  /**
   * Generating facility `t` stores it under its fid, adds one line key per row
   * of the line table, one machine key per line and machine row, one run and
   * one calendar entry per line, and leaves customers and every other entry as
   * they were.
   */
  lemma PopulateKeys(c: Config, s: Snapshot, t: FacilityTemplate, d: FacilityDraw)
    requires CanPopulate(c, s.customers, d)
    ensures Populate(c, s, t, d).customers == s.customers
    ensures Extends(s.facilities, Populate(c, s, t, d).facilities, {t.fid})
    ensures Extends(s.lines, Populate(c, s, t, d).lines, LineKeysOf(c, t.fid, |c.lines|))
    ensures Extends(s.machines, Populate(c, s, t, d).machines, MachineKeysOf(c, t.fid, |c.lines|))
    ensures Extends(s.runs, Populate(c, s, t, d).runs, RidsOf(d, |c.lines|))
    ensures Extends(s.calendar, Populate(c, s, t, d).calendar, CidsOf(d, |c.lines|))
  {
    PutLinesKeys(c, s.lines, t.fid, d, s.customers, |c.lines|);
    PutLineMachinesKeys(c, s.machines, t.fid, |c.lines|);
    PutRunsKeys(c, s.runs, d, s.customers, |c.lines|);
    PutCalendarKeys(c, s.calendar, t.fid, d, s.customers, |c.lines|);
  }

  /**
   * The facility stored under `t.fid` has one line per row of the line table,
   * each with one machine per row of the machine table; the lines and machines
   * maps hold those same values under `fid/lid` and `fid/lid/mid`.
   */
  lemma PopulateShape(c: Config, s: Snapshot, t: FacilityTemplate, d: FacilityDraw)
    requires CanPopulate(c, s.customers, d)
    ensures t.fid in Populate(c, s, t, d).facilities
    ensures var f := Populate(c, s, t, d).facilities[t.fid];
      && f.fid == t.fid && f.name == t.name && f.address == t.name
      && 0 <= f.capacity <= 10000 && 0.9 <= f.utilization < 1.0
      && |f.lines| == |c.lines|
      && forall i :: 0 <= i < |c.lines| ==>
           && f.lines[i].lid == c.lines[i].lid
           && f.lines[i].currentFid == t.fid
           && |f.lines[i].machines| == |c.machines|
           && LineKey(t.fid, c.lines[i].lid) in Populate(c, s, t, d).lines
           && Populate(c, s, t, d).lines[LineKey(t.fid, c.lines[i].lid)] == f.lines[i]
    ensures forall i, j :: 0 <= i < |c.lines| && 0 <= j < |c.machines| ==>
      && MachineKey(t.fid, c.lines[i].lid, c.machines[j].mid) in Populate(c, s, t, d).machines
      && var m := Populate(c, s, t, d).machines[MachineKey(t.fid, c.lines[i].lid, c.machines[j].mid)];
      && m == Populate(c, s, t, d).facilities[t.fid].lines[i].machines[j]
      && m.mid == c.machines[j].mid && m.currentFid == t.fid && m.currentLid == c.lines[i].lid
  {
    PutLinesValues(c, s.lines, t.fid, d, s.customers, |c.lines|);
    PutLineMachinesValues(c, s.machines, t.fid, |c.lines|);
  }

  /** With run ids distinct among themselves, each line's current run is stored under its run id. */
  lemma PopulateRuns(c: Config, s: Snapshot, t: FacilityTemplate, d: FacilityDraw)
    requires CanPopulate(c, s.customers, d) && RidsDistinct(d)
    ensures forall i :: 0 <= i < |c.lines| ==>
      && d.lines[i].rid in Populate(c, s, t, d).runs
      && Populate(c, s, t, d).runs[d.lines[i].rid] == Populate(c, s, t, d).facilities[t.fid].lines[i].currentRun
  {
    PutRunsValues(c, s.runs, d, s.customers, |c.lines|);
  }

  /**
   * With entry ids distinct among themselves, each line has a calendar entry of
   * type "run" for the facility, in the line's colour, spanning its run's window.
   */
  lemma PopulateCalendar(c: Config, s: Snapshot, t: FacilityTemplate, d: FacilityDraw)
    requires CanPopulate(c, s.customers, d) && CidsDistinct(d)
    ensures forall i :: 0 <= i < |c.lines| ==>
      && d.lines[i].cid in Populate(c, s, t, d).calendar
      && var e := Populate(c, s, t, d).calendar[d.lines[i].cid];
      var r := Populate(c, s, t, d).facilities[t.fid].lines[i].currentRun;
      && e.cid == d.lines[i].cid && e.entryType == "run" && e.facilityFid == t.fid
      && e.start == r.start && e.end == r.end && e.color == c.lines[i].color
      && e.title == r.name + "(" + r.customer.name + ")"
  {
    PutCalendarValues(c, s.calendar, t.fid, d, s.customers, |c.lines|);
  }

  /** Distinct run ids give as many keys as lines. */
  lemma {:induction false} DistinctRidsCount(d: FacilityDraw, n: nat)
    requires n <= |d.lines| && RidsDistinct(d)
    ensures |RidsOf(d, n)| == n
  {
    if n > 0 {
      DistinctRidsCount(d, n - 1);
      assert RidsOf(d, n) == RidsOf(d, n - 1) + {d.lines[n - 1].rid};
      assert d.lines[n - 1].rid !in RidsOf(d, n - 1);
    }
  }

  /** Distinct calendar entry ids give as many keys as lines. */
  lemma {:induction false} DistinctCidsCount(d: FacilityDraw, n: nat)
    requires n <= |d.lines| && CidsDistinct(d)
    ensures |CidsOf(d, n)| == n
  {
    if n > 0 {
      DistinctCidsCount(d, n - 1);
      assert CidsOf(d, n) == CidsOf(d, n - 1) + {d.lines[n - 1].cid};
      assert d.lines[n - 1].cid !in CidsOf(d, n - 1);
    }
  }

  /** With fresh, distinct run and entry ids, the runs and the calendar each grow by one entry per line. */
  lemma PopulateGrowth(c: Config, s: Snapshot, t: FacilityTemplate, d: FacilityDraw)
    requires CanPopulate(c, s.customers, d)
    requires RidsDistinct(d) && forall i :: 0 <= i < |d.lines| ==> d.lines[i].rid !in s.runs
    requires CidsDistinct(d) && forall i :: 0 <= i < |d.lines| ==> d.lines[i].cid !in s.calendar
    ensures |Populate(c, s, t, d).runs| == |s.runs| + |c.lines|
    ensures |Populate(c, s, t, d).calendar| == |s.calendar| + |c.lines|
  {
    PopulateKeys(c, s, t, d);
    var n := |c.lines|;
    DistinctRidsCount(d, n);
    DistinctCidsCount(d, n);
    assert s.runs.Keys * RidsOf(d, n) == {};
    assert s.calendar.Keys * CidsOf(d, n) == {};
    assert |Populate(c, s, t, d).runs.Keys| == |s.runs.Keys| + n;
    assert |Populate(c, s, t, d).calendar.Keys| == |s.calendar.Keys| + n;
  }
}
