/**
 * The dashboard summaries: one tile per kind of entity, with how many are
 * stored and, where an entity has a state, how many of them are in warning
 * and how many in error. Statuses are compared the way Java's
 * `String.equalsIgnoreCase` compares them, restricted to ASCII letters.
 */
module Summaries {
  import opened Tables
  import opened Entities
  import opened Draws
  import opened Seeding
  import opened Reset

  /** One tile of the dashboard. */
  datatype Summary = Summary(name: string, title: string, count: int, warningCount: int, errorCount: int)

  // ---------------------------------------------------------------------------
  // Case-insensitive comparison

  function ToUpper(ch: char): char
  {
    if 'a' <= ch <= 'z' then (ch as int - 32) as char else ch
  }

  function ToLower(ch: char): char
  {
    if 'A' <= ch <= 'Z' then (ch as int + 32) as char else ch
  }

  /** Two characters match ignoring case: equal, equal once upper-cased, or equal once upper-cased and then lower-cased. */
  predicate CharsEqualIgnoreCase(a: char, b: char)
  {
    a == b || ToUpper(a) == ToUpper(b) || ToLower(ToUpper(a)) == ToLower(ToUpper(b))
  }

  /** Two strings match ignoring case: same length, and every pair of characters at the same place matches. */
  predicate EqualsIgnoreCase(a: string, b: string)
  {
    |a| == |b| && forall i :: 0 <= i < |a| ==> CharsEqualIgnoreCase(a[i], b[i])
  }

  /** The string with every ASCII capital replaced by its small letter. */
  function LowerAll(s: string): (r: string)
    ensures |r| == |s| && forall i :: 0 <= i < |s| ==> r[i] == ToLower(s[i])
  {
    if s == [] then [] else LowerAll(s[..|s| - 1]) + [ToLower(s[|s| - 1])]
  }

  lemma CharsEqualIgnoreCaseIff(a: char, b: char)
    ensures CharsEqualIgnoreCase(a, b) <==> ToLower(a) == ToLower(b)
  {
  }

  /** Matching ignoring case is having the same lower-case form. */
  lemma EqualsIgnoreCaseIff(a: string, b: string)
    ensures EqualsIgnoreCase(a, b) <==> LowerAll(a) == LowerAll(b)
  {
    if EqualsIgnoreCase(a, b) {
      forall i | 0 <= i < |a|
        ensures LowerAll(a)[i] == LowerAll(b)[i]
      {
        CharsEqualIgnoreCaseIff(a[i], b[i]);
      }
    }
    if LowerAll(a) == LowerAll(b) {
      forall i | 0 <= i < |a|
        ensures CharsEqualIgnoreCase(a[i], b[i])
      {
        assert LowerAll(a)[i] == LowerAll(b)[i];
        CharsEqualIgnoreCaseIff(a[i], b[i]);
      }
    }
  }

  /** A status of "ok" is neither a warning nor an error, and no status is both. */
  lemma StatusBucketsDistinct(st: string)
    ensures !EqualsIgnoreCase("ok", "warning") && !EqualsIgnoreCase("ok", "error")
    ensures !(EqualsIgnoreCase(st, "warning") && EqualsIgnoreCase(st, "error"))
  {
  }

  // ---------------------------------------------------------------------------
  // The buckets

  /** The status of every run, by run id. */
  function RunStatuses(runs: map<string, Run>): (r: map<string, string>)
    ensures r.Keys == runs.Keys
  {
    map k | k in runs :: runs[k].status
  }

  /** The status of every machine, by machine key. */
  function MachineStatuses(machines: map<string, Machine>): (r: map<string, string>)
    ensures r.Keys == machines.Keys
  {
    map k | k in machines :: machines[k].status
  }

  /** The keys whose status matches `st` ignoring case, as the runs and machines tiles filter them. */
  function WithStatus(statuses: map<string, string>, st: string): (r: set<string>)
    ensures r <= statuses.Keys
  {
    set k | k in statuses && EqualsIgnoreCase(statuses[k], st)
  }

  /** A key is in the bucket exactly when its status has the same lower-case form as the bucket name. */
  lemma WithStatusLowerCase(statuses: map<string, string>, st: string)
    ensures forall k :: k in statuses ==> (k in WithStatus(statuses, st) <==> LowerAll(statuses[k]) == LowerAll(st))
  {
    forall k | k in statuses
      ensures k in WithStatus(statuses, st) <==> LowerAll(statuses[k]) == LowerAll(st)
    {
      EqualsIgnoreCaseIff(statuses[k], st);
    }
  }

  /** No key is in both the warning bucket and the error bucket. */
  lemma StatusBucketsDisjoint(statuses: map<string, string>)
    ensures WithStatus(statuses, "warning") * WithStatus(statuses, "error") == {}
  {
    WithStatusLowerCase(statuses, "warning");
    WithStatusLowerCase(statuses, "error");
    forall k | k in statuses
      ensures !(k in WithStatus(statuses, "warning") && k in WithStatus(statuses, "error"))
    {
      assert LowerAll("warning") != LowerAll("error");
    }
  }

  /** The facilities in warning: utilization strictly between 0.5 and 0.7. */
  function FacilitiesInWarning(fs: map<string, Facility>): (r: set<string>)
    ensures r <= fs.Keys
    ensures forall k :: k in fs ==> (k in r <==> 0.5 < fs[k].utilization < 0.7)
  {
    set k | k in fs && 0.5 < fs[k].utilization < 0.7
  }

  /** The facilities in error: utilization below 0.5. */
  function FacilitiesInError(fs: map<string, Facility>): (r: set<string>)
    ensures r <= fs.Keys
    ensures forall k :: k in fs ==> (k in r <==> fs[k].utilization < 0.5)
  {
    set k | k in fs && fs[k].utilization < 0.5
  }

  /**
   * The two utilization bands never overlap, and a facility is in neither
   * exactly when it runs at 70% or more, or at exactly 50%, which neither
   * comparison catches.
   */
  lemma FacilityBands(fs: map<string, Facility>)
    ensures FacilitiesInWarning(fs) * FacilitiesInError(fs) == {}
    ensures forall k :: k in fs ==>
      (k !in FacilitiesInWarning(fs) && k !in FacilitiesInError(fs) <==> fs[k].utilization == 0.5 || fs[k].utilization >= 0.7)
  {
  }

  /** Two disjoint parts of a set together are no larger than the set. */
  lemma DisjointPartsBound(all: set<string>, a: set<string>, b: set<string>)
    requires a <= all && b <= all && a * b == {}
    ensures |a| + |b| <= |all|
  {
    var rest := all - (a + b);
    assert all == (a + b) + rest;
    assert (a + b) * rest == {};
  }

  // ---------------------------------------------------------------------------
  // The tiles

  /** The clients tile: how many customers are stored. */
  function ClientSummary(customers: map<string, Customer>): (r: Summary)
    ensures r.name == "clients" && r.count == |customers|
    ensures r.warningCount == 0 && r.errorCount == 0
  {
    Summary("clients", "Clients", |customers|, 0, 0)
  }

  /** A tile over the runs map; the runs tile and the lines tile are both this, under their own names. */
  function RunsTile(name: string, title: string, runs: map<string, Run>): (r: Summary)
    ensures r.name == name && r.title == title && r.count == |runs|
    ensures r.warningCount == |WithStatus(RunStatuses(runs), "warning")| && r.errorCount == |WithStatus(RunStatuses(runs), "error")|
    ensures 0 <= r.warningCount && 0 <= r.errorCount && r.warningCount + r.errorCount <= r.count
  {
    var w := WithStatus(RunStatuses(runs), "warning");
    var e := WithStatus(RunStatuses(runs), "error");
    StatusBucketsDisjoint(RunStatuses(runs));
    DisjointPartsBound(runs.Keys, w, e);
    Summary(name, title, |runs|, |w|, |e|)
  }

  /** The runs tile. */
  function RunsSummary(runs: map<string, Run>): Summary
  {
    RunsTile("runs", "Runs", runs)
  }

  /** The lines tile: it counts runs, not lines. */
  function LinesSummary(runs: map<string, Run>): Summary
  {
    RunsTile("lines", "Lines", runs)
  }

  /** The facilities tile: warning and error are utilization bands. */
  function FacilitySummary(fs: map<string, Facility>): (r: Summary)
    ensures r.name == "facilities" && r.count == |fs|
    ensures r.warningCount == |FacilitiesInWarning(fs)| && r.errorCount == |FacilitiesInError(fs)|
    ensures 0 <= r.warningCount && 0 <= r.errorCount && r.warningCount + r.errorCount <= r.count
  {
    var w := FacilitiesInWarning(fs);
    var e := FacilitiesInError(fs);
    FacilityBands(fs);
    DisjointPartsBound(fs.Keys, w, e);
    Summary("facilities", "Facilities", |fs|, |w|, |e|)
  }

  /** The machines tile: it is labelled "runs"/"Runs", like the runs tile. */
  function MachinesSummary(machines: map<string, Machine>): (r: Summary)
    ensures r.name == "runs" && r.title == "Runs" && r.count == |machines|
    ensures r.warningCount == |WithStatus(MachineStatuses(machines), "warning")| && r.errorCount == |WithStatus(MachineStatuses(machines), "error")|
    ensures 0 <= r.warningCount && 0 <= r.errorCount && r.warningCount + r.errorCount <= r.count
  {
    var w := WithStatus(MachineStatuses(machines), "warning");
    var e := WithStatus(MachineStatuses(machines), "error");
    StatusBucketsDisjoint(MachineStatuses(machines));
    DisjointPartsBound(machines.Keys, w, e);
    Summary("runs", "Runs", |machines|, |w|, |e|)
  }

  /** The fixed operators tile. */
  const OperatorsSummary := Summary("operators", "Operators", 23, 4, 1)

  /** All tiles, in the order the dashboard receives them. */
  function Summaries(s: Snapshot): (r: seq<Summary>)
    ensures |r| == 6
    ensures r[0].count == |s.customers| && r[1].count == |s.runs| && r[2].count == |s.runs|
    ensures r[3].count == |s.facilities| && r[4].count == |s.machines| && r[5] == OperatorsSummary
    ensures forall i :: 0 <= i < 5 ==> 0 <= r[i].warningCount && 0 <= r[i].errorCount && r[i].warningCount + r[i].errorCount <= r[i].count
  {
    [ClientSummary(s.customers), RunsSummary(s.runs), LinesSummary(s.runs),
     FacilitySummary(s.facilities), MachinesSummary(s.machines), OperatorsSummary]
  }

  /** The lines tile repeats the runs tile under another name, and the machines tile carries the runs tile's name. */
  lemma TileLabels(s: Snapshot)
    ensures Summaries(s)[2] == Summaries(s)[1].(name := "lines", title := "Lines")
    ensures Summaries(s)[4].name == Summaries(s)[1].name == "runs"
    ensures [Summaries(s)[0].name, Summaries(s)[3].name, Summaries(s)[5].name] == ["clients", "facilities", "operators"]
  {
  }

  // ---------------------------------------------------------------------------
  // A generated store shows no warning and no error

  /** Every run and machine has status "ok" and every facility runs at 90% utilization or more. */
  ghost predicate AllNominal(s: Snapshot)
  {
    && (forall k :: k in s.runs ==> s.runs[k].status == "ok")
    && (forall k :: k in s.machines ==> s.machines[k].status == "ok")
    && (forall k :: k in s.facilities ==> s.facilities[k].utilization >= 0.9)
  }

  /** In a store where everything is nominal, no tile but the fixed operators tile reports a warning or an error. */
  lemma NominalSummaries(s: Snapshot)
    requires AllNominal(s)
    ensures forall i :: 0 <= i < 5 ==> Summaries(s)[i].warningCount == 0 && Summaries(s)[i].errorCount == 0
  {
    var r := Summaries(s);
    assert WithStatus(RunStatuses(s.runs), "warning") == {} && WithStatus(RunStatuses(s.runs), "error") == {};
    assert r[1] == RunsSummary(s.runs) && r[2] == LinesSummary(s.runs);
    assert WithStatus(MachineStatuses(s.machines), "warning") == {} && WithStatus(MachineStatuses(s.machines), "error") == {};
    assert r[4] == MachinesSummary(s.machines);
    assert FacilitiesInWarning(s.facilities) == {} && FacilitiesInError(s.facilities) == {};
    assert r[3] == FacilitySummary(s.facilities);
  }

  lemma {:induction false} PutMachinesNominal(c: Config, m: map<string, Machine>, fid: string, lid: string, n: nat)
    requires n <= |c.machines| && forall k :: k in m ==> m[k].status == "ok"
    ensures forall k :: k in PutMachines(c, m, fid, lid, n) ==> PutMachines(c, m, fid, lid, n)[k].status == "ok"
  {
    if n > 0 {
      PutMachinesNominal(c, m, fid, lid, n - 1);
    }
  }

  lemma {:induction false} PutLineMachinesNominal(c: Config, m: map<string, Machine>, fid: string, n: nat)
    requires n <= |c.lines| && forall k :: k in m ==> m[k].status == "ok"
    ensures forall k :: k in PutLineMachines(c, m, fid, n) ==> PutLineMachines(c, m, fid, n)[k].status == "ok"
  {
    if n > 0 {
      PutLineMachinesNominal(c, m, fid, n - 1);
      PutMachinesNominal(c, PutLineMachines(c, m, fid, n - 1), fid, c.lines[n - 1].lid, |c.machines|);
    }
  }

  lemma {:induction false} PutRunsNominal(c: Config, m: map<string, Run>, d: FacilityDraw, customers: map<string, Customer>, n: nat)
    requires ValidConfig(c) && CustomersSeeded(c, customers) && WellFormedDraw(c, d) && n <= |c.lines|
    requires forall k :: k in m ==> m[k].status == "ok"
    ensures forall k :: k in PutRuns(c, m, d, customers, n) ==> PutRuns(c, m, d, customers, n)[k].status == "ok"
  {
    if n > 0 {
      PutRunsNominal(c, m, d, customers, n - 1);
    }
  }

  /** Generating a facility keeps everything nominal. */
  lemma PopulateNominal(c: Config, s: Snapshot, t: FacilityTemplate, d: FacilityDraw)
    requires CanPopulate(c, s.customers, d) && AllNominal(s)
    ensures AllNominal(Populate(c, s, t, d))
  {
    PutLineMachinesNominal(c, s.machines, t.fid, |c.lines|);
    PutRunsNominal(c, s.runs, d, s.customers, |c.lines|);
  }

  lemma {:induction false} PopulateAllNominal(c: Config, s: Snapshot, ds: seq<FacilityDraw>, n: nat)
    requires ValidConfig(c) && CustomersSeeded(c, s.customers) && WellFormedDraws(c, ds) && n <= |c.facilities|
    requires AllNominal(s)
    ensures AllNominal(PopulateAll(c, s, ds, n))
  {
    if n > 0 {
      PopulateAllNominal(c, s, ds, n - 1);
      PopulateNominal(c, PopulateAll(c, s, ds, n - 1), c.facilities[n - 1], ds[n - 1]);
    }
  }

  lemma {:induction false} RepopulateNominal(c: Config, s: Snapshot, fid: string, ds: seq<FacilityDraw>, n: nat)
    requires ValidConfig(c) && CustomersSeeded(c, s.customers) && WellFormedDraws(c, ds) && n <= |c.facilities|
    requires AllNominal(s)
    ensures AllNominal(RepopulateMatching(c, s, fid, ds, n))
  {
    if n > 0 {
      RepopulateNominal(c, s, fid, ds, n - 1);
      if c.facilities[n - 1].fid == fid {
        PopulateNominal(c, RepopulateMatching(c, s, fid, ds, n - 1), c.facilities[n - 1], ds[n - 1]);
      }
    }
  }

  /** Right after resetting everything, the only warnings and errors on the dashboard are the operators tile's. */
  lemma ResetAllSummaries(c: Config, ds: seq<FacilityDraw>)
    requires ValidConfig(c) && WellFormedDraws(c, ds)
    ensures forall i :: 0 <= i < 5 ==>
      Summaries(ResetAllSpec(c, ds))[i].warningCount == 0 && Summaries(ResetAllSpec(c, ds))[i].errorCount == 0
  {
    PopulateAllNominal(c, Seeded(c), ds, |c.facilities|);
    NominalSummaries(ResetAllSpec(c, ds));
  }

  /** Resetting one facility of a nominal store keeps it nominal, so its tiles stay free of warnings and errors. */
  lemma ResetFacilitySummaries(c: Config, s: Snapshot, fid: string, ds: seq<FacilityDraw>)
    requires ValidConfig(c) && WellFormedDraws(c, ds) && Inv(c, s) && AllNominal(s)
    ensures AllNominal(ResetFacilitySpec(c, s, fid, ds))
    ensures forall i :: 0 <= i < 5 ==>
      Summaries(ResetFacilitySpec(c, s, fid, ds))[i].warningCount == 0 && Summaries(ResetFacilitySpec(c, s, fid, ds))[i].errorCount == 0
  {
    if fid in s.facilities {
      ClearedEffects(c, s, fid);
      RepopulateNominal(c, Cleared(s, fid), fid, ds, |c.facilities|);
    }
    NominalSummaries(ResetFacilitySpec(c, s, fid, ds));
  }

  /**
   * Right after resetting everything, the clients tile counts one client per
   * company (the company names being distinct) and shows no warning or error.
   */
  lemma ClientsTileAfterResetAll(c: Config, ds: seq<FacilityDraw>)
    requires ValidConfig(c) && WellFormedDraws(c, ds)
    requires forall i, j :: 0 <= i < j < |c.companies| ==> c.companies[i] != c.companies[j]
    ensures Summaries(ResetAllSpec(c, ds))[0] == Summary("clients", "Clients", |c.companies|, 0, 0)
  {
    ResetAllCustomers(c, ds);
    DistinctElementsCount(c.companies, |c.companies|);
  }

  /**
   * With the demo tables, right after resetting everything the dashboard shows
   * seventeen clients and four facilities, and no warning or error outside the
   * operators tile.
   */
  lemma ResetAllDemoSummaries(ds: seq<FacilityDraw>)
    requires WellFormedDraws(Demo, ds)
    ensures ValidConfig(Demo)
    ensures Summaries(ResetAllSpec(Demo, ds))[0].count == 17
    ensures Summaries(ResetAllSpec(Demo, ds))[3].count == 4
    ensures forall i :: 0 <= i < 5 ==>
      Summaries(ResetAllSpec(Demo, ds))[i].warningCount == 0 && Summaries(ResetAllSpec(Demo, ds))[i].errorCount == 0
  {
    ResetAllDemo(ds);
    ResetAllSummaries(Demo, ds);
    DemoFacilityCount();
  }
}
