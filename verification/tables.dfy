/**
 * The fixed demo-data tables of the utilities endpoint: the customer names,
 * the four facility templates, the eight line and eight machine templates
 * every facility is built from, and the pool of run names.
 */
module Tables {

  /** Milliseconds in one hour. */
  const MsInHour: int := 60 * 60 * 1000

  /** A row of the facility table: display name and facility id. */
  datatype FacilityTemplate = FacilityTemplate(name: string, fid: string)

  /** A row of the line table: display name, line id and calendar colour. */
  datatype LineTemplate = LineTemplate(name: string, lid: string, color: string)

  /** A row of the machine table: display name, machine id and machine type. */
  datatype MachineTemplate = MachineTemplate(name: string, mid: string, machineType: string)

  const Companies: seq<string> := [
    "Wonka Industries",
    "Acme Corp",
    "Stark Industries",
    "Ollivander's Wand Shop",
    "Gekko & Co",
    "Wayne Enterprises",
    "Cyberdyne Systems",
    "Cheers",
    "Genco Pura",
    "NY Enquirer",
    "Duff Beer",
    "Bubba Gump Shrimp Co",
    "Olivia Pope & Associates",
    "Sterling Cooper",
    "Soylent",
    "Hooli",
    "Good Burger"
  ]

  const FacilityTemplates: seq<FacilityTemplate> := [
    FacilityTemplate("Atlanta", "facility-1"),
    FacilityTemplate("Singapore", "facility-2"),
    FacilityTemplate("Frankfurt", "facility-3"),
    FacilityTemplate("Raleigh", "facility-4")
  ]

  const LineTemplates: seq<LineTemplate> := [
    LineTemplate("Line 1", "line-1", "#9ecf99"),
    LineTemplate("Line 2", "line-2", "#9ecf99"),
    LineTemplate("Line 3", "line-3", "#9ecf99"),
    LineTemplate("Line 4", "line-4", "#9ecf99"),
    LineTemplate("Line 5", "line-5", "#9ecf99"),
    LineTemplate("Line 6", "line-6", "#9ecf99"),
    LineTemplate("Line 7", "line-7", "#9ecf99"),
    LineTemplate("Line 8", "line-8", "#9ecf99")
  ]

  const MachineTemplates: seq<MachineTemplate> := [
    MachineTemplate("Caster", "machine-1", "caster"),
    MachineTemplate("Chiller", "machine-2", "chiller"),
    MachineTemplate("Weighting", "machine-3", "scale"),
    MachineTemplate("Spin Test", "machine-4", "spinner"),
    MachineTemplate("Caster", "machine-5", "caster"),
    MachineTemplate("Chiller", "machine-6", "chiller"),
    MachineTemplate("Weighting", "machine-7", "scale"),
    MachineTemplate("Spin Test", "machine-8", "spinner")
  ]

  const RunNames: seq<string> := ["500-FS", "240-DS", "10000-TP"]

  /** The tables the generator reads, gathered in one value. */
  datatype Config = Config(
    companies: seq<string>,
    facilities: seq<FacilityTemplate>,
    lines: seq<LineTemplate>,
    machines: seq<MachineTemplate>,
    runNames: seq<string>)

  /** The demo tables of the endpoint. */
  const Demo: Config := Config(Companies, FacilityTemplates, LineTemplates, MachineTemplates, RunNames)

  /** The ids a generated machine can carry. */
  function MachineIds(c: Config): set<string>
  {
    set j | 0 <= j < |c.machines| :: c.machines[j].mid
  }

  /**
   * What the generator and the reset rely on in the tables: something to pick
   * from, facility ids, line ids and machine ids that are distinct, and line
   * and machine ids without a slash; machine ids moreover do not start with a
   * space.
   */
  ghost predicate ValidConfig(c: Config)
  {
    && |c.companies| > 0
    && |c.runNames| > 0
    && (forall i, j :: 0 <= i < j < |c.facilities| ==> c.facilities[i].fid != c.facilities[j].fid)
    && (forall i, j :: 0 <= i < j < |c.lines| ==> c.lines[i].lid != c.lines[j].lid)
    && (forall i :: 0 <= i < |c.lines| ==> '/' !in c.lines[i].lid)
    && (forall i, j :: 0 <= i < j < |c.machines| ==> c.machines[i].mid != c.machines[j].mid)
    && (forall j :: 0 <= j < |c.machines| ==> '/' !in c.machines[j].mid)
    && (forall j :: 0 <= j < |c.machines| ==> |c.machines[j].mid| > 0 && c.machines[j].mid[0] != ' ')
  }

  /** The demo tables meet what the generator and the reset rely on. */
  lemma DemoValid()
    ensures ValidConfig(Demo)
  {
    FacilityIdsDistinct();
    LineIdsPlain();
    MachineIdsPlain();
  }

  lemma FacilityIdsDistinct()
    ensures forall i, j :: 0 <= i < j < |FacilityTemplates| ==> FacilityTemplates[i].fid != FacilityTemplates[j].fid
  {
  }

  lemma LineIdsPlain()
    ensures forall i, j :: 0 <= i < j < |LineTemplates| ==> LineTemplates[i].lid != LineTemplates[j].lid
    ensures forall i :: 0 <= i < |LineTemplates| ==> '/' !in LineTemplates[i].lid
  {
  }

  lemma MachineIdsPlain()
    ensures forall i, j :: 0 <= i < j < |MachineTemplates| ==> MachineTemplates[i].mid != MachineTemplates[j].mid
    ensures forall j :: 0 <= j < |MachineTemplates| ==> '/' !in MachineTemplates[j].mid
    ensures forall j :: 0 <= j < |MachineTemplates| ==> |MachineTemplates[j].mid| > 0 && MachineTemplates[j].mid[0] != ' '
  {
  }

  /** No company name occurs twice in the demo tables. */
  lemma CompaniesDistinct()
    ensures forall i, j :: 0 <= i < j < |Companies| ==> Companies[i] != Companies[j]
  {
  }
}
