/**
 * The entities kept in the data grid, as values, and a snapshot of the six
 * string-keyed maps that make up the store.
 */
module Entities {

  datatype Customer = Customer(name: string, password: string)

  /** A machine on a line; its telemetry channels are not part of this model. */
  datatype Machine = Machine(
    name: string,
    mid: string,
    status: string,
    desc: string,
    machineType: string,
    currentFid: string,
    currentLid: string)

  /** A production run; `start` and `end` are milliseconds since the epoch. */
  datatype Run = Run(
    rid: string,
    name: string,
    customer: Customer,
    desc: string,
    status: string,
    start: int,
    end: int)

  datatype Line = Line(
    name: string,
    lid: string,
    desc: string,
    status: string,
    currentFid: string,
    machines: seq<Machine>,
    currentRun: Run)

  /** A facility; its fixed location is not part of this model. */
  datatype Facility = Facility(
    name: string,
    fid: string,
    capacity: int,
    address: string,
    utilization: real,
    lines: seq<Line>)

  /** A calendar entry; of the facility it refers to only the id is kept. */
  datatype CalEntry = CalEntry(
    cid: string,
    title: string,
    start: int,
    end: int,
    facilityFid: string,
    color: string,
    entryType: string)

  /** The six maps of the store at one moment. */
  datatype Snapshot = Snapshot(
    customers: map<string, Customer>,
    facilities: map<string, Facility>,
    lines: map<string, Line>,
    machines: map<string, Machine>,
    runs: map<string, Run>,
    calendar: map<string, CalEntry>)

  const EmptyStore := Snapshot(map[], map[], map[], map[], map[], map[])
}
