/** The multiplexed ADS1115 driver of firmware 4.0.0 (ads_module.cpp with the
    5.0.0 header): a fixed table from sensor id to (I2C address, channel),
    a per-entry availability flag set by `begin`, status-guarded reads, and a
    dataset read in a fixed order with a settling delay after every read. */
module AdsDriver {
  import opened CTypes
  import opened AdsIds
  import opened Ads1115

  /** `read_raw`'s answer for an unavailable entry. */
  const RawMissing: Uint16 := 65535
  /** The differential reads' answer for an unavailable entry. */
  const DifferentialMissing: Int16 := -999
  /** The settling delay `return_updated` waits after each read, in ms. */
  const SettleMs: nat := 100

  datatype Wire = Wire(addr: Uint8, channel: Int8)

  /** The address and channel the constructor assigns to each sensor
      (devices: 0x48 GND, 0x49 5V, 0x4A SDA, 0x4B SCL). */
  function Wiring(id: SensorId): Wire
  {
    match id
    case Fig1 => Wire(0x48, 3)
    case Fig2 => Wire(0x49, 2)
    case Fig3 => Wire(0x48, 0)
    case Fig3Heater => Wire(0x48, 1)
    case Fig4 => Wire(0x49, 0)
    case Fig4Heater => Wire(0x49, 1)
    case Mq => Wire(0x48, 1)
    case Pid => Wire(0x48, 2)
    case Misc2611 => Wire(0x4B, 0)
    case AsWorker => Wire(0x4B, 1)
    case AsAuxiliary => Wire(0x4A, 2)
  }

  /** The table as the constructor leaves it: every entry wired, none available. */
  function InitialTable(flags: Flags): seq<Entry>
  {
    seq(SensorCount(flags), i requires 0 <= i < SensorCount(flags) =>
      Entry(Wiring(IdAt(flags, i)).addr, Wiring(IdAt(flags, i)).channel, false))
  }

  /** Every entry of the table carries its sensor's wiring, whatever its status. */
  predicate Wired(flags: Flags, table: seq<Entry>)
  {
    && |table| == SensorCount(flags)
    && forall i :: 0 <= i < |table| ==>
         Wire(table[i].addr, table[i].channel) == Wiring(IdAt(flags, i))
  }

  /** The entry of a declared sensor. */
  function At(flags: Flags, table: seq<Entry>, id: SensorId): (e: Entry)
    requires Wired(flags, table) && Declared(flags, id)
    ensures Wire(e.addr, e.channel) == Wiring(id)
  {
    table[Index(flags, id)]
  }

  /** A table is wired as soon as every declared sensor's entry is. */
  lemma WiredById(flags: Flags, table: seq<Entry>)
    requires |table| == SensorCount(flags)
    requires forall id | Declared(flags, id) ::
               Wire(table[Index(flags, id)].addr, table[Index(flags, id)].channel) == Wiring(id)
    ensures Wired(flags, table)
  {
    forall k | 0 <= k < |table|
      ensures Wire(table[k].addr, table[k].channel) == Wiring(IdAt(flags, k))
    {
      var id := IdAt(flags, k);
      assert Wire(table[Index(flags, id)].addr, table[Index(flags, id)].channel) == Wiring(id);
    }
  }

  /** A wired table with every status cleared is the constructor's table. */
  lemma ResetTableIsInitial(flags: Flags, table: seq<Entry>, reset: seq<Entry>)
    requires Wired(flags, table) && |reset| == |table|
    requires forall k :: 0 <= k < |table| ==> reset[k] == table[k].(status := false)
    ensures reset == InitialTable(flags)
  {
  }

  /** `begin`'s first loop, on one entry: an answering device marks it available. */
  function Mark(e: Entry, responds: Uint8 -> bool): Entry
  {
    if responds(e.addr) then e.(status := true) else e
  }

  function Marked(table: seq<Entry>, responds: Uint8 -> bool): seq<Entry>
  {
    seq(|table|, i requires 0 <= i < |table| => Mark(table[i], responds))
  }

  predicate AllAvailable(table: seq<Entry>)
  {
    forall i :: 0 <= i < |table| ==> table[i].status
  }

  /** `read_raw` on an entry: the sentinel, or the sample stored as uint16_t. */
  function RawOf(e: Entry, bus: Bus): Uint16
  {
    if !e.status then RawMissing else ToUint16(bus.singleEnded(e.addr, e.channel) as int)
  }

  function AuxiliaryOf(e: Entry, bus: Bus): Int16
  {
    if !e.status then DifferentialMissing else bus.differential01(e.addr)
  }

  function WorkerOf(e: Entry, bus: Bus): Int16
  {
    if !e.status then DifferentialMissing else bus.differential23(e.addr)
  }

  /** The dataset `return_updated` assembles from a table. */
  function Updated(flags: Flags, table: seq<Entry>, bus: Bus): AdsData
    requires Wired(flags, table)
  {
    AdsData(
      RawOf(At(flags, table, Fig1), bus), RawOf(At(flags, table, Fig2), bus),
      RawOf(At(flags, table, Fig3), bus), RawOf(At(flags, table, Fig3Heater), bus),
      RawOf(At(flags, table, Fig4), bus), RawOf(At(flags, table, Fig4Heater), bus),
      if flags.mqEnabled then Some(RawOf(At(flags, table, Mq), bus)) else None,
      if flags.pidEnabled then Some(RawOf(At(flags, table, Pid), bus)) else None,
      RawOf(At(flags, table, Misc2611), bus),
      AuxiliaryOf(At(flags, table, AsAuxiliary), bus),
      WorkerOf(At(flags, table, AsWorker), bus))
  }

  /** The value a dataset holds for a sensor (0 for an absent optional field). */
  function Field(data: AdsData, id: SensorId): int
  {
    match id
    case Fig1 => data.Fig1 as int
    case Fig2 => data.Fig2 as int
    case Fig3 => data.Fig3 as int
    case Fig3Heater => data.Fig3_heater as int
    case Fig4 => data.Fig4 as int
    case Fig4Heater => data.Fig4_heater as int
    case Mq => if data.Mq.Some? then data.Mq.value as int else 0
    case Pid => if data.Pid.Some? then data.Pid.value as int else 0
    case Misc2611 => data.Misc2611 as int
    case AsAuxiliary => data.Auxiliary as int
    case AsWorker => data.Worker as int
  }

  /** One driver call made by `return_updated`, and one step of its trace. */
  datatype Call = RawRead(id: SensorId) | AuxiliaryRead | WorkerRead
  datatype Step = Read(call: Call) | Delay(ms: nat)

  /** The sensor a call reads. */
  function Target(c: Call): SensorId
  {
    match c
    case RawRead(id) => id
    case AuxiliaryRead => AsAuxiliary
    case WorkerRead => AsWorker
  }

  /** The order of the reads in `return_updated`. */
  function ReadOrder(flags: Flags): seq<Call>
  {
    [RawRead(Fig1), RawRead(Fig2), RawRead(Fig3), RawRead(Fig3Heater),
     RawRead(Fig4), RawRead(Fig4Heater)]
    + (if flags.mqEnabled then [RawRead(Mq)] else [])
    + (if flags.pidEnabled then [RawRead(Pid)] else [])
    + [RawRead(Misc2611), AuxiliaryRead, WorkerRead]
  }

  /** A call followed by the settling delay. */
  function Settle(c: Call): seq<Step>
  {
    [Read(c), Delay(SettleMs)]
  }

  /** Each call followed by one settling delay: step 2k is the k-th call,
      step 2k+1 a delay of `SettleMs`. */
  function Paced(calls: seq<Call>): seq<Step>
  {
    seq(2 * |calls|, k requires 0 <= k < 2 * |calls| =>
      if k % 2 == 0 then Read(calls[k / 2]) else Delay(SettleMs))
  }

  /** One more call adds its read and its delay at the end. */
  lemma PacedSnoc(calls: seq<Call>, c: Call)
    ensures Paced(calls + [c]) == Paced(calls) + Settle(c)
  {
    assert (calls + [c])[..|calls|] == calls;
  }

  /** The trace of `return_updated`'s reads, written out call by call. */
  function ReturnTrace(flags: Flags): seq<Step>
  {
    var figaro := Settle(RawRead(Fig1)) + Settle(RawRead(Fig2)) + Settle(RawRead(Fig3))
      + Settle(RawRead(Fig3Heater)) + Settle(RawRead(Fig4)) + Settle(RawRead(Fig4Heater));
    var withMq := if flags.mqEnabled then figaro + Settle(RawRead(Mq)) else figaro;
    var withPid := if flags.pidEnabled then withMq + Settle(RawRead(Pid)) else withMq;
    withPid + Settle(RawRead(Misc2611)) + Settle(AuxiliaryRead) + Settle(WorkerRead)
  }

  /** The written-out trace is each call of `ReadOrder` followed by its delay. */
  lemma ReturnTraceIsPaced(flags: Flags)
    ensures ReturnTrace(flags) == Paced(ReadOrder(flags))
  {
    var c1 := [RawRead(Fig1)];
    var c2 := c1 + [RawRead(Fig2)];
    var c3 := c2 + [RawRead(Fig3)];
    var c4 := c3 + [RawRead(Fig3Heater)];
    var c5 := c4 + [RawRead(Fig4)];
    var c6 := c5 + [RawRead(Fig4Heater)];
    var c7 := if flags.mqEnabled then c6 + [RawRead(Mq)] else c6;
    var c8 := if flags.pidEnabled then c7 + [RawRead(Pid)] else c7;
    var c9 := c8 + [RawRead(Misc2611)];
    var c10 := c9 + [AuxiliaryRead];
    var c11 := c10 + [WorkerRead];
    assert ReadOrder(flags) == c11;
    assert Paced(c1) == Settle(RawRead(Fig1));
    PacedSnoc(c1, RawRead(Fig2));
    PacedSnoc(c2, RawRead(Fig3));
    PacedSnoc(c3, RawRead(Fig3Heater));
    PacedSnoc(c4, RawRead(Fig4));
    PacedSnoc(c5, RawRead(Fig4Heater));
    if flags.mqEnabled {
      PacedSnoc(c6, RawRead(Mq));
    }
    if flags.pidEnabled {
      PacedSnoc(c7, RawRead(Pid));
    }
    PacedSnoc(c8, RawRead(Misc2611));
    PacedSnoc(c9, AuxiliaryRead);
    PacedSnoc(c10, WorkerRead);
  }

  /** The sensors a sequence of calls reads, in order. */
  function Targets(calls: seq<Call>): (ids: seq<SensorId>)
    ensures |ids| == |calls|
    ensures forall k :: 0 <= k < |calls| ==> ids[k] == Target(calls[k])
  {
    if calls == [] then [] else [Target(calls[0])] + Targets(calls[1..])
  }

  /** A raw read of each sensor, in order. */
  function Raws(ids: seq<SensorId>): (calls: seq<Call>)
    ensures |calls| == |ids|
    ensures forall k :: 0 <= k < |ids| ==> calls[k] == RawRead(ids[k])
  {
    if ids == [] then [] else [RawRead(ids[0])] + Raws(ids[1..])
  }

  /** `return_updated` reads the declared sensors in declaration order,
      except that AS_AUXILIARY is read before AS_WORKER. */
  lemma ReadOrderFollowsIds(flags: Flags)
    ensures ReadOrder(flags) ==
              Raws(Ids(flags)[..SensorCount(flags) - 2]) + [AuxiliaryRead, WorkerRead]
  {
    IdsAreConsecutive(flags);
  }

  /** `return_updated` reads every declared sensor exactly once. */
  lemma ReadOrderCoversIds(flags: Flags)
    ensures |ReadOrder(flags)| == SensorCount(flags)
    ensures multiset(Targets(ReadOrder(flags))) == multiset(Ids(flags))
  {
    var ids := Ids(flags);
    var n := SensorCount(flags);
    IdsEndWithAlphasense(flags);
    ReadOrderFollowsIds(flags);
    SwapLastTwo(ids[..n - 2]);
    assert ids == ids[..n - 2] + ids[n - 2..];
  }

  /** Reading the auxiliary electrode before the worker covers the same
      sensors as the declaration order, which lists the worker first. */
  lemma SwapLastTwo(front: seq<SensorId>)
    ensures multiset(Targets(Raws(front) + [AuxiliaryRead, WorkerRead]))
              == multiset(front + [AsWorker, AsAuxiliary])
  {
    var calls := Raws(front) + [AuxiliaryRead, WorkerRead];
    var t := Targets(calls);
    forall k | 0 <= k < |front|
      ensures t[k] == front[k]
    {
      assert calls[k] == Raws(front)[k];
    }
    assert t == front + [AsAuxiliary, AsWorker];
    SwappedTailSameMultiset(front, AsAuxiliary, AsWorker);
  }

  lemma SwappedTailSameMultiset(front: seq<SensorId>, x: SensorId, y: SensorId)
    ensures multiset(front + [x, y]) == multiset(front + [y, x])
  {
    calc {
      multiset(front + [x, y]);
      multiset(front) + multiset([x, y]);
      multiset(front) + multiset([y, x]);
      multiset(front + [y, x]);
    }
  }


  /** From the constructor's table, `begin` marks exactly the entries whose
      device answers, and reports success iff all four devices answer. */
  lemma {:induction false} BeginFromConstruction(flags: Flags, responds: Uint8 -> bool)
    ensures Wired(flags, Marked(InitialTable(flags), responds))
    ensures forall i :: 0 <= i < SensorCount(flags) ==>
              Marked(InitialTable(flags), responds)[i].status == responds(Wiring(IdAt(flags, i)).addr)
    ensures AllAvailable(Marked(InitialTable(flags), responds)) <==>
              responds(0x48) && responds(0x49) && responds(0x4A) && responds(0x4B)
  {
    var t := Marked(InitialTable(flags), responds);
    if AllAvailable(t) {
      assert t[Index(flags, Fig1)].status && t[Index(flags, Fig2)].status;
      assert t[Index(flags, AsAuxiliary)].status && t[Index(flags, Misc2611)].status;
    }
  }

  /** `begin` never clears a status, keeps the wiring, and a second `begin`
      against the same devices changes nothing. */
  lemma BeginMonotone(flags: Flags, table: seq<Entry>, responds: Uint8 -> bool)
    requires Wired(flags, table)
    ensures Wired(flags, Marked(table, responds))
    ensures forall i :: 0 <= i < |table| && table[i].status ==> Marked(table, responds)[i].status
    ensures Marked(Marked(table, responds), responds) == Marked(table, responds)
  {
  }

  /** Each field of the dataset is its own sensor's guarded reading: the
      sentinel when the entry is unavailable, otherwise a read of the
      entry's own device (single-ended on its own channel for the raw
      fields; the 0-1 and 2-3 differential, whatever the channel, for
      Auxiliary and Worker). */
  lemma {:induction false} UpdatedReadsOwnEntry(flags: Flags, table: seq<Entry>, bus: Bus, id: SensorId)
    requires Wired(flags, table) && Declared(flags, id)
    ensures ShapedBy(Updated(flags, table, bus), flags)
    ensures !At(flags, table, id).status ==>
              Field(Updated(flags, table, bus), id) ==
                (if id == AsAuxiliary || id == AsWorker then DifferentialMissing as int else RawMissing as int)
    ensures At(flags, table, id).status ==>
              Field(Updated(flags, table, bus), id) ==
                (if id == AsAuxiliary then bus.differential01(0x4A) as int
                 else if id == AsWorker then bus.differential23(0x4B) as int
                 else ToUint16(bus.singleEnded(Wiring(id).addr, Wiring(id).channel) as int) as int)
  {
  }

  /** With MQ enabled the MQ entry is wired like FIG3_HEATER (0x48, channel 1):
      after `begin` from construction the two entries are identical, so both
      fields are reads of the same input, with the same availability. */
  lemma MqMirrorsFig3Heater(flags: Flags, responds: Uint8 -> bool)
    requires flags.mqEnabled
    ensures Wired(flags, Marked(InitialTable(flags), responds))
    ensures At(flags, Marked(InitialTable(flags), responds), Mq) ==
              At(flags, Marked(InitialTable(flags), responds), Fig3Heater)
    ensures At(flags, Marked(InitialTable(flags), responds), Mq) == Entry(0x48, 1, responds(0x48))
  {
    BeginFromConstruction(flags, responds);
  }

  /** The raw sentinel is not out of band: an available entry whose
      single-ended sample is -1 reads exactly like an unavailable one. */
  lemma RawSentinelAmbiguous(e: Entry, bus: Bus)
    requires e.status && bus.singleEnded(e.addr, e.channel) == -1
    ensures RawOf(e, bus) == RawOf(e.(status := false), bus) == RawMissing
  {
  }

  /** The address and channel assignments of `ADS_Module()`, entry by entry
      (the enumerator values are those of `Index`). The statuses are left as
      they were; the constructor clears them afterwards. */
  method AssignWiring(flags: Flags) returns (t: seq<Entry>)
    ensures Wired(flags, t)
  {
    IndexValues(flags);
    var m := Bit(flags.mqEnabled);
    var p := Bit(flags.pidEnabled);
    // the contents before the assignments are overwritten below
    t := seq(9 + m + p, _ => Entry(0, 0, false));
    t := t[0 := t[0].(addr := 0x48, channel := 3)];          // FIG1
    t := t[1 := t[1].(addr := 0x49, channel := 2)];          // FIG2
    t := t[2 := t[2].(addr := 0x48, channel := 0)];          // FIG3
    t := t[3 := t[3].(addr := 0x48, channel := 1)];          // FIG3_HEATER
    t := t[4 := t[4].(addr := 0x49, channel := 0)];          // FIG4
    t := t[5 := t[5].(addr := 0x49, channel := 1)];          // FIG4_HEATER
    if flags.mqEnabled {
      t := t[6 := t[6].(addr := 0x48, channel := 1)];        // MQ
    }
    if flags.pidEnabled {
      t := t[6 + m := t[6 + m].(addr := 0x48, channel := 2)];  // PID
    }
    t := t[6 + m + p := t[6 + m + p].(addr := 0x4B, channel := 0)];  // MISC2611
    t := t[7 + m + p := t[7 + m + p].(addr := 0x4B, channel := 1)];  // AS_WORKER
    t := t[8 + m + p := t[8 + m + p].(addr := 0x4A, channel := 2)];  // AS_AUXILIARY
  }

  /** `ADS_Module`: one entry per declared sensor, indexed by its id. */
  class AdsModule {
    const flags: Flags
    /** `ads_module[ADS_SENSOR_COUNT]` */
    var entries: seq<Entry>

    ghost predicate Valid()
      reads this
    {
      Wired(flags, entries)
    }

    /** `ADS_Module()`: assigns every entry's address and channel, then
        clears every status. */
    constructor (flags: Flags)
      ensures Valid() && this.flags == flags
      ensures entries == InitialTable(flags)
    {
      this.flags := flags;
      var t := AssignWiring(flags);
      ghost var wired := t;
      for i := 0 to |t|
        invariant |t| == |wired|
        invariant forall k :: 0 <= k < i ==> t[k] == wired[k].(status := false)
        invariant forall k :: i <= k < |t| ==> t[k] == wired[k]
      {
        t := t[i := t[i].(status := false)];
      }
      ResetTableIsInitial(flags, wired, t);
      entries := t;
    }

    /** `begin`: marks each entry whose device answers, then reports whether
        every entry is available. */
    method Begin(bus: Bus) returns (ok: bool)
      requires Valid()
      modifies this
      ensures Valid()
      ensures entries == Marked(old(entries), bus.responds)
      ensures ok == AllAvailable(entries)
    {
      for i := 0 to |entries|
        invariant |entries| == |old(entries)|
        invariant forall k :: 0 <= k < i ==> entries[k] == Mark(old(entries[k]), bus.responds)
        invariant forall k :: i <= k < |entries| ==> entries[k] == old(entries[k])
      {
        if bus.responds(entries[i].addr) {
          entries := entries[i := entries[i].(status := true)];
        }
      }
      assert entries == Marked(old(entries), bus.responds);
      for i := 0 to |entries|
        invariant forall k :: 0 <= k < i ==> entries[k].status
      {
        if !entries[i].status {
          return false;
        }
      }
      return true;
    }

    /** `read_raw`: 65535 for an unavailable entry, otherwise the entry's own
        single-ended sample stored as uint16_t. */
    method ReadRaw(bus: Bus, id: SensorId) returns (r: Uint16)
      requires Valid() && Declared(flags, id)
      ensures r == RawOf(At(flags, entries, id), bus)
      ensures !entries[Index(flags, id)].status ==> r == RawMissing
      ensures entries[Index(flags, id)].status ==>
                r == ToUint16(bus.singleEnded(Wiring(id).addr, Wiring(id).channel) as int)
    {
      var sensor := entries[Index(flags, id)];
      if !sensor.status {
        return RawMissing;
      }
      return ToUint16(bus.singleEnded(sensor.addr, sensor.channel) as int);
    }

    /** `read_as_auxiliary`: -999 when AS_AUXILIARY is unavailable, otherwise
        the 0-1 differential of its device 0x4A. */
    method ReadAsAuxiliary(bus: Bus) returns (r: Int16)
      requires Valid()
      ensures r == AuxiliaryOf(At(flags, entries, AsAuxiliary), bus)
      ensures !entries[Index(flags, AsAuxiliary)].status ==> r == DifferentialMissing
      ensures entries[Index(flags, AsAuxiliary)].status ==> r == bus.differential01(0x4A)

    {
      var sensor := entries[Index(flags, AsAuxiliary)];
      if !sensor.status {
        return DifferentialMissing;
      }
      return bus.differential01(sensor.addr);
    }

    /** `read_as_worker`: -999 when AS_WORKER is unavailable, otherwise the
        2-3 differential of its device 0x4B. */
    method ReadAsWorker(bus: Bus) returns (r: Int16)
      requires Valid()
      ensures r == WorkerOf(At(flags, entries, AsWorker), bus)
      ensures !entries[Index(flags, AsWorker)].status ==> r == DifferentialMissing
      ensures entries[Index(flags, AsWorker)].status ==> r == bus.differential23(0x4B)

    {
      var sensor := entries[Index(flags, AsWorker)];
      if !sensor.status {
        return DifferentialMissing;
      }
      return bus.differential23(sensor.addr);
    }

    /** `return_updated`: every sensor read once in the fixed order, each read
        followed by a 100 ms delay. */
    method ReturnUpdated(bus: Bus) returns (data: AdsData, steps: seq<Step>)
      requires Valid()
      ensures data == Updated(flags, entries, bus)
      ensures steps == ReturnTrace(flags)
    {
      var fig1 := ReadRaw(bus, Fig1);
      steps := Settle(RawRead(Fig1));
      var fig2 := ReadRaw(bus, Fig2);
      steps := steps + Settle(RawRead(Fig2));
      var fig3 := ReadRaw(bus, Fig3);
      steps := steps + Settle(RawRead(Fig3));
      var fig3Heater := ReadRaw(bus, Fig3Heater);
      steps := steps + Settle(RawRead(Fig3Heater));
      var fig4 := ReadRaw(bus, Fig4);
      steps := steps + Settle(RawRead(Fig4));
      var fig4Heater := ReadRaw(bus, Fig4Heater);
      steps := steps + Settle(RawRead(Fig4Heater));
      var mq: Option<Uint16> := None;
      if flags.mqEnabled {
        var v := ReadRaw(bus, Mq);
        mq := Some(v);
        steps := steps + Settle(RawRead(Mq));
      }
      var pid: Option<Uint16> := None;
      if flags.pidEnabled {
        var v := ReadRaw(bus, Pid);
        pid := Some(v);
        steps := steps + Settle(RawRead(Pid));
      }
      var misc := ReadRaw(bus, Misc2611);
      steps := steps + Settle(RawRead(Misc2611));
      var auxiliary := ReadAsAuxiliary(bus);
      steps := steps + Settle(AuxiliaryRead);
      var worker := ReadAsWorker(bus);
      steps := steps + Settle(WorkerRead);
      data := AdsData(fig1, fig2, fig3, fig3Heater, fig4, fig4Heater, mq, pid, misc, auxiliary, worker);
    }
  }
}
