/** The ADS1115 driver of the firmware's V4 line (V4/xpod_V4.0.0/ads_module.cpp):
    FIG2600/FIG2602 Figaro sensors, optional FIG3 and FIG4 pairs, PID, E2V and
    one CO entry read differentially; besides raw reads it renders all
    readings as comma-separated text for the SD card and the serial monitor.
    The header that declares its identifiers is not part of this model; the
    table is taken to hold the enabled sensors in the order the constructor
    assigns them. */
module AdsDriverV4 {
  import opened CTypes
  import opened Ads1115
  import opened CommaText
  import AdsIds
  import AdsDriver

  type Entry = AdsIds.Entry
  type Wire = AdsDriver.Wire

  /** The identifiers the driver uses. */
  datatype SensorId =
    | Fig2600 | Fig2602 | Fig3 | Fig3Heater | Fig4 | Fig4Heater | Pid | E2v | Co

  /** FIGARO3_ENABLED and FIGARO4_ENABLED. */
  datatype Flags = Flags(fig3Enabled: bool, fig4Enabled: bool)

  predicate Declared(flags: Flags, id: SensorId)
  {
    match id
    case Fig3 | Fig3Heater => flags.fig3Enabled
    case Fig4 | Fig4Heater => flags.fig4Enabled
    case _ => true
  }

  /** The number of entries: the sensors the constructor assigns. */
  function SensorCount(flags: Flags): nat
  {
    5 + 2 * AdsIds.Bit(flags.fig3Enabled) + 2 * AdsIds.Bit(flags.fig4Enabled)
  }

  /** The entry of each enabled sensor, in the constructor's order. */
  function Index(flags: Flags, id: SensorId): (k: nat)
    requires Declared(flags, id)
    ensures k < SensorCount(flags)
  {
    var f3 := 2 * AdsIds.Bit(flags.fig3Enabled);
    var f4 := 2 * AdsIds.Bit(flags.fig4Enabled);
    match id
    case Fig2600 => 0
    case Fig2602 => 1
    case Fig3 => 2
    case Fig3Heater => 3
    case Fig4 => 2 + f3
    case Fig4Heater => 3 + f3
    case Pid => 2 + f3 + f4
    case E2v => 3 + f3 + f4
    case Co => 4 + f3 + f4
  }

  /** The sensor whose entry is k. */
  function IdAt(flags: Flags, k: nat): (id: SensorId)
    requires k < SensorCount(flags)
    ensures Declared(flags, id) && Index(flags, id) == k
  {
    var f3 := 2 * AdsIds.Bit(flags.fig3Enabled);
    var f4 := 2 * AdsIds.Bit(flags.fig4Enabled);
    if k == 0 then Fig2600
    else if k == 1 then Fig2602
    else if k == 2 && flags.fig3Enabled then Fig3
    else if k == 3 && flags.fig3Enabled then Fig3Heater
    else if k == 2 + f3 && flags.fig4Enabled then Fig4
    else if k == 3 + f3 && flags.fig4Enabled then Fig4Heater
    else if k == 2 + f3 + f4 then Pid
    else if k == 3 + f3 + f4 then E2v
    else Co
  }

  /** Numbering an enabled sensor and looking the entry up gives the sensor
      back: no two enabled sensors share an entry. */
  lemma IdAtIndex(flags: Flags, id: SensorId)
    requires Declared(flags, id)
    ensures IdAt(flags, Index(flags, id)) == id
    ensures forall other :: Declared(flags, other) && Index(flags, other) == Index(flags, id) ==> other == id
  {
  }

  /** `read_raw`'s answer for an unavailable entry: -999 stored as uint16_t. */
  const RawMissing: Uint16 := 64537
  /** The CO reads' answer for an unavailable entry. */
  const CoMissing: int := -999

  /** The address and channel the constructor assigns; CO's channel -1 is a
      placeholder that no read uses. */
  function Wiring(id: SensorId): Wire
  {
    match id
    case Fig2600 => AdsDriver.Wire(0x48, 3)
    case Fig2602 => AdsDriver.Wire(0x49, 2)
    case Fig3 => AdsDriver.Wire(0x48, 0)
    case Fig3Heater => AdsDriver.Wire(0x48, 1)
    case Fig4 => AdsDriver.Wire(0x49, 0)
    case Fig4Heater => AdsDriver.Wire(0x49, 1)
    case Pid => AdsDriver.Wire(0x48, 2)
    case E2v => AdsDriver.Wire(0x4B, 0)
    case Co => AdsDriver.Wire(0x4A, -1)
  }

  /** Every entry carries its sensor's wiring, whatever its status. */
  predicate Wired(flags: Flags, table: seq<Entry>)
  {
    && |table| == SensorCount(flags)
    && forall k :: 0 <= k < |table| ==>
         AdsDriver.Wire(table[k].addr, table[k].channel) == Wiring(IdAt(flags, k))
  }

  /** The table as the constructor leaves it: every entry wired, none available. */
  function InitialTable(flags: Flags): seq<Entry>
  {
    seq(SensorCount(flags), k requires 0 <= k < SensorCount(flags) =>
      AdsIds.Entry(Wiring(IdAt(flags, k)).addr, Wiring(IdAt(flags, k)).channel, false))
  }

  /** The entry of an enabled sensor. */
  function At(flags: Flags, table: seq<Entry>, id: SensorId): (e: Entry)
    requires Wired(flags, table) && Declared(flags, id)
    ensures AdsDriver.Wire(e.addr, e.channel) == Wiring(id)
  {
    table[Index(flags, id)]
  }

  /** `read_raw` on an entry. */
  function RawOf(e: Entry, bus: Bus): Uint16
  {
    if !e.status then ToUint16(-999) else ToUint16(bus.singleEnded(e.addr, e.channel) as int)
  }

  /** `read_co_aux` on the CO entry: the 0-1 differential of its device. */
  function CoAuxOf(e: Entry, bus: Bus): int
  {
    if !e.status then CoMissing else bus.differential01(e.addr) as int
  }

  /** `read_co_worker` on the CO entry: the 2-3 differential of its device. */
  function CoWorkerOf(e: Entry, bus: Bus): int
  {
    if !e.status then CoMissing else bus.differential23(e.addr) as int
  }

  /** Arduino's `String(...)` conversions, which this model does not define:
      an unsigned reading in decimal, and a float (which the CO reads hold a
      whole number in) with two decimals. */
  datatype Text = Text(ofUint: Uint16 -> string, ofFloat: int -> string)

  /** Number text never contains the separator. */
  ghost predicate PlainText(text: Text)
  {
    && (forall v: Uint16 :: Plain(text.ofUint(v)))
    && (forall x: int :: Plain(text.ofFloat(x)))
  }

  function RawText(flags: Flags, table: seq<Entry>, bus: Bus, text: Text, id: SensorId): string
    requires |table| == SensorCount(flags) && Declared(flags, id)
  {
    text.ofUint(RawOf(table[Index(flags, id)], bus))
  }

  function CoAuxText(flags: Flags, table: seq<Entry>, bus: Bus, text: Text): string
    requires |table| == SensorCount(flags)
  {
    text.ofFloat(CoAuxOf(table[Index(flags, Co)], bus))
  }

  function CoWorkerText(flags: Flags, table: seq<Entry>, bus: Bus, text: Text): string
    requires |table| == SensorCount(flags)
  {
    text.ofFloat(CoWorkerOf(table[Index(flags, Co)], bus))
  }

  /** The fields `read4sd_raw` writes, in order. */
  function SdFields(flags: Flags, table: seq<Entry>, bus: Bus, text: Text): seq<string>
    requires |table| == SensorCount(flags)
  {
    var figaro := [RawText(flags, table, bus, text, Fig2600), RawText(flags, table, bus, text, Fig2602)];
    var with3 := if flags.fig3Enabled
      then figaro + [RawText(flags, table, bus, text, Fig3), RawText(flags, table, bus, text, Fig3Heater)]
      else figaro;
    var with4 := if flags.fig4Enabled
      then with3 + [RawText(flags, table, bus, text, Fig4), RawText(flags, table, bus, text, Fig4Heater)]
      else with3;
    with4 + [RawText(flags, table, bus, text, Pid), RawText(flags, table, bus, text, E2v),
             CoAuxText(flags, table, bus, text), CoWorkerText(flags, table, bus, text)]
  }

  /** The labels `read4print_raw` puts before each field. */
  function Labels(flags: Flags): seq<string>
  {
    var figaro := ["FIG1:", "FIG2:"];
    var with3 := if flags.fig3Enabled then figaro + ["FIG3:", "FIG3_H:"] else figaro;
    var with4 := if flags.fig4Enabled then with3 + ["FIG4:", "FIG4_H:"] else with3;
    with4 + ["PID:", "E2V:", "CO_AUX:", "CO_MAIN:"]
  }

  /** The fields `read4print_raw` writes, in order. */
  function PrintFields(flags: Flags, table: seq<Entry>, bus: Bus, text: Text): seq<string>
    requires |table| == SensorCount(flags)
  {
    var figaro := ["FIG1:" + RawText(flags, table, bus, text, Fig2600),
                   "FIG2:" + RawText(flags, table, bus, text, Fig2602)];
    var with3 := if flags.fig3Enabled
      then figaro + ["FIG3:" + RawText(flags, table, bus, text, Fig3),
                     "FIG3_H:" + RawText(flags, table, bus, text, Fig3Heater)]
      else figaro;
    var with4 := if flags.fig4Enabled
      then with3 + ["FIG4:" + RawText(flags, table, bus, text, Fig4),
                    "FIG4_H:" + RawText(flags, table, bus, text, Fig4Heater)]
      else with3;
    with4 + ["PID:" + RawText(flags, table, bus, text, Pid),
             "E2V:" + RawText(flags, table, bus, text, E2v),
             "CO_AUX:" + CoAuxText(flags, table, bus, text),
             "CO_MAIN:" + CoWorkerText(flags, table, bus, text)]
  }

  /** `read4sd_raw` has 6 + 2·FIGARO3_ENABLED + 2·FIGARO4_ENABLED fields, and
      when the number texts are comma-free its text reads back as exactly
      those fields. */
  lemma SdTextReadsBack(flags: Flags, table: seq<Entry>, bus: Bus, text: Text)
    requires |table| == SensorCount(flags) && PlainText(text)
    ensures |SdFields(flags, table, bus, text)| == 6 + 2 * AdsIds.Bit(flags.fig3Enabled) + 2 * AdsIds.Bit(flags.fig4Enabled)
    ensures Split(Join(SdFields(flags, table, bus, text))) == SdFields(flags, table, bus, text)
  {
    SdFieldsPlain(flags, table, bus, text);
    SplitJoin(SdFields(flags, table, bus, text));
  }

  /** `read4print_raw` writes the same values in the same order as
      `read4sd_raw`, each behind its label. */
  lemma PrintIsLabelledSd(flags: Flags, table: seq<Entry>, bus: Bus, text: Text)
    requires |table| == SensorCount(flags)
    ensures |PrintFields(flags, table, bus, text)| == |Labels(flags)| == |SdFields(flags, table, bus, text)|
    ensures forall k :: 0 <= k < |Labels(flags)| ==>
              PrintFields(flags, table, bus, text)[k] == Labels(flags)[k] + SdFields(flags, table, bus, text)[k]
  {
  }

  /** No label contains a comma. */
  lemma LabelsPlain(flags: Flags)
    ensures forall k :: 0 <= k < |Labels(flags)| ==> Plain(Labels(flags)[k])
  {
  }

  /** Number text without commas gives SD fields without commas. */
  lemma SdFieldsPlain(flags: Flags, table: seq<Entry>, bus: Bus, text: Text)
    requires |table| == SensorCount(flags) && PlainText(text)
    ensures forall k :: 0 <= k < |SdFields(flags, table, bus, text)| ==> Plain(SdFields(flags, table, bus, text)[k])
  {
  }

  /** The labels contain no comma, so with comma-free number text the
      monitor line also reads back field by field. */
  lemma PrintTextReadsBack(flags: Flags, table: seq<Entry>, bus: Bus, text: Text)
    requires |table| == SensorCount(flags) && PlainText(text)
    ensures Split(Join(PrintFields(flags, table, bus, text))) == PrintFields(flags, table, bus, text)
  {
    var sd := SdFields(flags, table, bus, text);
    var labels := Labels(flags);
    PrintIsLabelledSd(flags, table, bus, text);
    LabelsPlain(flags);
    SdFieldsPlain(flags, table, bus, text);
    var fields := PrintFields(flags, table, bus, text);
    forall k | 0 <= k < |fields| ensures Plain(fields[k]) {
      assert fields[k] == labels[k] + sd[k];
      assert Plain(labels[k]) && Plain(sd[k]);
    }
    SplitJoin(fields);
  }

  /** Both CO reads hang on the one CO entry: they are unavailable together,
      and otherwise read the two differential pairs of the same device 0x4A. */
  lemma CoReadsShareEntry(flags: Flags, table: seq<Entry>, bus: Bus)
    requires Wired(flags, table)
    ensures !At(flags, table, Co).status ==>
              CoAuxOf(At(flags, table, Co), bus) == CoWorkerOf(At(flags, table, Co), bus) == CoMissing
    ensures At(flags, table, Co).status ==>
              && CoAuxOf(At(flags, table, Co), bus) == bus.differential01(0x4A) as int
              && CoWorkerOf(At(flags, table, Co), bus) == bus.differential23(0x4A) as int
  {
  }

  /** The raw sentinel is an ordinary reading: 64537 is also what an
      available entry returns for the sample -999. */
  lemma RawSentinelAmbiguous(e: Entry, bus: Bus)
    requires e.status && bus.singleEnded(e.addr, e.channel) == -999
    ensures RawOf(e, bus) == RawOf(e.(status := false), bus) == RawMissing
  {
  }

  /** From the constructor's table, `begin` marks exactly the entries whose
      device answers, and reports success iff all four devices answer. */
  lemma {:induction false} BeginFromConstruction(flags: Flags, responds: Uint8 -> bool)
    ensures Wired(flags, AdsDriver.Marked(InitialTable(flags), responds))
    ensures forall k :: 0 <= k < SensorCount(flags) ==>
              AdsDriver.Marked(InitialTable(flags), responds)[k].status == responds(Wiring(IdAt(flags, k)).addr)
    ensures AdsDriver.AllAvailable(AdsDriver.Marked(InitialTable(flags), responds)) <==>
              responds(0x48) && responds(0x49) && responds(0x4A) && responds(0x4B)
  {
    var t := AdsDriver.Marked(InitialTable(flags), responds);
    if AdsDriver.AllAvailable(t) {
      assert t[Index(flags, Fig2600)].status && t[Index(flags, Fig2602)].status;
      assert t[Index(flags, E2v)].status && t[Index(flags, Co)].status;
    }
  }

  /** A wired table with every status cleared is the constructor's table. */
  lemma ResetTableIsInitial(flags: Flags, table: seq<Entry>, reset: seq<Entry>)
    requires Wired(flags, table) && |reset| == |table|
    requires forall k :: 0 <= k < |table| ==> reset[k] == table[k].(status := false)
    ensures reset == InitialTable(flags)
  {
  }

  /** The address and channel assignments of `ADS_Module()`, entry by entry
      (the entry numbers are those of `Index`). The statuses are left as
      they were; the constructor clears them afterwards. */
  method AssignWiring(flags: Flags) returns (t: seq<Entry>)
    ensures Wired(flags, t)
  {
    var f3 := 2 * AdsIds.Bit(flags.fig3Enabled);
    var f4 := 2 * AdsIds.Bit(flags.fig4Enabled);
    // the table starts zeroed
    t := seq(5 + f3 + f4, _ => AdsIds.Entry(0, 0, false));
    t := t[0 := t[0].(addr := 0x48, channel := 3)];                      // FIG2600
    t := t[1 := t[1].(addr := 0x49, channel := 2)];                      // FIG2602
    if flags.fig3Enabled {
      t := t[2 := t[2].(addr := 0x48, channel := 0)];                    // FIG3
      t := t[3 := t[3].(addr := 0x48, channel := 1)];                    // FIG3 heater
    }
    if flags.fig4Enabled {
      t := t[2 + f3 := t[2 + f3].(addr := 0x49, channel := 0)];          // FIG4
      t := t[3 + f3 := t[3 + f3].(addr := 0x49, channel := 1)];          // FIG4 heater
    }
    t := t[2 + f3 + f4 := t[2 + f3 + f4].(addr := 0x48, channel := 2)];  // PID
    t := t[3 + f3 + f4 := t[3 + f3 + f4].(addr := 0x4B, channel := 0)];  // E2V
    t := t[4 + f3 + f4 := t[4 + f3 + f4].(addr := 0x4A, channel := -1)]; // CO
  }

  /** `ADS_Module` of the V4 line. */
  class AdsModule {
    const flags: Flags
    /** `ads_module[ADS_SENSOR_COUNT]` */
    var entries: seq<Entry>

    ghost predicate Valid()
      reads this
    {
      Wired(flags, entries)
    }

    /** `ADS_Module()`: assigns the addresses and channels of the enabled
        sensors, then clears every status. */
    constructor (flags: Flags)
      ensures Valid() && this.flags == flags
      ensures entries == InitialTable(flags)
    {
      this.flags := flags;
      var t := AssignWiring(flags);
      ghost var wired := t;
      for i := 0 to |t|
        invariant |t| == |wired|
        invariant forall k :: 0 <= k < i ==> t[k] == wired[k].(status := false)
        invariant forall k :: i <= k < |t| ==> t[k] == wired[k]
      {
        t := t[i := t[i].(status := false)];
      }
      ResetTableIsInitial(flags, wired, t);
      entries := t;
    }

    /** `begin`: marks each entry whose device answers, then reports whether
        every entry is available. */
    method Begin(bus: Bus) returns (ok: bool)
      requires Valid()
      modifies this
      ensures Valid()
      ensures entries == AdsDriver.Marked(old(entries), bus.responds)
      ensures ok == AdsDriver.AllAvailable(entries)
    {
      for i := 0 to |entries|
        invariant |entries| == |old(entries)|
        invariant forall k :: 0 <= k < i ==> entries[k] == AdsDriver.Mark(old(entries[k]), bus.responds)
        invariant forall k :: i <= k < |entries| ==> entries[k] == old(entries[k])
      {
        if bus.responds(entries[i].addr) {
          entries := entries[i := entries[i].(status := true)];
        }
      }
      assert entries == AdsDriver.Marked(old(entries), bus.responds);
      for i := 0 to |entries|
        invariant forall k :: 0 <= k < i ==> entries[k].status
      {
        if !entries[i].status {
          return false;
        }
      }
      return true;
    }

    /** `read_raw`: -999 stored as uint16_t (64537) for an unavailable
        entry, otherwise the entry's single-ended sample as uint16_t. */
    method ReadRaw(bus: Bus, id: SensorId) returns (r: Uint16)
      requires Valid() && Declared(flags, id)
      ensures r == RawOf(At(flags, entries, id), bus)
      ensures !At(flags, entries, id).status ==> r == RawMissing
      ensures At(flags, entries, id).status ==>
                r == ToUint16(bus.singleEnded(Wiring(id).addr, Wiring(id).channel) as int)
    {
      var sensor := entries[Index(flags, id)];
      if !sensor.status {
        return ToUint16(-999);
      }
      return ToUint16(bus.singleEnded(sensor.addr, sensor.channel) as int);
    }

    /** `read_co_aux`: -999 when CO is unavailable, otherwise the 0-1
        differential of device 0x4A. */
    method ReadCoAux(bus: Bus) returns (r: int)
      requires Valid()
      ensures r == CoAuxOf(At(flags, entries, Co), bus)
      ensures !At(flags, entries, Co).status ==> r == CoMissing
      ensures At(flags, entries, Co).status ==> r == bus.differential01(0x4A) as int
    {
      var sensor := entries[Index(flags, Co)];
      if !sensor.status {
        return CoMissing;
      }
      return bus.differential01(sensor.addr) as int;
    }

    /** `read_co_worker`: -999 when CO is unavailable, otherwise the 2-3
        differential of the same device 0x4A. */
    method ReadCoWorker(bus: Bus) returns (r: int)
      requires Valid()
      ensures r == CoWorkerOf(At(flags, entries, Co), bus)
      ensures !At(flags, entries, Co).status ==> r == CoMissing
      ensures At(flags, entries, Co).status ==> r == bus.differential23(0x4A) as int
    {
      var sensor := entries[Index(flags, Co)];
      if !sensor.status {
        return CoMissing;
      }
      return bus.differential23(sensor.addr) as int;
    }

    /** `read4sd_raw`: every reading, comma-separated, grown field by field. */
    method Read4SdRaw(bus: Bus, text: Text) returns (out: string)
      requires Valid()
      ensures out == Join(SdFields(flags, entries, bus, text))
    {
      out := "";
      var v := ReadRaw(bus, Fig2600);
      out := out + (text.ofUint(v) + ",");
      v := ReadRaw(bus, Fig2602);
      out := out + (text.ofUint(v) + ",");
      ghost var fields := [RawText(flags, entries, bus, text, Fig2600), RawText(flags, entries, bus, text, Fig2602)];
      TerminatedSnoc([fields[0]], fields[1]);
      assert [fields[0]] + [fields[1]] == fields;
      if flags.fig3Enabled {
        v := ReadRaw(bus, Fig3);
        out := out + (text.ofUint(v) + ",");
        v := ReadRaw(bus, Fig3Heater);
        out := out + (text.ofUint(v) + ",");
        TerminatedPair(fields, RawText(flags, entries, bus, text, Fig3), RawText(flags, entries, bus, text, Fig3Heater));
        fields := fields + [RawText(flags, entries, bus, text, Fig3), RawText(flags, entries, bus, text, Fig3Heater)];
      }
      if flags.fig4Enabled {
        v := ReadRaw(bus, Fig4);
        out := out + (text.ofUint(v) + ",");
        v := ReadRaw(bus, Fig4Heater);
        out := out + (text.ofUint(v) + ",");
        TerminatedPair(fields, RawText(flags, entries, bus, text, Fig4), RawText(flags, entries, bus, text, Fig4Heater));
        fields := fields + [RawText(flags, entries, bus, text, Fig4), RawText(flags, entries, bus, text, Fig4Heater)];
      }
      v := ReadRaw(bus, Pid);
      out := out + (text.ofUint(v) + ",");
      var e2v := ReadRaw(bus, E2v);
      out := out + (text.ofUint(e2v) + ",");
      var aux := ReadCoAux(bus);
      var worker := ReadCoWorker(bus);
      out := out + (text.ofFloat(aux) + "," + text.ofFloat(worker));
      JoinTail(fields, RawText(flags, entries, bus, text, Pid), RawText(flags, entries, bus, text, E2v),
               text.ofFloat(aux), text.ofFloat(worker));
    }

    /** `read4print_raw`: the same readings, each behind its label. */
    method Read4PrintRaw(bus: Bus, text: Text) returns (out: string)
      requires Valid()
      ensures out == Join(PrintFields(flags, entries, bus, text))
    {
      out := "";
      var v := ReadRaw(bus, Fig2600);
      out := out + ("FIG1:" + text.ofUint(v) + ",");
      v := ReadRaw(bus, Fig2602);
      out := out + ("FIG2:" + text.ofUint(v) + ",");
      ghost var fields := ["FIG1:" + RawText(flags, entries, bus, text, Fig2600),
                           "FIG2:" + RawText(flags, entries, bus, text, Fig2602)];
      TerminatedSnoc([fields[0]], fields[1]);
      assert [fields[0]] + [fields[1]] == fields;
      if flags.fig3Enabled {
        v := ReadRaw(bus, Fig3);
        out := out + ("FIG3:" + text.ofUint(v) + ",");
        v := ReadRaw(bus, Fig3Heater);
        out := out + ("FIG3_H:" + text.ofUint(v) + ",");
        TerminatedPair(fields, "FIG3:" + RawText(flags, entries, bus, text, Fig3),
                       "FIG3_H:" + RawText(flags, entries, bus, text, Fig3Heater));
        fields := fields + ["FIG3:" + RawText(flags, entries, bus, text, Fig3),
                            "FIG3_H:" + RawText(flags, entries, bus, text, Fig3Heater)];
      }
      if flags.fig4Enabled {
        v := ReadRaw(bus, Fig4);
        out := out + ("FIG4:" + text.ofUint(v) + ",");
        v := ReadRaw(bus, Fig4Heater);
        out := out + ("FIG4_H:" + text.ofUint(v) + ",");
        TerminatedPair(fields, "FIG4:" + RawText(flags, entries, bus, text, Fig4),
                       "FIG4_H:" + RawText(flags, entries, bus, text, Fig4Heater));
        fields := fields + ["FIG4:" + RawText(flags, entries, bus, text, Fig4),
                            "FIG4_H:" + RawText(flags, entries, bus, text, Fig4Heater)];
      }
      v := ReadRaw(bus, Pid);
      out := out + ("PID:" + text.ofUint(v) + ",");
      var e2v := ReadRaw(bus, E2v);
      out := out + ("E2V:" + text.ofUint(e2v) + ",");
      var aux := ReadCoAux(bus);
      var worker := ReadCoWorker(bus);
      out := out + ("CO_AUX:" + text.ofFloat(aux) + ",CO_MAIN:" + text.ofFloat(worker));
      assert "CO_AUX:" + text.ofFloat(aux) + ",CO_MAIN:" + text.ofFloat(worker)
          == ("CO_AUX:" + text.ofFloat(aux)) + "," + ("CO_MAIN:" + text.ofFloat(worker));
      JoinTail(fields, "PID:" + RawText(flags, entries, bus, text, Pid), "E2V:" + RawText(flags, entries, bus, text, E2v),
               "CO_AUX:" + text.ofFloat(aux), "CO_MAIN:" + text.ofFloat(worker));
    }
  }

  lemma TerminatedPair(fields: seq<string>, f: string, g: string)
    ensures Terminated(fields + [f, g]) == Terminated(fields) + (f + ",") + (g + ",")
  {
    TerminatedSnoc(fields, f);
    TerminatedSnoc(fields + [f], g);
    assert fields + [f] + [g] == fields + [f, g];
  }

  /** The last four fields of both lines: two terminated fields, then the
      final pair with one comma between them. */
  lemma JoinTail(fields: seq<string>, f: string, g: string, x: string, y: string)
    ensures Join(fields + [f, g, x, y]) == Terminated(fields) + (f + ",") + (g + ",") + (x + "," + y)
  {
    var all := fields + [f, g, x, y];
    assert all[..|all| - 1] == fields + [f, g] + [x];
    TerminatedSnoc(fields + [f, g], x);
    TerminatedPair(fields, f, g);
  }
}
