/** The ELT S300 CO2 sensor driver of firmware 4.1.0 (co2_module.cpp): one
    I2C request, then a loop that drains the reply and assembles the reading
    from its second and third bytes. The bytes the bus delivers are a
    parameter, each a `bv8` as `Wire.read` returns it; `Wire` calls and delays are recorded as events. */
module Co2Module {
  import opened CTypes

  /** `CO2_I2C_ADDR` */
  const Co2Address: Uint8 := 0x31
  /** `CO2_ACKNOWLEDGE_ADDR`: the command that asks for a reading. */
  const AcknowledgeCommand: Uint8 := 0x52
  /** The number of reply bytes each reading requests. */
  const ReplyLength: nat := 7
  /** The pause after each of the two bytes that carry the reading. */
  const ByteDelayMs: nat := 10

  datatype Event =
    | WireBegin
    | BeginTransmission(addr: Uint8)
    | Write(data: Uint8)
    | EndTransmission
    | RequestFrom(addr: Uint8, count: nat)
    | ReadByte
    | Delay(ms: nat)

  /** `wire_setup(address, cmd, from)`: send the command, then request the
      reply bytes from the same device. */
  function WireSetup(addr: Uint8, cmd: Uint8, count: nat): seq<Event>
  {
    [BeginTransmission(addr), Write(cmd), EndTransmission, RequestFrom(addr, count)]
  }

  /** The request every reading starts with. */
  function Request(): seq<Event>
  {
    WireSetup(Co2Address, AcknowledgeCommand, ReplyLength)
  }

  /** The events of draining n reply bytes: one read per byte, and a pause
      after the second and after the third. */
  function Drain(n: nat): seq<Event>
  {
    if n == 0 then []
    else
      var read := Drain(n - 1) + [ReadByte];
      if n == 2 || n == 3 then read + [Delay(ByteDelayMs)] else read
  }

  /** The reading a reply yields: byte 2 as the high and byte 3 as the low
      half of a 16-bit value (bytes counted from 1). With exactly two bytes
      the low half is never set; with fewer the reading is never assigned
      at all, which C leaves undefined and this model writes `None`. */
  function Ppm(reply: seq<bv8>): Option<Uint16>
  {
    if |reply| < 2 then None
    else if |reply| == 2 then Some((reply[1] as int * 256) as Uint16)
    else Some((reply[1] as int * 256 + reply[2] as int) as Uint16)
  }

  /** Moving a byte into the high half of a 16-bit value, then or-ing the
      low byte in, is multiplication by 256 and addition. */
  lemma ShiftIn16(hi: bv8, lo: bv8)
    ensures ((hi as bv16) << 8) as int == hi as int * 256
    ensures (((hi as bv16) << 8) | lo as bv16) as int == hi as int * 256 + lo as int
  {
  }

  /** Replies of three or more bytes give the same reading exactly when
      they agree in their second and third byte; the other bytes never
      matter. */
  lemma PpmDependsOnBytes2And3(a: seq<bv8>, b: seq<bv8>)
    requires |a| >= 3 && |b| >= 3
    ensures Ppm(a) == Ppm(b) <==> a[1] == b[1] && a[2] == b[2]
  {
    if Ppm(a) == Ppm(b) {
      PpmDecodes(a);
      PpmDecodes(b);
    }
  }

  /** A reading of three or more bytes gives back its two bytes: the high
      half is byte 2 and the low half byte 3. */
  lemma PpmDecodes(reply: seq<bv8>)
    requires |reply| >= 3
    ensures Ppm(reply).Some?
    ensures Ppm(reply).value as int / 256 == reply[1] as int
    ensures Ppm(reply).value as int % 256 == reply[2] as int
  {
  }

  /** Short replies: fewer than two bytes give no reading, exactly two a
      reading whose low byte is zero. */
  lemma PpmShortReplies(reply: seq<bv8>)
    requires |reply| <= 2
    ensures Ppm(reply).Some? <==> |reply| == 2
    ensures |reply| == 2 ==> Ppm(reply).value as int == reply[1] as int * 256
    ensures |reply| == 2 ==> Ppm(reply).value as int % 256 == 0
  {
  }

  function Reads(events: seq<Event>): nat
  {
    if events == [] then 0
    else Reads(events[..|events| - 1]) + (if events[|events| - 1] == ReadByte then 1 else 0)
  }

  function Delays(events: seq<Event>): nat
  {
    if events == [] then 0
    else Delays(events[..|events| - 1]) + (if events[|events| - 1].Delay? then 1 else 0)
  }

  lemma ReadsSnoc(events: seq<Event>, e: Event)
    ensures Reads(events + [e]) == Reads(events) + (if e == ReadByte then 1 else 0)
  {
    assert (events + [e])[..|events|] == events;
  }

  lemma DelaysSnoc(events: seq<Event>, e: Event)
    ensures Delays(events + [e]) == Delays(events) + (if e.Delay? then 1 else 0)
  {
    assert (events + [e])[..|events|] == events;
  }

  /** Draining n bytes reads each of them exactly once. */
  lemma {:induction false} DrainReadsEveryByte(n: nat)
    ensures Reads(Drain(n)) == n
  {
    if n > 0 {
      DrainReadsEveryByte(n - 1);
      ReadsSnoc(Drain(n - 1), ReadByte);
      if n == 2 || n == 3 {
        ReadsSnoc(Drain(n - 1) + [ReadByte], Delay(ByteDelayMs));
      }
    }
  }

  /** Draining pauses once after the second and once after the third byte,
      and never otherwise. */
  lemma {:induction false} DrainPausesTwice(n: nat)
    ensures Delays(Drain(n)) == (if n >= 3 then 2 else if n == 2 then 1 else 0)
  {
    if n > 0 {
      DrainPausesTwice(n - 1);
      DelaysSnoc(Drain(n - 1), ReadByte);
      if n == 2 || n == 3 {
        DelaysSnoc(Drain(n - 1) + [ReadByte], Delay(ByteDelayMs));
      }
    }
  }

  /** `begin`: starts the I2C bus. */
  method Begin() returns (events: seq<Event>)
    ensures events == [WireBegin]
  {
    events := [WireBegin];
  }

  /** `getS300CO2`: request a reading, then read every byte the bus holds,
      keeping the second as the high and the third as the low half of the
      `uint16_t` result. */
  method GetS300Co2(reply: seq<bv8>) returns (reading: Option<Uint16>, events: seq<Event>)
    ensures reading == Ppm(reply)
    ensures events == Request() + Drain(|reply|)
  {
    events := Request();
    var i := 1;
    var value: Option<bv16> := None;
    var next := 0;
    while next < |reply|
      invariant 0 <= next <= |reply| && i == next + 1
      invariant value.Some? <==> next >= 2
      invariant next == 2 ==> value.value == (reply[1] as bv16) << 8
      invariant next >= 3 ==> value.value == ((reply[1] as bv16) << 8) | reply[2] as bv16
      invariant events == Request() + Drain(next)
    {
      var val := reply[next];
      next := next + 1;
      events := events + [ReadByte];
      if i == 2 {
        value := Some((val as bv16) << 8);
        events := events + [Delay(ByteDelayMs)];
      }
      if i == 3 {
        value := Some(value.value | val as bv16);
        events := events + [Delay(ByteDelayMs)];
      }
      i := i + 1;
    }
    if |reply| >= 2 {
      ShiftIn16(reply[1], if |reply| >= 3 then reply[2] else 0);
    }
    reading := if value.Some? then Some(value.value as int as Uint16) else None;
  }
}
