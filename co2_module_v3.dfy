/** The older ELT S300 CO2 driver of firmware 3.2.3 (co2_module.cpp): the
    same drain loop, but the reading is gathered in a 32-bit `long` and
    returned as a `float`, and the request's address, command and length
    are written out as literals. */
module Co2ModuleV3 {
  import opened CTypes
  import opened Co2Module

  /** The literal request of `wire_setup(0x31, 0x52, 7)`. */
  function LiteralRequest(): seq<Event>
  {
    WireSetup(0x31, 0x52, 7)
  }

  /** The literals are the values the later firmware names CO2_I2C_ADDR,
      CO2_ACKNOWLEDGE_ADDR and the reply length: both versions send the
      same request. */
  lemma SameRequestAsLater()
    ensures LiteralRequest() == Request()
  {
  }

  lemma ShiftIn32(hi: bv8, lo: bv8)
    ensures ((hi as bv32) << 8) as int == hi as int * 256
    ensures (((hi as bv32) << 8) | lo as bv32) as int == hi as int * 256 + lo as int
  {
  }

  /** `begin`: its only statement is commented out, so it does nothing. */
  method Begin() returns (events: seq<Event>)
    ensures events == []
  {
    events := [];
  }

  /** `getS300CO2`: the reading of the same bytes as in the later driver;
      the `long` accumulator is wide enough that the shift loses nothing,
      and the returned float equals that integer. */
  method GetS300Co2(reply: seq<bv8>) returns (reading: Option<real>, events: seq<Event>)
    ensures reading.Some? <==> Ppm(reply).Some?
    ensures reading.Some? ==> reading.value == Ppm(reply).value as real
    ensures |reply| >= 3 ==> reading.value == (reply[1] as int * 256 + reply[2] as int) as real
    ensures events == LiteralRequest() + Drain(|reply|)
  {
    events := LiteralRequest();
    var i := 1;
    var value: Option<bv32> := None;
    var next := 0;
    while next < |reply|
      invariant 0 <= next <= |reply| && i == next + 1
      invariant value.Some? <==> next >= 2
      invariant next == 2 ==> value.value == (reply[1] as bv32) << 8
      invariant next >= 3 ==> value.value == ((reply[1] as bv32) << 8) | reply[2] as bv32
      invariant events == LiteralRequest() + Drain(next)
    {
      var val := reply[next];
      next := next + 1;
      events := events + [ReadByte];
      if i == 2 {
        value := Some((val as bv32) << 8);
        events := events + [Delay(ByteDelayMs)];
      }
      if i == 3 {
        value := Some(value.value | val as bv32);
        events := events + [Delay(ByteDelayMs)];
      }
      i := i + 1;
    }
    if |reply| >= 2 {
      ShiftIn32(reply[1], if |reply| >= 3 then reply[2] else 0);
    }
    reading := if value.Some? then Some(value.value as int as real) else None;
  }
}
