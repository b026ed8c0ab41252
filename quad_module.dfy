/** The Quadstat driver of firmware 5.1.0 (quad_module.cpp): two MCP342x
    converters, each read on its four channels. The MCP342x library is not
    part of this model: the `long` values its eight conversions leave in
    the shared `value` variable are a parameter, and each conversion request
    is recorded with its settings. */
module QuadModule {
  import opened CTypes

  /** `ALPHA_ONE_ADDR` and `ALPHA_TWO_ADDR` */
  const AlphaOneAddress: Uint8 := 0x69
  const AlphaTwoAddress: Uint8 := 0x6E
  /** The microseconds `convertAndRead` may wait for a result. */
  const ConversionTimeout: nat := 1000000
  /** The number of conversions in one `return_updated`. */
  const ConversionCount: nat := 8

  /** The two converter handles of the module. */
  datatype Chip = AlphaOne | AlphaTwo

  datatype Mode = OneShot | Continuous

  /** One `convertAndRead` call and the settings it passes; `chip` names
      the handle the call goes through (see `QuadModule.Handle`). */
  datatype Conversion = Conversion(
    chip: Chip, channel: nat, mode: Mode, resolution: nat, gain: nat, timeout: nat)

  datatype Step = GeneralCallReset | Delay(ms: nat)

  /** `QUAD_Data` as `return_updated` fills it. */
  datatype QuadData = QuadData(
    QS1_C1: Int16, QS1_C2: Int16, QS2_C1: Int16, QS2_C2: Int16,
    QS3_C1: Int16, QS3_C2: Int16, QS4_C1: Int16, QS4_C2: Int16)

  /** The conversion request every read uses: one-shot, 16-bit resolution,
      gain 1 and the fixed timeout. */
  function Convert(chip: Chip, channel: nat): Conversion
  {
    Conversion(chip, channel, OneShot, 16, 1, ConversionTimeout)
  }

  /** The conversions of `return_updated`, in the order they are issued. */
  function Plan(): seq<Conversion>
  {
    [Convert(AlphaOne, 1), Convert(AlphaOne, 2), Convert(AlphaOne, 3), Convert(AlphaOne, 4),
     Convert(AlphaTwo, 1), Convert(AlphaTwo, 2), Convert(AlphaTwo, 3), Convert(AlphaTwo, 4)]
  }

  /** The dataset field that receives a chip's channel: channels 1 and 2 of
      the first chip go to QS1, 3 and 4 to QS2; those of the second chip to
      QS3 and QS4. */
  function Field(data: QuadData, chip: Chip, channel: nat): Int16
    requires 1 <= channel <= 4
  {
    match (chip, channel)
    case (AlphaOne, 1) => data.QS1_C1
    case (AlphaOne, 2) => data.QS1_C2
    case (AlphaOne, 3) => data.QS2_C1
    case (AlphaOne, _) => data.QS2_C2
    case (AlphaTwo, 1) => data.QS3_C1
    case (AlphaTwo, 2) => data.QS3_C2
    case (AlphaTwo, 3) => data.QS4_C1
    case (AlphaTwo, _) => data.QS4_C2
  }

  /** The dataset of eight conversion results: the k-th conversion of the
      plan, narrowed to int16_t, lands in the field of its chip and
      channel. */
  function Dataset(values: seq<int>): (data: QuadData)
    requires |values| == ConversionCount
    ensures forall k :: 0 <= k < ConversionCount ==>
              Field(data, Plan()[k].chip, Plan()[k].channel) == ToInt16(values[k])
  {
    QuadData(ToInt16(values[0]), ToInt16(values[1]), ToInt16(values[2]), ToInt16(values[3]),
             ToInt16(values[4]), ToInt16(values[5]), ToInt16(values[6]), ToInt16(values[7]))
  }

  /** The plan reads every channel of both chips exactly once, all with the
      same settings. */
  lemma PlanCoversEveryChannel()
    ensures |Plan()| == ConversionCount
    ensures forall c :: c in Plan() ==>
              c.mode == OneShot && c.resolution == 16 && c.gain == 1 && c.timeout == ConversionTimeout
    ensures forall i, j :: 0 <= i < j < |Plan()| ==> Plan()[i] != Plan()[j]
    ensures forall chip: Chip, channel :: 1 <= channel <= 4 ==>
              Convert(chip, channel) in Plan()
  {
    forall chip: Chip, channel | 1 <= channel <= 4
      ensures Convert(chip, channel) in Plan()
    {
      if chip == AlphaOne {
        assert Plan()[channel - 1] == Convert(chip, channel);
      } else {
        assert Plan()[channel + 3] == Convert(chip, channel);
      }
    }
  }

  /** Results already in int16_t range are stored unchanged. */
  lemma DatasetKeepsInRange(values: seq<int>, chip: Chip, channel: nat)
    requires |values| == ConversionCount
    requires 1 <= channel <= 4
    requires forall k :: 0 <= k < ConversionCount ==> -0x8000 <= values[k] < 0x8000
    ensures Field(Dataset(values), chip, channel) as int
              == values[if chip == AlphaOne then channel - 1 else channel + 3]
  {
    var k := if chip == AlphaOne then channel - 1 else channel + 3;
    assert Plan()[k].chip == chip && Plan()[k].channel == channel;
  }

  /** Narrowing keeps only the residue modulo 2^16: results that differ by
      multiples of 2^16 give the same dataset. */
  lemma DatasetWraps(values: seq<int>, shifts: seq<int>)
    requires |values| == |shifts| == ConversionCount
    ensures Dataset(seq(ConversionCount, k requires 0 <= k < ConversionCount =>
                          values[k] + shifts[k] * 0x1_0000))
            == Dataset(values)
  {
    var wrapped := seq(ConversionCount, k requires 0 <= k < ConversionCount =>
                         values[k] + shifts[k] * 0x1_0000);
    forall k | 0 <= k < ConversionCount
      ensures ToInt16(wrapped[k]) == ToInt16(values[k])
    {
      ToInt16Periodic(values[k], shifts[k]);
    }
  }

  /** `QUAD_Module`: the two converter handles and the status flag. A handle
      is `None` until `begin` binds it to its address. */
  class QuadModule {
    var status: bool
    var alphaOne: Option<Uint8>
    var alphaTwo: Option<Uint8>

    /** `QUAD_Module()`: sets status true. */
    constructor ()
      ensures status
      ensures alphaOne == None && alphaTwo == None
    {
      status := true;
      alphaOne := None;
      alphaTwo := None;
    }

    /** The handle a request on this chip goes through: `alpha_one` or
        `alpha_two`, with the address it is bound to. */
    function Handle(chip: Chip): Option<Uint8>
      reads this
    {
      match chip
      case AlphaOne => alphaOne
      case AlphaTwo => alphaTwo
    }

    /** `begin`: binds the handles to their addresses, resets every MCP342x
        on the bus with one general call, waits 1 ms and returns the status,
        which nothing here changes. */
    method Begin() returns (ok: bool, steps: seq<Step>)
      modifies this
      ensures alphaOne == Some(AlphaOneAddress) && alphaTwo == Some(AlphaTwoAddress)
      ensures forall c :: c in Plan() ==>
                Handle(c.chip) == Some(if c.chip == AlphaOne then AlphaOneAddress else AlphaTwoAddress)
      ensures status == old(status) && ok == status
      ensures steps == [GeneralCallReset, Delay(1)]
    {
      alphaOne := Some(AlphaOneAddress);
      alphaTwo := Some(AlphaTwoAddress);
      steps := [GeneralCallReset, Delay(1)];
      ok := status;
    }

    /** `return_updated`: the eight conversions in plan order, each result
        narrowed to int16_t into its field. It changes no member: the
        conversion status it receives is a local of the same name as the
        member flag, and is never looked at. */
    method ReturnUpdated(values: seq<int>) returns (data: QuadData, requests: seq<Conversion>)
      requires |values| == ConversionCount
      ensures data == Dataset(values)
      ensures requests == Plan()
    {
      var value: int;
      var narrowed: Int16;
      requests := [];

      requests := requests + [Convert(AlphaOne, 1)];
      value := values[0];
      narrowed := ToInt16(value);
      var qs1c1 := narrowed;

      requests := requests + [Convert(AlphaOne, 2)];
      value := values[1];
      narrowed := ToInt16(value);
      var qs1c2 := narrowed;

      requests := requests + [Convert(AlphaOne, 3)];
      value := values[2];
      narrowed := ToInt16(value);
      var qs2c1 := narrowed;

      requests := requests + [Convert(AlphaOne, 4)];
      value := values[3];
      narrowed := ToInt16(value);
      var qs2c2 := narrowed;

      requests := requests + [Convert(AlphaTwo, 1)];
      value := values[4];
      narrowed := ToInt16(value);
      var qs3c1 := narrowed;

      requests := requests + [Convert(AlphaTwo, 2)];
      value := values[5];
      narrowed := ToInt16(value);
      var qs3c2 := narrowed;

      requests := requests + [Convert(AlphaTwo, 3)];
      value := values[6];
      narrowed := ToInt16(value);
      var qs4c1 := narrowed;

      requests := requests + [Convert(AlphaTwo, 4)];
      value := values[7];
      narrowed := ToInt16(value);
      var qs4c2 := narrowed;

      data := QuadData(qs1c1, qs1c2, qs2c1, qs2c2, qs3c1, qs3c2, qs4c1, qs4c2);
    }
  }
}
