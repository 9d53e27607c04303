/** The hardware service: HTTP endpoints that drive Modbus relays and
    inputs over a serial line, read the PZEM energy meter, parse a 1-Wire
    thermometer's sysfs file and dispatch to the I2C sensors.

    The Modbus line is a `Bus` value: the register operations issued, in
    order, and the device's answers still to come. Only register values
    and addresses are modelled (function codes 0x03, 0x04 and 0x06 of the
    Modbus Application Protocol Specification V1.1b3, sections 6.3, 6.4
    and 6.6), not the RTU framing. */
module HwCtrl {
  import opened Data
  import opened Text
  import opened Bits
  import Sensors

  /** A 16-bit register value. */
  type Word = x: int | 0 <= x < 0x1_0000

  datatype BusOp =
    | ReadHolding(unit: int, address: int, count: nat)   // function code 0x03
    | ReadInput(unit: int, address: int, count: nat)     // function code 0x04
    | WriteRegister(unit: int, address: int, value: int) // function code 0x06

  /** A failure is an exception or an `isError()` answer; a success carries
      the register words read (none for a write). */
  datatype BusReply = BusFailure | BusOk(words: seq<Word>)

  datatype Bus = Bus(ops: seq<BusOp>, replies: seq<BusReply>)

  /** A Python dict of the service. */
  type Dict = map<string, Json>

  /** `{'error': True}` */
  const ErrorDict: Dict := map["error" := JBool(true)]

  /** The meter's fixed Modbus unit id. */
  const PzemUnit: int := 5

  /** Input channels are read at this offset. */
  const InputOffset: int := 128

  /** One Modbus transaction: record the operation and take the next
      answer; an exhausted script is a failure (a timeout). */
  function Transact(bus: Bus, op: BusOp): (BusReply, Bus)
  {
    var reply := if bus.replies == [] then BusFailure else bus.replies[0];
    (reply, Bus(bus.ops + [op], if bus.replies == [] then [] else bus.replies[1..]))
  }

  // ---------------------------------------------------------------------
  // format_result

  /** `format_result`: the dict's `error` beside `data`, the dict without
      `error`. */
  function FormatResult(res: Dict): Json
    requires "error" in res
  {
    JObj(map["error" := res["error"], "data" := JObj(res - {"error"})])
  }

  /** The output's `error` is the input's, and its `data` holds every other
      key of the input, unchanged, and nothing else. */
  lemma FormatResultSplits(res: Dict)
    requires "error" in res
    ensures Field(FormatResult(res), "error") == res["error"]
    ensures var data := Field(FormatResult(res), "data");
      && data.JObj?
      && data.fields.Keys == res.Keys - {"error"}
      && forall k :: k in data.fields ==> data.fields[k] == res[k]
  {
  }

  // ---------------------------------------------------------------------
  // Relays and inputs

  /** The register value a write command sets: 512 switches off, 768
      toggles, and anything else (`on` included) switches on with 256. */
  function RegisterCode(cmdSet: Option<string>): int
  {
    if cmdSet == Some("off") then 512
    else if cmdSet == Some("toggle") then 768
    else 256
  }

  /** The command a register value stands for. */
  function CommandOf(code: int): Option<string>
  {
    if code == 256 then Some("on")
    else if code == 512 then Some("off")
    else if code == 768 then Some("toggle")
    else None
  }

  /** The three switching commands have three distinct codes that name
      them back; any other command is written as `on`. */
  lemma RegisterCodeRoundTrip(cmdSet: Option<string>)
    ensures RegisterCode(cmdSet) in {256, 512, 768}
    ensures cmdSet in {Some("on"), Some("off"), Some("toggle")} ==> CommandOf(RegisterCode(cmdSet)) == cmdSet
    ensures !(cmdSet in {Some("off"), Some("toggle")}) ==> CommandOf(RegisterCode(cmdSet)) == Some("on")
  {
  }

  /** `modbus(...)`: a read of one holding register at the channel, or a
      write of the command's code followed by a read-back. */
  function Modbus(bus: Bus, unitId: int, channel: int, cmdType: string, cmdSet: Option<string>): (Dict, Bus)
    requires cmdType == "read" || cmdType == "write"
  {
    if cmdType == "read" || cmdSet == Some("status") then
      ReadBack(bus, unitId, channel)
    else
      var (written, b1) := Transact(bus, WriteRegister(unitId, channel, RegisterCode(cmdSet)));
      if written.BusFailure? then (ErrorDict, b1)
      else ReadBack(b1, unitId, channel)
  }

  /** Read one holding register; its value is the `status`. */
  function ReadBack(bus: Bus, unitId: int, channel: int): (Dict, Bus)
  {
    var (reply, b1) := Transact(bus, ReadHolding(unitId, channel, 1));
    if reply.BusFailure? || |reply.words| < 1 then (ErrorDict, b1)
    else (map["error" := JBool(false), "status" := JNum(reply.words[0])], b1)
  }

  /** `modbus(...)`, filling its result dict in place. */
  method ModbusCommand(bus: Bus, unitId: int, channel: int, cmdType: string, cmdSet: Option<string>)
    returns (result: Dict, bus': Bus)
    requires cmdType == "read" || cmdType == "write"
    ensures (result, bus') == Modbus(bus, unitId, channel, cmdType, cmdSet)
  {
    result := ErrorDict;
    if cmdType == "read" || cmdSet == Some("status") {
      var (reply, b1) := Transact(bus, ReadHolding(unitId, channel, 1));
      bus' := b1;
      if reply.BusFailure? || |reply.words| < 1 {
        return;
      }
      result := result["status" := JNum(reply.words[0])];
      result := result["error" := JBool(false)];
      assert result == map["error" := JBool(false), "status" := JNum(reply.words[0])];
      return;
    }
    var baseReg := 256;
    if cmdSet == Some("off") {
      baseReg := 512;
    }
    if cmdSet == Some("toggle") {
      baseReg := 768;
    }
    var (written, b1) := Transact(bus, WriteRegister(unitId, channel, baseReg));
    bus' := b1;
    if written.BusFailure? {
      return;
    }
    var (reply, b2) := Transact(bus', ReadHolding(unitId, channel, 1));
    bus' := b2;
    if reply.BusFailure? || |reply.words| < 1 {
      return;
    }
    result := result["status" := JNum(reply.words[0])];
    result := result["error" := JBool(false)];
    assert result == map["error" := JBool(false), "status" := JNum(reply.words[0])];
  }

  /** The read and write paths: a read (or a `status` command) is one read
      of the channel's holding register whose value is the status; a write
      sets the command's code and reports the value read back; a failure
      at either step is `{'error': True}` with no status. */
  lemma ModbusPaths(bus: Bus, unitId: int, channel: int, cmdType: string, cmdSet: Option<string>)
    requires cmdType == "read" || cmdType == "write"
    ensures var (result, bus') := Modbus(bus, unitId, channel, cmdType, cmdSet);
      && "error" in result
      && (result["error"] == JBool(false) <==> "status" in result)
      && (result["error"] == JBool(true) ==> result == ErrorDict)
      && (cmdType == "read" || cmdSet == Some("status") ==>
            && bus'.ops == bus.ops + [ReadHolding(unitId, channel, 1)]
            && ("status" in result ==> result["status"] == JNum(bus.replies[0].words[0])))
      && (cmdType == "write" && cmdSet != Some("status") ==>
            && |bus'.ops| > |bus.ops|
            && bus'.ops[|bus.ops|] == WriteRegister(unitId, channel, RegisterCode(cmdSet))
            && ("status" in result ==>
                  && bus'.ops == bus.ops + [WriteRegister(unitId, channel, RegisterCode(cmdSet)), ReadHolding(unitId, channel, 1)]
                  && result["status"] == JNum(bus.replies[1].words[0])))
  {
  }

  /** `relay_on_off`: a write when a command is given, a read otherwise;
      a success also reports the channel and unit id. */
  function RelayOnOff(bus: Bus, unitId: int, channel: int, cmd: Option<string>): (Json, Bus)
  {
    var cmdType := if cmd.Some? && cmd.value != "" then "write" else "read";
    var (result, b1) := Modbus(bus, unitId, channel, cmdType, cmd);
    (FormatResult(Addressed(result, unitId, channel)), b1)
  }

  /** `input_read`: a read of register `channel + 128` that reports the
      channel as asked. */
  function InputRead(bus: Bus, unitId: int, channel: int): (Json, Bus)
  {
    var (result, b1) := Modbus(bus, unitId, channel + InputOffset, "read", None);
    (FormatResult(Addressed(result, unitId, channel)), b1)
  }

  /** A successful result gains `channel` and `unit_id`. */
  function Addressed(result: Dict, unitId: int, channel: int): Dict
    requires "error" in result
  {
    if !Truthy(result["error"]) then result["channel" := JNum(channel)]["unit_id" := JNum(unitId)] else result
  }

  /** The relay endpoint writes exactly when a non-empty command other
      than `status` is given, and then writes that command's code. */
  lemma RelayWritesIffCommand(bus: Bus, unitId: int, channel: int, cmd: Option<string>)
    ensures var bus' := RelayOnOff(bus, unitId, channel, cmd).1;
      && |bus'.ops| > |bus.ops|
      && (bus'.ops[|bus.ops|].WriteRegister? <==> cmd.Some? && cmd.value != "" && cmd.value != "status")
      && (bus'.ops[|bus.ops|].WriteRegister? ==> bus'.ops[|bus.ops|] == WriteRegister(unitId, channel, RegisterCode(cmd)))
      && (!bus'.ops[|bus.ops|].WriteRegister? ==> bus'.ops == bus.ops + [ReadHolding(unitId, channel, 1)])
  {
  }

  /** The input endpoint reads register `channel + 128` and nothing else;
      a success reports the channel asked for, the unit id and the status
      read. */
  lemma InputReadsOffsetRegister(bus: Bus, unitId: int, channel: int)
    ensures var (answer, bus') := InputRead(bus, unitId, channel);
      && bus'.ops == bus.ops + [ReadHolding(unitId, channel + 128, 1)]
      && (Field(answer, "error") == JBool(false) ==>
            && Field(Field(answer, "data"), "channel") == JNum(channel)
            && Field(Field(answer, "data"), "unit_id") == JNum(unitId)
            && Field(Field(answer, "data"), "status") == JNum(bus.replies[0].words[0]))
      && (Field(answer, "error") != JBool(false) ==> answer == JObj(map["error" := JBool(true), "data" := JObj(map[])]))
  {
    var (result, b1) := Modbus(bus, unitId, channel + InputOffset, "read", None);
    assert ErrorDict - {"error"} == map[];
  }

  // ---------------------------------------------------------------------
  // Energy meter

  /** `(hi << 16) | lo` for two register words. */
  function Word32(hi: Word, lo: Word): nat
  {
    BitOr(Shl(hi, 16), lo)
  }

  lemma Pow2Of16()
    ensures Pow2(16) == 65536
  {
    assert Pow2(4) == 16 by {
      assert Pow2(1) == 2 && Pow2(2) == 4 && Pow2(3) == 8;
    }
    assert Pow2(8) == 256 by {
      assert Pow2(5) == 32 && Pow2(6) == 64 && Pow2(7) == 128;
    }
    assert Pow2(12) == 4096 by {
      assert Pow2(9) == 512 && Pow2(10) == 1024 && Pow2(11) == 2048;
    }
    assert Pow2(13) == 8192 && Pow2(14) == 16384 && Pow2(15) == 32768;
  }

  /** The two words never share a bit: `(hi << 16) | lo` is
      `65536 * hi + lo`. */
  lemma Word32Value(hi: Word, lo: Word)
    ensures Word32(hi, lo) == 65536 * hi + lo
  {
    Pow2Of16();
    OrOfShifted(hi, lo, 16);
  }

  /** The register words as the `raw_value` list. */
  function WordList(words: seq<Word>): (r: seq<Json>)
    ensures |r| == |words| && forall k :: 0 <= k < |r| ==> r[k] == JNum(words[k])
  {
    if words == [] then [] else WordList(words[..|words| - 1]) + [JNum(words[|words| - 1])]
  }

  /** The meter's reading: voltage in units of 0.01 V at word 0, current in
      units of 0.01 A at word 1, power in units of 0.1 W with its low word
      at 2 and high word at 3, energy in Wh with its low word at 4 and high
      word at 5, and all the words read. */
  function PzemData(r: seq<Word>): Dict
    requires |r| >= 6
  {
    map["voltage" := JReal((r[0] as real) * 0.01),
        "amp" := JReal((r[1] as real) * 0.01),
        "power" := JReal((Word32(r[3], r[2]) as real) * 0.1),
        "energy" := JNum(Word32(r[5], r[4])),
        "raw_value" := JList(WordList(r))]
  }

  /** `modbus_pzem`: eight input registers from address 0 of unit 5. */
  function ModbusPzem(bus: Bus): (Dict, Bus)
  {
    var (reply, b1) := Transact(bus, ReadInput(PzemUnit, 0, 8));
    if reply.BusFailure? || |reply.words| < 6 then (ErrorDict, b1)
    else (map["error" := JBool(false), "data" := JObj(PzemData(reply.words))], b1)
  }

  /** `modbus_pzem`, filling its result dict in place. */
  method ReadPzem(bus: Bus) returns (result: Dict, bus': Bus)
    ensures (result, bus') == ModbusPzem(bus)
  {
    result := ErrorDict;
    var (reply, b1) := Transact(bus, ReadInput(PzemUnit, 0, 8));
    bus' := b1;
    if reply.BusFailure? || |reply.words| < 6 {
      return;
    }
    var registers := reply.words;
    result := result["error" := JBool(false)];
    result := result["data" := JObj(PzemData(registers))];
    assert result == map["error" := JBool(false), "data" := JObj(PzemData(registers))];
  }

  /** The decode: energy is `65536 * r5 + r4` Wh and power
      `(65536 * r3 + r2) / 10` W, the low word first in both; voltage and
      current are hundredths; every word read is reported. */
  lemma PzemDataDecode(r: seq<Word>)
    requires |r| >= 6
    ensures PzemData(r)["energy"] == JNum(65536 * (r[5] as int) + r[4] as int)
    ensures PzemData(r)["power"] == JReal(((65536 * (r[3] as int) + r[2] as int) as real) / 10.0)
    ensures PzemData(r)["voltage"] == JReal((r[0] as real) / 100.0)
    ensures PzemData(r)["amp"] == JReal((r[1] as real) / 100.0)
    ensures PzemData(r)["raw_value"] == JList(WordList(r))
  {
    PzemEnergy(r);
    PzemPower(r);
  }

  lemma PzemEnergy(r: seq<Word>)
    requires |r| >= 6
    ensures PzemData(r)["energy"] == JNum(65536 * (r[5] as int) + r[4] as int)
  {
    Word32Value(r[5], r[4]);
  }

  lemma PzemPower(r: seq<Word>)
    requires |r| >= 6
    ensures PzemData(r)["power"] == JReal(((65536 * (r[3] as int) + r[2] as int) as real) / 10.0)
  {
    Word32Value(r[3], r[2]);
  }

  /** The meter is read with one request for eight input registers from
      address 0 of unit 5, whatever unit it is configured with; a reading
      is reported exactly when the answer holds at least six words. */
  lemma PzemRequest(bus: Bus)
    ensures ModbusPzem(bus).1.ops == bus.ops + [ReadInput(5, 0, 8)]
    ensures var result := ModbusPzem(bus).0;
      && (result["error"] == JBool(false) <==>
            bus.replies != [] && bus.replies[0].BusOk? && |bus.replies[0].words| >= 6)
      && (result["error"] == JBool(false) ==> result["data"] == JObj(PzemData(bus.replies[0].words)))
      && (result["error"] != JBool(false) ==> result == ErrorDict)
  {
  }

  /** The worked reading `[1188, 63, 0, 74, 81, 0, 0, 0]`: 11.88 V, 0.63 A,
      81 Wh, and, with the low power word at index 2, 484966.4 W. */
  lemma PzemExample(r: seq<Word>)
    requires r == [1188, 63, 0, 74, 81, 0, 0, 0]
    ensures PzemData(r)["voltage"] == JReal(11.88)
    ensures PzemData(r)["amp"] == JReal(0.63)
    ensures PzemData(r)["energy"] == JNum(81)
    ensures PzemData(r)["power"] == JReal(484966.4)
  {
    PzemDataDecode(r);
  }

  // ---------------------------------------------------------------------
  // 1-Wire thermometer

  /** The temperature in thousandths of a degree on the second line of the
      sysfs file: the integer after `t=` (from the second character when
      there is no `t=`). */
  function Millidegrees(line: string): Option<int>
  {
    ParseInt(From(line, Find(line, "t=") + 2))
  }

  /** The reading a sysfs file gives: the first line must end in `YES`
      (the CRC check) and the second must carry the temperature. */
  function Wire1Parse(lines: seq<string>): Dict
  {
    if |lines| < 1 || !EndsWith(Strip(lines[0]), "YES") || |lines| < 2 then ErrorDict
    else match Millidegrees(lines[1])
      case None => ErrorDict
      case Some(t) => map["error" := JBool(false), "value" := JReal((t as real) / 1000.0), "instance" := JStr("temperature")]
  }

  /** `wire1_read(device_id)`, with the sysfs file `None` when it does not
      exist. */
  function Wire1Read(file: Option<seq<string>>): Json
  {
    FormatResult(if file.None? then ErrorDict else Wire1Parse(file.value))
  }

  /** `wire1_read`, reading the file line by line with its counter. */
  method Wire1ReadLines(file: Option<seq<string>>) returns (answer: Json)
    ensures answer == Wire1Read(file)
  {
    var result := ErrorDict;
    if file.None? {
      return FormatResult(result);
    }
    var lines := file.value;
    var cnt := 1;
    var i := 0;
    while i < |lines|
      invariant 0 <= i <= 1 && i <= |lines|
      invariant cnt == i + 1
      invariant i == 1 ==> EndsWith(Strip(lines[0]), "YES")
      invariant result == ErrorDict
      decreases |lines| - i
    {
      var line := lines[i];
      if cnt == 1 && !EndsWith(Strip(line), "YES") {
        break;
      }
      if cnt == 2 {
        var ll := line;
        var temp := ParseInt(From(ll, Find(ll, "t=") + 2));
        if temp.None? {
          break;
        }
        result := result["value" := JReal((temp.value as real) / 1000.0)];
        result := result["instance" := JStr("temperature")];
        result := result["error" := JBool(false)];
        assert result == Wire1Parse(lines);
      }
      cnt := cnt + 1;
      if cnt >= 3 {
        break;
      }
      i := i + 1;
    }
    answer := FormatResult(result);
  }

  /** A reading succeeds exactly when the file exists, its first line ends
      in `YES` and its second carries an integer after `t=`; the value is
      that integer in degrees. A missing file, a failed check or a corrupt
      second line all give `error: True` and no value. */
  lemma Wire1Rules(file: Option<seq<string>>)
    ensures Field(Wire1Read(file), "error") == JBool(false) <==>
      && file.Some? && |file.value| >= 2
      && EndsWith(Strip(file.value[0]), "YES")
      && Millidegrees(file.value[1]).Some?
    ensures Field(Wire1Read(file), "error") == JBool(false) ==>
      Field(Field(Wire1Read(file), "data"), "value") == JReal((Millidegrees(file.value[1]).value as real) / 1000.0)
    ensures Field(Wire1Read(file), "error") != JBool(false) ==>
      Wire1Read(file) == JObj(map["error" := JBool(true), "data" := JObj(map[])])
  {
    assert ErrorDict - {"error"} == map[];
  }

  // ---------------------------------------------------------------------
  // Sensor dispatch

  datatype SensorChoice = Sht3xHumidity | Sht3xTemp | LightSensor | NoSensor

  /** Which sensor a `sensor_type` names, by substring, humidity before
      temperature before light. */
  function ChooseSensor(sensorType: string): (c: SensorChoice)
    ensures c == Sht3xHumidity <==> Contains(sensorType, "sht3x_humidity")
    ensures c == Sht3xTemp <==> !Contains(sensorType, "sht3x_humidity") && Contains(sensorType, "sht3x_temp")
    ensures c == NoSensor <==>
              !Contains(sensorType, "sht3x_humidity") && !Contains(sensorType, "sht3x_temp") && !Contains(sensorType, "light")
  {
    if Contains(sensorType, "sht3x_humidity") then Sht3xHumidity
    else if Contains(sensorType, "sht3x_temp") then Sht3xTemp
    else if Contains(sensorType, "light") then LightSensor
    else NoSensor
  }

  /** `sensor_request(sensor_type)` */
  method SensorRequest(sensors: Sensors.SensorService, sensorType: string) returns (o: Sensors.Outcome)
    modifies sensors
    ensures ChooseSensor(sensorType) == Sht3xHumidity ==>
              (o, sensors.State()) == Sensors.Sht3x(old(sensors.State()), "humidity")
    ensures ChooseSensor(sensorType) == Sht3xTemp ==>
              (o, sensors.State()) == Sensors.Sht3x(old(sensors.State()), "temp")
    ensures ChooseSensor(sensorType) == LightSensor ==>
              (o, sensors.State()) == Sensors.Light(old(sensors.State()))
    ensures ChooseSensor(sensorType) == NoSensor ==>
              o == Sensors.Served(JObj(ErrorDict)) && sensors.State() == old(sensors.State())
  {
    if Contains(sensorType, "sht3x_humidity") {
      o := sensors.SensorSht3x("humidity");
      return;
    }
    if Contains(sensorType, "sht3x_temp") {
      o := sensors.SensorSht3x("temp");
      return;
    }
    if Contains(sensorType, "light") {
      o := sensors.SensorLight();
      return;
    }
    o := Sensors.Served(JObj(ErrorDict));
  }
}
