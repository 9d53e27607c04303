/** The I2C sensors of the hardware service: an SHT3x (temperature and
    humidity) and a BH1750 (illumination). A module-level time-to-live
    cache holds the last readings and a one-second lock per sensor that
    turns away a flood of requests while the bus is busy.

    `SensorState` is the value the specification functions work on: the
    cache, the clock in milliseconds, the I2C operations issued so far and
    the bus's answers still to come. `SensorService` is the object the
    source mutates, proved against those functions. */
module Sensors {
  import opened Data
  import opened TtlCache
  import opened Bits

  type Byte = x: int | 0 <= x < 256

  /** An I2C transfer: a block write, or a block read of `length` bytes. */
  datatype I2cOp =
    | WriteBlock(address: int, register: int, data: seq<int>)
    | ReadBlock(address: int, register: int, length: nat)

  /** What the bus answers: a failure (any exception) or the bytes read. */
  datatype I2cReply = I2cFailure | I2cBytes(bytes: seq<Byte>)

  /** What an endpoint gives back: a JSON body, or an exception that
      escapes it (the web server then answers with a server error). */
  datatype Outcome = Served(body: Json) | Raised

  datatype SensorState = SensorState(
    cache: map<string, Entry<Json>>,
    now: int,
    ops: seq<I2cOp>,
    script: seq<I2cReply>)

  const TempKey: string := "sht3x_temp"
  const HumidityKey: string := "sht3x_humidity"
  const Sht3xLock: string := "sensor_sht3x_lock"
  const LightKey: string := "light_result"
  const LightLock: string := "sensor_light_lock"

  const Sht3xAddress: int := 0x44
  const LightAddress: int := 0x23

  /** Time-to-live of a lock, of SHT3x readings, of a light reading. */
  const LockTtl: nat := 1000
  const Sht3xTtl: nat := 60_000
  const LightTtl: nat := 30_000

  /** The waits between starting a measurement and reading it. */
  const Sht3xWait: nat := 500
  const LightWait: nat := 100

  /** `{'error': True}` */
  const ErrorBody: Json := JObj(map["error" := JBool(true)])

  /** `format_result` of the sensors: `error` (False when missing) beside
      `data`, which is the rest of the dict. */
  function FormatResult(res: map<string, Json>): Json
  {
    JObj(map["error" := if "error" in res then res["error"] else JBool(false), "data" := JObj(res - {"error"})])
  }

  /** The split `format_result` makes: the error flag, defaulting to False,
      and every other key with its value unchanged. */
  lemma FormatResultSplits(res: map<string, Json>)
    ensures "error" !in res ==> Field(FormatResult(res), "error") == JBool(false)
    ensures "error" in res ==> Field(FormatResult(res), "error") == res["error"]
    ensures var data := Field(FormatResult(res), "data");
      && data.JObj?
      && "error" !in data.fields
      && forall k :: k in res && k != "error" ==> k in data.fields && data.fields[k] == res[k]
    ensures Field(FormatResult(res), "data").fields.Keys == res.Keys - {"error"}
  {
  }

  /** `format_result` removes `error` from the dict it is given, so a
      cached reading is served without it the next time. Its answer does
      not change: a reading stored with a false `error` formats the same
      with or without it. */
  lemma PoppedReadingFormatsAlike(res: map<string, Json>)
    requires "error" !in res || res["error"] == JBool(false)
    ensures FormatResult(res - {"error"}) == FormatResult(res)
  {
    assert (res - {"error"}) - {"error"} == res - {"error"};
  }

  /** `cache.get(key)`, read as a condition. */
  predicate Held(s: SensorState, key: string)
  {
    var v := Lookup(s.cache, key, s.now);
    v.Some? && Truthy(v.value)
  }

  /** One I2C transfer: record it and take the next answer; an exhausted
      script is a failure. */
  function Transfer(s: SensorState, op: I2cOp): (I2cReply, SensorState)
  {
    var reply := if s.script == [] then I2cFailure else s.script[0];
    (reply, s.(ops := s.ops + [op], script := if s.script == [] then [] else s.script[1..]))
  }

  /** Serve the reading cached under `key`: format it, and, because
      `format_result` pops from the very dict the cache holds, leave the
      cached reading without its `error`. */
  function ServeCached(s: SensorState, key: string): (Outcome, SensorState)
    requires key in s.cache
  {
    var v := s.cache[key].value;
    if v.JObj? then
      (Served(FormatResult(v.fields)), s.(cache := s.cache[key := Entry(JObj(v.fields - {"error"}), s.cache[key].expiry)]))
    else (Raised, s)
  }

  /** The 16-bit word `hi << 8 | lo` of two bytes. */
  function Word16(hi: Byte, lo: Byte): nat
  {
    BitOr(Shl(hi, 8), lo)
  }

  /** `(hi << 8) | lo` is `256 * hi + lo`. */
  lemma Word16Value(hi: Byte, lo: Byte)
    ensures Word16(hi, lo) == 256 * hi + lo
    ensures Word16(hi, lo) < 65536
  {
    assert Pow2(8) == 256 by {
      assert Pow2(1) == 2 && Pow2(2) == 4 && Pow2(3) == 8 && Pow2(4) == 16;
      assert Pow2(5) == 32 && Pow2(6) == 64 && Pow2(7) == 128;
    }
    OrOfShifted(hi, lo, 8);
  }

  /** The cached temperature reading: `-45 + 175 * raw / 65535` degrees. */
  function TempReading(raw: nat): Json
  {
    JObj(map["value" := JReal(-45.0 + 175.0 * (raw as real) / 65535.0),
             "instance" := JStr("temperature"), "error" := JBool(false)])
  }

  /** The cached humidity reading: `int(100 * raw / 65535)` percent. */
  function HumidityReading(raw: nat): Json
  {
    JObj(map["value" := JNum((100 * raw) / 65535), "instance" := JStr("humidity"), "error" := JBool(false)])
  }

  /** `sensor_sht3x(request_type)`: a cached reading if there is one for
      the request; otherwise, unless the lock is held, take the lock,
      start a measurement, wait, read six bytes, cache both readings and
      serve the one asked for. */
  function Sht3x(s: SensorState, requestType: string): (Outcome, SensorState)
  {
    if Held(s, TempKey) && requestType == "temp" then ServeCached(s, TempKey)
    else if Held(s, HumidityKey) && requestType != "temp" then ServeCached(s, HumidityKey)
    else if Held(s, Sht3xLock) then (Served(ErrorBody), s)
    else
      var s1 := s.(cache := Store(s.cache, Sht3xLock, JBool(true), LockTtl, s.now));
      var (started, s2) := Transfer(s1, WriteBlock(Sht3xAddress, 0x2C, [0x06]));
      if started.I2cFailure? then (Served(ErrorBody), s2)
      else
        var (raw, s3) := Transfer(s2.(now := s2.now + Sht3xWait), ReadBlock(Sht3xAddress, 0x00, 6));
        if raw.I2cFailure? || |raw.bytes| < 5 then (Raised, s3)
        else
          ServeCached(Measured(s3, raw.bytes), if requestType != "temp" then HumidityKey else TempKey)
  }

  /** Both SHT3x readings of a six-byte measurement, cached for 60 s. */
  function Measured(s: SensorState, raw: seq<Byte>): (s': SensorState)
    requires |raw| >= 5
    ensures TempKey in s'.cache && HumidityKey in s'.cache
  {
    var temp := TempReading(Word16(raw[0], raw[1]));
    var humidity := HumidityReading(Word16(raw[3], raw[4]));
    s.(cache := Store(Store(s.cache, TempKey, temp, Sht3xTtl, s.now), HumidityKey, humidity, Sht3xTtl, s.now))
  }

  /** `sensor_light()`: unless the lock is held, a cached reading, or else
      take the lock, start a measurement, wait, read two bytes, and cache
      the reading for 30 s. */
  function Light(s: SensorState): (Outcome, SensorState)
  {
    if Held(s, LightLock) then (Served(ErrorBody), s)
    else if Held(s, LightKey) then ServeCached(s, LightKey)
    else LightMeasure(s.(cache := Store(s.cache, LightLock, JBool(true), LockTtl, s.now)))
  }

  /** The measurement once the lock is set: the start command, the 100 ms
      wait, the two-byte read, and the reading cached. */
  function LightMeasure(s: SensorState): (Outcome, SensorState)
  {
    var (started, s1) := Transfer(s, ReadBlock(LightAddress, 0x23, 2));
    if started.I2cFailure? then (Served(ErrorBody), s1)
    else
      var (raw, s2) := Transfer(s1.(now := s1.now + LightWait), ReadBlock(LightAddress, 0x23, 2));
      if raw.I2cFailure? || |raw.bytes| < 2 then (Raised, s2)
      else
        var result := LightResult(Word16(raw.bytes[0], raw.bytes[1]));
        (Served(FormatResult(result)), s2.(cache := Store(s2.cache, LightKey, JObj(result), LightTtl, s2.now)))
  }

  /** The light reading: `raw / 1.2` lux. */
  function LightResult(raw: nat): map<string, Json>
  {
    map["error" := JBool(false), "value" := JReal((raw as real) / 1.2), "instance" := JStr("illumination")]
  }

  // ---------------------------------------------------------------------
  // Properties of the cache and lock policy

  /** A cached SHT3x reading for the request is served as it is: the lock
      and the bus are not touched, and the clock does not move. */
  lemma Sht3xCacheHit(s: SensorState, requestType: string)
    requires (Held(s, TempKey) && requestType == "temp") || (Held(s, HumidityKey) && requestType != "temp")
    ensures var key := if requestType == "temp" then TempKey else HumidityKey;
      var r := Sht3x(s, requestType);
      && key in s.cache
      && (s.cache[key].value.JObj? ==> r.0 == Served(FormatResult(s.cache[key].value.fields)))
      && r.1.ops == s.ops && r.1.script == s.script && r.1.now == s.now
      && r.1.cache.Keys == s.cache.Keys
      && (Sht3xLock in s.cache ==> r.1.cache[Sht3xLock] == s.cache[Sht3xLock])
  {
  }

  /** Without a cached reading, a held lock answers `{'error': True}` and
      changes nothing. */
  lemma Sht3xLockBlocks(s: SensorState, requestType: string)
    requires !(Held(s, TempKey) && requestType == "temp") && !(Held(s, HumidityKey) && requestType != "temp")
    requires Held(s, Sht3xLock)
    ensures Sht3x(s, requestType) == (Served(ErrorBody), s)
  {
  }

  /** Otherwise the lock is taken for one second before the bus is used,
      and the first transfer starts a measurement. If that transfer fails
      the answer is an error, the lock stays until it expires, and no
      reading is cached. */
  lemma Sht3xLockBeforeBus(s: SensorState, requestType: string)
    requires !(Held(s, TempKey) && requestType == "temp") && !(Held(s, HumidityKey) && requestType != "temp")
    requires !Held(s, Sht3xLock)
    ensures var r := Sht3x(s, requestType);
      && |r.1.ops| > |s.ops|
      && r.1.ops[|s.ops|] == WriteBlock(Sht3xAddress, 0x2C, [0x06])
      && Sht3xLock in r.1.cache && r.1.cache[Sht3xLock] == Entry(JBool(true), s.now + LockTtl)
    ensures Transfer(s, WriteBlock(Sht3xAddress, 0x2C, [0x06])).0.I2cFailure? ==>
              var r := Sht3x(s, requestType);
              && r.0 == Served(ErrorBody)
              && r.1.cache == Store(s.cache, Sht3xLock, JBool(true), LockTtl, s.now)
  {
  }

  /** A measurement read in full is the second transfer, half a second
      after the first, and the answer is served from what it cached. */
  lemma Sht3xMeasures(s: SensorState, requestType: string)
    requires !(Held(s, TempKey) && requestType == "temp") && !(Held(s, HumidityKey) && requestType != "temp")
    requires !Held(s, Sht3xLock)
    requires |s.script| >= 2 && s.script[0].I2cBytes? && s.script[1].I2cBytes? && |s.script[1].bytes| >= 5
    ensures var s3 := SensorState(Store(s.cache, Sht3xLock, JBool(true), LockTtl, s.now), s.now + Sht3xWait,
                                  s.ops + [WriteBlock(Sht3xAddress, 0x2C, [0x06]), ReadBlock(Sht3xAddress, 0x00, 6)],
                                  s.script[2..]);
      Sht3x(s, requestType) == ServeCached(Measured(s3, s.script[1].bytes), if requestType != "temp" then HumidityKey else TempKey)
  {
    var s1 := s.(cache := Store(s.cache, Sht3xLock, JBool(true), LockTtl, s.now));
    var s2 := Transfer(s1, WriteBlock(Sht3xAddress, 0x2C, [0x06])).1;
    assert Transfer(s1, WriteBlock(Sht3xAddress, 0x2C, [0x06])).0 == s.script[0];
    assert s2.script == s.script[1..];
    var t := Transfer(s2.(now := s2.now + Sht3xWait), ReadBlock(Sht3xAddress, 0x00, 6));
    assert t.0 == s.script[1];
    assert s.script[1..][1..] == s.script[2..];
    assert s2.ops + [ReadBlock(Sht3xAddress, 0x00, 6)]
        == s.ops + [WriteBlock(Sht3xAddress, 0x2C, [0x06]), ReadBlock(Sht3xAddress, 0x00, 6)];
    assert t.1 == SensorState(Store(s.cache, Sht3xLock, JBool(true), LockTtl, s.now), s.now + Sht3xWait,
                              s.ops + [WriteBlock(Sht3xAddress, 0x2C, [0x06]), ReadBlock(Sht3xAddress, 0x00, 6)],
                              s.script[2..]);
  }

  /** What a full measurement caches: both readings, for 60 s from the
      moment of reading, with the raw words assembled big-endian from bytes
      0-1 and 3-4; humidity is a whole percentage between 0 and 100. */
  lemma MeasuredReadings(s: SensorState, raw: seq<Byte>)
    requires |raw| >= 5
    ensures var t: int := 256 * (raw[0] as int) + raw[1] as int;
      var h: int := 256 * (raw[3] as int) + raw[4] as int;
      var s' := Measured(s, raw);
      && s'.cache[TempKey] == Entry(TempReading(t), s.now + Sht3xTtl)
      && s'.cache[HumidityKey] == Entry(HumidityReading(h), s.now + Sht3xTtl)
      && Field(HumidityReading(h), "value") == JNum((100 * h) / 65535)
      && 0 <= (100 * h) / 65535 <= 100
      && Field(TempReading(t), "value") == JReal(-45.0 + 175.0 * (t as real) / 65535.0)
      && s'.ops == s.ops && s'.now == s.now && s'.script == s.script
  {
    Word16Value(raw[0], raw[1]);
    Word16Value(raw[3], raw[4]);
  }

  /** The light sensor checks its lock before its cache: a held lock
      answers `{'error': True}` even when a reading is cached. */
  lemma LightLockFirst(s: SensorState)
    requires Held(s, LightLock)
    ensures Light(s) == (Served(ErrorBody), s)
  {
  }

  /** When the sensor does not answer the start command, the request is
      answered `{'error': True}`, with the lock set and only that command
      on the bus. */
  lemma LightStartFails(s: SensorState)
    requires !Held(s, LightLock) && !Held(s, LightKey)
    requires s.script == [] || s.script[0].I2cFailure?
    ensures Light(s).0 == Served(ErrorBody)
    ensures Light(s).1.ops == s.ops + [ReadBlock(LightAddress, 0x23, 2)]
    ensures Light(s).1.cache == Store(s.cache, LightLock, JBool(true), LockTtl, s.now)
  {
  }

  /** A light reading after the 100 ms wait is `(256 * hi + lo) / 1.2` lux;
      it is served and cached for 30 seconds from the moment it was read. */
  lemma LightReadingCached(s: SensorState)
    requires !Held(s, LightLock) && !Held(s, LightKey)
    requires |s.script| >= 2 && s.script[0].I2cBytes? && s.script[1].I2cBytes? && |s.script[1].bytes| >= 2
    ensures var b := s.script[1].bytes;
      var r := Light(s);
      var lux: int := 256 * (b[0] as int) + b[1] as int;
      && LightKey in r.1.cache
      && r.1.cache[LightKey] == Entry(JObj(LightResult(lux)), s.now + LightWait + LightTtl)
      && r.0 == Served(FormatResult(LightResult(lux)))
  {
    var op := ReadBlock(LightAddress, 0x23, 2);
    var s1 := s.(cache := Store(s.cache, LightLock, JBool(true), LockTtl, s.now));
    var (started, s2) := Transfer(s1, op);
    assert started == s.script[0];
    var (raw, s3) := Transfer(s2.(now := s2.now + LightWait), op);
    assert raw == s.script[1];
    assert s3.now == s.now + LightWait;
    var b := s.script[1].bytes;
    Word16Value(b[0], b[1]);
  }

  /** A reading served from the cache twice in a row gives the same answer
      both times, although the first serving removed its `error`. */
  lemma ServedTwiceAlike(s: SensorState, key: string)
    requires key in s.cache && s.cache[key].value.JObj?
    requires var f := s.cache[key].value.fields; "error" !in f || f["error"] == JBool(false)
    ensures var first := ServeCached(s, key);
      && key in first.1.cache
      && ServeCached(first.1, key).0 == first.0
  {
    PoppedReadingFormatsAlike(s.cache[key].value.fields);
  }

  // ---------------------------------------------------------------------
  // The module-level cache and the bus, as the source mutates them

  class SensorService {
    var cache: map<string, Entry<Json>>
    var now: int
    var ops: seq<I2cOp>
    var script: seq<I2cReply>

    function State(): SensorState
      reads this
    {
      SensorState(cache, now, ops, script)
    }

    constructor (script: seq<I2cReply>, now: int)
      ensures State() == SensorState(map[], now, [], script)
    {
      this.cache := map[];
      this.now := now;
      this.ops := [];
      this.script := script;
    }

    /** `cache.get(key)` as a condition. */
    function HeldNow(key: string): bool
      reads this
    {
      Held(State(), key)
    }

    /** One I2C transfer on the bus. */
    method Transact(op: I2cOp) returns (reply: I2cReply)
      modifies this
      ensures (reply, State()) == Transfer(old(State()), op)
    {
      reply := I2cFailure;
      if script != [] {
        reply := script[0];
        script := script[1..];
      }
      ops := ops + [op];
    }

    /** `format_result(cache.get(key))`, popping `error` from the cached
        dict itself. */
    method Serve(key: string) returns (o: Outcome)
      requires key in cache
      modifies this
      ensures (o, State()) == ServeCached(old(State()), key)
    {
      var v := cache[key].value;
      if !v.JObj? {
        return Raised;
      }
      o := Served(FormatResult(v.fields));
      cache := cache[key := Entry(JObj(v.fields - {"error"}), cache[key].expiry)];
    }

    /** `sensor_sht3x(request_type=...)` */
    method SensorSht3x(requestType: string) returns (o: Outcome)
      modifies this
      ensures (o, State()) == Sht3x(old(State()), requestType)
    {
      if HeldNow(TempKey) && requestType == "temp" {
        o := Serve(TempKey);
        return;
      }
      if HeldNow(HumidityKey) && requestType != "temp" {
        o := Serve(HumidityKey);
        return;
      }
      if HeldNow(Sht3xLock) {
        return Served(ErrorBody);
      }
      cache := Store(cache, Sht3xLock, JBool(true), LockTtl, now);
      var started := Transact(WriteBlock(Sht3xAddress, 0x2C, [0x06]));
      if started.I2cFailure? {
        return Served(ErrorBody);
      }
      now := now + Sht3xWait;
      var raw := Transact(ReadBlock(Sht3xAddress, 0x00, 6));
      if raw.I2cFailure? || |raw.bytes| < 5 {
        return Raised;
      }
      var tempRaw := Word16(raw.bytes[0], raw.bytes[1]);
      var humidityRaw := Word16(raw.bytes[3], raw.bytes[4]);
      cache := Store(cache, TempKey, TempReading(tempRaw), Sht3xTtl, now);
      cache := Store(cache, HumidityKey, HumidityReading(humidityRaw), Sht3xTtl, now);
      assert State() == Measured(old(State()).(cache := Store(old(cache), Sht3xLock, JBool(true), LockTtl, old(now)),
                                               now := now, ops := ops, script := script), raw.bytes);
      if requestType != "temp" {
        o := Serve(HumidityKey);
        return;
      }
      o := Serve(TempKey);
    }

    /** `sensor_light()` */
    method SensorLight() returns (o: Outcome)
      modifies this
      ensures (o, State()) == Light(old(State()))
    {
      if HeldNow(LightLock) {
        return Served(ErrorBody);
      }
      if HeldNow(LightKey) {
        o := Serve(LightKey);
        return;
      }
      cache := Store(cache, LightLock, JBool(true), LockTtl, now);
      o := MeasureLight();
    }

    /** The part of `sensor_light` after the lock is set. */
    method MeasureLight() returns (o: Outcome)
      modifies this
      ensures (o, State()) == LightMeasure(old(State()))
    {
      var started := Transact(ReadBlock(LightAddress, 0x23, 2));
      if started.I2cFailure? {
        return Served(ErrorBody);
      }
      now := now + LightWait;
      var raw := Transact(ReadBlock(LightAddress, 0x23, 2));
      if raw.I2cFailure? || |raw.bytes| < 2 {
        return Raised;
      }
      var lux := Word16(raw.bytes[0], raw.bytes[1]);
      var result := map["error" := JBool(true)];
      result := result["value" := JReal((lux as real) / 1.2)];
      result := result["instance" := JStr("illumination")];
      result := result["error" := JBool(false)];
      assert result == LightResult(lux);
      cache := Store(cache, LightKey, JObj(result), LightTtl, now);
      o := Served(FormatResult(result));
    }
  }
}
