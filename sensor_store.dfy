/** JavaScript values as far as truthiness needs them, and the backend's
    field-wise merge of an inbound sensor message into `sensorData`
    (backend/server.js, the MQTT message handler). */
module SensorStore {

  /** A JSON-decoded JavaScript value; `Object` stands for any object or array. */
  datatype JsValue = Undefined | Null | Bool(b: bool) | Num(x: real) | NaN | Str(s: string) | Object

  /** JavaScript truthiness: exactly `undefined`, `null`, `false`, `0`, `NaN`
      and `""` are falsy. */
  function Truthy(v: JsValue): (t: bool)
    ensures !t <==> v in {Undefined, Null, Bool(false), Num(0.0), NaN, Str("")}
  {
    match v
    case Undefined => false
    case Null => false
    case Bool(b) => b
    case Num(x) => x != 0.0
    case NaN => false
    case Str(s) => s != ""
    case Object => true
  }

  /** `vs[0] || vs[1] || ... || last` picks `r`: the first truthy operand
      before `last`, otherwise `last` itself, whatever it is. */
  ghost predicate PicksFirstTruthy(vs: seq<JsValue>, last: JsValue, r: JsValue) {
    && ((forall i | 0 <= i < |vs| :: !Truthy(vs[i])) ==> r == last)
    && (forall i | 0 <= i < |vs| ::
          Truthy(vs[i]) && (forall j | 0 <= j < i :: !Truthy(vs[j])) ==> r == vs[i])
  }

  /** The JavaScript expression `vs[0] || ... || vs[n-1] || last`. */
  function OrChain(vs: seq<JsValue>, last: JsValue): (r: JsValue)
    ensures PicksFirstTruthy(vs, last, r)
    ensures r == last || r in vs
  {
    if vs == [] then last
    else if Truthy(vs[0]) then vs[0]
    else
      var rest := OrChain(vs[1..], last);
      assert forall i | 1 <= i < |vs| :: vs[i] == vs[1..][i - 1];
      rest
  }

  /** Property lookup on a decoded JSON object: a missing key reads `undefined`. */
  function Get(data: map<string, JsValue>, key: string): (v: JsValue)
    ensures key !in data ==> v == Undefined
    ensures key in data ==> v == data[key]
  {
    if key in data then data[key] else Undefined
  }

  /** The module-level `sensorData` object. `rain` is absent from the initial
      object, which reads as `Undefined`; the timestamp is `Date.now()`. */
  datatype SensorData = SensorData(
    temp: JsValue, hum: JsValue, soil: JsValue, level: JsValue,
    rain: JsValue, flow: JsValue, timestamp: int)

  function InitialSensorData(now: int): (d: SensorData)
    ensures Truthy(d.temp) && Truthy(d.hum) && Truthy(d.soil) && Truthy(d.level)
    ensures !Truthy(d.flow) && d.rain == Undefined && d.timestamp == now
  {
    SensorData(Num(24.0), Num(66.0), Num(60.0), Num(56.0), Undefined, Num(0.0), now)
  }

  function TempAliases(data: map<string, JsValue>): seq<JsValue> { [Get(data, "temp"), Get(data, "temperature")] }
  function HumAliases(data: map<string, JsValue>): seq<JsValue> { [Get(data, "hum"), Get(data, "humidity")] }
  function SoilAliases(data: map<string, JsValue>): seq<JsValue> { [Get(data, "soil"), Get(data, "soilMoisture")] }
  function LevelAliases(data: map<string, JsValue>): seq<JsValue> {
    [Get(data, "level"), Get(data, "waterLevel"), Get(data, "water_ml")]
  }
  function FlowAliases(data: map<string, JsValue>): seq<JsValue> { [Get(data, "flow"), Get(data, "flowRate")] }

  /** The new `sensorData` built from a decoded message `data`: every field
      takes its first truthy alias, else the previous value; `rain` falls
      back to the previous rain and then to 0; the timestamp is refreshed. */
  function Merge(prev: SensorData, data: map<string, JsValue>, now: int): (r: SensorData)
    ensures PicksFirstTruthy(TempAliases(data), prev.temp, r.temp)
    ensures PicksFirstTruthy(HumAliases(data), prev.hum, r.hum)
    ensures PicksFirstTruthy(SoilAliases(data), prev.soil, r.soil)
    ensures PicksFirstTruthy(LevelAliases(data), prev.level, r.level)
    ensures PicksFirstTruthy(FlowAliases(data), prev.flow, r.flow)
    ensures PicksFirstTruthy([Get(data, "rain"), prev.rain], Num(0.0), r.rain)
    ensures r.timestamp == now
  {
    SensorData(
      OrChain(TempAliases(data), prev.temp),
      OrChain(HumAliases(data), prev.hum),
      OrChain(SoilAliases(data), prev.soil),
      OrChain(LevelAliases(data), prev.level),
      OrChain([Get(data, "rain"), prev.rain], Num(0.0)),
      OrChain(FlowAliases(data), prev.flow),
      now)
  }

  ghost predicate NoneTruthy(vs: seq<JsValue>) {
    forall i | 0 <= i < |vs| :: !Truthy(vs[i])
  }

  /** A field whose aliases are all falsy in the message (missing, 0, "",
      null, false) keeps its stored value; so does `rain`, except that a
      falsy stored rain becomes 0. */
  lemma FalsyReadingKeepsPrevious(prev: SensorData, data: map<string, JsValue>, now: int)
    ensures var r := Merge(prev, data, now);
      && (NoneTruthy(TempAliases(data)) ==> r.temp == prev.temp)
      && (NoneTruthy(HumAliases(data)) ==> r.hum == prev.hum)
      && (NoneTruthy(SoilAliases(data)) ==> r.soil == prev.soil)
      && (NoneTruthy(LevelAliases(data)) ==> r.level == prev.level)
      && (NoneTruthy(FlowAliases(data)) ==> r.flow == prev.flow)
      && (!Truthy(Get(data, "rain")) ==> r.rain == (if Truthy(prev.rain) then prev.rain else Num(0.0)))
  {
    var rain := [Get(data, "rain"), prev.rain];
    assert rain[0] == Get(data, "rain") && rain[1] == prev.rain;
  }

  /** The case the sensor handler meets most: a `temp` of 0 with no
      `temperature` key leaves the stored temperature as it was. */
  lemma ZeroTempKeepsPrevious(prev: SensorData, data: map<string, JsValue>, now: int)
    requires Get(data, "temp") == Num(0.0) && "temperature" !in data
    ensures Merge(prev, data, now).temp == prev.temp
  {
    FalsyReadingKeepsPrevious(prev, data, now);
  }

  /** A field that held a truthy value never becomes falsy again, and `rain`
      is never `undefined` after the first message. */
  lemma {:induction false} MergeKeepsTruthy(prev: SensorData, data: map<string, JsValue>, now: int)
    ensures var r := Merge(prev, data, now);
      && (Truthy(prev.temp) ==> Truthy(r.temp))
      && (Truthy(prev.hum) ==> Truthy(r.hum))
      && (Truthy(prev.soil) ==> Truthy(r.soil))
      && (Truthy(prev.level) ==> Truthy(r.level))
      && (Truthy(prev.flow) ==> Truthy(r.flow))
      && (Truthy(prev.rain) ==> Truthy(r.rain))
      && (Truthy(r.rain) || r.rain == Num(0.0))
  {
    var r := Merge(prev, data, now);
    OrChainTruthyOrLast(TempAliases(data), prev.temp);
    OrChainTruthyOrLast(HumAliases(data), prev.hum);
    OrChainTruthyOrLast(SoilAliases(data), prev.soil);
    OrChainTruthyOrLast(LevelAliases(data), prev.level);
    OrChainTruthyOrLast(FlowAliases(data), prev.flow);
    OrChainTruthyOrLast([Get(data, "rain"), prev.rain], Num(0.0));
    OrChainTruthyOrLast([Get(data, "rain")], prev.rain);
  }

  /** `a || ... || last` is either truthy or `last`. */
  lemma {:induction false} OrChainTruthyOrLast(vs: seq<JsValue>, last: JsValue)
    ensures Truthy(OrChain(vs, last)) || OrChain(vs, last) == last
  {
    if vs != [] && !Truthy(vs[0]) {
      OrChainTruthyOrLast(vs[1..], last);
    }
  }
}
