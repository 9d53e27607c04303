/** The device registry: the `MqttTopic` and `RcCode` records and the
    lookups the services run against them. The registry is a read-only
    snapshot for the length of one operation. */
module Models {
  import opened Data

  /** The keys of `MqttTopic.alice_data` that the services read. */
  datatype AliceData = AliceData(
    deviceType: Option<Json>,   // `type`; None when the key is absent
    capabilities: seq<Json>,    // `capabilities`; empty when absent, null or empty
    properties: seq<Json>,      // `properties`; likewise
    multiple: Json)             // `multiple`; JNull when absent

  /** An `MqttTopic` row. */
  datatype Device = Device(
    group: Option<string>,      // the `MqttGroup` name; None when the foreign key is null
    topic: string,
    unitId: Option<int>,
    channel: Option<int>,
    description: Option<string>,
    alice: bool,
    aliceData: AliceData,
    aliceName: Option<string>,
    aliceRoom: Option<string>,
    strId: string)

  /** `MqttTopic.group_name`: `str(self.group)`, which is "None" for a
      device without a group. */
  function GroupName(d: Device): string
  {
    match d.group
    case Some(g) => g
    case None => "None"
  }

  /** The bus-qualified topic `<group>/<topic>`: the device's MQTT topic and
      its state-cache key. */
  function StateKey(d: Device): string
  {
    GroupName(d) + "/" + d.topic
  }

  /** The `MqttTopic` table in primary-key order. */
  type Registry = seq<Device>

  /** The `RcCode` table: raw RF code to the linked device (None when the
      foreign key is null). */
  type RcCodes = map<string, Option<Device>>

  /** `.filter(...).first()`: the first row in key order that matches. */
  function First(db: Registry, matches: Device -> bool): (r: Option<Device>)
    ensures r.Some? ==> r.value in db && matches(r.value)
    ensures r.Some? ==> exists k :: 0 <= k < |db| && db[k] == r.value
                          && forall j :: 0 <= j < k ==> !matches(db[j])
    ensures r.None? <==> forall k :: 0 <= k < |db| ==> !matches(db[k])
  {
    if db == [] then None
    else if matches(db[0]) then Some(db[0])
    else First(db[1..], matches)
  }

  /** `MqttTopic.objects.filter(topic=t).first()` */
  function ByTopic(db: Registry, t: string): Option<Device>
  {
    First(db, (d: Device) => d.topic == t)
  }

  /** `MqttTopic.objects.filter(topic=t, group__group=g).first()`: a device
      without a group never matches. */
  function ByTopicAndGroup(db: Registry, t: string, g: string): Option<Device>
  {
    First(db, (d: Device) => d.topic == t && d.group == Some(g))
  }

  /** `MqttTopic.objects.filter(str_id=id, alice=True).first()` */
  function AliceByStrId(db: Registry, id: string): Option<Device>
  {
    First(db, (d: Device) => d.strId == id && d.alice)
  }
}
