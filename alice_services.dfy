/** The voice-assistant translator: the device list, per-device state
    queries and actions, and the batch over many device ids.

    A query gives up on the whole device at the first capability or
    property it cannot resolve; an action reports every capability on its
    own. Both read and write device state only through `HwRequest` and the
    shared cache of the `World`. */
module AliceServices {
  import opened Data
  import opened TtlCache
  import opened Models
  import opened HardwareApi

  const OnOffType: Json := JStr("devices.capabilities.on_off")
  const FloatType: Json := JStr("devices.properties.float")

  // ---------------------------------------------------------------------
  // Device list

  /** One entry of the `GET v1.0/user/devices` answer. */
  datatype ListedDevice = ListedDevice(
    deviceType: Json,
    id: string,
    name: Option<string>,
    description: Option<string>,
    room: Option<string>,
    mqtt: string,               // custom_data.mqtt
    capabilities: seq<Json>,
    properties: seq<Json>)

  /** The registry filter `alice=True, alice_data__has_key='type'`. */
  predicate Listed(d: Device)
  {
    d.alice && d.aliceData.deviceType.Some?
  }

  function Describe(d: Device): ListedDevice
    requires Listed(d)
  {
    ListedDevice(d.aliceData.deviceType.value, d.strId, d.aliceName, d.description, d.aliceRoom,
                 StateKey(d), d.aliceData.capabilities, d.aliceData.properties)
  }

  /** The device list for a registry, in registry order. */
  function Catalogue(db: Registry): seq<ListedDevice>
  {
    if db == [] then []
    else
      var last := db[|db| - 1];
      Catalogue(db[..|db| - 1]) + (if Listed(last) then [Describe(last)] else [])
  }

  /** `make_alice_device_list`: walk the registry, build each entry, and
      copy its capabilities and properties one by one. */
  method MakeAliceDeviceList(db: Registry) returns (summary: seq<ListedDevice>)
    ensures summary == Catalogue(db)
  {
    summary := [];
    var i := 0;
    while i < |db|
      invariant 0 <= i <= |db|
      invariant summary == Catalogue(db[..i])
    {
      assert db[..i + 1][..i] == db[..i];
      var d := db[i];
      if Listed(d) {
        var capabilities: seq<Json> := [];
        var all := d.aliceData.capabilities;
        var k := 0;
        while k < |all|
          invariant 0 <= k <= |all| && capabilities == all[..k]
        {
          capabilities := capabilities + [all[k]];
          k := k + 1;
        }
        assert all[..k] == all;
        var properties: seq<Json> := [];
        all := d.aliceData.properties;
        k := 0;
        while k < |all|
          invariant 0 <= k <= |all| && properties == all[..k]
        {
          properties := properties + [all[k]];
          k := k + 1;
        }
        assert all[..k] == all;
        summary := summary + [ListedDevice(d.aliceData.deviceType.value, d.strId, d.aliceName, d.description,
                                           d.aliceRoom, GroupName(d) + "/" + d.topic, capabilities, properties)];
      }
      i := i + 1;
    }
    assert db[..|db|] == db;
  }

  /** Every listed entry comes from an `alice` device that declares a type,
      and carries that device's `<group>/<topic>` and its capabilities and
      properties in their declared order. */
  lemma {:induction false} CatalogueSound(db: Registry, k: nat)
    requires k < |Catalogue(db)|
    ensures exists j :: 0 <= j < |db| && Listed(db[j]) && Catalogue(db)[k] == Describe(db[j])
  {
    var prefix := db[..|db| - 1];
    var last := db[|db| - 1];
    if k < |Catalogue(prefix)| {
      CatalogueSound(prefix, k);
      var j :| 0 <= j < |prefix| && Listed(prefix[j]) && Catalogue(prefix)[k] == Describe(prefix[j]);
      assert db[j] == prefix[j];
    } else {
      assert Listed(last) && Catalogue(db)[k] == Describe(db[|db| - 1]);
    }
  }

  /** Every `alice` device that declares a type is listed. */
  lemma {:induction false} CatalogueComplete(db: Registry, j: nat)
    requires j < |db| && Listed(db[j])
    ensures Describe(db[j]) in Catalogue(db)
  {
    var prefix := db[..|db| - 1];
    if j < |db| - 1 {
      assert prefix[j] == db[j];
      CatalogueComplete(prefix, j);
    }
  }

  /** What a listed entry says about its device. */
  lemma DescribeFields(d: Device)
    requires Listed(d)
    ensures Describe(d).id == d.strId
    ensures Describe(d).mqtt == GroupName(d) + "/" + d.topic
    ensures Describe(d).capabilities == d.aliceData.capabilities
    ensures Describe(d).properties == d.aliceData.properties
  {
  }

  // ---------------------------------------------------------------------
  // Single capability and property state

  /** `cache.get('<group>/<topic>')`, when the cached value is truthy. */
  function CachedState(w: World, d: Device): Option<Json>
  {
    var v := Lookup(w.cache, StateKey(d), w.now);
    if v.Some? && Truthy(v.value) then v else None
  }

  /** `{"instance": "on", "value": value}` */
  function OnOffJson(value: bool): Json
  {
    JObj(map["instance" := JStr("on"), "value" := JBool(value)])
  }

  /** `device_state_cap_on_off`: the on/off state from the cache, or else
      from one status request; `{}` when that request fails. */
  function StateCapOnOff(w: World, d: Device): (r: (Json, World))
    // A cache hit issues no request; a miss issues exactly one status read.
    ensures CachedState(w, d).Some? ==> r.1 == w
    ensures CachedState(w, d).None? ==>
              r.1.requests == w.requests + [RequestUrl(w.apiBase, d, "status")]
    // `{}` exactly when there was no cached state and the read failed.
    ensures r.0 == EmptyObject <==> CachedState(w, d).None? && !HwRequest(w, d, JStr("status")).0.Ok?
    // Otherwise the value is true exactly when the status now cached is 1.
    ensures r.0 != EmptyObject ==>
              && Lookup(r.1.cache, StateKey(d), w.now).Some?
              && r.0 == OnOffJson(EqualsOne(Field(Lookup(r.1.cache, StateKey(d), w.now).value, "status")))
    ensures r.1.apiBase == w.apiBase && r.1.now == w.now
  {
    match CachedState(w, d)
    case Some(cached) =>
      var value := EqualsOne(Field(cached, "status"));
      assert "instance" in OnOffJson(value).fields;
      (OnOffJson(value), w)
    case None =>
      var (reply, w1) := HwRequest(w, d, JStr("status"));
      if !reply.Ok? then (EmptyObject, w1)
      else
        var value := EqualsOne(Field(reply.data, "status"));
        assert "instance" in OnOffJson(value).fields;
        (OnOffJson(value), w1)
  }

  /** Python's `*` on the numbers a status and a multiplier can be (a bool
      counts as 0 or 1). Other operands are not modelled and give null. */
  function Times(a: Json, b: Json): Json
  {
    match (Numeric(a), Numeric(b))
    case (JNum(x), JNum(y)) => JNum(x * y)
    case (JNum(x), JReal(y)) => JReal(x as real * y)
    case (JReal(x), JNum(y)) => JReal(x * y as real)
    case (JReal(x), JReal(y)) => JReal(x * y)
    case _ => JNull
  }

  /** A bool as the integer Python takes it for in arithmetic. */
  function Numeric(a: Json): Json
  {
    if a.JBool? then JNum(if a.b then 1 else 0) else a
  }

  /** `alice_data.get('multiple') or 1` */
  function Multiplier(d: Device): Json
  {
    if Truthy(d.aliceData.multiple) then d.aliceData.multiple else JNum(1)
  }

  /** A raw reply as the assistant sees it: a reply with a `status` becomes
      `{"value": status * multiple, "instance": instance}`; any other reply
      is passed on unchanged. */
  function FloatState(reply: Json, d: Device, instance: Json): Json
  {
    if HasKey(reply, "status") then
      JObj(map["value" := Times(Field(reply, "status"), Multiplier(d)), "instance" := instance])
    else reply
  }

  /** `devices_properties_float`: like the on/off state, the reply comes
      from the cache or from one status request, and is then rescaled. */
  function PropertyFloat(w: World, d: Device, instance: Json): (r: (Json, World))
    ensures CachedState(w, d).Some? ==> r.1 == w
    ensures CachedState(w, d).None? ==>
              r.1.requests == w.requests + [RequestUrl(w.apiBase, d, "status")]
    // A failed read gives `{}`.
    ensures CachedState(w, d).None? && !HwRequest(w, d, JStr("status")).0.Ok? ==> r.0 == EmptyObject
    // Otherwise the state is the rescaled reply, which is now in the cache.
    ensures CachedState(w, d).Some? || HwRequest(w, d, JStr("status")).0.Ok? ==>
              && Lookup(r.1.cache, StateKey(d), w.now).Some?
              && r.0 == FloatState(Lookup(r.1.cache, StateKey(d), w.now).value, d, instance)
    ensures r.1.apiBase == w.apiBase && r.1.now == w.now
  {
    match CachedState(w, d)
    case Some(cached) => (FloatState(cached, d, instance), w)
    case None =>
      var (reply, w1) := HwRequest(w, d, JStr("status"));
      if !reply.Ok? then (EmptyObject, w1)
      else (FloatState(reply.data, d, instance), w1)
  }

  /** The rescaling rule: with a `status`, the value is status times the
      multiplier (1 when none is declared) and the instance is the caller's;
      without one, the reply is returned as it came. */
  lemma FloatStateRule(reply: Json, d: Device, instance: Json)
    ensures HasKey(reply, "status") ==>
              && Field(FloatState(reply, d, instance), "value") == Times(Field(reply, "status"), Multiplier(d))
              && Field(FloatState(reply, d, instance), "instance") == instance
    ensures !HasKey(reply, "status") ==> FloatState(reply, d, instance) == reply
    ensures !Truthy(d.aliceData.multiple) ==> Multiplier(d) == JNum(1)
  {
  }

  /** A socket voltage sensor that reports status 1 with multiplier 220
      shows 220; status 0 shows 0; without a multiplier status 1 shows 1. */
  lemma ScaleExamples(d: Device)
    ensures d.aliceData.multiple == JNum(220) ==> Times(JNum(1), Multiplier(d)) == JNum(220)
    ensures d.aliceData.multiple == JNum(220) ==> Times(JNum(0), Multiplier(d)) == JNum(0)
    ensures d.aliceData.multiple == JNull ==> Times(JNum(1), Multiplier(d)) == JNum(1)
  {
  }

  // ---------------------------------------------------------------------
  // Query of one device

  /** One resolved entry: `{"type": kind, "state": state}`. */
  datatype QueryItem = QueryItem(kind: Json, state: Json)

  /** What `query_single_device_state` returns: the configuration error
      dict from `error_handler`, `{}`, or a list of states. */
  datatype QueryReply =
    | Misconfigured(id: string)   // {id, error_code: DEVICE_UNREACHABLE, error_message: "Error device configure :("}
    | NoState                     // {}
    | States(items: seq<QueryItem>)

  /** Python truthiness of a query reply. */
  predicate Answered(r: QueryReply)
  {
    match r
    case Misconfigured(_) => true
    case NoState => false
    case States(items) => items != []
  }

  /** The walk over one list of declared entries so far: the states
      resolved, or the reply the device gave up with. */
  datatype Walk = Continue(items: seq<QueryItem>) | Stop(reply: QueryReply)

  /** The state of one declared entry whose type is truthy; `{}` for a
      type this bridge does not serve. */
  function EntryState(w: World, d: Device, entry: Json, isCapability: bool): (r: (Json, World))
    ensures r.1.apiBase == w.apiBase && r.1.now == w.now
  {
    var kind := Field(entry, "type");
    if isCapability then
      (if kind == OnOffType then StateCapOnOff(w, d) else (EmptyObject, w))
    else
      (if kind == FloatType then PropertyFloat(w, d, Field(Field(entry, "parameters"), "instance")) else (EmptyObject, w))
  }

  /** The walk over `entries` in order, stopping at the first entry without
      a type (configuration error) or without a state (`{}`). */
  function QueryWalk(w: World, d: Device, entries: seq<Json>, isCapability: bool): (r: (Walk, World))
    ensures r.1.apiBase == w.apiBase && r.1.now == w.now
    decreases |entries|
  {
    if entries == [] then (Continue([]), w)
    else
      var (acc, w1) := QueryWalk(w, d, entries[..|entries| - 1], isCapability);
      if acc.Stop? then (acc, w1)
      else
        var entry := entries[|entries| - 1];
        var kind := Field(entry, "type");
        if !Truthy(kind) then (Stop(Misconfigured(d.strId)), w1)
        else
          var (state, w2) := EntryState(w1, d, entry, isCapability);
          if !Truthy(state) then (Stop(NoState), w2)
          else (Continue(acc.items + [QueryItem(kind, state)]), w2)
  }

  /** The query of one device: capabilities first, then properties, and the
      capability states if there are any, else the property states. */
  function Query(w: World, d: Device): (r: (QueryReply, World))
    ensures r.1.apiBase == w.apiBase && r.1.now == w.now
  {
    var capabilities := d.aliceData.capabilities;
    var properties := d.aliceData.properties;
    if capabilities == [] && properties == [] then (Misconfigured(d.strId), w)
    else
      var (c, w1) := QueryWalk(w, d, capabilities, true);
      if c.Stop? then (c.reply, w1)
      else
        var (p, w2) := QueryWalk(w1, d, properties, false);
        if p.Stop? then (p.reply, w2)
        else (States(if c.items != [] then c.items else p.items), w2)
  }

  /** Once the walk has stopped on a prefix, the walk over the whole list
      stops with the same reply and nothing more is requested. */
  lemma {:induction false} StopPersists(w: World, d: Device, entries: seq<Json>, isCapability: bool, n: nat)
    requires n <= |entries|
    requires QueryWalk(w, d, entries[..n], isCapability).0.Stop?
    ensures QueryWalk(w, d, entries, isCapability) == QueryWalk(w, d, entries[..n], isCapability)
    decreases |entries| - n
  {
    if n < |entries| {
      var longer := entries[..|entries| - 1];
      assert longer[..n] == entries[..n];
      StopPersists(w, d, longer, isCapability, n);
    } else {
      assert entries[..n] == entries;
    }
  }

  /** One of `query_single_device_state`'s two loops: the declared
      entries in order, returning early at the first without a type or
      without a state. */
  method WalkEntries(w: World, d: Device, entries: seq<Json>, isCapability: bool) returns (walk: Walk, w': World)
    ensures (walk, w') == QueryWalk(w, d, entries, isCapability)
  {
    w' := w;
    var resolved: seq<QueryItem> := [];
    var i := 0;
    while i < |entries|
      invariant 0 <= i <= |entries|
      invariant QueryWalk(w, d, entries[..i], isCapability) == (Continue(resolved), w')
    {
      assert entries[..i + 1][..i] == entries[..i];
      var entry := entries[i];
      var kind := Field(entry, "type");
      if !Truthy(kind) {
        StopPersists(w, d, entries, isCapability, i + 1);
        return Stop(Misconfigured(d.strId)), w';
      }
      var (state, w1) := EntryState(w', d, entry, isCapability);
      w' := w1;
      if !Truthy(state) {
        StopPersists(w, d, entries, isCapability, i + 1);
        return Stop(NoState), w';
      }
      resolved := resolved + [QueryItem(kind, state)];
      i := i + 1;
    }
    assert entries[..i] == entries;
    walk := Continue(resolved);
  }

  /** `query_single_device_state`: capabilities, then properties. */
  method QuerySingleDeviceState(w: World, d: Device) returns (reply: QueryReply, w': World)
    ensures (reply, w') == Query(w, d)
  {
    var capabilities := d.aliceData.capabilities;
    var properties := d.aliceData.properties;
    if capabilities == [] && properties == [] {
      return Misconfigured(d.strId), w;
    }
    var returnCapabilities;
    returnCapabilities, w' := WalkEntries(w, d, capabilities, true);
    if returnCapabilities.Stop? {
      return returnCapabilities.reply, w';
    }
    var returnProperties;
    returnProperties, w' := WalkEntries(w', d, properties, false);
    if returnProperties.Stop? {
      return returnProperties.reply, w';
    }
    reply := States(if returnCapabilities.items != [] then returnCapabilities.items else returnProperties.items);
  }

  /** A walk that runs to the end resolved every entry: one state per entry,
      in order, each of the one type served for that list, each non-empty. */
  lemma {:induction false} WalkCompleteResolvesAll(w: World, d: Device, entries: seq<Json>, isCapability: bool)
    requires QueryWalk(w, d, entries, isCapability).0.Continue?
    ensures var items := QueryWalk(w, d, entries, isCapability).0.items;
      && |items| == |entries|
      && forall k :: 0 <= k < |items| ==>
           && items[k].kind == Field(entries[k], "type")
           && items[k].kind == (if isCapability then OnOffType else FloatType)
           && Truthy(items[k].state)
  {
    if entries != [] {
      var prefix := entries[..|entries| - 1];
      WalkCompleteResolvesAll(w, d, prefix, isCapability);
    }
  }

  /** The abort rules of a query. A device declaring nothing is a
      configuration error and issues no request. A list of states is only
      ever returned whole: every declared capability is on/off and every
      declared property is a float, each resolved, and the list is the
      capabilities' when there are any, else the properties'. */
  lemma QueryAbortRules(w: World, d: Device)
    ensures d.aliceData.capabilities == [] && d.aliceData.properties == [] ==>
              Query(w, d) == (Misconfigured(d.strId), w)
    ensures Query(w, d).0.States? ==>
              var items := Query(w, d).0.items;
              var capabilities := d.aliceData.capabilities;
              var properties := d.aliceData.properties;
              && (forall k :: 0 <= k < |capabilities| ==> Field(capabilities[k], "type") == OnOffType)
              && (forall k :: 0 <= k < |properties| ==> Field(properties[k], "type") == FloatType)
              && (capabilities != [] ==> |items| == |capabilities|)
              && (capabilities == [] ==> |items| == |properties|)
              && forall k :: 0 <= k < |items| ==> Truthy(items[k].state)
    ensures Query(w, d).0.Misconfigured? ==> Query(w, d).0.id == d.strId
  {
    var capabilities := d.aliceData.capabilities;
    var properties := d.aliceData.properties;
    if !(capabilities == [] && properties == []) {
      var (c, w1) := QueryWalk(w, d, capabilities, true);
      if c.Stop? {
        WalkStopsWithoutStates(w, d, capabilities, true);
      } else {
        WalkCompleteResolvesAll(w, d, capabilities, true);
        var (p, w2) := QueryWalk(w1, d, properties, false);
        if p.Stop? {
          WalkStopsWithoutStates(w1, d, properties, false);
        } else {
          WalkCompleteResolvesAll(w1, d, properties, false);
          forall k | 0 <= k < |capabilities|
            ensures Field(capabilities[k], "type") == OnOffType
          {
            assert c.items[k].kind == Field(capabilities[k], "type");
          }
          forall k | 0 <= k < |properties|
            ensures Field(properties[k], "type") == FloatType
          {
            assert p.items[k].kind == Field(properties[k], "type");
          }
        }
      }
    }
  }

  /** A walk that stops answers with the configuration error or `{}`,
      never with a list of states. */
  lemma {:induction false} WalkStopsWithoutStates(w: World, d: Device, entries: seq<Json>, isCapability: bool)
    requires QueryWalk(w, d, entries, isCapability).0.Stop?
    ensures QueryWalk(w, d, entries, isCapability).0.reply in {Misconfigured(d.strId), NoState}
  {
    var prefix := entries[..|entries| - 1];
    if QueryWalk(w, d, prefix, isCapability).0.Stop? {
      WalkStopsWithoutStates(w, d, prefix, isCapability);
    }
  }

  /** A device whose declared entries all have a type never answers with
      the configuration error. */
  lemma {:induction false} TypedEntriesNeverMisconfigured(w: World, d: Device, entries: seq<Json>, isCapability: bool)
    requires forall k :: 0 <= k < |entries| ==> Truthy(Field(entries[k], "type"))
    ensures !(QueryWalk(w, d, entries, isCapability).0 == Stop(Misconfigured(d.strId)))
  {
    if entries != [] {
      var prefix := entries[..|entries| - 1];
      TypedEntriesNeverMisconfigured(w, d, prefix, isCapability);
    }
  }

  // ---------------------------------------------------------------------
  // Action on one device

  /** `action_result`: DONE, or ERROR with DEVICE_UNREACHABLE and
      "Can't set new state :(". */
  datatype ActionStatus = Done | Error

  /** `device_action_cap_on_off`: write `on` when the requested value is
      truthy, `off` otherwise, and report whether the hardware took it. */
  function ActionCapOnOff(w: World, d: Device, state: Json): (r: (ActionStatus, World))
    ensures var command := if Truthy(Field(state, "value")) then "on" else "off";
      && r.1.requests == w.requests + [RequestUrl(w.apiBase, d, command)]
      && (r.0 == Done <==> HwRequest(w, d, JStr(command)).0.Ok?)
    ensures r.1.apiBase == w.apiBase && r.1.now == w.now
  {
    var command := if Truthy(Field(state, "value")) then "on" else "off";
    var (reply, w1) := HwRequest(w, d, JStr(command));
    (if reply.Ok? then Done else Error, w1)
  }

  /** An action never reads the cache: what it does and reports does not
      depend on the cached state. */
  lemma ActionIgnoresCache(w: World, d: Device, state: Json, cache: map<string, Entry<Json>>)
    ensures ActionCapOnOff(w, d, state).0 == ActionCapOnOff(w.(cache := cache), d, state).0
    ensures ActionCapOnOff(w, d, state).1.requests == ActionCapOnOff(w.(cache := cache), d, state).1.requests
  {
  }

  /** One entry of an action answer: `{"type": kind, "state": ...}` with
      the state `{}` (None) for a type this bridge does not serve. */
  datatype ActionItem = ActionItem(kind: Json, state: Option<ActionStatus>)

  function ActionEntry(w: World, d: Device, requested: Json): (r: (ActionItem, World))
    ensures r.1.apiBase == w.apiBase && r.1.now == w.now
  {
    var kind := Field(requested, "type");
    if kind == OnOffType then
      var (status, w1) := ActionCapOnOff(w, d, Field(requested, "state"));
      (ActionItem(kind, Some(status)), w1)
    else (ActionItem(kind, None), w)
  }

  /** The action over every requested capability, in order. */
  function ActionWalk(w: World, d: Device, requested: seq<Json>): (r: (seq<ActionItem>, World))
    ensures r.1.apiBase == w.apiBase && r.1.now == w.now
    decreases |requested|
  {
    if requested == [] then ([], w)
    else
      var (items, w1) := ActionWalk(w, d, requested[..|requested| - 1]);
      var (item, w2) := ActionEntry(w1, d, requested[|requested| - 1]);
      (items + [item], w2)
  }

  /** How many requested capabilities are on/off. */
  function OnOffCount(requested: seq<Json>): nat
  {
    if requested == [] then 0
    else OnOffCount(requested[..|requested| - 1]) + (if Field(requested[|requested| - 1], "type") == OnOffType then 1 else 0)
  }

  /** `action_single_device` */
  method ActionSingleDevice(w: World, d: Device, requested: seq<Json>) returns (items: seq<ActionItem>, w': World)
    ensures (items, w') == ActionWalk(w, d, requested)
  {
    items, w' := [], w;
    var i := 0;
    while i < |requested|
      invariant 0 <= i <= |requested|
      invariant ActionWalk(w, d, requested[..i]) == (items, w')
    {
      assert requested[..i + 1][..i] == requested[..i];
      var newState: Option<ActionStatus> := None;
      var kind := Field(requested[i], "type");
      if kind == OnOffType {
        var status;
        status, w' := ActionCapOnOff(w', d, Field(requested[i], "state")).0,
                      ActionCapOnOff(w', d, Field(requested[i], "state")).1;
        newState := Some(status);
      }
      items := items + [ActionItem(kind, newState)];
      i := i + 1;
    }
    assert requested[..i] == requested;
  }

  /** An action answers every requested capability, in order, on its own:
      a state for each on/off capability and `{}` for any other type, with
      exactly one write request per on/off capability and none otherwise. */
  lemma {:induction false} ActionAnswersEach(w: World, d: Device, requested: seq<Json>)
    ensures var (items, w') := ActionWalk(w, d, requested);
      && |items| == |requested|
      && (forall k :: 0 <= k < |items| ==>
            && items[k].kind == Field(requested[k], "type")
            && (items[k].state.Some? <==> Field(requested[k], "type") == OnOffType)
            && (items[k].state.Some? ==>
                  items[k].state.value ==
                    ActionCapOnOff(ActionWalk(w, d, requested[..k]).1, d, Field(requested[k], "state")).0))
      && |w'.requests| == |w.requests| + OnOffCount(requested)
      && w'.apiBase == w.apiBase && w'.now == w.now
  {
    ActionShape(w, d, requested);
    forall k | 0 <= k < |requested| && ActionWalk(w, d, requested).0[k].state.Some?
      ensures ActionWalk(w, d, requested).0[k].state.value ==
                ActionCapOnOff(ActionWalk(w, d, requested[..k]).1, d, Field(requested[k], "state")).0
    {
      ActionItemAt(w, d, requested, k);
    }
  }

  /** The shape part of `ActionAnswersEach`, by induction. */
  lemma {:induction false} ActionShape(w: World, d: Device, requested: seq<Json>)
    ensures var (items, w') := ActionWalk(w, d, requested);
      && |items| == |requested|
      && (forall k :: 0 <= k < |items| ==>
            && items[k].kind == Field(requested[k], "type")
            && (items[k].state.Some? <==> Field(requested[k], "type") == OnOffType))
      && |w'.requests| == |w.requests| + OnOffCount(requested)
  {
    if requested != [] {
      ActionShape(w, d, requested[..|requested| - 1]);
    }
  }

  /** The k-th item of an action is the entry for the k-th requested
      capability, on the world the earlier capabilities left. */
  lemma {:induction false} ActionItemAt(w: World, d: Device, requested: seq<Json>, k: nat)
    requires k < |requested|
    ensures |ActionWalk(w, d, requested).0| == |requested|
    ensures ActionWalk(w, d, requested).0[k] == ActionEntry(ActionWalk(w, d, requested[..k]).1, d, requested[k]).0
    decreases |requested|
  {
    var init := requested[..|requested| - 1];
    ActionShape(w, d, init);
    if k == |requested| - 1 {
      assert requested[..k] == init;
    } else {
      ActionItemAt(w, d, init, k);
      assert init[..k] == requested[..k];
      assert init[k] == requested[k];
    }
  }

  // ---------------------------------------------------------------------
  // Batch over many devices

  datatype Command = QueryCommand | ActionCommand

  /** One device of a validated query or action request: its id and the
      list it carries under `capabilities`, if any. The request serializer
      declares no `properties` field, so a request never carries one. */
  datatype RequestedDevice = RequestedDevice(id: string, capabilities: Option<seq<Json>>)

  /** Where an answer's result is stored. */
  datatype ResultKey = CapabilitiesKey | PropertiesKey

  /** One entry of the batch answer. */
  datatype DeviceAnswer =
    | NotFound(id: string)      // {id, error_code: DEVICE_UNREACHABLE, error_message: "Device not found in DB :("}
    | NoResult(id: string)      // {id, error_code: DEVICE_UNREACHABLE}
    | Queried(id: string, key: ResultKey, reply: QueryReply)
    | Acted(id: string, key: ResultKey, items: seq<ActionItem>)

  /** `properties` when the device declares any, else `capabilities`. */
  function KeyFor(d: Device): ResultKey
  {
    if d.aliceData.properties != [] then PropertiesKey else CapabilitiesKey
  }

  /** The list an action request carries under the device's result key;
      never one for a device that declares properties. */
  function RequestedList(d: Device, r: RequestedDevice): Option<seq<Json>>
  {
    if KeyFor(d) == PropertiesKey then None else r.capabilities
  }

  /** The source iterates that list, so an action needs it for every
      device it finds. */
  predicate ActionListsPresent(db: Registry, devices: seq<RequestedDevice>)
  {
    forall r :: r in devices && AliceByStrId(db, r.id).Some? ==> RequestedList(AliceByStrId(db, r.id).value, r).Some?
  }

  /** The answer for one requested device. */
  function AnswerDevice(w: World, db: Registry, r: RequestedDevice, command: Command): (a: (DeviceAnswer, World))
    requires command == ActionCommand && AliceByStrId(db, r.id).Some? ==> RequestedList(AliceByStrId(db, r.id).value, r).Some?
    // An unknown id is answered without touching the hardware.
    ensures AliceByStrId(db, r.id).None? ==> a == (NotFound(r.id), w)
    ensures a.0.id == r.id
    // A found device is queried once; a non-empty reply is filed under its
    // key, an empty one is answered DEVICE_UNREACHABLE.
    ensures AliceByStrId(db, r.id).Some? && command == QueryCommand ==>
              var d := AliceByStrId(db, r.id).value;
              && a.1 == Query(w, d).1
              && (a.0.NoResult? <==> !Answered(Query(w, d).0))
              && (!a.0.NoResult? ==> a.0 == Queried(r.id, KeyFor(d), Query(w, d).0))
    // A found device acts on its requested list; the items are filed under
    // its key unless there are none.
    ensures AliceByStrId(db, r.id).Some? && command == ActionCommand ==>
              var d := AliceByStrId(db, r.id).value;
              var walk := ActionWalk(w, d, RequestedList(d, r).value);
              && a.1 == walk.1
              && (a.0.NoResult? <==> walk.0 == [])
              && (!a.0.NoResult? ==> a.0 == Acted(r.id, KeyFor(d), walk.0))
    ensures a.1.apiBase == w.apiBase && a.1.now == w.now
  {
    match AliceByStrId(db, r.id)
    case None => (NotFound(r.id), w)
    case Some(d) =>
      if command == QueryCommand then
        var (reply, w1) := Query(w, d);
        (if Answered(reply) then Queried(r.id, KeyFor(d), reply) else NoResult(r.id), w1)
      else
        var (items, w1) := ActionWalk(w, d, RequestedList(d, r).value);
        (if items != [] then Acted(r.id, KeyFor(d), items) else NoResult(r.id), w1)
  }

  /** The batch, device after device. */
  function Batch(w: World, db: Registry, devices: seq<RequestedDevice>, command: Command): (seq<DeviceAnswer>, World)
    requires command == ActionCommand ==> ActionListsPresent(db, devices)
    decreases |devices|
  {
    if devices == [] then ([], w)
    else
      var prefix := devices[..|devices| - 1];
      assert command == ActionCommand ==> ActionListsPresent(db, prefix) by {
        if command == ActionCommand {
          forall k | 0 <= k < |prefix|
            ensures AliceByStrId(db, prefix[k].id).Some? ==>
                      RequestedList(AliceByStrId(db, prefix[k].id).value, prefix[k]).Some?
          {
            assert prefix[k] == devices[k];
          }
        }
      }
      var (answers, w1) := Batch(w, db, prefix, command);
      var (answer, w2) := AnswerDevice(w1, db, devices[|devices| - 1], command);
      (answers + [answer], w2)
  }

  /** A request's action lists stay present in any prefix of it. */
  lemma PresentInPrefix(db: Registry, devices: seq<RequestedDevice>, n: nat)
    requires n <= |devices| && ActionListsPresent(db, devices)
    ensures ActionListsPresent(db, devices[..n])
  {
    forall k | 0 <= k < n
      ensures AliceByStrId(db, devices[..n][k].id).Some? ==>
                RequestedList(AliceByStrId(db, devices[..n][k].id).value, devices[..n][k]).Some?
    {
      assert devices[..n][k] == devices[k];
    }
  }

  /** The body of `parse_devices_query_or_action`'s loop: one requested
      device. */
  method AnswerOne(w: World, db: Registry, r: RequestedDevice, command: Command) returns (answer: DeviceAnswer, w': World)
    requires command == ActionCommand && AliceByStrId(db, r.id).Some? ==> RequestedList(AliceByStrId(db, r.id).value, r).Some?
    ensures (answer, w') == AnswerDevice(w, db, r, command)
  {
    var found := AliceByStrId(db, r.id);
    if found.None? {
      return NotFound(r.id), w;
    }
    var d := found.value;
    var key := CapabilitiesKey;
    if d.aliceData.properties != [] {
      key := PropertiesKey;
    }
    if command == QueryCommand {
      var reply;
      reply, w' := QuerySingleDeviceState(w, d);
      answer := if Answered(reply) then Queried(r.id, key, reply) else NoResult(r.id);
    } else {
      var items;
      items, w' := ActionSingleDevice(w, d, RequestedList(d, r).value);
      answer := if items != [] then Acted(r.id, key, items) else NoResult(r.id);
    }
  }

  /** `parse_devices_query_or_action` */
  method ParseDevicesQueryOrAction(w: World, db: Registry, devices: seq<RequestedDevice>, command: Command)
    returns (answers: seq<DeviceAnswer>, w': World)
    requires command == ActionCommand ==> ActionListsPresent(db, devices)
    ensures (answers, w') == Batch(w, db, devices, command)
  {
    answers, w' := [], w;
    var i := 0;
    while i < |devices|
      invariant 0 <= i <= |devices|
      invariant command == ActionCommand ==> ActionListsPresent(db, devices[..i])
      invariant Batch(w, db, devices[..i], command) == (answers, w')
    {
      assert devices[..i + 1][..i] == devices[..i];
      if command == ActionCommand {
        PresentInPrefix(db, devices, i + 1);
      }
      var answer;
      ghost var before := (answers, w');
      answer, w' := AnswerOne(w', db, devices[i], command);
      assert Batch(w, db, devices[..i + 1], command) == (before.0 + [answer], w') by {
        assert devices[..i + 1][|devices[..i + 1]| - 1] == devices[i];
      }
      answers := answers + [answer];
      i := i + 1;
    }
    assert devices[..i] == devices;
  }

  /** The batch never fails as a whole: one answer per requested id, in
      request order; an id not in the registry is answered "not found", a
      device found but without a result is answered DEVICE_UNREACHABLE,
      and a result is filed under `properties` exactly when the device
      declares properties. */
  lemma {:induction false} BatchAnswersEach(w: World, db: Registry, devices: seq<RequestedDevice>, command: Command)
    requires command == ActionCommand ==> ActionListsPresent(db, devices)
    ensures var answers := Batch(w, db, devices, command).0;
      && |answers| == |devices|
      && forall k :: 0 <= k < |answers| ==>
           && answers[k].id == devices[k].id
           && (answers[k].NotFound? <==> AliceByStrId(db, devices[k].id).None?)
           && (answers[k].Queried? ==>
                 (&& command == QueryCommand && Answered(answers[k].reply)
                  && answers[k].key == KeyFor(AliceByStrId(db, devices[k].id).value)))
           && (answers[k].Acted? ==>
                 (&& command == ActionCommand && answers[k].items != []
                  && answers[k].key == KeyFor(AliceByStrId(db, devices[k].id).value)))
    ensures Batch(w, db, devices, command).1.apiBase == w.apiBase
    decreases |devices|
  {
    if devices != [] {
      var prefix := devices[..|devices| - 1];
      assert command == ActionCommand ==> ActionListsPresent(db, prefix) by {
        if command == ActionCommand {
          forall k | 0 <= k < |prefix|
            ensures AliceByStrId(db, prefix[k].id).Some? ==>
                      RequestedList(AliceByStrId(db, prefix[k].id).value, prefix[k]).Some?
          {
            assert prefix[k] == devices[k];
          }
        }
      }
      BatchAnswersEach(w, db, prefix, command);
    }
  }

  /** Each device is answered in turn, on the world the devices before it
      left: the k-th answer is the answer for the k-th requested device. */
  lemma BatchAnswersInTurn(w: World, db: Registry, devices: seq<RequestedDevice>, command: Command)
    requires command == ActionCommand ==> ActionListsPresent(db, devices)
    ensures |Batch(w, db, devices, command).0| == |devices|
    ensures forall k :: 0 <= k < |devices| ==>
              Batch(w, db, devices, command).0[k] ==
                AnswerDevice(Batch(w, db, devices[..k], command).1, db, devices[k], command).0
  {
    BatchAnswersEach(w, db, devices, command);
    forall k | 0 <= k < |devices|
      ensures Batch(w, db, devices, command).0[k] ==
                AnswerDevice(Batch(w, db, devices[..k], command).1, db, devices[k], command).0
    {
      BatchAnswerAt(w, db, devices, command, k);
    }
  }

  /** The k-th answer of a batch, one index at a time. */
  lemma {:induction false} BatchAnswerAt(w: World, db: Registry, devices: seq<RequestedDevice>, command: Command, k: nat)
    requires command == ActionCommand ==> ActionListsPresent(db, devices)
    requires k < |devices|
    ensures command == ActionCommand ==> ActionListsPresent(db, devices[..k])
    ensures |Batch(w, db, devices, command).0| == |devices|
    ensures Batch(w, db, devices, command).0[k] ==
              AnswerDevice(Batch(w, db, devices[..k], command).1, db, devices[k], command).0
    decreases |devices|
  {
    var prefix := devices[..|devices| - 1];
    if command == ActionCommand {
      PresentInPrefix(db, devices, |devices| - 1);
      PresentInPrefix(db, devices, k);
    }
    BatchAnswersEach(w, db, prefix, command);
    if k == |devices| - 1 {
      assert devices[..k] == prefix;
    } else {
      BatchAnswerAt(w, db, prefix, command, k);
      assert prefix[..k] == devices[..k];
      assert prefix[k] == devices[k];
    }
  }

  /** A found device that declares neither capabilities nor properties
      answers a query with the configuration error, filed under
      `capabilities`, and issues no request. */
  lemma UndeclaredDeviceAnswer(w: World, db: Registry, r: RequestedDevice)
    requires AliceByStrId(db, r.id).Some?
    requires AliceByStrId(db, r.id).value.aliceData.capabilities == []
    requires AliceByStrId(db, r.id).value.aliceData.properties == []
    ensures AnswerDevice(w, db, r, QueryCommand) ==
              (Queried(r.id, CapabilitiesKey, Misconfigured(AliceByStrId(db, r.id).value.strId)), w)
  {
  }
}
