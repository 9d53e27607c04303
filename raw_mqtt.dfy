/** The raw bus command dispatcher: a message `(topic, payload)` arriving
    from the bridge is resolved to a registry device (by RF code, by
    `<group>/<topic>` or by bare topic), its command is chosen and its
    addressing checked, and the command is sent to the hardware, a roller
    shutter first switching its opposite motor off. */
module RawMqtt {
  import opened Data
  import opened Text
  import opened Models
  import opened HardwareApi

  // ---------------------------------------------------------------------
  // Roller shutters

  /** The name of the opposite motor of a roller shutter: `<x>_up` pairs
      with `<x>_down`; any other name has its last five characters replaced
      by `_up`. */
  function RollPartner(topic: string): string
  {
    if EndsWith(topic, "_up") then DropLast(topic, 3) + "_down"
    else DropLast(topic, 5) + "_up"
  }

  /** For the names the rule is meant for, the pairing is symmetric: each
      motor's partner names it back, and the partner runs the other way. */
  lemma {:induction false} RollPartnerInvolution(topic: string)
    requires EndsWith(topic, "_up") || EndsWith(topic, "_down")
    ensures RollPartner(RollPartner(topic)) == topic
    ensures EndsWith(topic, "_up") ==> EndsWith(RollPartner(topic), "_down")
    ensures EndsWith(topic, "_down") ==> EndsWith(RollPartner(topic), "_up")
  {
    var p := RollPartner(topic);
    if EndsWith(topic, "_up") {
      var stem := topic[..|topic| - 3];
      assert topic == stem + "_up";
      assert p == stem + "_down";
      assert p[|p| - 3..] == "own";
      assert p[|p| - 5..] == "_down";
      assert DropLast(p, 5) == stem;
    } else {
      var stem := topic[..|topic| - 5];
      assert topic == stem + "_down";
      assert p == stem + "_up";
      assert p[|p| - 3..] == "_up";
      assert DropLast(p, 3) == stem;
    }
  }

  /** `switch_roll`: what switching the opposite motor off does to the
      world. */
  function RollSwitched(w: World, db: Registry, topic: string): (w': World)
    // Only a partner present in the registry is switched, and only off.
    ensures ByTopic(db, RollPartner(topic)).None? ==> w' == w
    ensures ByTopic(db, RollPartner(topic)).Some? ==>
              w'.requests == w.requests + [RequestUrl(w.apiBase, ByTopic(db, RollPartner(topic)).value, "off")]
    ensures w'.apiBase == w.apiBase && w'.now == w.now
  {
    match ByTopic(db, RollPartner(topic))
    case None => w
    case Some(partner) => HwRequest(w, partner, JStr("off")).1
  }

  /** `switch_roll` */
  method SwitchRoll(w: World, db: Registry, topic: string) returns (w': World)
    ensures w' == RollSwitched(w, db, topic)
  {
    var switchTopic := DropLast(topic, 5) + "_up";
    if EndsWith(topic, "_up") {
      switchTopic := DropLast(topic, 3) + "_down";
    }
    var switchTopicDetail := ByTopic(db, switchTopic);
    if switchTopicDetail.None? {
      return w;
    }
    var response;
    response, w' := MakeHwApiRequest(w, switchTopicDetail.value, JStr("off"));
  }

  // ---------------------------------------------------------------------
  // Dispatch

  /** A validated raw message; `payload` is JNull when the message has
      none. */
  datatype RawMessage = RawMessage(topic: string, payload: Json)

  /** The text a JSON value is compared as against the character column
      `RcCode.code`. */
  function CodeText(raw: Json): Option<string>
  {
    match raw
    case JStr(s) => Some(s)
    case JNum(n) => Some(IntToString(n))
    case JBool(b) => Some(if b then "True" else "False")
    case _ => None
  }

  /** `RcCode.objects.filter(code=raw).first()`: the row's linked device
      (itself optional) when a row exists. */
  function RcRow(codes: RcCodes, raw: Json): Option<Option<Device>>
  {
    var key := CodeText(raw);
    if key.Some? && key.value in codes then Some(codes[key.value]) else None
  }

  /** `not x` for a nullable integer column. */
  predicate Unset(v: Option<int>)
  {
    v.None? || v.value == 0
  }

  /** What the dispatcher decides before touching the hardware: refuse
      with a response, or issue a command to a device. */
  datatype Plan = Refuse(response: Response) | Issue(device: Device, cmd: Json)

  /** The device a `<group>/<topic>` string names: the first piece is the
      group, the second the topic. */
  function ByGroupPath(db: Registry, path: string): Option<Device>
    requires Contains(path, "/")
  {
    var parts := Split(path, '/');
    ByTopicAndGroup(db, parts[1], parts[0])
  }

  function Decide(db: Registry, codes: RcCodes, m: RawMessage): Plan
  {
    var isRc := m.topic == RcTopic;
    if isRc && (!Truthy(m.payload) || !Truthy(Field(m.payload, "data"))) then Refuse(Rejected)
    else if isRc && RcRow(codes, Field(m.payload, "data")).None? then Refuse(Rejected)
    else if !isRc && (!Truthy(m.payload) || !Truthy(Field(m.payload, "cmd"))) then Refuse(Rejected)
    else
      var cmd := if isRc then JStr("toggle") else Field(m.payload, "cmd");
      var target :=
        if Contains(m.topic, "/") then ByGroupPath(db, m.topic)
        else if isRc then RcRow(codes, Field(m.payload, "data")).value
        else ByTopic(db, m.topic);
      match target
      case None => Refuse(Failed(TopicNotFound))
      case Some(d) =>
        if (GroupName(d) == "relay" || GroupName(d) == "input") && Unset(d.unitId) && Unset(d.channel) then
          Refuse(Failed(NoUnitAndChannel))
        else Issue(d, cmd)
  }

  /** The roller-shutter rule: a `roll_` device told to go `on` or to
      `toggle` first stops its opposite motor. */
  predicate SwitchesPartner(d: Device, cmd: Json)
  {
    StartsWith(d.topic, "roll_") && (cmd == JStr("on") || cmd == JStr("toggle"))
  }

  /** `parse_raw_mqtt`, as a function of the world. */
  function Dispatch(w: World, db: Registry, codes: RcCodes, m: RawMessage): (r: (Response, World))
    // Nothing reaches the hardware unless a device and a command were found.
    ensures Decide(db, codes, m).Refuse? ==> r == (Decide(db, codes, m).response, w)
    ensures r.1.apiBase == w.apiBase && r.1.now == w.now
  {
    match Decide(db, codes, m)
    case Refuse(response) => (response, w)
    case Issue(d, cmd) =>
      var w1 := if SwitchesPartner(d, cmd) then RollSwitched(w, db, d.topic) else w;
      HwRequest(w1, d, cmd)
  }

  /** The first part of `parse_raw_mqtt`: reassign the topic, the device
      and the command step by step until the device and command are known
      or the message is refused. */
  method ResolveRawMqtt(db: Registry, codes: RcCodes, m: RawMessage) returns (plan: Plan)
    ensures plan == Decide(db, codes, m)
  {
    RcTopicHasNoSlash();
    var requestTopic := m.topic;
    var topicDbData := ByTopic(db, requestTopic);
    var cmd := JStr("status");

    if requestTopic == RcTopic {
      if !Truthy(m.payload) || !Truthy(Field(m.payload, "data")) {
        return Refuse(Rejected);
      }
      var rawCode := Field(m.payload, "data");
      var rcCodeData := RcRow(codes, rawCode);
      if rcCodeData.None? {
        return Refuse(Rejected);
      }
      topicDbData := rcCodeData.value;
      cmd := JStr("toggle");
    }
    if requestTopic != RcTopic {
      if !Truthy(m.payload) || !Truthy(Field(m.payload, "cmd")) {
        return Refuse(Rejected);
      }
      cmd := Field(m.payload, "cmd");
    }
    if Contains(requestTopic, "/") {
      var splitTopic := Split(requestTopic, '/');
      requestTopic := splitTopic[1];
      var requestGroup := splitTopic[0];
      topicDbData := ByTopicAndGroup(db, requestTopic, requestGroup);
      assert topicDbData == ByGroupPath(db, m.topic);
    }
    if topicDbData.None? {
      return Refuse(Failed(TopicNotFound));
    }
    var d := topicDbData.value;
    if GroupName(d) == "relay" || GroupName(d) == "input" {
      if Unset(d.unitId) && Unset(d.channel) {
        return Refuse(Failed(NoUnitAndChannel));
      }
    }
    return Issue(d, cmd);
  }

  /** `parse_raw_mqtt`: resolve, then switch a roller shutter's opposite
      motor off if the rule applies, then send the command. */
  method ParseRawMqtt(w: World, db: Registry, codes: RcCodes, m: RawMessage) returns (r: Response, w': World)
    ensures (r, w') == Dispatch(w, db, codes, m)
  {
    var plan := ResolveRawMqtt(db, codes, m);
    if plan.Refuse? {
      return plan.response, w;
    }
    var d, cmd := plan.device, plan.cmd;
    w' := w;
    if StartsWith(d.topic, "roll_") && (cmd == JStr("on") || cmd == JStr("toggle")) {
      w' := SwitchRoll(w', db, d.topic);
    }
    r, w' := MakeHwApiRequest(w', d, cmd);
  }

  /** The RF code topic is a bare topic, never a `<group>/<topic>` path. */
  lemma RcTopicHasNoSlash()
    ensures !Contains(RcTopic, "/")
  {
    forall k | 0 <= k <= |RcTopic| - 1
      ensures !OccursAt(RcTopic, "/", k)
    {
      assert RcTopic[k..k + 1][0] == RcTopic[k];
    }
  }

  // ---------------------------------------------------------------------
  // Properties of the dispatcher

  /** An RF code message without a truthy `payload.data`, or with a code
      the table does not know, is refused with a bare `{'ok': False}` and
      sends nothing; a known code toggles its linked device. */
  lemma RcCodeRules(w: World, db: Registry, codes: RcCodes, m: RawMessage)
    requires m.topic == RcTopic
    ensures !Truthy(m.payload) || !Truthy(Field(m.payload, "data")) ==> Dispatch(w, db, codes, m) == (Rejected, w)
    ensures RcRow(codes, Field(m.payload, "data")).None? ==> Dispatch(w, db, codes, m) == (Rejected, w)
    ensures Decide(db, codes, m).Issue? ==>
              && Decide(db, codes, m).cmd == JStr("toggle")
              && RcRow(codes, Field(m.payload, "data")) == Some(Some(Decide(db, codes, m).device))
    ensures Truthy(m.payload) && Truthy(Field(m.payload, "data")) && RcRow(codes, Field(m.payload, "data")) == Some(None) ==>
              Dispatch(w, db, codes, m) == (Failed(TopicNotFound), w)
  {
    RcTopicHasNoSlash();
  }

  /** Any other topic needs a truthy `payload.cmd`, and that command, not
      the `status` default, is the one sent. */
  lemma CommandRules(w: World, db: Registry, codes: RcCodes, m: RawMessage)
    requires m.topic != RcTopic
    ensures !Truthy(m.payload) || !Truthy(Field(m.payload, "cmd")) ==> Dispatch(w, db, codes, m) == (Rejected, w)
    ensures Decide(db, codes, m).Issue? ==> Decide(db, codes, m).cmd == Field(m.payload, "cmd")
  {
  }

  /** A topic with a `/` is looked up by its second piece as the topic and
      its first as the group; one without is looked up as a bare topic. A
      device that is not found is answered "not found", without a request. */
  lemma AddressingRules(w: World, db: Registry, codes: RcCodes, m: RawMessage)
    requires m.topic != RcTopic && Truthy(m.payload) && Truthy(Field(m.payload, "cmd"))
    ensures Contains(m.topic, "/") ==>
              var parts := Split(m.topic, '/');
              && |parts| >= 2
              && (ByTopicAndGroup(db, parts[1], parts[0]).None? <==> Decide(db, codes, m) == Refuse(Failed(TopicNotFound)))
              && (ByTopicAndGroup(db, parts[1], parts[0]).None? ==> Dispatch(w, db, codes, m) == (Failed(TopicNotFound), w))
              && (Decide(db, codes, m).Issue? ==> Some(Decide(db, codes, m).device) == ByTopicAndGroup(db, parts[1], parts[0]))
    ensures !Contains(m.topic, "/") ==>
              && (ByTopic(db, m.topic).None? <==> Decide(db, codes, m) == Refuse(Failed(TopicNotFound)))
              && (ByTopic(db, m.topic).None? ==> Dispatch(w, db, codes, m) == (Failed(TopicNotFound), w))
              && (Decide(db, codes, m).Issue? ==> Some(Decide(db, codes, m).device) == ByTopic(db, m.topic))
  {
    var target := if Contains(m.topic, "/") then ByGroupPath(db, m.topic) else ByTopic(db, m.topic);
    var p := Decide(db, codes, m);
    if target.None? {
      assert p == Refuse(Failed(TopicNotFound));
    } else {
      assert p == Refuse(Failed(NoUnitAndChannel)) || p == Issue(target.value, Field(m.payload, "cmd"));
    }
  }

  /** A relay or input is refused before any command exactly when both its
      unit id and its channel are unset (null or 0). */
  lemma UnitAndChannelGuard(w: World, db: Registry, codes: RcCodes, m: RawMessage)
    requires Decide(db, codes, m).Issue? || Decide(db, codes, m) == Refuse(Failed(NoUnitAndChannel))
    ensures Decide(db, codes, m) == Refuse(Failed(NoUnitAndChannel)) ==> Dispatch(w, db, codes, m).1 == w
    ensures Decide(db, codes, m).Issue? ==>
              var d := Decide(db, codes, m).device;
              !((GroupName(d) == "relay" || GroupName(d) == "input") && Unset(d.unitId) && Unset(d.channel))
  {
  }

  /** The roller-shutter ordering: when the rule applies, the opposite
      motor's `off` (if that motor is registered) is requested before the
      primary command, and the answer is the primary request's; otherwise
      the answer is the primary request's alone. */
  lemma RollOrdering(w: World, db: Registry, codes: RcCodes, m: RawMessage)
    requires Decide(db, codes, m).Issue?
    requires Decide(db, codes, m).cmd in Commands
    ensures var d := Decide(db, codes, m).device;
      var cmd := Decide(db, codes, m).cmd;
      var partner := ByTopic(db, RollPartner(d.topic));
      var r := Dispatch(w, db, codes, m);
      && (SwitchesPartner(d, cmd) && partner.Some? ==>
            r.1.requests == w.requests + [RequestUrl(w.apiBase, partner.value, "off"), RequestUrl(w.apiBase, d, cmd.s)])
      && (SwitchesPartner(d, cmd) && partner.None? ==>
            r.1.requests == w.requests + [RequestUrl(w.apiBase, d, cmd.s)])
      && (!SwitchesPartner(d, cmd) ==> r == HwRequest(w, d, cmd))
      && r.0 == HwRequest(if SwitchesPartner(d, cmd) then RollSwitched(w, db, d.topic) else w, d, cmd).0
  {
  }
}
