/** The MQTT subscriber service: it listens to every topic on the broker
    and hands RF codes, and messages that carry a command, to the hub's
    `/rawmqtt/` endpoint; it reconnects 30 seconds after every session.

    A message is its topic, its payload decoded as UTF-8 (`None` when the
    bytes are not UTF-8) and that text parsed as JSON (`None` when it is
    not JSON). The hub is a `Hub` value: the form bodies posted, the
    answers still to come and the clock in milliseconds. */
module MqttSub {
  import opened Data

  /** A message as received; `json` is what `json.loads` makes of `text`. */
  datatype Message = Message(topic: string, text: Option<string>, json: Option<Json>)

  /** A form-encoded POST body. */
  type Form = map<string, string>

  /** What the subscriber does with one message; `Crash` is an exception
      that leaves the message loop. */
  datatype Routing = Skip | Forward(form: Form) | Crash

  /** The body posted for a message: `{'topic': topic, 'payload': text}`. */
  function FormOf(topic: string, text: string): Form
  {
    map["topic" := topic, "payload" := text]
  }

  /** The routing as written: RF codes go through untouched, and so does
      any other message whose JSON has a truthy `cmd`; a payload that is
      not JSON is skipped. A payload that is not UTF-8 raises on every
      topic: an RF code is decoded outside any handler, and elsewhere the
      error log that should skip the message decodes the payload once
      more. `payload_json.get('cmd')` assumes a JSON object: any other
      JSON value raises. */
  function RouteAsWritten(m: Message): Routing
  {
    if m.text.None? then Crash
    else if m.topic == RcTopic then Forward(FormOf(m.topic, m.text.value))
    else if m.json.None? then Skip
    else if !m.json.value.JObj? then Crash
    else if Truthy(Field(m.json.value, "cmd")) then Forward(FormOf(m.topic, m.text.value))
    else Skip
  }

  /** The routing as intended: a payload outside `rc_code` that is not
      UTF-8 is logged and skipped like one that is not JSON, and a JSON
      value that is not an object has no `cmd` and is skipped like any
      other message without one. */
  function Route(m: Message): (r: Routing)
    ensures m.topic != RcTopic ==> r != Crash
  {
    if m.topic == RcTopic then
      (if m.text.None? then Crash else Forward(FormOf(m.topic, m.text.value)))
    else if m.text.None? || m.json.None? then Skip
    else if Truthy(Field(m.json.value, "cmd")) then Forward(FormOf(m.topic, m.text.value))
    else Skip
  }

  /** RF codes are forwarded with their raw text and no JSON check; any
      other message is forwarded exactly when its payload is JSON with a
      truthy `cmd`, and then with its raw text. */
  lemma RouteRules(m: Message)
    ensures m.topic == RcTopic && m.text.Some? ==> Route(m) == Forward(FormOf(RcTopic, m.text.value))
    ensures m.topic != RcTopic ==>
      (Route(m).Forward? <==> m.text.Some? && m.json.Some? && m.json.value.JObj? && Truthy(Field(m.json.value, "cmd")))
    ensures Route(m).Forward? ==> Route(m).form == FormOf(m.topic, m.text.value)
    ensures Route(m).Forward? ==> Route(m).form.Keys == {"topic", "payload"}
  {
  }

  /** A message outside `rc_code` whose payload is not UTF-8, or is JSON
      but not an object: the code as written raises on it. */
  predicate RaisesOnlyAsWritten(m: Message)
  {
    m.topic != RcTopic && (m.text.None? || (m.json.Some? && !m.json.value.JObj?))
  }

  /** The two routings differ exactly on those messages, where the code as
      written raises and the corrected code skips. */
  lemma AsWrittenDiffersOnlyOnRaises(m: Message)
    ensures RouteAsWritten(m) != Route(m) <==> RaisesOnlyAsWritten(m)
    ensures RouteAsWritten(m) != Route(m) ==> RouteAsWritten(m) == Crash && Route(m) == Skip
  {
  }

  /** A sensor that publishes a bare reading such as `23.5` stops the
      subscriber as written. */
  lemma BareReadingCrashes()
    ensures RouteAsWritten(Message("sensors/temp", Some("23.5"), Some(JReal(23.5)))) == Crash
    ensures Route(Message("sensors/temp", Some("23.5"), Some(JReal(23.5)))) == Skip
  {
  }

  /** A sensor payload that is not UTF-8, such as the single byte `0xff`,
      stops the subscriber as written instead of being logged. */
  lemma UndecodablePayloadCrashes()
    ensures RouteAsWritten(Message("sensors/temp", None, None)) == Crash
    ensures Route(Message("sensors/temp", None, None)) == Skip
  {
  }

  // ---------------------------------------------------------------------
  // post_raw_mqtt

  /** The HTTP exchange of one post: the connection failed, or an answer
      with its status and its body parsed as JSON (`None` when it is not
      JSON). */
  datatype HttpOutcome = Unreachable | Answer(status: int, json: Option<Json>)

  /** `post_raw_mqtt`'s result; `None` is the exception raised by parsing
      a 200 answer that is not JSON. */
  function PostResult(reply: HttpOutcome): (r: Option<Json>)
    ensures reply.Unreachable? || reply.status != 200 ==> r == Some(EmptyObject)
    ensures reply.Answer? && reply.status == 200 ==> r == reply.json
  {
    match reply
    case Unreachable => Some(JObj(map[]))
    case Answer(status, json) => if status != 200 then Some(JObj(map[])) else json
  }

  datatype Hub = Hub(posts: seq<Form>, replies: seq<HttpOutcome>, clock: int)

  /** `post_raw_mqtt(topic, payload)`: the body is posted and the next
      answer taken; no answer left is a failed connection. */
  function PostRawMqtt(h: Hub, form: Form): (Option<Json>, Hub)
  {
    var reply := if h.replies == [] then Unreachable else h.replies[0];
    (PostResult(reply), h.(posts := h.posts + [form], replies := if h.replies == [] then [] else h.replies[1..]))
  }

  // ---------------------------------------------------------------------
  // mqtt_sub

  /** The routing a subscriber runs: the code as written, or the corrected
      routing when `corrected` holds. */
  function RouteIn(corrected: bool, m: Message): Routing
  {
    if corrected then Route(m) else RouteAsWritten(m)
  }

  /** One message of the loop; the flag says whether it raised. */
  function Handle(corrected: bool, h: Hub, m: Message): (Hub, bool)
  {
    match RouteIn(corrected, m)
    case Skip => (h, false)
    case Crash => (h, true)
    case Forward(form) =>
      var (result, h') := PostRawMqtt(h, form);
      (h', result.None?)
  }

  /** The message loop over `msgs`, from the back; after an exception
      nothing more happens. */
  function Session(corrected: bool, h: Hub, msgs: seq<Message>): (Hub, bool)
  {
    if msgs == [] then (h, false)
    else
      var (h1, crashed) := Session(corrected, h, msgs[..|msgs| - 1]);
      if crashed then (h1, true) else Handle(corrected, h1, msgs[|msgs| - 1])
  }

  /** An exception ends the session: later messages change nothing. */
  lemma {:induction false} SessionCrashPersists(corrected: bool, h: Hub, msgs: seq<Message>, i: nat)
    requires i <= |msgs| && Session(corrected, h, msgs[..i]).1
    ensures Session(corrected, h, msgs) == Session(corrected, h, msgs[..i])
    decreases |msgs| - i
  {
    if i < |msgs| {
      assert msgs[..i + 1][..i] == msgs[..i];
      SessionCrashPersists(corrected, h, msgs, i + 1);
    } else {
      assert msgs[..i] == msgs;
    }
  }

  /** `mqtt_sub()` as written, over the messages of one session. */
  method MqttSubSession(h: Hub, msgs: seq<Message>) returns (h': Hub, crashed: bool)
    ensures (h', crashed) == Session(false, h, msgs)
  {
    h' := h;
    var i := 0;
    while i < |msgs|
      invariant 0 <= i <= |msgs|
      invariant (h', false) == Session(false, h, msgs[..i])
    {
      assert msgs[..i + 1][..i] == msgs[..i];
      var message := msgs[i];
      if message.text.None? {
        // Decoding raises: outside any handler for an RF code, and inside
        // the error log otherwise.
        SessionCrashPersists(false, h, msgs, i + 1);
        return h', true;
      }
      if message.topic == RcTopic {
        var (result, h1) := PostRawMqtt(h', FormOf(message.topic, message.text.value));
        h' := h1;
        if result.None? {
          SessionCrashPersists(false, h, msgs, i + 1);
          return h', true;
        }
        i := i + 1;
        continue;
      }
      if message.json.None? {
        i := i + 1;
        continue;
      }
      if !message.json.value.JObj? {
        // `.get` on a JSON value that is not an object raises.
        SessionCrashPersists(false, h, msgs, i + 1);
        return h', true;
      }
      if Truthy(Field(message.json.value, "cmd")) {
        var (result, h1) := PostRawMqtt(h', FormOf(message.topic, message.text.value));
        h' := h1;
        if result.None? {
          SessionCrashPersists(false, h, msgs, i + 1);
          return h', true;
        }
      }
      i := i + 1;
    }
    assert msgs[..i] == msgs;
    crashed := false;
  }

  /** The bodies a session forwards, defined message by message. */
  function Forms(corrected: bool, msgs: seq<Message>): seq<Form>
  {
    if msgs == [] then []
    else match RouteIn(corrected, msgs[0])
      case Forward(form) => [form] + Forms(corrected, msgs[1..])
      case _ => Forms(corrected, msgs[1..])
  }

  /** A session that ends without an exception posts the bodies of the
      forwarded messages, in order, takes one answer for each and leaves
      the clock alone. */
  lemma {:induction false} SessionPostsForwarded(corrected: bool, h: Hub, msgs: seq<Message>)
    requires !Session(corrected, h, msgs).1
    ensures Session(corrected, h, msgs).0.posts == h.posts + Forms(corrected, msgs)
    ensures Session(corrected, h, msgs).0.clock == h.clock
  {
    if msgs != [] {
      var init := msgs[..|msgs| - 1];
      var last := msgs[|msgs| - 1];
      assert !Session(corrected, h, init).1;
      SessionPostsForwarded(corrected, h, init);
      FormsAppend(corrected, init, last);
      assert msgs == init + [last];
    }
  }

  lemma {:induction false} FormsAppend(corrected: bool, msgs: seq<Message>, m: Message)
    ensures Forms(corrected, msgs + [m]) ==
              Forms(corrected, msgs) + (if RouteIn(corrected, m).Forward? then [RouteIn(corrected, m).form] else [])
  {
    if msgs == [] {
      assert [m][1..] == [];
    } else {
      assert (msgs + [m])[1..] == msgs[1..] + [m];
      FormsAppend(corrected, msgs[1..], m);
    }
  }

  /** As written, a session that reaches a payload that is not UTF-8 or
      is a JSON value other than an object raises there, whatever comes
      after it. */
  lemma SessionStopsAtRaise(h: Hub, msgs: seq<Message>, i: nat)
    requires i < |msgs| && RaisesOnlyAsWritten(msgs[i])
    ensures Session(false, h, msgs).1
  {
    assert msgs[..i + 1][..i] == msgs[..i];
    assert Session(false, h, msgs[..i + 1]).1;
    SessionCrashPersists(false, h, msgs, i + 1);
  }

  /** On sessions without such payloads the code as written and the
      corrected code do the same. */
  lemma {:induction false} SessionsAgreeWithoutRaises(h: Hub, msgs: seq<Message>)
    requires forall k :: 0 <= k < |msgs| ==> !RaisesOnlyAsWritten(msgs[k])
    ensures Session(false, h, msgs) == Session(true, h, msgs)
  {
    if msgs != [] {
      SessionsAgreeWithoutRaises(h, msgs[..|msgs| - 1]);
      AsWrittenDiffersOnlyOnRaises(msgs[|msgs| - 1]);
    }
  }

  // ---------------------------------------------------------------------
  // main_task

  /** `reconnect_interval`: thirty seconds. */
  const ReconnectInterval: nat := 30000

  /** The reconnect loop over `sessions`, from the back: each session is
      followed by the 30-second sleep, and an exception other than a
      broker error leaves the loop once that sleep is over. */
  function MainRun(corrected: bool, h: Hub, sessions: seq<seq<Message>>): (Hub, bool)
  {
    if sessions == [] then (h, false)
    else
      var (h1, stopped) := MainRun(corrected, h, sessions[..|sessions| - 1]);
      if stopped then (h1, true)
      else
        var (h2, crashed) := Session(corrected, h1, sessions[|sessions| - 1]);
        (h2.(clock := h2.clock + ReconnectInterval), crashed)
  }

  lemma {:induction false} MainStopPersists(corrected: bool, h: Hub, sessions: seq<seq<Message>>, i: nat)
    requires i <= |sessions| && MainRun(corrected, h, sessions[..i]).1
    ensures MainRun(corrected, h, sessions) == MainRun(corrected, h, sessions[..i])
    decreases |sessions| - i
  {
    if i < |sessions| {
      assert sessions[..i + 1][..i] == sessions[..i];
      MainStopPersists(corrected, h, sessions, i + 1);
    } else {
      assert sessions[..i] == sessions;
    }
  }

  /** `main_task()` as written, over the sessions it gets. Each session
      ends with a broker error (a connection that fails at once is an empty
      session). */
  method MainTask(h: Hub, sessions: seq<seq<Message>>) returns (h': Hub, stopped: bool)
    ensures (h', stopped) == MainRun(false, h, sessions)
  {
    h' := h;
    var i := 0;
    while i < |sessions|
      invariant 0 <= i <= |sessions|
      invariant (h', false) == MainRun(false, h, sessions[..i])
    {
      assert sessions[..i + 1][..i] == sessions[..i];
      var crashed;
      h', crashed := MqttSubSession(h', sessions[i]);
      h' := h'.(clock := h'.clock + ReconnectInterval);
      if crashed {
        MainStopPersists(false, h, sessions, i + 1);
        return h', true;
      }
      i := i + 1;
    }
    assert sessions[..i] == sessions;
    stopped := false;
  }

  /** Every session is followed by the 30-second sleep: when no exception
      escapes, `n` sessions advance the clock by exactly `n * 30` seconds. */
  lemma {:induction false} ReconnectDelay(corrected: bool, h: Hub, sessions: seq<seq<Message>>)
    requires !MainRun(corrected, h, sessions).1
    ensures MainRun(corrected, h, sessions).0.clock == h.clock + |sessions| * ReconnectInterval
  {
    if sessions != [] {
      var init := sessions[..|sessions| - 1];
      assert !MainRun(corrected, h, init).1;
      ReconnectDelay(corrected, h, init);
      var h1 := MainRun(corrected, h, init).0;
      if !Session(corrected, h1, sessions[|sessions| - 1]).1 {
        SessionPostsForwarded(corrected, h1, sessions[|sessions| - 1]);
      }
    }
  }

  /** With the corrected routing, broker errors are the only way a session
      ends when every RF code is UTF-8 and the hub always answers JSON. */
  lemma {:induction false} SessionSurvives(h: Hub, msgs: seq<Message>)
    requires forall k :: 0 <= k < |msgs| && msgs[k].topic == RcTopic ==> msgs[k].text.Some?
    requires forall k :: 0 <= k < |h.replies| ==> h.replies[k].Unreachable? || h.replies[k].json.Some?
    ensures !Session(true, h, msgs).1
    ensures forall k :: 0 <= k < |Session(true, h, msgs).0.replies| ==>
      Session(true, h, msgs).0.replies[k].Unreachable? || Session(true, h, msgs).0.replies[k].json.Some?
  {
    if msgs != [] {
      var init := msgs[..|msgs| - 1];
      SessionSurvives(h, init);
      var h1 := Session(true, h, init).0;
      var m := msgs[|msgs| - 1];
      if Route(m).Forward? {
        var h2 := PostRawMqtt(h1, Route(m).form).1;
        assert forall k :: 0 <= k < |h2.replies| ==> h2.replies[k] == h1.replies[k + 1];
      }
    }
  }

  /** As written, the reconnect loop ends for good with the first session
      that receives a payload that is not UTF-8 or is a JSON value other
      than an object, after its 30-second sleep: no later session runs. */
  lemma MainStopsAtRaise(h: Hub, sessions: seq<seq<Message>>, i: nat, k: nat)
    requires i < |sessions| && k < |sessions[i]| && RaisesOnlyAsWritten(sessions[i][k])
    ensures MainRun(false, h, sessions) == MainRun(false, h, sessions[..i + 1])
    ensures MainRun(false, h, sessions).1
  {
    assert sessions[..i + 1][..i] == sessions[..i];
    assert sessions[..i + 1][i] == sessions[i];
    if !MainRun(false, h, sessions[..i]).1 {
      SessionStopsAtRaise(MainRun(false, h, sessions[..i]).0, sessions[i], k);
    } else {
      MainStopPersists(false, h, sessions[..i + 1], i);
    }
    MainStopPersists(false, h, sessions, i + 1);
  }

  /** The corrected subscriber reconnects forever: under the same
      conditions as `SessionSurvives`, no session stops the loop. */
  lemma {:induction false} CorrectedMainNeverStops(h: Hub, sessions: seq<seq<Message>>)
    requires forall i, k :: 0 <= i < |sessions| && 0 <= k < |sessions[i]| && sessions[i][k].topic == RcTopic ==>
               sessions[i][k].text.Some?
    requires forall k :: 0 <= k < |h.replies| ==> h.replies[k].Unreachable? || h.replies[k].json.Some?
    ensures !MainRun(true, h, sessions).1
    ensures forall k :: 0 <= k < |MainRun(true, h, sessions).0.replies| ==>
      MainRun(true, h, sessions).0.replies[k].Unreachable? || MainRun(true, h, sessions).0.replies[k].json.Some?
  {
    if sessions != [] {
      var init := sessions[..|sessions| - 1];
      CorrectedMainNeverStops(h, init);
      SessionSurvives(MainRun(true, h, init).0, sessions[|sessions| - 1]);
    }
  }
}
