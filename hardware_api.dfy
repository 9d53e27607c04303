/** The hub's single path to the hardware service: whitelist the command,
    build the URL for the device's group, issue one HTTP GET, classify the
    reply, and on success republish the state on MQTT and cache it.

    The shared cache, the HTTP hop and the MQTT broker are one `World`
    value that every operation takes and gives back: the hardware service's
    answers and the broker's availability are scripts the world replays in
    order, and the URLs requested and the messages published are recorded,
    so that what was issued, and in which order, can be stated. */
module HardwareApi {
  import opened Data
  import opened Text
  import opened TtlCache
  import opened Models

  /** The JSON body of an HTTP answer; `NotJson` when `.json()` raises. */
  datatype Body = NotJson | JsonObject(fields: map<string, Json>)

  /** What one GET to the hardware service gives back. `ConnectFailure`
      stands for every exception `httpx.get` raises (refused, 4 s timeout). */
  datatype HttpReply = ConnectFailure | HttpAnswer(status: int, body: Body)

  /** Why a request failed; each carries a `msg` in the source. */
  datatype Failure =
    | Unreachable        // "Unable connect to <url>"
    | ErrorStatus        // "Got response error from MQTT API"
    | BodyNotJson        // "Unable convert response to JSON"
    | HardwareError      // the service answered with a truthy `error`
    | TopicNotFound      // raw command path: "Topic not found"
    | NoUnitAndChannel   // raw command path: "No Unit and channel define! Exit."

  /** `response_status`: `{'ok': False}`, `{'ok': False, 'msg': ...}` or
      `{'ok': True, 'data': ...}`. */
  datatype Response = Rejected | Failed(why: Failure) | Ok(data: Json)

  /** `write_to_cache`'s default time-to-live, 360 s. */
  const StateTtl: nat := 360_000

  /** The commands the hardware service accepts. */
  const Commands: seq<Json> := [JStr("on"), JStr("off"), JStr("toggle"), JStr("status")]

  datatype World = World(
    apiBase: string,                  // HW_CTRL_API_URL
    now: int,                         // the clock, in milliseconds
    cache: map<string, Entry<Json>>,  // the shared state cache
    requests: seq<string>,            // URLs of the GETs issued, in order
    replies: seq<HttpReply>,          // the hardware service's answers still to come
    broker: seq<bool>,                // whether each coming publish reaches the broker
    published: seq<Publication>)      // messages the broker accepted, in order

  /** An optional integer as an f-string renders it: `None` for a null. */
  function OptionalText(v: Option<int>): string
  {
    match v
    case Some(i) => IntToString(i)
    case None => "None"
  }

  /** The URL for `cmd` on device `d`: `<base>/<group>`, then
      `/<unit_id>/<channel>` for relays and inputs or `/<topic>` for 1-Wire
      and other sensors, then `?cmd=<cmd>`. */
  function RequestUrl(base: string, d: Device, cmd: string): string
  {
    var g := GroupName(d);
    var address :=
      if g == "relay" || g == "input" then "/" + OptionalText(d.unitId) + "/" + OptionalText(d.channel)
      else if g == "w1" || g == "sensor" then "/" + d.topic
      else "";
    base + "/" + g + address + "?cmd=" + cmd
  }

  /** Issue one GET: record the URL and take the next scripted answer; when
      the script is exhausted the service is unreachable. */
  function Exchange(w: World, url: string): (HttpReply, World)
  {
    var reply := if w.replies == [] then ConnectFailure else w.replies[0];
    (reply, w.(requests := w.requests + [url], replies := if w.replies == [] then [] else w.replies[1..]))
  }

  /** How an HTTP answer becomes a response. */
  function Classify(reply: HttpReply): Response
  {
    match reply
    case ConnectFailure => Failed(Unreachable)
    case HttpAnswer(status, body) =>
      if !StartsWith(IntToString(status), "2") then Failed(ErrorStatus)
      else match body
        case NotJson => Failed(BodyNotJson)
        case JsonObject(fields) =>
          if Truthy(Field(JObj(fields), "error")) then Failed(HardwareError)
          else Ok(Field(JObj(fields), "data"))
  }

  /** `publish_to_mqtt`: best effort; a broker failure is swallowed and only
      means the message is not delivered. */
  function PublishToMqtt(w: World, topic: string, payload: Json): (w': World)
    ensures w'.cache == w.cache && w'.requests == w.requests && w'.replies == w.replies
    ensures w'.published == w.published || w'.published == w.published + [Publication(topic, payload)]
  {
    var up := w.broker != [] && w.broker[0];
    w.(broker := if w.broker == [] then [] else w.broker[1..],
       published := if up then w.published + [Publication(topic, payload)] else w.published)
  }

  /** `write_to_cache(topic, payload)` with the default time-to-live. */
  function WriteToCache(w: World, key: string, payload: Json): World
  {
    w.(cache := Store(w.cache, key, payload, StateTtl, w.now))
  }

  /** `make_hw_api_request(device, cmd)`, as a function of the world. */
  function HwRequest(w: World, d: Device, cmd: Json): (r: (Response, World))
    // A command outside the whitelist is refused before anything happens.
    ensures cmd !in Commands ==> r.0 == Rejected && r.1 == w
    // A whitelisted command issues exactly one GET, for this device.
    ensures cmd in Commands ==> r.0 != Rejected
    ensures cmd in Commands ==> r.1.requests == w.requests + [RequestUrl(w.apiBase, d, cmd.s)]
    // Its outcome is the classification of the service's next answer.
    ensures cmd in Commands ==> r.0 == Classify(if w.replies == [] then ConnectFailure else w.replies[0])
    // The cache and the bus see the state only on success.
    ensures r.0.Ok? ==> r.1.cache == Store(w.cache, StateKey(d), r.0.data, StateTtl, w.now)
    ensures r.0.Ok? ==>
              (r.1.published == w.published || r.1.published == w.published + [Publication(StateKey(d), r.0.data)])
    ensures !r.0.Ok? ==> r.1.cache == w.cache && r.1.published == w.published
    ensures r.0.Failed? ==> r.0.why in {Unreachable, ErrorStatus, BodyNotJson, HardwareError}
    ensures r.1.apiBase == w.apiBase && r.1.now == w.now
  {
    if cmd !in Commands then (Rejected, w)
    else
      var (reply, w1) := Exchange(w, RequestUrl(w.apiBase, d, cmd.s));
      var response := Classify(reply);
      if response.Ok? then
        (response, WriteToCache(PublishToMqtt(w1, StateKey(d), response.data), StateKey(d), response.data))
      else (response, w1)
  }

  /** `make_hw_api_request`, step by step as the source builds `base_uri`
      and fills `response_status`. */
  method MakeHwApiRequest(w: World, d: Device, cmd: Json) returns (r: Response, w': World)
    ensures (r, w') == HwRequest(w, d, cmd)
  {
    r, w' := Rejected, w;
    var baseUri := w.apiBase + "/" + GroupName(d);
    if !Truthy(cmd) || cmd !in Commands {
      return;
    }
    if GroupName(d) == "relay" || GroupName(d) == "input" {
      baseUri := baseUri + "/" + OptionalText(d.unitId) + "/" + OptionalText(d.channel);
    }
    if GroupName(d) == "w1" || GroupName(d) == "sensor" {
      baseUri := baseUri + "/" + d.topic;
    }
    baseUri := baseUri + "?cmd=" + cmd.s;
    assert baseUri == RequestUrl(w.apiBase, d, cmd.s);

    var reply;
    reply, w' := Exchange(w, baseUri).0, Exchange(w, baseUri).1;
    if reply.ConnectFailure? {
      r := Failed(Unreachable);
      return;
    }
    if !StartsWith(IntToString(reply.status), "2") {
      r := Failed(ErrorStatus);
      return;
    }
    if reply.body.NotJson? {
      r := Failed(BodyNotJson);
      return;
    }
    var answer := JObj(reply.body.fields);
    if Truthy(Field(answer, "error")) {
      r := Failed(HardwareError);
      return;
    }
    r := Ok(Field(answer, "data"));
    w' := PublishToMqtt(w', StateKey(d), r.data);
    w' := WriteToCache(w', StateKey(d), r.data);
  }

  /** Success comes exactly from a 2xx answer with a JSON body whose `error`
      is falsy, and carries that body's `data`. */
  lemma SuccessfulAnswer(reply: HttpReply)
    ensures Classify(reply).Ok? <==>
      && reply.HttpAnswer?
      && StartsWith(IntToString(reply.status), "2")
      && reply.body.JsonObject?
      && !Truthy(Field(JObj(reply.body.fields), "error"))
    ensures Classify(reply).Ok? ==> Classify(reply).data == Field(JObj(reply.body.fields), "data")
  {
  }

  /** Whether the broker takes the republished state never changes the
      response, the cache or the requests issued. */
  lemma PublishFailureSwallowed(w: World, d: Device, cmd: Json, broker: seq<bool>)
    ensures HwRequest(w, d, cmd).0 == HwRequest(w.(broker := broker), d, cmd).0
    ensures HwRequest(w, d, cmd).1.cache == HwRequest(w.(broker := broker), d, cmd).1.cache
    ensures HwRequest(w, d, cmd).1.requests == HwRequest(w.(broker := broker), d, cmd).1.requests
  {
  }

  /** The URL names the device's group first and the command last. */
  lemma UrlShape(base: string, d: Device, cmd: string)
    ensures StartsWith(RequestUrl(base, d, cmd), base + "/" + GroupName(d))
    ensures EndsWith(RequestUrl(base, d, cmd), "?cmd=" + cmd)
  {
    var url := RequestUrl(base, d, cmd);
    var g := GroupName(d);
    var address :=
      if g == "relay" || g == "input" then "/" + OptionalText(d.unitId) + "/" + OptionalText(d.channel)
      else if g == "w1" || g == "sensor" then "/" + d.topic
      else "";
    assert url == (base + "/" + g) + (address + "?cmd=" + cmd);
    assert url == (base + "/" + g + address) + ("?cmd=" + cmd);
  }

  /** A relay is addressed by unit id and channel, a 1-Wire probe by its
      topic. */
  lemma UrlByGroup(base: string, d: Device, cmd: string)
    ensures GroupName(d) == "relay" ==>
      RequestUrl(base, d, cmd) == base + "/relay/" + OptionalText(d.unitId) + "/" + OptionalText(d.channel) + "?cmd=" + cmd
    ensures GroupName(d) == "w1" ==> RequestUrl(base, d, cmd) == base + "/w1/" + d.topic + "?cmd=" + cmd
  {
  }
}
