/** The RF receiver service: it polls a 433 MHz receiver, drops noise,
    suppresses repeats of a code for two seconds and publishes each code
    it keeps as `{"data": code}` on the `rc_code` MQTT topic.

    The receiver's readings are a sequence of `Poll`s (what the driver
    reports at each 100 ms tick, with the clock in milliseconds); the
    broker is the list of publications made. */
module RcMqtt {
  import opened Data
  import opened Text
  import opened TtlCache

  /** `LRUCache(10)` */
  const Capacity: nat := 10

  /** `cache.set(code, True, 2)`: two seconds. */
  const DedupTtl: nat := 2000

  /** Pulses this long or longer are noise. */
  const MaxPulse: int := 500

  /** Codes must print with more than this many digits. */
  const MinDigits: nat := 5

  // ---------------------------------------------------------------------
  // The LRU cache with time-to-live

  /** The cache's entries and their recency, least recently used first. */
  datatype Dedup = Dedup(entries: map<nat, Entry<bool>>, order: seq<nat>)

  ghost predicate Distinct(s: seq<nat>)
  {
    forall i, j :: 0 <= i < j < |s| ==> s[i] != s[j]
  }

  /** Every entry appears once in the recency order, and there are at most
      `Capacity` of them. */
  ghost predicate Wellformed(d: Dedup)
  {
    && Distinct(d.order)
    && (forall c :: c in d.entries <==> c in d.order)
    && |d.order| <= Capacity
  }

  /** The order without `x`. */
  function Remove(s: seq<nat>, x: nat): (r: seq<nat>)
    ensures forall y :: y in r <==> y in s && y != x
    ensures Distinct(s) ==> Distinct(r) && |r| == if x in s then |s| - 1 else |s|
  {
    if s == [] then []
    else if s[0] == x then
      assert Distinct(s) ==> x !in s[1..];
      Remove(s[1..], x)
    else
      var rest := Remove(s[1..], x);
      assert Distinct(s) ==> s[0] !in s[1..] && s[0] !in rest;
      assert Distinct(s) ==> Distinct(s[1..]);
      [s[0]] + rest
  }

  /** A hit makes the code the most recently used. */
  function Touch(d: Dedup, code: nat): Dedup
  {
    Dedup(d.entries, Remove(d.order, code) + [code])
  }

  /** `cache.set(code, True, ttl)`: the code becomes the most recently
      used, and the least recently used entry goes when the cache
      overflows. */
  function Set(d: Dedup, code: nat, ttl: nat, now: int): Dedup
  {
    var order := Remove(d.order, code) + [code];
    var entries := Store(d.entries, code, true, ttl, now);
    if |order| > Capacity then Dedup(entries - {order[0]}, order[1..]) else Dedup(entries, order)
  }

  lemma TouchWellformed(d: Dedup, code: nat)
    requires Wellformed(d) && code in d.entries
    ensures Wellformed(Touch(d, code))
  {
    var r := Remove(d.order, code);
    assert Distinct(r + [code]) by {
      assert code !in r;
    }
  }

  /** Storing keeps the cache well formed, and the stored code survives any
      eviction. */
  lemma {:induction false} SetWellformed(d: Dedup, code: nat, ttl: nat, now: int)
    requires Wellformed(d)
    ensures Wellformed(Set(d, code, ttl, now))
    ensures code in Set(d, code, ttl, now).entries
    ensures Set(d, code, ttl, now).entries[code] == Entry(true, now + ttl)
  {
    var r := Remove(d.order, code);
    var order := r + [code];
    assert code !in r;
    assert Distinct(order);
    assert forall c :: c in order <==> c in d.order || c == code;
    if |order| > Capacity {
      assert order[0] != code by {
        assert order[|order| - 1] == code;
      }
      var rest := order[1..];
      assert forall c :: c in rest <==> c in order && c != order[0] by {
        forall c
          ensures c in rest <==> c in order && c != order[0]
        {
          if c in order && c != order[0] {
            var k :| 0 <= k < |order| && order[k] == c;
            assert rest[k - 1] == c;
          }
        }
      }
      assert |rest| <= Capacity by {
        assert |r| <= |d.order|;
      }
    } else {
    }
  }

  // ---------------------------------------------------------------------
  // send_to_mqtt

  /** The message a forwarded code becomes: `{"data": code}` on `rc_code`. */
  function Forwarded(code: nat): Publication
  {
    Publication(RcTopic, JObj(map["data" := JNum(code)]))
  }

  /** What the service keeps between receptions: the cache and what it
      has published. */
  datatype Forwarder = Forwarder(cache: Dedup, published: seq<Publication>)

  /** `send_to_mqtt(code)` at time `now`. */
  function Send(s: Forwarder, code: nat, now: int): Forwarder
  {
    if Lookup(s.cache.entries, code, now).Some? then s.(cache := Touch(s.cache, code))
    else Forwarder(Set(s.cache, code, DedupTtl, now), s.published + [Forwarded(code)])
  }

  /** A code still cached is not published and its entry, expiry
      included, is left as it was; any other code is published once and
      then reads as cached for the next two seconds. The cache stays well
      formed. */
  lemma SendRules(s: Forwarder, code: nat, now: int)
    requires Wellformed(s.cache)
    ensures Wellformed(Send(s, code, now).cache)
    ensures Lookup(s.cache.entries, code, now).Some? ==>
      && Send(s, code, now).published == s.published
      && Send(s, code, now).cache.entries == s.cache.entries
    ensures Lookup(s.cache.entries, code, now).None? ==>
      && Send(s, code, now).published == s.published + [Forwarded(code)]
      && forall t :: now <= t < now + DedupTtl ==> Lookup(Send(s, code, now).cache.entries, code, t) == Some(true)
  {
    if Lookup(s.cache.entries, code, now).Some? {
      TouchWellformed(s.cache, code);
    } else {
      SetWellformed(s.cache, code, DedupTtl, now);
    }
  }

  /** The window: once a code is published at `t1`, the same code sent
      next at `t2` is published again exactly when two seconds have
      passed. */
  lemma DedupWindow(s: Forwarder, code: nat, t1: int, t2: int)
    requires Wellformed(s.cache)
    requires Lookup(s.cache.entries, code, t1).None?
    requires t1 <= t2
    ensures var s1 := Send(s, code, t1);
      |Send(s1, code, t2).published| == |s1.published| + 1 <==> t2 >= t1 + DedupTtl
  {
    SetWellformed(s.cache, code, DedupTtl, t1);
  }

  /** A suppressed repeat does not extend the window: after a publication
      at `t1` and a suppressed repeat at `t2`, the code goes out again at
      any `t3 >= t1 + 2000`, however close to `t2`. */
  lemma RepeatDoesNotExtend(s: Forwarder, code: nat, t1: int, t2: int, t3: int)
    requires Wellformed(s.cache)
    requires Lookup(s.cache.entries, code, t1).None?
    requires t1 <= t2 < t1 + DedupTtl <= t3
    ensures var s2 := Send(Send(s, code, t1), code, t2);
      && s2.published == s.published + [Forwarded(code)]
      && Send(s2, code, t3).published == s.published + [Forwarded(code), Forwarded(code)]
  {
    SetWellformed(s.cache, code, DedupTtl, t1);
  }

  // ---------------------------------------------------------------------
  // rx_read

  /** What the driver reports at one tick: the clock, the time stamp of
      the last code received (`None` before any), that code and its pulse
      length. */
  datatype Poll = Poll(time: int, timestamp: Option<int>, code: nat, pulse: int)

  /** The noise filter: a short pulse and a code of more than five
      digits. */
  predicate Clean(p: Poll)
  {
    p.pulse < MaxPulse && |NatToString(p.code)| > MinDigits
  }

  /** One tick of the loop, with the last time stamp seen: a new time stamp
      is remembered and, when its reading is clean, its code sent. */
  function Tick(s: Forwarder, last: Option<int>, p: Poll): (Forwarder, Option<int>)
  {
    if p.timestamp == last then (s, last)
    else if Clean(p) then (Send(s, p.code, p.time), p.timestamp)
    else (s, p.timestamp)
  }

  /** The ticks in order, from the back. */
  function Run(s: Forwarder, last: Option<int>, polls: seq<Poll>): (Forwarder, Option<int>)
  {
    if polls == [] then (s, last)
    else
      var (s', last') := Run(s, last, polls[..|polls| - 1]);
      Tick(s', last', polls[|polls| - 1])
  }

  /** The length test on the printed code is `code >= 100000`. */
  lemma CleanMeans(p: Poll)
    ensures Clean(p) <==> p.pulse < 500 && p.code >= 100000
  {
    DecimalLength(p.code, 5);
    assert Pow10(5) == 100000 by {
      assert Pow10(1) == 10 && Pow10(2) == 100 && Pow10(3) == 1000 && Pow10(4) == 10000;
    }
  }

  /** A reading is looked at only when its time stamp differs from the
      last one; an unchanged time stamp is a tick that changes nothing. */
  lemma TickRules(s: Forwarder, last: Option<int>, p: Poll)
    ensures p.timestamp == last ==> Tick(s, last, p) == (s, last)
    ensures p.timestamp != last ==> Tick(s, last, p).1 == p.timestamp
    ensures p.timestamp != last && !Clean(p) ==> Tick(s, last, p).0 == s
    ensures p.timestamp != last && Clean(p) ==> Tick(s, last, p).0 == Send(s, p.code, p.time)
  {
  }

  /** The loop only appends, and everything it publishes is the code of a
      clean reading with a new time stamp, on `rc_code`; the cache stays
      well formed. */
  lemma {:induction false} RunPublishesCleanCodes(s: Forwarder, last: Option<int>, polls: seq<Poll>)
    requires Wellformed(s.cache)
    ensures var s' := Run(s, last, polls).0;
      && Wellformed(s'.cache)
      && |s'.published| >= |s.published|
      && s'.published[..|s.published|] == s.published
      && forall k :: |s.published| <= k < |s'.published| ==>
           exists p :: p in polls && p.pulse < 500 && p.code >= 100000 && s'.published[k] == Forwarded(p.code)
  {
    if polls != [] {
      var init := polls[..|polls| - 1];
      var p := polls[|polls| - 1];
      RunPublishesCleanCodes(s, last, init);
      var (s1, last1) := Run(s, last, init);
      var s' := Run(s, last, polls).0;
      assert s' == Tick(s1, last1, p).0;
      if p.timestamp != last1 && Clean(p) {
        SendRules(s1, p.code, p.time);
        CleanMeans(p);
      }
      forall k | |s.published| <= k < |s'.published|
        ensures exists q :: q in polls && q.pulse < 500 && q.code >= 100000 && s'.published[k] == Forwarded(q.code)
      {
        if k < |s1.published| {
          assert s'.published[k] == s1.published[k];
          assert exists q :: q in init && q.pulse < 500 && q.code >= 100000 && s1.published[k] == Forwarded(q.code);
          var q :| q in init && q.pulse < 500 && q.code >= 100000 && s1.published[k] == Forwarded(q.code);
          assert q in polls;
        } else {
          assert s'.published[k] == Forwarded(p.code);
        }
      }
    }
  }

  /** The receiver service's module state: the LRU cache and the broker. */
  class RfForwarder {
    var entries: map<nat, Entry<bool>>
    var order: seq<nat>
    var published: seq<Publication>

    function State(): Forwarder
      reads this
    {
      Forwarder(Dedup(entries, order), published)
    }

    constructor()
      ensures State() == Forwarder(Dedup(map[], []), [])
    {
      entries := map[];
      order := [];
      published := [];
    }

    /** `send_to_mqtt(code)` at time `now`. */
    method SendToMqtt(code: nat, now: int)
      modifies this
      ensures State() == Send(old(State()), code, now)
    {
      if Lookup(entries, code, now).Some? {
        order := Remove(order, code) + [code];
        return;
      }
      entries := Store(entries, code, true, DedupTtl, now);
      order := Remove(order, code) + [code];
      if |order| > Capacity {
        entries := entries - {order[0]};
        order := order[1..];
      }
      published := published + [Forwarded(code)];
    }

    /** `rx_read()` over the ticks `polls`. */
    method RxRead(polls: seq<Poll>)
      modifies this
      ensures State() == Run(old(State()), None, polls).0
    {
      var timestamp: Option<int> := None;
      var i := 0;
      while i < |polls|
        invariant 0 <= i <= |polls|
        invariant (State(), timestamp) == Run(old(State()), None, polls[..i])
      {
        assert polls[..i + 1][..i] == polls[..i];
        var p := polls[i];
        if p.timestamp != timestamp {
          timestamp := p.timestamp;
          if p.pulse < MaxPulse && |NatToString(p.code)| > MinDigits {
            SendToMqtt(p.code, p.time);
          }
        }
        i := i + 1;
      }
      assert polls[..i] == polls;
    }
  }
}
