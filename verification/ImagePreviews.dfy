/**
 The image preview cache of one connection: canonical object URLs in least recently
 delivered order, exact-ticket reads, byte reservations and a bounded waiting queue.
 Subscriptions and flights are objects of the program; here they are numbered in
 creation order.
 */
module ImagePreviews {
  import opened Wrappers
  import opened Sums

  datatype Media = Media(id: string, bytes: int, detail: string)

  datatype Limits = Limits(concurrency: nat, objects: nat, bytes: nat)

  datatype Entry = Entry(key: Media, url: nat, bytes: int, refs: int)

  /** How the promise handed to the caller has settled. */
  datatype Outcome = Waiting | Shown(url: nat) | Withdrawn | Refused

  datatype Subscription = Subscription(live: bool, entry: Option<nat>, flight: Option<nat>, outcome: Outcome)

  datatype Flight = Flight(media: Media, ticket: string, subscribers: seq<nat>)

  /** What a finished read delivers; `exact` is whether the buffer holds nothing else. */
  datatype Reply = Bytes(length: int, exact: bool, urlAvailable: bool) | ReadFailed

  datatype State = State(
    limits: Limits, cache: seq<Entry>, flights: map<(Media, string), nat>, queue: seq<nat>,
    registered: set<nat>, active: int, reserved: int, cached: int, converting: int, closed: bool,
    subs: seq<Subscription>, heap: seq<Flight>, reading: set<nat>, nextUrl: nat, revoked: seq<nat>)

  function Initial(limits: Limits): State {
    State(limits, [], map[], [], {}, 0, 0, 0, 0, false, [], [], {}, 0, [])
  }

  // ----- cache lookups -----

  /** Position of `key` in the cache, or the cache's length. */
  function Find(cache: seq<Entry>, key: Media): (i: nat)
    ensures i <= |cache|
    ensures i < |cache| ==> cache[i].key == key
    ensures forall j | 0 <= j < i :: cache[j].key != key
  {
    if cache == [] || cache[0].key == key then 0 else 1 + Find(cache[1..], key)
  }

  predicate Cached(s: State, key: Media) {
    Find(s.cache, key) < |s.cache|
  }

  function Without<T>(xs: seq<T>, i: nat): seq<T>
    requires i < |xs|
  {
    xs[..i] + xs[i + 1..]
  }

  function Minus(xs: seq<nat>, x: nat): (r: seq<nat>)
    ensures forall y :: y in r <==> y in xs && y != x
    ensures |r| <= |xs|
    ensures x !in xs ==> r == xs
  {
    if xs == [] then [] else (if xs[0] == x then [] else [xs[0]]) + Minus(xs[1..], x)
  }

  // ----- primitive steps -----

  function Settled(sub: Subscription, outcome: Outcome): Subscription {
    if sub.outcome.Waiting? then sub.(outcome := outcome) else sub
  }

  function Deliver(s: State, id: nat, key: Media): State {
    var i := Find(s.cache, key);
    if id >= |s.subs| || !s.subs[id].live || i == |s.cache| then s else
    var entry := s.cache[i];
    s.(subs := s.subs[id := Settled(s.subs[id].(flight := None, entry := Some(entry.url)), Shown(entry.url))],
       cache := Without(s.cache, i) + [entry.(refs := entry.refs + 1)])
  }

  function DeliverAll(s: State, ids: seq<nat>, key: Media): State
    decreases |ids|
  {
    if ids == [] then s else DeliverAll(Deliver(s, ids[0], key), ids[1..], key)
  }

  function Remove(s: State, f: nat): State {
    if f >= |s.heap| then s else
    var id := (s.heap[f].media, s.heap[f].ticket);
    s.(flights := if Lookup(s.flights, id) == Some(f) then s.flights - {id} else s.flights,
       queue := Minus(s.queue, f))
  }

  function RejectAll(s: State, ids: seq<nat>): State
    decreases |ids|
  {
    if ids == [] then s
    else if ids[0] >= |s.subs| then RejectAll(s, ids[1..])
    else RejectAll(s.(subs := s.subs[ids[0] := Settled(s.subs[ids[0]].(flight := None), Refused)],
                      registered := s.registered - {ids[0]}), ids[1..])
  }

  function Fail(s: State, f: nat): State {
    if f >= |s.heap| then s else
    var rejected := RejectAll(s, s.heap[f].subscribers);
    Remove(rejected.(heap := s.heap[f := s.heap[f].(subscribers := [])]), f)
  }

  predicate Fits(s: State, bytes: int) {
    |s.cache| + s.active < s.limits.objects && s.cached + s.reserved + bytes <= s.limits.bytes
  }

  /** Evicts idle entries in cache order from position `i` until the read fits. */
  function Room(s: State, i: nat, bytes: int): (State, bool)
    requires i <= |s.cache|
    decreases |s.cache| - i
  {
    if i == |s.cache| || Fits(s, bytes) then (s, Fits(s, bytes))
    else if s.cache[i].refs != 0 then Room(s, i + 1, bytes)
    else Room(s.(cache := Without(s.cache, i), cached := s.cached - s.cache[i].bytes, revoked := s.revoked + [s.cache[i].url]), i, bytes)
  }

  lemma RoomFrame(s: State, i: nat, bytes: int)
    requires i <= |s.cache|
    ensures Room(s, i, bytes).0 == s.(cache := Room(s, i, bytes).0.cache, cached := Room(s, i, bytes).0.cached, revoked := Room(s, i, bytes).0.revoked)
    decreases |s.cache| - i
  {
  }

  lemma DeliverAllFrame(s: State, ids: seq<nat>, key: Media)
    ensures DeliverAll(s, ids, key) == s.(subs := DeliverAll(s, ids, key).subs, cache := DeliverAll(s, ids, key).cache)
    ensures |DeliverAll(s, ids, key).subs| == |s.subs|
    decreases |ids|
  {
  }

  lemma RejectAllFrame(s: State, ids: seq<nat>)
    ensures RejectAll(s, ids) == s.(subs := RejectAll(s, ids).subs, registered := RejectAll(s, ids).registered)
    ensures |RejectAll(s, ids).subs| == |s.subs|
    decreases |ids|
  {
  }

  lemma MinusShrinks(xs: seq<nat>, x: nat)
    requires x in xs
    ensures |Minus(xs, x)| < |xs|
  {
  }

  function Start(s: State, f: nat): State
    requires f < |s.heap| && s.queue != []
  {
    s.(queue := s.queue[1..], active := s.active + 1, reserved := s.reserved + s.heap[f].media.bytes, reading := s.reading + {f})
  }

  /** One turn of the pump over the head of the queue, and whether the pump goes on. */
  function PumpOne(s: State): (r: (State, bool))
    requires s.queue != []
    ensures r.1 ==> |r.0.queue| < |s.queue|
  {
    var f := s.queue[0];
    if f >= |s.heap| then (s, false) else
    var key := s.heap[f].media;
    MinusShrinks(s.queue, f);
    if Cached(s, key) then
      DeliverAllFrame(Remove(s, f), s.heap[f].subscribers, key);
      (DeliverAll(Remove(s, f), s.heap[f].subscribers, key), true)
    else
      var (made, ok) := Room(s, 0, key.bytes);
      RoomFrame(s, 0, key.bytes);
      if ok then (Start(made, f), true)
      else if made.active != 0 then (made, false)
      else
        RejectAllFrame(made, made.heap[f].subscribers);
        (Fail(made, f), true)
  }

  lemma PumpOneFrame(s: State)
    requires s.queue != []
    ensures PumpOne(s).0.closed == s.closed
  {
    var f := s.queue[0];
    if f < |s.heap| {
      var key := s.heap[f].media;
      DeliverAllFrame(Remove(s, f), s.heap[f].subscribers, key);
      RoomFrame(s, 0, key.bytes);
      RejectAllFrame(Room(s, 0, key.bytes).0, s.heap[f].subscribers);
    }
  }

  function Pump(s: State): State
    decreases |s.queue|
  {
    if s.closed || s.active >= s.limits.concurrency || s.queue == [] then s
    else
      var (next, more) := PumpOne(s);
      if more then Pump(next) else next
  }

  // ----- the public steps -----

  function Acquire(s: State, media: Media, ticket: string): State {
    var id := |s.subs|;
    var blank := Subscription(true, None, None, Waiting);
    var refused := s.(subs := s.subs + [blank.(outcome := Refused)]);
    if s.closed || media.bytes < 1 || media.bytes > s.limits.bytes then refused else
    var added := s.(subs := s.subs + [blank], registered := s.registered + {id});
    if Cached(s, media) then Deliver(added, id, media) else
    if (media, ticket) in s.flights then
      var f := s.flights[(media, ticket)];
      if f >= |s.heap| then s else
      Pump(added.(subs := s.subs + [blank.(flight := Some(f))],
                  heap := s.heap[f := s.heap[f].(subscribers := s.heap[f].subscribers + [id])]))
    else if |s.queue| >= s.limits.objects then refused
    else
      var f := |s.heap|;
      Pump(added.(subs := s.subs + [blank.(flight := Some(f))],
                  heap := s.heap + [Flight(media, ticket, [id])],
                  flights := s.flights[(media, ticket) := f],
                  queue := s.queue + [f]))
  }

  /** Drops one reference to the entry published under `url`. */
  function Unpin(cache: seq<Entry>, url: nat): (r: seq<Entry>)
    ensures |r| == |cache|
    ensures forall i | 0 <= i < |cache| ::
              r[i] == if cache[i].url == url then cache[i].(refs := cache[i].refs - 1) else cache[i]
  {
    seq(|cache|, i requires 0 <= i < |cache| => if cache[i].url == url then cache[i].(refs := cache[i].refs - 1) else cache[i])
  }

  /** The flight loses a subscriber, and leaves the queue with its last one. */
  function Leave(s: State, id: nat, f: nat): State {
    if f >= |s.heap| then s else
    var left := s.(heap := s.heap[f := s.heap[f].(subscribers := Minus(s.heap[f].subscribers, id))]);
    if f !in s.reading && left.heap[f].subscribers == [] then Remove(left, f) else left
  }

  function Release(s: State, id: nat): State {
    if id >= |s.subs| || !s.subs[id].live then s else
    var sub := s.subs[id];
    var retired := s.(subs := s.subs[id := Settled(sub.(live := false), Withdrawn)],
                      registered := s.registered - {id},
                      cache := if sub.entry.Some? then Unpin(s.cache, sub.entry.value) else s.cache);
    Pump(if sub.flight.Some? then Leave(retired, id, sub.flight.value) else retired)
  }

  /** The body of a read after its reply arrives; the flag says whether its reservation has been transferred. */
  function Land(s: State, f: nat, reply: Reply): (State, bool)
    requires f < |s.heap|
  {
    var flight := s.heap[f];
    var key := flight.media;
    if s.closed || flight.subscribers == [] then (s, false)
    else if reply.ReadFailed? || reply.length != key.bytes || !reply.exact then (Fail(s, f), false)
    else if Cached(s, key) then
      (DeliverAll(s.(reserved := s.reserved - key.bytes), flight.subscribers, key), true)
    else if s.converting + reply.length > s.limits.bytes || !reply.urlAvailable then (Fail(s, f), false)
    else
      (DeliverAll(s.(reserved := s.reserved - key.bytes,
                     cache := s.cache + [Entry(key, s.nextUrl, reply.length, 0)],
                     cached := s.cached + reply.length,
                     nextUrl := s.nextUrl + 1), flight.subscribers, key), true)
  }

  function Finish(s: State, f: nat, bytes: int, resolved: bool): State {
    Remove(s.(reserved := if resolved then s.reserved else s.reserved - bytes,
              active := s.active - 1,
              reading := s.reading - {f}), f)
  }

  function ReadReplies(s: State, f: nat, reply: Reply): State {
    if f !in s.reading || f >= |s.heap| then s else
    var (landed, resolved) := Land(s, f, reply);
    Pump(Finish(landed, f, s.heap[f].media.bytes, resolved))
  }

  function Urls(cache: seq<Entry>): (urls: seq<nat>)
    ensures |urls| == |cache|
    ensures forall i | 0 <= i < |cache| :: urls[i] == cache[i].url
  {
    seq(|cache|, i requires 0 <= i < |cache| => cache[i].url)
  }

  /** Every registered handle resolves empty. */
  function WithdrawAll(subs: seq<Subscription>, registered: set<nat>): (r: seq<Subscription>)
    ensures |r| == |subs|
    ensures forall i | 0 <= i < |subs| :: r[i] == if i in registered then Settled(subs[i].(live := false), Withdrawn) else subs[i]
  {
    seq(|subs|, i requires 0 <= i < |subs| => if i in registered then Settled(subs[i].(live := false), Withdrawn) else subs[i])
  }

  /** Every indexed flight forgets its subscribers. */
  function ForgetAll(heap: seq<Flight>, flights: map<(Media, string), nat>): (r: seq<Flight>)
    ensures |r| == |heap|
    ensures forall f | 0 <= f < |heap| ::
              r[f] == if Lookup(flights, (heap[f].media, heap[f].ticket)) == Some(f) then heap[f].(subscribers := []) else heap[f]
  {
    seq(|heap|, f requires 0 <= f < |heap| =>
      if Lookup(flights, (heap[f].media, heap[f].ticket)) == Some(f) then heap[f].(subscribers := []) else heap[f])
  }

  function Dispose(s: State): State {
    if s.closed then s else
    s.(closed := true,
       subs := WithdrawAll(s.subs, s.registered),
       registered := {},
       heap := ForgetAll(s.heap, s.flights),
       flights := map[],
       queue := [],
       revoked := s.revoked + Urls(s.cache),
       cache := [],
       cached := 0)
  }

  datatype Event =
    | Acquires(media: Media, ticket: string)
    | Releases(id: nat)
    | Replies(flight: nat, reply: Reply)
    | Disposes

  function Next(s: State, ev: Event): State {
    match ev
    case Acquires(media, ticket) => Acquire(s, media, ticket)
    case Releases(id) => Release(s, id)
    case Replies(f, reply) => ReadReplies(s, f, reply)
    case Disposes => Dispose(s)
  }

  // ----- the cache as the program runs it -----

  class ImagePreviewCache {
    const limits: Limits
    var cache: seq<Entry>
    var flights: map<(Media, string), nat>
    var queue: seq<nat>
    var registered: set<nat>
    var active: int
    var reserved: int
    var cached: int
    var converting: int
    var closed: bool
    var subs: seq<Subscription>
    var heap: seq<Flight>
    var reading: set<nat>
    var nextUrl: nat
    var revoked: seq<nat>

    function View(): State
      reads this
    {
      State(limits, cache, flights, queue, registered, active, reserved, cached, converting, closed, subs, heap, reading, nextUrl, revoked)
    }

    constructor (limits: Limits)
      ensures View() == Initial(limits)
    {
      this.limits := limits;
      cache, flights, queue, registered := [], map[], [], {};
      active, reserved, cached, converting, closed := 0, 0, 0, 0, false;
      subs, heap, reading, nextUrl, revoked := [], [], {}, 0, [];
    }

    method DeliverTo(id: nat, key: Media)
      modifies this
      ensures View() == Deliver(old(View()), id, key)
    {
      var i := Find(cache, key);
      if id >= |subs| || !subs[id].live || i == |cache| { return; }
      var entry := cache[i];
      subs := subs[id := Settled(subs[id].(flight := None, entry := Some(entry.url)), Shown(entry.url))];
      cache := cache[..i] + cache[i + 1..];
      cache := cache + [entry.(refs := entry.refs + 1)];
    }

    method DeliverEach(ids: seq<nat>, key: Media)
      modifies this
      ensures View() == DeliverAll(old(View()), ids, key)
    {
      var rest := ids;
      while rest != []
        invariant DeliverAll(View(), rest, key) == DeliverAll(old(View()), ids, key)
        decreases |rest|
      {
        DeliverTo(rest[0], key);
        rest := rest[1..];
      }
    }

    method RemoveFlight(f: nat)
      modifies this
      ensures View() == Remove(old(View()), f)
    {
      if f >= |heap| { return; }
      var id := (heap[f].media, heap[f].ticket);
      if Lookup(flights, id) == Some(f) { flights := flights - {id}; }
      queue := Minus(queue, f);
    }

    method FailFlight(f: nat)
      modifies this
      ensures View() == Fail(old(View()), f)
    {
      if f >= |heap| { return; }
      var rest: seq<nat> := heap[f].subscribers;
      while rest != []
        invariant RejectAll(View(), rest) == RejectAll(old(View()), old(heap[f].subscribers))
        invariant heap == old(heap)
        decreases |rest|
      {
        if rest[0] < |subs| {
          subs := subs[rest[0] := Settled(subs[rest[0]].(flight := None), Refused)];
          registered := registered - {rest[0]};
        }
        rest := rest[1..];
      }
      heap := heap[f := heap[f].(subscribers := [])];
      RemoveFlight(f);
    }

    /** Evicts idle entries in order while the read does not fit. */
    method MakeRoom(bytes: int) returns (ok: bool)
      modifies this
      ensures (View(), ok) == Room(old(View()), 0, bytes)
    {
      var i := 0;
      while i < |cache| && !Fits(View(), bytes)
        invariant i <= |cache|
        invariant Room(View(), i, bytes) == Room(old(View()), 0, bytes)
        decreases |cache| - i
      {
        if cache[i].refs != 0 {
          i := i + 1;
        } else {
          var entry := cache[i];
          cache := cache[..i] + cache[i + 1..];
          cached := cached - entry.bytes;
          revoked := revoked + [entry.url];
        }
      }
      ok := Fits(View(), bytes);
    }

    /** One turn of the pump; reports whether it goes on. */
    method PumpHead() returns (more: bool)
      requires queue != []
      modifies this
      ensures (View(), more) == PumpOne(old(View()))
    {
      hide DeliverAll, Remove, Fail, Room, Minus;
      var f := queue[0];
      if f >= |heap| { return false; }
      var key := heap[f].media;
      if Find(cache, key) < |cache| {
        var waiting := heap[f].subscribers;
        RemoveFlight(f);
        DeliverEach(waiting, key);
        return true;
      }
      RoomFrame(View(), 0, key.bytes);
      var ok := MakeRoom(key.bytes);
      if !ok {
        if active != 0 { return false; }
        FailFlight(f);
        return true;
      }
      queue := queue[1..];
      active := active + 1;
      reserved := reserved + heap[f].media.bytes;
      reading := reading + {f};
      return true;
    }

    method PumpQueue()
      modifies this
      ensures View() == Pump(old(View()))
    {
      hide PumpOne;
      var more := !closed;
      while more && active < limits.concurrency && queue != []
        invariant more ==> !closed && Pump(View()) == Pump(old(View()))
        invariant !more ==> View() == Pump(old(View()))
        decreases more, |queue|
      {
        ghost var before := View();
        more := PumpHead();
        PumpOneFrame(before);
      }
    }

    method AcquireHandle(media: Media, ticket: string) returns (id: nat)
      modifies this
      ensures View() == Acquire(old(View()), media, ticket)
      ensures id == old(|subs|)
    {
      hide Pump, Deliver;
      id := |subs|;
      if closed || media.bytes < 1 || media.bytes > limits.bytes {
        subs := subs + [Subscription(true, None, None, Refused)];
        return;
      }
      var key := media;
      if Find(cache, key) < |cache| {
        subs := subs + [Subscription(true, None, None, Waiting)];
        registered := registered + {id};
        DeliverTo(id, key);
        return;
      }
      if (media, ticket) in flights {
        var f := flights[(media, ticket)];
        if f >= |heap| { return; }
        heap := heap[f := heap[f].(subscribers := heap[f].subscribers + [id])];
        subs := subs + [Subscription(true, None, Some(f), Waiting)];
      } else if |queue| >= limits.objects {
        subs := subs + [Subscription(true, None, None, Refused)];
        return;
      } else {
        var f := |heap|;
        heap := heap + [Flight(media, ticket, [id])];
        flights := flights[(media, ticket) := f];
        queue := queue + [f];
        subs := subs + [Subscription(true, None, Some(f), Waiting)];
      }
      registered := registered + {id};
      PumpQueue();
    }

    method ReleaseHandle(id: nat)
      modifies this
      ensures View() == Release(old(View()), id)
    {
      hide Pump, Remove, Minus, Unpin, Settled;
      if id >= |subs| || !subs[id].live { return; }
      var sub := subs[id];
      subs := subs[id := Settled(sub.(live := false), Withdrawn)];
      registered := registered - {id};
      if sub.entry.Some? { cache := Unpin(cache, sub.entry.value); }
      if sub.flight.Some? && sub.flight.value < |heap| {
        var f := sub.flight.value;
        heap := heap[f := heap[f].(subscribers := Minus(heap[f].subscribers, id))];
        if f !in reading && heap[f].subscribers == [] { RemoveFlight(f); }
      }
      PumpQueue();
    }

    /** Validates and publishes the bytes; reports whether the reservation was transferred. */
    method LandReply(f: nat, reply: Reply) returns (resolved: bool)
      requires f < |heap|
      modifies this
      ensures (View(), resolved) == Land(old(View()), f, reply)
    {
      hide Fail, DeliverAll, Find;
      var flight := heap[f];
      var key := flight.media;
      if closed || flight.subscribers == [] { return false; }
      if reply.ReadFailed? || reply.length != key.bytes || !reply.exact {
        FailFlight(f);
        return false;
      }
      if Find(cache, key) == |cache| {
        if converting + reply.length > limits.bytes || !reply.urlAvailable {
          FailFlight(f);
          return false;
        }
        converting := converting + reply.length;
        var entry := Entry(key, nextUrl, reply.length, 0);
        nextUrl := nextUrl + 1;
        cache := cache + [entry];
        cached := cached + entry.bytes;
        converting := converting - reply.length;
      }
      reserved := reserved - key.bytes;
      DeliverEach(flight.subscribers, key);
      return true;
    }

    /** The continuation of a read once its reply is known. */
    method ReadReturned(f: nat, reply: Reply)
      modifies this
      ensures View() == ReadReplies(old(View()), f, reply)
    {
      hide Pump, Remove, Land;
      if f !in reading || f >= |heap| { return; }
      var bytes := heap[f].media.bytes;
      var resolved := LandReply(f, reply);
      if !resolved { reserved := reserved - bytes; }
      active := active - 1;
      reading := reading - {f};
      RemoveFlight(f);
      PumpQueue();
    }

    method WithdrawHandles()
      modifies this`subs
      ensures subs == WithdrawAll(old(subs), registered)
    {
      hide Settled;
      for i := 0 to |subs|
        invariant |subs| == old(|subs|)
        invariant forall j | 0 <= j < |subs| ::
                    subs[j] == if j < i && j in registered then Settled(old(subs)[j].(live := false), Withdrawn) else old(subs)[j]
      {
        if i in registered { subs := subs[i := Settled(subs[i].(live := false), Withdrawn)]; }
      }
    }

    method ForgetSubscribers()
      modifies this`heap
      ensures heap == ForgetAll(old(heap), flights)
    {
      hide Lookup;
      for f := 0 to |heap|
        invariant |heap| == old(|heap|)
        invariant forall g | 0 <= g < |heap| ::
                    var flight := old(heap)[g];
                    heap[g] == if g < f && Lookup(flights, (flight.media, flight.ticket)) == Some(g) then flight.(subscribers := []) else flight
      {
        if Lookup(flights, (heap[f].media, heap[f].ticket)) == Some(f) { heap := heap[f := heap[f].(subscribers := [])]; }
      }
    }

    method RevokeCache()
      modifies this`revoked, this`cache, this`cached
      ensures revoked == old(revoked) + Urls(old(cache)) && cache == [] && cached == 0
    {
      revoked := revoked + Urls(cache);
      cache, cached := [], 0;
    }

    method Close()
      modifies this
      ensures View() == Dispose(old(View()))
    {
      hide WithdrawAll, ForgetAll, Urls, Settled, Lookup;
      if !closed {
        closed := true;
        WithdrawHandles();
        ForgetSubscribers();
        registered, flights, queue := {}, map[], [];
        RevokeCache();
      }
    }
  }
}
