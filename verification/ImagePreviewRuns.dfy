/** What every run of the preview cache keeps: budgets, references, URLs and wakeups. */
module ImagePreviewRuns {
  import opened Wrappers
  import opened Sums
  import opened ImagePreviews

  // ----- the invariant, part by part -----

  function SumBytes(cache: seq<Entry>): int {
    if cache == [] then 0 else SumBytes(cache[..|cache| - 1]) + cache[|cache| - 1].bytes
  }

  ghost predicate Distinct(cache: seq<Entry>) {
    forall i, j | 0 <= i < |cache| && 0 <= j < |cache| && i != j :: cache[i].key != cache[j].key && cache[i].url != cache[j].url
  }

  ghost predicate EntriesOk(cache: seq<Entry>, nextUrl: nat) {
    forall i | 0 <= i < |cache| :: cache[i].url < nextUrl && cache[i].bytes == cache[i].key.bytes && cache[i].bytes >= 1
  }

  ghost predicate CacheOk(cache: seq<Entry>, nextUrl: nat, cached: int) {
    Distinct(cache) && EntriesOk(cache, nextUrl) && cached == SumBytes(cache)
  }

  /** The live handles that display the entry published under `url`. */
  ghost function Holders(subs: seq<Subscription>, url: nat): set<nat> {
    set i | 0 <= i < |subs| && subs[i].live && subs[i].entry == Some(url)
  }

  ghost predicate RefsOk(cache: seq<Entry>, subs: seq<Subscription>) {
    forall i | 0 <= i < |cache| :: cache[i].refs == |Holders(subs, cache[i].url)|
  }

  ghost predicate HasUrl(cache: seq<Entry>, url: nat) {
    exists i :: 0 <= i < |cache| && cache[i].url == url
  }

  ghost predicate NoRepeats(xs: seq<nat>) {
    forall i, j | 0 <= i < j < |xs| :: xs[i] != xs[j]
  }

  /** Every URL ever created is either in the cache or revoked, never both, and revoked once. */
  ghost predicate UrlsOk(cache: seq<Entry>, nextUrl: nat, revoked: seq<nat>) {
    && NoRepeats(revoked)
    && (forall u :: u in revoked <==> 0 <= u < nextUrl && !HasUrl(cache, u))
  }

  ghost predicate Budget(s: State) {
    && s.cached + s.reserved <= s.limits.bytes
    && |s.cache| + s.active <= s.limits.objects
  }

  /** Bytes reserved by each started, unresolved flight. */
  ghost function Reservations(reading: set<nat>, heap: seq<Flight>): map<nat, int> {
    map f | f in reading && f < |heap| :: heap[f].media.bytes
  }

  ghost predicate ReadsOk(s: State) {
    && (forall f | f in s.reading :: f < |s.heap|)
    && s.active == |s.reading|
    && s.reserved == Sum(Reservations(s.reading, s.heap))
    && s.converting == 0
  }

  /** Flight `f` is queued or being read. */
  predicate Pending(queue: seq<nat>, reading: set<nat>, f: nat) {
    f in queue || f in reading
  }

  function Identity(flight: Flight): (Media, string) {
    (flight.media, flight.ticket)
  }

  ghost predicate QueueOk(queue: seq<nat>, reading: set<nat>, heap: seq<Flight>) {
    && NoRepeats(queue)
    && (forall f | f in queue :: f < |heap| && f !in reading)
    && (forall f | 0 <= f < |heap| :: heap[f].media.bytes >= 1)
  }

  /** While open, the identity index holds exactly the pending flights. */
  ghost predicate IndexOk(queue: seq<nat>, reading: set<nat>, heap: seq<Flight>, flights: map<(Media, string), nat>, closed: bool) {
    && (closed ==> queue == [] && flights == map[])
    && (!closed ==> forall f: nat | Pending(queue, reading, f) :: f < |heap| && Lookup(flights, Identity(heap[f])) == Some(f))
    && (forall id | id in flights :: Pending(queue, reading, flights[id]) && flights[id] < |heap| && Identity(heap[flights[id]]) == id)
  }

  /** Handle `i` awaits flight `f`. */
  predicate Awaits(subs: seq<Subscription>, i: nat, f: nat) {
    i < |subs| && subs[i].live && subs[i].flight == Some(f)
  }

  /** Handles and pending flights name each other. */
  ghost predicate LinksOk(queue: seq<nat>, reading: set<nat>, heap: seq<Flight>, subs: seq<Subscription>) {
    && (forall f: nat, i: nat | Pending(queue, reading, f) && f < |heap| && i in heap[f].subscribers :: Awaits(subs, i, f))
    && (forall f: nat | Pending(queue, reading, f) && f < |heap| :: NoRepeats(heap[f].subscribers))
    && (forall i: nat | i < |subs| && subs[i].live && subs[i].flight.Some? ::
          Pending(queue, reading, subs[i].flight.value) && subs[i].flight.value < |heap| && i in heap[subs[i].flight.value].subscribers)
  }

  /** A displayed entry is in the cache; a handle is unsettled exactly while it awaits a flight. */
  ghost predicate HandlesOk(cache: seq<Entry>, subs: seq<Subscription>, registered: set<nat>) {
    && (forall i: nat | i < |subs| && subs[i].live && subs[i].entry.Some? :: subs[i].flight.None? && HasUrl(cache, subs[i].entry.value))
    && (forall i: nat | i < |subs| :: subs[i].outcome.Waiting? <==> subs[i].live && subs[i].flight.Some?)
    && (forall i: nat | i < |subs| && subs[i].live && (subs[i].entry.Some? || subs[i].flight.Some?) :: i in registered)
    && (forall i: nat | i in registered :: i < |subs| && subs[i].live)
  }

  ghost predicate Core(s: State) {
    && CacheOk(s.cache, s.nextUrl, s.cached)
    && RefsOk(s.cache, s.subs)
    && UrlsOk(s.cache, s.nextUrl, s.revoked)
    && Budget(s) && ReadsOk(s)
    && QueueOk(s.queue, s.reading, s.heap)
    && IndexOk(s.queue, s.reading, s.heap, s.flights, s.closed)
    && LinksOk(s.queue, s.reading, s.heap, s.subs)
    && HandlesOk(s.cache, s.subs, s.registered)
    && (s.closed ==> s.cache == [] && forall f | f in s.reading && f < |s.heap| :: s.heap[f].subscribers == [])
  }

  /** On an open cache that may read at all, waiting flights always have an active read to wake them. */
  predicate Awake(s: State) {
    !s.closed && s.limits.concurrency > 0 && s.queue != [] ==> s.active > 0
  }

  ghost predicate Valid(s: State) {
    Core(s) && Awake(s)
  }

  // ----- sequences -----

  lemma {:induction false} SumBytesWithout(cache: seq<Entry>, i: nat)
    requires i < |cache|
    ensures SumBytes(Without(cache, i)) == SumBytes(cache) - cache[i].bytes
  {
    var n := |cache| - 1;
    if i < n {
      SumBytesWithout(cache[..n], i);
      assert Without(cache, i)[..n - 1] == Without(cache[..n], i);
    } else {
      assert Without(cache, i) == cache[..n];
    }
  }

  lemma SumBytesAppend(cache: seq<Entry>, e: Entry)
    ensures SumBytes(cache + [e]) == SumBytes(cache) + e.bytes
  {
    assert (cache + [e])[..|cache|] == cache;
  }

  lemma {:induction false} SumBytesPointwise(a: seq<Entry>, b: seq<Entry>)
    requires |a| == |b| && forall i | 0 <= i < |a| :: a[i].bytes == b[i].bytes
    ensures SumBytes(a) == SumBytes(b)
  {
    if a != [] { SumBytesPointwise(a[..|a| - 1], b[..|b| - 1]); }
  }

  lemma MinusNoRepeats(xs: seq<nat>, x: nat)
    requires NoRepeats(xs)
    ensures NoRepeats(Minus(xs, x))
  {
    if xs != [] {
      assert NoRepeats(xs[1..]);
      MinusNoRepeats(xs[1..], x);
      var rest := Minus(xs[1..], x);
      if xs[0] != x {
        assert forall j | 0 <= j < |rest| :: rest[j] in xs[1..];
        assert xs[0] !in rest;
      }
    }
  }

  /** Moving entry `i` to the end with new references keeps the cache's shape. */
  function Rotated(cache: seq<Entry>, i: nat, refs: int): seq<Entry>
    requires i < |cache|
  {
    Without(cache, i) + [cache[i].(refs := refs)]
  }

  lemma WithoutAt(cache: seq<Entry>, i: nat)
    requires i < |cache|
    ensures |Without(cache, i)| == |cache| - 1
    ensures forall j | 0 <= j < |cache| - 1 :: Without(cache, i)[j] == cache[if j < i then j else j + 1]
  {
  }

  lemma DistinctWithout(cache: seq<Entry>, i: nat)
    requires i < |cache| && Distinct(cache)
    ensures Distinct(Without(cache, i))
    ensures forall u :: HasUrl(Without(cache, i), u) <==> HasUrl(cache, u) && u != cache[i].url
    ensures forall j | 0 <= j < |Without(cache, i)| :: Without(cache, i)[j].key != cache[i].key
  {
    var r := Without(cache, i);
    WithoutAt(cache, i);
    forall u
      ensures HasUrl(r, u) <==> HasUrl(cache, u) && u != cache[i].url
    {
      if HasUrl(cache, u) && u != cache[i].url {
        var k :| 0 <= k < |cache| && cache[k].url == u;
        assert r[if k < i then k else k - 1].url == u;
      }
    }
  }

  lemma EntriesWithout(cache: seq<Entry>, i: nat, nextUrl: nat)
    requires i < |cache| && EntriesOk(cache, nextUrl)
    ensures EntriesOk(Without(cache, i), nextUrl)
  {
    WithoutAt(cache, i);
  }

  lemma DistinctAppend(cache: seq<Entry>, e: Entry)
    requires Distinct(cache)
    requires forall j | 0 <= j < |cache| :: cache[j].key != e.key
    requires !HasUrl(cache, e.url)
    ensures Distinct(cache + [e])
    ensures forall u :: HasUrl(cache + [e], u) <==> HasUrl(cache, u) || u == e.url
  {
    var r := cache + [e];
    assert r[|cache|] == e;
    forall u | HasUrl(cache, u)
      ensures HasUrl(r, u)
    {
      var k :| 0 <= k < |cache| && cache[k].url == u;
      assert r[k].url == u;
    }
  }

  lemma RotatedOk(cache: seq<Entry>, i: nat, refs: int, nextUrl: nat, cached: int)
    requires i < |cache| && CacheOk(cache, nextUrl, cached)
    ensures CacheOk(Rotated(cache, i, refs), nextUrl, cached) && |Rotated(cache, i, refs)| == |cache|
    ensures forall u :: HasUrl(Rotated(cache, i, refs), u) <==> HasUrl(cache, u)
  {
    hide HasUrl, Distinct;
    DistinctWithout(cache, i);
    EntriesWithout(cache, i, nextUrl);
    DistinctAppend(Without(cache, i), cache[i].(refs := refs));
    SumBytesWithout(cache, i);
    SumBytesAppend(Without(cache, i), cache[i].(refs := refs));
    UrlAt(cache, i);
  }

  lemma UrlAt(cache: seq<Entry>, i: nat)
    requires i < |cache|
    ensures HasUrl(cache, cache[i].url)
  {
  }

  // ----- eviction -----

  lemma {:induction false} RoomKeeps(s: State, i: nat, bytes: int)
    requires Core(s) && i <= |s.cache|
    ensures var (made, ok) := Room(s, i, bytes); Core(made) && ok == Fits(made, bytes) && (made.closed <==> s.closed)
    decreases |s.cache| - i
  {
    if i < |s.cache| && !Fits(s, bytes) {
      if s.cache[i].refs != 0 {
        RoomKeeps(s, i + 1, bytes);
      } else {
        EvictKeeps(s, i);
        RoomKeeps(Evicted(s, i), i, bytes);
      }
    }
  }

  function Evicted(s: State, i: nat): State
    requires i < |s.cache|
  {
    s.(cache := Without(s.cache, i), cached := s.cached - s.cache[i].bytes, revoked := s.revoked + [s.cache[i].url])
  }

  /** Only an entry nobody displays is evicted, and its URL is revoked then and never again. */
  lemma EvictKeeps(s: State, i: nat)
    requires Core(s) && i < |s.cache| && s.cache[i].refs == 0
    ensures Core(Evicted(s, i))
  {
    hide Sum, HasUrl, Distinct, Reservations, QueueOk, IndexOk, LinksOk;
    var t, url := Evicted(s, i), s.cache[i].url;
    DistinctWithout(s.cache, i);
    EntriesWithout(s.cache, i, s.nextUrl);
    SumBytesWithout(s.cache, i);
    WithoutAt(s.cache, i);
    UrlAt(s.cache, i);
    assert Holders(s.subs, url) == {};
    forall j | 0 <= j < |s.subs| && s.subs[j].live && s.subs[j].entry.Some?
      ensures HasUrl(t.cache, s.subs[j].entry.value)
    {
      assert s.subs[j].entry == Some(url) ==> j in Holders(s.subs, url);
    }
  }

  // ----- starting a read -----

  lemma ReservationsAdd(reading: set<nat>, heap: seq<Flight>, f: nat)
    requires f < |heap| && f !in reading
    ensures Sum(Reservations(reading + {f}, heap)) == Sum(Reservations(reading, heap)) + heap[f].media.bytes
  {
    SumSet(Reservations(reading, heap), f, heap[f].media.bytes);
    assert Reservations(reading + {f}, heap) == Reservations(reading, heap)[f := heap[f].media.bytes];
  }

  lemma ReservationsDrop(reading: set<nat>, heap: seq<Flight>, f: nat)
    requires f < |heap| && f in reading
    ensures Sum(Reservations(reading - {f}, heap)) == Sum(Reservations(reading, heap)) - heap[f].media.bytes
  {
    SumDrop(Reservations(reading, heap), f);
    assert Reservations(reading - {f}, heap) == Reservations(reading, heap) - {f};
  }

  /** Changing who subscribes does not change what is reserved. */
  lemma ReservationsFrame(reading: set<nat>, a: seq<Flight>, b: seq<Flight>)
    requires forall f | f in reading :: f < |a| && f < |b| && a[f].media == b[f].media
    ensures Reservations(reading, a) == Reservations(reading, b)
  {
  }

  lemma SamePending(q: seq<nat>, r: set<nat>, q': seq<nat>, r': set<nat>, heap: seq<Flight>, flights: map<(Media, string), nat>, closed: bool, subs: seq<Subscription>)
    requires forall x: nat :: Pending(q, r, x) <==> Pending(q', r', x)
    requires IndexOk(q, r, heap, flights, closed) && LinksOk(q, r, heap, subs) && (closed ==> q' == [])
    ensures IndexOk(q', r', heap, flights, closed) && LinksOk(q', r', heap, subs)
  {
    hide Identity, Awaits;
  }

  lemma QueueTail(queue: seq<nat>, reading: set<nat>, heap: seq<Flight>)
    requires queue != [] && QueueOk(queue, reading, heap)
    ensures QueueOk(queue[1..], reading + {queue[0]}, heap)
    ensures queue == [queue[0]] + queue[1..] && queue[0] !in queue[1..]
    ensures queue[0] < |heap| && queue[0] !in reading
  {
    assert forall x | x in queue[1..] :: x in queue;
  }

  lemma StartKeeps(s: State)
    requires Core(s) && s.queue != [] && s.queue[0] < |s.heap|
    requires Fits(s, s.heap[s.queue[0]].media.bytes)
    ensures Core(Start(s, s.queue[0]))
  {
    hide Sum, Reservations, CacheOk, RefsOk, UrlsOk, HandlesOk, IndexOk, LinksOk, QueueOk;
    var f, t := s.queue[0], Start(s, s.queue[0]);
    if s.closed { ClosedQueue(s); assert false; }
    QueueTail(s.queue, s.reading, s.heap);
    ReservationsAdd(s.reading, s.heap, f);
    assert ReadsOk(t);
    assert Budget(t);
    SamePending(s.queue, s.reading, t.queue, t.reading, s.heap, s.flights, s.closed, s.subs);
  }

  lemma ClosedQueue(s: State)
    requires Core(s) && s.closed
    ensures s.queue == [] && s.flights == map[]
  {
  }

  // ----- delivering to and rejecting the subscribers of one flight -----

  function ShowAll(subs: seq<Subscription>, ids: seq<nat>, url: nat): (r: seq<Subscription>)
    ensures |r| == |subs|
  {
    seq(|subs|, i requires 0 <= i < |subs| =>
      if i in ids then Settled(subs[i].(flight := None, entry := Some(url)), Shown(url)) else subs[i])
  }

  function RefuseAll(subs: seq<Subscription>, ids: seq<nat>): (r: seq<Subscription>)
    ensures |r| == |subs|
  {
    seq(|subs|, i requires 0 <= i < |subs| => if i in ids then Settled(subs[i].(flight := None), Refused) else subs[i])
  }

  function Members(ids: seq<nat>): set<nat> {
    set i | i in ids
  }

  lemma FindLast(cache: seq<Entry>, key: Media)
    requires cache != [] && cache[|cache| - 1].key == key
    requires forall j | 0 <= j < |cache| - 1 :: cache[j].key != key
    ensures Find(cache, key) == |cache| - 1
  {
  }

  lemma RotatedFind(cache: seq<Entry>, key: Media, refs: int)
    requires Distinct(cache) && Find(cache, key) < |cache|
    ensures var i, n := Find(cache, key), |cache| - 1;
            var r := Rotated(cache, i, refs);
            && Distinct(r) && |r| == |cache| && Find(r, key) == n && r[n] == cache[i].(refs := refs)
            && Without(r, n) == Without(cache, i)
  {
    var i, n := Find(cache, key), |cache| - 1;
    var r := Rotated(cache, i, refs);
    DistinctWithout(cache, i);
    DistinctAppend(Without(cache, i), r[n]);
    FindLast(r, key);
  }

  lemma ShowStep(subs: seq<Subscription>, ids: seq<nat>, url: nat)
    requires ids != [] && NoRepeats(ids) && ids[0] < |subs|
    ensures ShowAll(subs[ids[0] := Settled(subs[ids[0]].(flight := None, entry := Some(url)), Shown(url))], ids[1..], url)
         == ShowAll(subs, ids, url)
  {
    hide Settled;
    assert ids[0] !in ids[1..];
    assert forall x :: x in ids <==> x == ids[0] || x in ids[1..];
  }

  lemma {:induction false} DeliverAllEffect(s: State, ids: seq<nat>, key: Media)
    requires NoRepeats(ids) && Distinct(s.cache) && Cached(s, key)
    requires forall id | id in ids :: id < |s.subs| && s.subs[id].live
    ensures var i := Find(s.cache, key);
            DeliverAll(s, ids, key) == s.(
              subs := ShowAll(s.subs, ids, s.cache[i].url),
              cache := if ids == [] then s.cache else Rotated(s.cache, i, s.cache[i].refs + |ids|))
    decreases |ids|
  {
    hide Settled, ShowAll, Distinct, Find, Without;
    var i := Find(s.cache, key);
    if ids == [] {
      ShowNone(s.subs, s.cache[i].url);
    } else {
      assert ids[0] in ids;
      assert forall id | id in ids[1..] :: id in ids && id != ids[0];
      RotatedFind(s.cache, key, s.cache[i].refs + 1);
      ShowStep(s.subs, ids, s.cache[i].url);
      DeliverAllEffect(Deliver(s, ids[0], key), ids[1..], key);
    }
  }

  lemma ShowNone(subs: seq<Subscription>, url: nat)
    ensures ShowAll(subs, [], url) == subs
  {
  }

  lemma {:induction false} RejectAllEffect(s: State, ids: seq<nat>)
    requires NoRepeats(ids)
    requires forall id | id in ids :: id < |s.subs|
    ensures RejectAll(s, ids) == s.(subs := RefuseAll(s.subs, ids), registered := s.registered - Members(ids))
    decreases |ids|
  {
    if ids == [] {
      assert RefuseAll(s.subs, ids) == s.subs && s.registered - Members(ids) == s.registered;
    } else {
      assert ids[0] in ids;
      var t := s.(subs := s.subs[ids[0] := Settled(s.subs[ids[0]].(flight := None), Refused)], registered := s.registered - {ids[0]});
      assert ids[0] !in ids[1..];
      assert forall x :: x in ids <==> x == ids[0] || x in ids[1..];
      RejectAllEffect(t, ids[1..]);
      assert RefuseAll(t.subs, ids[1..]) == RefuseAll(s.subs, ids);
      assert t.registered - Members(ids[1..]) == s.registered - Members(ids);
    }
  }

  lemma {:induction false} MembersCount(ids: seq<nat>)
    requires NoRepeats(ids)
    ensures |Members(ids)| == |ids|
  {
    if ids != [] {
      assert ids[0] !in ids[1..];
      assert forall x :: x in ids <==> x == ids[0] || x in ids[1..];
      MembersCount(ids[1..]);
      assert Members(ids) == Members(ids[1..]) + {ids[0]};
    }
  }

  /** `f` is no longer pending and every other flight is as before. */
  ghost predicate Dropped(queue: seq<nat>, reading: set<nat>, queue': seq<nat>, reading': set<nat>, f: nat) {
    forall x: nat :: Pending(queue', reading', x) <==> Pending(queue, reading, x) && x != f
  }

  lemma DropIndex(queue: seq<nat>, reading: set<nat>, heap: seq<Flight>, flights: map<(Media, string), nat>, closed: bool,
                  queue': seq<nat>, reading': set<nat>, heap': seq<Flight>, f: nat)
    requires IndexOk(queue, reading, heap, flights, closed) && Pending(queue, reading, f) && f < |heap|
    requires Dropped(queue, reading, queue', reading', f) && (closed ==> queue' == [])
    requires |heap'| == |heap| && forall x | 0 <= x < |heap| :: Identity(heap'[x]) == Identity(heap[x])
    ensures IndexOk(queue', reading', heap', if Lookup(flights, Identity(heap[f])) == Some(f) then flights - {Identity(heap[f])} else flights, closed)
  {
    hide Identity, Pending;
  }

  lemma DropLinks(queue: seq<nat>, reading: set<nat>, heap: seq<Flight>, subs: seq<Subscription>,
                  queue': seq<nat>, reading': set<nat>, heap': seq<Flight>, subs': seq<Subscription>, f: nat)
    requires LinksOk(queue, reading, heap, subs) && Pending(queue, reading, f) && f < |heap|
    requires Dropped(queue, reading, queue', reading', f)
    requires |heap'| == |heap| && forall x | 0 <= x < |heap| && x != f :: heap'[x] == heap[x]
    requires |subs'| == |subs|
    requires forall i | 0 <= i < |subs| :: if i in heap[f].subscribers then subs'[i].flight.None? else subs'[i] == subs[i]
    ensures LinksOk(queue', reading', heap', subs')
  {
    hide Pending;
    forall i: nat | i < |subs'| && subs'[i].live && subs'[i].flight.Some?
      ensures Pending(queue', reading', subs'[i].flight.value) && subs'[i].flight.value < |heap'| && i in heap'[subs'[i].flight.value].subscribers
    {
      assert i !in heap[f].subscribers && subs'[i] == subs[i];
      assert subs[i].flight.value != f;
    }
  }

  /** The handles that are shown an entry hold it besides those that held it before; other entries keep theirs. */
  lemma ShowHolders(subs: seq<Subscription>, ids: seq<nat>, url: nat)
    requires NoRepeats(ids)
    requires forall id | id in ids :: id < |subs| && subs[id].live && subs[id].entry.None?
    ensures |Holders(ShowAll(subs, ids, url), url)| == |Holders(subs, url)| + |ids|
    ensures forall u | u != url :: Holders(ShowAll(subs, ids, url), u) == Holders(subs, u)
  {
    var shown := ShowAll(subs, ids, url);
    MembersCount(ids);
    assert Holders(shown, url) == Holders(subs, url) + Members(ids);
    assert Holders(subs, url) !! Members(ids);
    forall u | u != url
      ensures Holders(shown, u) == Holders(subs, u)
    {
    }
  }

  /** Showing the entry to a flight's subscribers raises its references by exactly their number. */
  lemma ShowRefs(cache: seq<Entry>, cache': seq<Entry>, subs: seq<Subscription>, ids: seq<nat>, i: nat)
    requires RefsOk(cache, subs) && Distinct(cache) && NoRepeats(ids) && i < |cache|
    requires forall id | id in ids :: id < |subs| && subs[id].live && subs[id].entry.None?
    requires cache' == if ids == [] then cache else Rotated(cache, i, cache[i].refs + |ids|)
    ensures RefsOk(cache', ShowAll(subs, ids, cache[i].url))
  {
    var url, shown := cache[i].url, ShowAll(subs, ids, cache[i].url);
    if ids == [] {
      assert shown == subs;
    } else {
      hide Holders, ShowAll, NoRepeats;
      ShowHolders(subs, ids, url);
      WithoutAt(cache, i);
      forall j | 0 <= j < |cache'|
        ensures cache'[j].refs == |Holders(shown, cache'[j].url)|
      {
        if j < |cache| - 1 {
          var k := if j < i then j else j + 1;
          assert cache'[j] == cache[k] && cache[k].url != url;
        }
      }
    }
  }

  /** The subscribers of a pending flight are live, unsettled and show nothing. */
  lemma SubscribersWait(s: State, f: nat)
    requires Core(s) && Pending(s.queue, s.reading, f) && f < |s.heap|
    ensures NoRepeats(s.heap[f].subscribers)
    ensures forall i | i in s.heap[f].subscribers ::
              i < |s.subs| && s.subs[i].live && s.subs[i].entry.None? && s.subs[i].outcome.Waiting? && i in s.registered
  {
    forall i | i in s.heap[f].subscribers
      ensures i < |s.subs| && s.subs[i].live && s.subs[i].entry.None? && s.subs[i].outcome.Waiting? && i in s.registered
    {
      assert Awaits(s.subs, i, f);
    }
  }

  lemma ShowHandles(cache: seq<Entry>, cache': seq<Entry>, subs: seq<Subscription>, registered: set<nat>, ids: seq<nat>, url: nat)
    requires HandlesOk(cache, subs, registered)
    requires forall id | id in ids :: id < |subs| && subs[id].live && id in registered
    requires forall u :: HasUrl(cache, u) ==> HasUrl(cache', u)
    requires HasUrl(cache', url)
    ensures HandlesOk(cache', ShowAll(subs, ids, url), registered)
  {
    hide HasUrl;
  }

  lemma RefuseHandles(cache: seq<Entry>, subs: seq<Subscription>, registered: set<nat>, ids: seq<nat>)
    requires HandlesOk(cache, subs, registered)
    requires forall id | id in ids :: id < |subs| && subs[id].live && subs[id].entry.None?
    ensures HandlesOk(cache, RefuseAll(subs, ids), registered - Members(ids))
  {
    hide HasUrl;
  }

  lemma RefuseRefs(cache: seq<Entry>, subs: seq<Subscription>, ids: seq<nat>)
    requires RefsOk(cache, subs)
    ensures RefsOk(cache, RefuseAll(subs, ids))
  {
    forall u: nat
      ensures Holders(RefuseAll(subs, ids), u) == Holders(subs, u)
    {
    }
  }

  lemma QueueDrop(queue: seq<nat>, reading: set<nat>, heap: seq<Flight>, heap': seq<Flight>, f: nat)
    requires QueueOk(queue, reading, heap)
    requires |heap'| == |heap| && forall x | 0 <= x < |heap| :: heap'[x].media == heap[x].media
    ensures QueueOk(Minus(queue, f), reading, heap') && QueueOk(Minus(queue, f), reading - {f}, heap')
    ensures Dropped(queue, reading - {f}, Minus(queue, f), reading - {f}, f)
  {
    MinusNoRepeats(queue, f);
  }

  // ----- the pump -----

  lemma ServeKeeps(s: State, f: nat)
    requires Core(s) && f in s.queue && Cached(s, s.heap[f].media)
    ensures Core(DeliverAll(Remove(s, f), s.heap[f].subscribers, s.heap[f].media))
  {
    hide Sum, Reservations, Settled, ShowAll, HasUrl, RefsOk, HandlesOk, LinksOk, IndexOk, QueueOk, Holders, NoRepeats, DeliverAll, Without, Minus, Find, SumBytes, Dropped, Lookup, EntriesOk;
    QueueBounds(s, f);
    var ids, key := s.heap[f].subscribers, s.heap[f].media;
    var removed := Remove(s, f);
    SubscribersWait(s, f);
    DeliverAllEffect(removed, ids, key);
    var t := DeliverAll(removed, ids, key);
    var i := Find(s.cache, key);
    if ids != [] { RotatedOk(s.cache, i, s.cache[i].refs + |ids|, s.nextUrl, s.cached); }
    ShowRefs(s.cache, t.cache, s.subs, ids, i);
    UrlAt(s.cache, i);
    ShowHandles(s.cache, t.cache, s.subs, s.registered, ids, s.cache[i].url);
    QueueDrop(s.queue, s.reading, s.heap, s.heap, f);
    assert s.reading - {f} == s.reading;
    DropIndex(s.queue, s.reading, s.heap, s.flights, s.closed, t.queue, s.reading, s.heap, f);
    ShownCleared(s.subs, ids, s.cache[i].url);
    DropLinks(s.queue, s.reading, s.heap, s.subs, t.queue, s.reading, s.heap, t.subs, f);
  }

  lemma QueueBounds(s: State, f: nat)
    requires Core(s) && f in s.queue
    ensures f < |s.heap| && f !in s.reading && !s.closed && NoRepeats(s.queue)
    ensures Distinct(s.cache)
  {
  }

  lemma ShownCleared(subs: seq<Subscription>, ids: seq<nat>, url: nat)
    ensures forall i | 0 <= i < |subs| :: if i in ids then ShowAll(subs, ids, url)[i].flight.None? else ShowAll(subs, ids, url)[i] == subs[i]
    ensures forall i | 0 <= i < |subs| :: if i in ids then RefuseAll(subs, ids)[i].flight.None? else RefuseAll(subs, ids)[i] == subs[i]
  {
  }

  /** Failing a pending flight rejects each of its subscribers and leaves everything else alone. */
  lemma FailEffect(s: State, f: nat)
    requires Core(s) && Pending(s.queue, s.reading, f) && f < |s.heap|
    ensures var ids := s.heap[f].subscribers;
            Fail(s, f) == s.(
              subs := RefuseAll(s.subs, ids),
              registered := s.registered - Members(ids),
              heap := s.heap[f := s.heap[f].(subscribers := [])],
              flights := if Lookup(s.flights, Identity(s.heap[f])) == Some(f) then s.flights - {Identity(s.heap[f])} else s.flights,
              queue := Minus(s.queue, f))
  {
    hide RefuseAll, Settled, Members;
    SubscribersWait(s, f);
    RejectAllEffect(s, s.heap[f].subscribers);
  }

  lemma FailKeeps(s: State, f: nat)
    requires Core(s) && f in s.queue
    ensures Core(Fail(s, f)) && |Fail(s, f).queue| < |s.queue| && Fail(s, f).closed == s.closed
  {
    hide Sum, Reservations, RefuseAll, CacheOk, UrlsOk, Distinct, HasUrl, RefsOk, HandlesOk, LinksOk, IndexOk, QueueOk, Holders, NoRepeats, Fail, Members;
    QueueBounds(s, f);
    FailEffect(s, f);
    var ids, t := s.heap[f].subscribers, Fail(s, f);
    MinusShrinks(s.queue, f);
    SubscribersWait(s, f);
    RefuseRefs(s.cache, s.subs, ids);
    RefuseHandles(s.cache, s.subs, s.registered, ids);
    QueueDrop(s.queue, s.reading, s.heap, t.heap, f);
    assert s.reading - {f} == s.reading;
    ReservationsFrame(s.reading, s.heap, t.heap);
    DropIndex(s.queue, s.reading, s.heap, s.flights, s.closed, t.queue, s.reading, t.heap, f);
    ShownCleared(s.subs, ids, 0);
    DropLinks(s.queue, s.reading, s.heap, s.subs, t.queue, s.reading, t.heap, t.subs, f);
  }

  lemma PumpOneKeeps(s: State)
    requires Core(s) && s.queue != [] && !s.closed
    ensures var (next, more) := PumpOne(s);
            Core(next) && next.closed == s.closed && next.limits == s.limits && (!more ==> next.active > 0)
  {
    hide Core, Start, Fail, DeliverAll, Remove, Room, Minus, Cached, Fits;
    var f := s.queue[0];
    QueueBounds(s, f);
    var key := s.heap[f].media;
    if Cached(s, key) {
      ServeKeeps(s, f);
      DeliverAllFrame(Remove(s, f), s.heap[f].subscribers, key);
      RemoveFrame(s, f);
    } else {
      RoomKeeps(s, 0, key.bytes);
      RoomFrame(s, 0, key.bytes);
      var (made, ok) := Room(s, 0, key.bytes);
      if ok {
        StartKeeps(made);
        StartFrame(made);
      } else if made.active == 0 {
        FailKeeps(made, f);
        FailFrame(made, f);
      } else {
        ActiveCount(made);
      }
    }
  }

  lemma RemoveFrame(s: State, f: nat)
    ensures Remove(s, f).closed == s.closed && Remove(s, f).limits == s.limits
  {
  }

  lemma StartFrame(s: State)
    requires s.queue != [] && s.queue[0] < |s.heap|
    ensures Start(s, s.queue[0]).closed == s.closed && Start(s, s.queue[0]).limits == s.limits
  {
  }

  lemma FailFrame(s: State, f: nat)
    requires f < |s.heap|
    ensures Fail(s, f).closed == s.closed && Fail(s, f).limits == s.limits
  {
    RejectAllFrame(s, s.heap[f].subscribers);
  }

  lemma ActiveCount(s: State)
    requires Core(s)
    ensures s.active >= 0
  {
  }

  /** After pumping, nothing waits without an active read to wake it. */
  lemma {:induction false} PumpKeeps(s: State)
    requires Core(s)
    ensures Valid(Pump(s)) && Pump(s).closed == s.closed && Pump(s).limits == s.limits
    decreases |s.queue|
  {
    hide Core, PumpOne;
    if !s.closed && s.active < s.limits.concurrency && s.queue != [] {
      PumpOneKeeps(s);
      var (next, more) := PumpOne(s);
      if more { PumpKeeps(next); }
    }
  }

  // ----- acquiring -----

  lemma AppendRefs(cache: seq<Entry>, subs: seq<Subscription>, sub: Subscription)
    requires RefsOk(cache, subs) && sub.entry.None?
    ensures RefsOk(cache, subs + [sub])
  {
    forall u: nat
      ensures Holders(subs + [sub], u) == Holders(subs, u)
    {
    }
  }

  lemma AppendLinks(queue: seq<nat>, reading: set<nat>, heap: seq<Flight>, subs: seq<Subscription>, sub: Subscription)
    requires LinksOk(queue, reading, heap, subs) && sub.flight.None?
    ensures LinksOk(queue, reading, heap, subs + [sub])
  {
    hide Pending;
    assert forall i: nat, f: nat | Awaits(subs, i, f) :: Awaits(subs + [sub], i, f);
  }

  lemma RefusedKeeps(s: State)
    requires Core(s)
    ensures Core(s.(subs := s.subs + [Subscription(true, None, None, Refused)]))
  {
    hide Sum, Reservations, CacheOk, UrlsOk, RefsOk, LinksOk, IndexOk, QueueOk, HasUrl;
    var sub := Subscription(true, None, None, Refused);
    AppendRefs(s.cache, s.subs, sub);
    AppendLinks(s.queue, s.reading, s.heap, s.subs, sub);
  }

  lemma AppendShownHandle(cache: seq<Entry>, cache': seq<Entry>, subs: seq<Subscription>, registered: set<nat>, url: nat)
    requires HandlesOk(cache, subs, registered) && HasUrl(cache', url)
    requires forall u :: HasUrl(cache, u) ==> HasUrl(cache', u)
    ensures HandlesOk(cache', subs + [Subscription(true, Some(url), None, Shown(url))], registered + {|subs|})
  {
    hide HasUrl;
  }

  lemma ShowAppended(subs: seq<Subscription>, url: nat)
    ensures ShowAll(subs + [Subscription(true, None, None, Waiting)], [|subs|], url) == subs + [Subscription(true, Some(url), None, Shown(url))]
  {
  }

  lemma ShowNow(s: State, media: Media)
    requires Core(s) && !s.closed && Cached(s, media)
    ensures var id := |s.subs|;
            Core(Deliver(s.(subs := s.subs + [Subscription(true, None, None, Waiting)], registered := s.registered + {id}), id, media))
  {
    hide Sum, Reservations, UrlsOk, RefsOk, LinksOk, IndexOk, QueueOk, HandlesOk, ShowAll, HasUrl, Without, Find, SumBytes, EntriesOk;
    var id, blank := |s.subs|, Subscription(true, None, None, Waiting);
    var i := Find(s.cache, media);
    var url := s.cache[i].url;
    var t := Deliver(s.(subs := s.subs + [blank], registered := s.registered + {id}), id, media);
    var shown := Subscription(true, Some(url), None, Shown(url));
    assert t.subs == s.subs + [shown];
    AppendRefs(s.cache, s.subs, blank);
    ShowRefs(s.cache, t.cache, s.subs + [blank], [id], i);
    ShowAppended(s.subs, url);
    AppendLinks(s.queue, s.reading, s.heap, s.subs, shown);
    RotatedOk(s.cache, i, s.cache[i].refs + 1, s.nextUrl, s.cached);
    UrlAt(s.cache, i);
    UrlsFrame(s.cache, t.cache, s.nextUrl, s.revoked);
    AppendShownHandle(s.cache, t.cache, s.subs, s.registered, url);
  }

  lemma UrlsFrame(cache: seq<Entry>, cache': seq<Entry>, nextUrl: nat, revoked: seq<nat>)
    requires UrlsOk(cache, nextUrl, revoked)
    requires forall u :: HasUrl(cache', u) <==> HasUrl(cache, u)
    ensures UrlsOk(cache', nextUrl, revoked)
  {
    hide HasUrl;
  }

  /** A new handle joins flight `f`, whose other subscribers are unchanged. */
  lemma JoinLinks(queue: seq<nat>, reading: set<nat>, heap: seq<Flight>, subs: seq<Subscription>, f: nat, sub: Subscription)
    requires LinksOk(queue, reading, heap, subs) && Pending(queue, reading, f) && f < |heap|
    requires sub.live && sub.flight == Some(f)
    ensures LinksOk(queue, reading, heap[f := heap[f].(subscribers := heap[f].subscribers + [|subs|])], subs + [sub])
  {
    hide Pending;
    var id, old_ := |subs|, heap[f].subscribers;
    var heap', subs' := heap[f := heap[f].(subscribers := old_ + [id])], subs + [sub];
    assert forall i: nat, g: nat | Awaits(subs, i, g) :: Awaits(subs', i, g) && i != id;
    assert forall i | i in old_ :: Awaits(subs, i, f);
    assert NoRepeats(old_);
    assert forall k | 0 <= k < |old_| :: old_[k] in old_ && old_[k] != id;
    assert NoRepeats(old_ + [id]);
    assert Awaits(subs', id, f) && id in heap'[f].subscribers;
    assert forall i | i in heap'[f].subscribers :: i in old_ || i == id;
    forall i: nat | i < |subs'| && subs'[i].live && subs'[i].flight.Some?
      ensures Pending(queue, reading, subs'[i].flight.value) && subs'[i].flight.value < |heap'| && i in heap'[subs'[i].flight.value].subscribers
    {
      if i != id { assert i in heap[subs[i].flight.value].subscribers; }
    }
  }

  lemma JoinHandles(cache: seq<Entry>, subs: seq<Subscription>, registered: set<nat>, f: nat)
    requires HandlesOk(cache, subs, registered)
    ensures HandlesOk(cache, subs + [Subscription(true, None, Some(f), Waiting)], registered + {|subs|})
  {
    hide HasUrl;
  }

  function Joined(s: State, f: nat): State
    requires f < |s.heap|
  {
    s.(subs := s.subs + [Subscription(true, None, Some(f), Waiting)],
       registered := s.registered + {|s.subs|},
       heap := s.heap[f := s.heap[f].(subscribers := s.heap[f].subscribers + [|s.subs|])])
  }

  lemma JoinKeeps(s: State, f: nat)
    requires Core(s) && Pending(s.queue, s.reading, f) && f < |s.heap| && !s.closed
    ensures Core(Joined(s, f))
  {
    hide Sum, Reservations, CacheOk, UrlsOk, RefsOk, LinksOk, HandlesOk, HasUrl, NoRepeats;
    var t, sub := Joined(s, f), Subscription(true, None, Some(f), Waiting);
    AppendRefs(s.cache, s.subs, sub);
    JoinLinks(s.queue, s.reading, s.heap, s.subs, f, sub);
    JoinHandles(s.cache, s.subs, s.registered, f);
    ReservationsFrame(s.reading, s.heap, t.heap);
  }

  /** A new flight, still without subscribers, enters the queue. */
  function Opened(s: State, media: Media, ticket: string): State {
    s.(heap := s.heap + [Flight(media, ticket, [])], flights := s.flights[(media, ticket) := |s.heap|], queue := s.queue + [|s.heap|])
  }

  lemma OpenKeeps(s: State, media: Media, ticket: string)
    requires Core(s) && !s.closed && media.bytes >= 1 && (media, ticket) !in s.flights
    ensures Core(Opened(s, media, ticket)) && Pending(Opened(s, media, ticket).queue, s.reading, |s.heap|)
  {
    hide Sum, Reservations, CacheOk, UrlsOk, RefsOk, HandlesOk, HasUrl;
    var t, f := Opened(s, media, ticket), |s.heap|;
    ReservationsFrame(s.reading, s.heap, t.heap);
    assert f !in s.queue && f !in s.reading;
    assert forall x: nat :: Pending(t.queue, t.reading, x) <==> Pending(s.queue, s.reading, x) || x == f;
    forall x: nat | Pending(t.queue, t.reading, x)
      ensures x < |t.heap| && Lookup(t.flights, Identity(t.heap[x])) == Some(x)
    {
      if x != f { assert Lookup(s.flights, Identity(s.heap[x])) == Some(x); }
    }
    assert IndexOk(t.queue, t.reading, t.heap, t.flights, t.closed);
    assert LinksOk(t.queue, t.reading, t.heap, t.subs) by { OpenLinks(s.queue, s.reading, s.heap, s.subs, media, ticket); }
  }

  lemma OpenLinks(queue: seq<nat>, reading: set<nat>, heap: seq<Flight>, subs: seq<Subscription>, media: Media, ticket: string)
    requires LinksOk(queue, reading, heap, subs)
    requires forall x: nat | Pending(queue, reading, x) :: x < |heap|
    ensures LinksOk(queue + [|heap|], reading, heap + [Flight(media, ticket, [])], subs)
  {
    assert forall x: nat :: Pending(queue + [|heap|], reading, x) <==> Pending(queue, reading, x) || x == |heap|;
  }

  lemma AcquireKeeps(s: State, media: Media, ticket: string)
    requires Valid(s)
    ensures Valid(Acquire(s, media, ticket)) && Acquire(s, media, ticket).closed == s.closed
  {
    hide Core, Pump, Deliver, Pending, Cached;
    if s.closed || media.bytes < 1 || media.bytes > s.limits.bytes {
      RefusedKeeps(s);
    } else if Cached(s, media) {
      ShowNow(s, media);
      DeliverFrame(s.(subs := s.subs + [Subscription(true, None, None, Waiting)], registered := s.registered + {|s.subs|}), |s.subs|, media);
    } else if (media, ticket) in s.flights {
      var f := s.flights[(media, ticket)];
      IndexedPending(s, (media, ticket));
      JoinKeeps(s, f);
      PumpKeeps(Joined(s, f));
    } else if |s.queue| >= s.limits.objects {
      RefusedKeeps(s);
    } else {
      OpenKeeps(s, media, ticket);
      var queued := Opened(s, media, ticket);
      JoinKeeps(queued, |s.heap|);
      PumpKeeps(Joined(queued, |s.heap|));
      assert [] + [|s.subs|] == [|s.subs|];
      assert Joined(queued, |s.heap|).heap == s.heap + [Flight(media, ticket, [|s.subs|])];
    }
  }

  lemma DeliverFrame(s: State, id: nat, key: Media)
    ensures Deliver(s, id, key).closed == s.closed && Deliver(s, id, key).queue == s.queue
    ensures Deliver(s, id, key).active == s.active && Deliver(s, id, key).limits == s.limits
  {
  }

  lemma IndexedPending(s: State, id: (Media, string))
    requires Core(s) && id in s.flights
    ensures Pending(s.queue, s.reading, s.flights[id]) && s.flights[id] < |s.heap| && !s.closed
  {
  }

  // ----- releasing -----

  /** Releasing a displayed handle drops exactly its own reference. */
  lemma UnpinRefs(cache: seq<Entry>, subs: seq<Subscription>, id: nat, sub: Subscription)
    requires RefsOk(cache, subs) && id < |subs| && subs[id].live && !sub.live
    ensures RefsOk(if subs[id].entry.Some? then Unpin(cache, subs[id].entry.value) else cache, subs[id := sub])
  {
    var subs' := subs[id := sub];
    forall u: nat
      ensures Holders(subs', u) == Holders(subs, u) - (if subs[id].entry == Some(u) then {id} else {})
    {
    }
    assert subs[id].entry.Some? ==> id in Holders(subs, subs[id].entry.value);
  }

  lemma UnpinOk(cache: seq<Entry>, u: nat, nextUrl: nat, cached: int, revoked: seq<nat>)
    requires CacheOk(cache, nextUrl, cached) && UrlsOk(cache, nextUrl, revoked)
    ensures CacheOk(Unpin(cache, u), nextUrl, cached) && UrlsOk(Unpin(cache, u), nextUrl, revoked)
    ensures forall v :: HasUrl(Unpin(cache, u), v) <==> HasUrl(cache, v)
  {
    SumBytesPointwise(cache, Unpin(cache, u));
    forall v
      ensures HasUrl(Unpin(cache, u), v) <==> HasUrl(cache, v)
    {
      if HasUrl(cache, v) {
        var k :| 0 <= k < |cache| && cache[k].url == v;
        assert Unpin(cache, u)[k].url == v;
      }
    }
  }

  /** The released handle no longer awaits its flight; other handles are as they were. */
  lemma LeaveLinks(queue: seq<nat>, reading: set<nat>, heap: seq<Flight>, subs: seq<Subscription>, id: nat, sub: Subscription)
    requires LinksOk(queue, reading, heap, subs) && id < |subs| && subs[id].live && !sub.live
    requires subs[id].flight.Some? ==> subs[id].flight.value < |heap|
    ensures LinksOk(queue, reading,
              if subs[id].flight.Some? then heap[subs[id].flight.value := heap[subs[id].flight.value].(subscribers := Minus(heap[subs[id].flight.value].subscribers, id))] else heap,
              subs[id := sub])
  {
    hide Pending;
    if subs[id].flight.Some? { MinusNoRepeats(heap[subs[id].flight.value].subscribers, id) by { LinkNoRepeats(queue, reading, heap, subs, id); } }
    assert forall i: nat, f: nat | Awaits(subs, i, f) && i != id :: Awaits(subs[id := sub], i, f);
  }

  lemma LinkNoRepeats(queue: seq<nat>, reading: set<nat>, heap: seq<Flight>, subs: seq<Subscription>, id: nat)
    requires LinksOk(queue, reading, heap, subs) && id < |subs| && subs[id].live && subs[id].flight.Some?
    ensures subs[id].flight.value < |heap| && NoRepeats(heap[subs[id].flight.value].subscribers)
    ensures Pending(queue, reading, subs[id].flight.value)
  {
  }

  lemma LeaveHandles(cache: seq<Entry>, cache': seq<Entry>, subs: seq<Subscription>, registered: set<nat>, id: nat, sub: Subscription)
    requires HandlesOk(cache, subs, registered) && id < |subs| && !sub.live && !sub.outcome.Waiting?
    requires forall u :: HasUrl(cache', u) <==> HasUrl(cache, u)
    ensures HandlesOk(cache', subs[id := sub], registered - {id})
  {
    hide HasUrl;
  }

  /** The state after a release, before an abandoned flight leaves the queue. */
  function Retired(s: State, id: nat): State
    requires id < |s.subs|
  {
    var sub := s.subs[id];
    s.(subs := s.subs[id := Settled(sub.(live := false), Withdrawn)],
       registered := s.registered - {id},
       cache := if sub.entry.Some? then Unpin(s.cache, sub.entry.value) else s.cache,
       heap := if sub.flight.Some? && sub.flight.value < |s.heap|
               then s.heap[sub.flight.value := s.heap[sub.flight.value].(subscribers := Minus(s.heap[sub.flight.value].subscribers, id))]
               else s.heap)
  }

  lemma RetireKeeps(s: State, id: nat)
    requires Core(s) && id < |s.subs| && s.subs[id].live
    ensures Core(Retired(s, id))
  {
    hide Sum, Reservations, CacheOk, UrlsOk, RefsOk, LinksOk, HandlesOk, HasUrl, NoRepeats, Unpin, Minus;
    var t, sub := Retired(s, id), s.subs[id];
    var after := Settled(sub.(live := false), Withdrawn);
    if sub.flight.Some? { LinkNoRepeats(s.queue, s.reading, s.heap, s.subs, id); }
    if sub.entry.Some? { UnpinOk(s.cache, sub.entry.value, s.nextUrl, s.cached, s.revoked); }
    UnpinRefs(s.cache, s.subs, id, after);
    LeaveLinks(s.queue, s.reading, s.heap, s.subs, id, after);
    LeaveHandles(s.cache, t.cache, s.subs, s.registered, id, after);
    ReservationsFrame(s.reading, s.heap, t.heap);
    assert |t.cache| == |s.cache| by { UnpinLength(s.cache, if sub.entry.Some? then sub.entry.value else 0); }
    assert sub.flight.Some? ==> t.heap[sub.flight.value].subscribers == Minus(s.heap[sub.flight.value].subscribers, id);
    assert Minus([], id) == [] by { MinusEmpty(id); }
  }

  lemma MinusEmpty(id: nat)
    ensures Minus([], id) == []
  {
  }

  lemma UnpinLength(cache: seq<Entry>, u: nat)
    ensures |Unpin(cache, u)| == |cache|
  {
  }

  /** A queued flight with no subscribers can leave. */
  lemma AbandonKeeps(s: State, f: nat)
    requires Core(s) && f in s.queue && f < |s.heap| && s.heap[f].subscribers == []
    ensures Core(Remove(s, f))
  {
    hide Sum, Reservations, CacheOk, UrlsOk, RefsOk, HandlesOk, LinksOk, IndexOk, QueueOk, NoRepeats, Minus;
    QueueBounds(s, f);
    var t := Remove(s, f);
    QueueDrop(s.queue, s.reading, s.heap, s.heap, f);
    assert s.reading - {f} == s.reading;
    DropIndex(s.queue, s.reading, s.heap, s.flights, s.closed, t.queue, s.reading, s.heap, f);
    DropLinks(s.queue, s.reading, s.heap, s.subs, t.queue, s.reading, s.heap, s.subs, f);
  }

  lemma ReleaseKeeps(s: State, id: nat)
    requires Valid(s)
    ensures Valid(Release(s, id)) && Release(s, id).closed == s.closed
  {
    hide Core, Pump, Settled, Minus, Unpin;
    if id < |s.subs| && s.subs[id].live {
      RetireKeeps(s, id);
      var t, sub := Retired(s, id), s.subs[id];
      if sub.flight.Some? {
        var f := sub.flight.value;
        FlightPending(s, id);
        if f !in s.reading && t.heap[f].subscribers == [] {
          AbandonKeeps(t, f);
          RemoveFrame(t, f);
          PumpKeeps(Remove(t, f));
        } else {
          PumpKeeps(t);
        }
      } else {
        PumpKeeps(t);
      }
    }
  }

  lemma FlightPending(s: State, id: nat)
    requires Core(s) && id < |s.subs| && s.subs[id].live && s.subs[id].flight.Some?
    ensures s.subs[id].flight.value < |s.heap|
    ensures s.subs[id].flight.value in s.queue || s.subs[id].flight.value in s.reading
  {
    LinkNoRepeats(s.queue, s.reading, s.heap, s.subs, id);
  }

  // ----- replies -----

  /** The state once a read is over, whatever happened to its subscribers. */
  function Over(s: State, f: nat): State
    requires f < |s.heap|
  {
    s.(reserved := s.reserved - s.heap[f].media.bytes,
       active := s.active - 1,
       reading := s.reading - {f},
       flights := if Lookup(s.flights, Identity(s.heap[f])) == Some(f) then s.flights - {Identity(s.heap[f])} else s.flights)
  }

  /** A flight that is being read is not queued, so ending it removes nothing from the queue. */
  lemma ReadingNotQueued(s: State, f: nat)
    requires Core(s) && f in s.reading
    ensures f < |s.heap| && f !in s.queue && Minus(s.queue, f) == s.queue
    ensures Dropped(s.queue, s.reading, s.queue, s.reading - {f}, f)
  {
  }

  /** Everything about an ended read that does not concern its subscribers. */
  lemma OverReads(s: State, heap': seq<Flight>, f: nat)
    requires Core(s) && f in s.reading && f < |s.heap|
    requires |heap'| == |s.heap| && forall x | 0 <= x < |s.heap| :: heap'[x].media == s.heap[x].media && heap'[x].ticket == s.heap[x].ticket
    ensures ReadsOk(Over(s, f).(heap := heap'))
    ensures QueueOk(s.queue, s.reading - {f}, heap')
    ensures IndexOk(s.queue, s.reading - {f}, heap', Over(s, f).flights, s.closed)
  {
    hide Sum, Reservations, CacheOk, UrlsOk, RefsOk, HandlesOk, LinksOk, NoRepeats;
    ReadingNotQueued(s, f);
    ReservationsDrop(s.reading, s.heap, f);
    ReservationsFrame(s.reading - {f}, s.heap, heap');
    QueueDrop(s.queue, s.reading, s.heap, heap', f);
    DropIndex(s.queue, s.reading, s.heap, s.flights, s.closed, s.queue, s.reading - {f}, heap', f);
  }

  /** A read nobody waits for, or whose cache is closed, only gives back its reservation. */
  lemma UnwantedKeeps(s: State, f: nat)
    requires Core(s) && f in s.reading && f < |s.heap| && s.heap[f].subscribers == []
    ensures Core(Finish(s, f, s.heap[f].media.bytes, false))
  {
    hide Sum, Reservations, CacheOk, UrlsOk, RefsOk, HandlesOk, LinksOk, IndexOk, QueueOk, NoRepeats, Dropped, Minus;
    ReadingNotQueued(s, f);
    OverReads(s, s.heap, f);
    DropLinks(s.queue, s.reading, s.heap, s.subs, s.queue, s.reading - {f}, s.heap, s.subs, f);
    FlightBytes(s, f);
    assert Finish(s, f, s.heap[f].media.bytes, false) == Over(s, f);
  }

  lemma FlightBytes(s: State, f: nat)
    requires Core(s) && f < |s.heap|
    ensures s.heap[f].media.bytes >= 1
  {
  }

  lemma FailedKeeps(s: State, f: nat)
    requires Core(s) && f in s.reading && f < |s.heap|
    ensures Core(Finish(Fail(s, f), f, s.heap[f].media.bytes, false))
  {
    hide Sum, Reservations, CacheOk, UrlsOk, RefsOk, HandlesOk, LinksOk, IndexOk, QueueOk, NoRepeats, Dropped, Minus, Fail, RefuseAll, Members;
    var ids := s.heap[f].subscribers;
    ReadingNotQueued(s, f);
    FailEffect(s, f);
    var heap' := s.heap[f := s.heap[f].(subscribers := [])];
    var subs' := RefuseAll(s.subs, ids);
    OverReads(s, heap', f);
    SubscribersWait(s, f);
    ShownCleared(s.subs, ids, 0);
    DropLinks(s.queue, s.reading, s.heap, s.subs, s.queue, s.reading - {f}, heap', subs', f);
    RefuseRefs(s.cache, s.subs, ids);
    RefuseHandles(s.cache, s.subs, s.registered, ids);
    FlightBytes(s, f);
    assert Finish(Fail(s, f), f, s.heap[f].media.bytes, false)
        == Over(s, f).(heap := heap', subs := subs', registered := s.registered - Members(ids));
  }

  /** Delivering from `made`, which is `s` or `s` with the flight's entry just published. */
  lemma DeliveredKeeps(s: State, made: State, f: nat)
    requires Core(s) && f in s.reading && f < |s.heap| && !s.closed
    requires made == s.(cache := made.cache, cached := made.cached, nextUrl := made.nextUrl)
    requires CacheOk(made.cache, made.nextUrl, made.cached) && RefsOk(made.cache, s.subs)
    requires UrlsOk(made.cache, made.nextUrl, s.revoked) && HandlesOk(made.cache, s.subs, s.registered)
    requires Cached(made, s.heap[f].media)
    requires made.cached + s.reserved - s.heap[f].media.bytes <= s.limits.bytes
    requires |made.cache| + s.active - 1 <= s.limits.objects
    ensures Core(Finish(DeliverAll(made.(reserved := s.reserved - s.heap[f].media.bytes), s.heap[f].subscribers, s.heap[f].media), f, s.heap[f].media.bytes, true))
  {
    hide Sum, Reservations, UrlsOk, RefsOk, HandlesOk, LinksOk, IndexOk, QueueOk, NoRepeats, Dropped, Minus, Settled, ShowAll, HasUrl,
      DeliverAll, Find, SumBytes, EntriesOk, Distinct, Without, Holders;
    var ids, key := s.heap[f].subscribers, s.heap[f].media;
    var paid := made.(reserved := s.reserved - key.bytes);
    ReadingNotQueued(s, f);
    SubscribersWait(s, f);
    DeliverAllEffect(paid, ids, key);
    var i := Find(made.cache, key);
    var url := made.cache[i].url;
    var subs' := ShowAll(s.subs, ids, url);
    var cache' := if ids == [] then made.cache else Rotated(made.cache, i, made.cache[i].refs + |ids|);
    if ids != [] { RotatedOk(made.cache, i, made.cache[i].refs + |ids|, made.nextUrl, made.cached); }
    UrlsFrame(made.cache, cache', made.nextUrl, s.revoked);
    ShowRefs(made.cache, cache', s.subs, ids, i);
    UrlAt(made.cache, i);
    ShowHandles(made.cache, cache', s.subs, s.registered, ids, url);
    ShownCleared(s.subs, ids, url);
    OverReads(s, s.heap, f);
    DropLinks(s.queue, s.reading, s.heap, s.subs, s.queue, s.reading - {f}, s.heap, subs', f);
    var t := Over(s, f).(cache := cache', cached := made.cached, nextUrl := made.nextUrl, subs := subs');
    assert Finish(DeliverAll(paid, ids, key), f, key.bytes, true) == t;
    assert ReadsOk(t) by { ReadsFrame(Over(s, f).(heap := s.heap), t); }
  }

  lemma ReadsFrame(s: State, t: State)
    requires ReadsOk(s)
    requires s.reading == t.reading && s.heap == t.heap && s.active == t.active && s.reserved == t.reserved && s.converting == t.converting
    ensures ReadsOk(t)
  {
  }

  function Published(s: State, key: Media): State {
    s.(cache := s.cache + [Entry(key, s.nextUrl, key.bytes, 0)], cached := s.cached + key.bytes, nextUrl := s.nextUrl + 1)
  }

  lemma FindMissing(cache: seq<Entry>, key: Media)
    requires Find(cache, key) == |cache|
    ensures forall j | 0 <= j < |cache| :: cache[j].key != key
    ensures forall e: Entry | e.key == key :: Find(cache + [e], key) == |cache|
  {
    forall e: Entry | e.key == key
      ensures Find(cache + [e], key) == |cache|
    {
      FindLast(cache + [e], key);
    }
  }

  /** A fresh URL is displayed by nobody and held exactly by its new entry. */
  lemma PublishKeeps(s: State, key: Media)
    requires Core(s) && key.bytes >= 1 && !Cached(s, key)
    ensures var made := Published(s, key);
            && CacheOk(made.cache, made.nextUrl, made.cached) && RefsOk(made.cache, s.subs)
            && UrlsOk(made.cache, made.nextUrl, s.revoked) && HandlesOk(made.cache, s.subs, s.registered) && Cached(made, key)
  {
    hide Sum, Reservations, LinksOk, IndexOk, QueueOk, NoRepeats, Distinct, Find;
    var made, e := Published(s, key), Entry(key, s.nextUrl, key.bytes, 0);
    FindMissing(s.cache, key);
    assert !HasUrl(s.cache, s.nextUrl);
    DistinctAppend(s.cache, e);
    SumBytesAppend(s.cache, e);
    assert Holders(s.subs, s.nextUrl) == {};
    forall j | 0 <= j < |made.cache|
      ensures made.cache[j].refs == |Holders(s.subs, made.cache[j].url)|
    {
      if j < |s.cache| { assert made.cache[j] == s.cache[j]; }
    }
  }

  lemma ReplyKeeps(s: State, f: nat, reply: Reply)
    requires Valid(s)
    ensures Valid(ReadReplies(s, f, reply)) && ReadReplies(s, f, reply).closed == s.closed
  {
    hide Core, Pump, Fail, DeliverAll, Cached, Minus;
    if f in s.reading && f < |s.heap| {
      var key, ids := s.heap[f].media, s.heap[f].subscribers;
      var (landed, resolved) := Land(s, f, reply);
      CoreFacts(s, f);
      if s.closed || ids == [] {
        UnwantedKeeps(s, f);
      } else if reply.ReadFailed? || reply.length != key.bytes || !reply.exact {
        FailedKeeps(s, f);
        FailFrame(s, f);
      } else if Cached(s, key) {
        DeliveredKeeps(s, s, f);
        DeliverAllFrame(s.(reserved := s.reserved - key.bytes), ids, key);
      } else if s.converting + reply.length > s.limits.bytes || !reply.urlAvailable {
        FailedKeeps(s, f);
        FailFrame(s, f);
      } else {
        PublishKeeps(s, key);
        DeliveredKeeps(s, Published(s, key), f);
        DeliverAllFrame(Published(s, key).(reserved := s.reserved - key.bytes), ids, key);
      }
      var done := Finish(landed, f, key.bytes, resolved);
      RemoveFrame(landed.(reserved := if resolved then landed.reserved else landed.reserved - key.bytes, active := landed.active - 1, reading := landed.reading - {f}), f);
      PumpKeeps(done);
    }
  }

  lemma CoreFacts(s: State, f: nat)
    requires Core(s) && f in s.reading && f < |s.heap|
    ensures CacheOk(s.cache, s.nextUrl, s.cached) && RefsOk(s.cache, s.subs)
    ensures UrlsOk(s.cache, s.nextUrl, s.revoked) && HandlesOk(s.cache, s.subs, s.registered)
    ensures s.cached + s.reserved <= s.limits.bytes && |s.cache| + s.active <= s.limits.objects
    ensures s.heap[f].media.bytes >= 1
    ensures s.closed ==> s.heap[f].subscribers == []
  {
  }

  // ----- disposal -----

  lemma UrlsNoRepeats(cache: seq<Entry>, revoked: seq<nat>, nextUrl: nat)
    requires Distinct(cache) && EntriesOk(cache, nextUrl) && UrlsOk(cache, nextUrl, revoked)
    ensures UrlsOk([], nextUrl, revoked + Urls(cache))
  {
    var all := revoked + Urls(cache);
    forall u: nat
      ensures u in all <==> u < nextUrl
    {
      if HasUrl(cache, u) {
        var k :| 0 <= k < |cache| && cache[k].url == u;
        assert Urls(cache)[k] == u;
        assert all[|revoked| + k] == u;
      }
      if u in Urls(cache) {
        var k :| 0 <= k < |cache| && Urls(cache)[k] == u;
        assert cache[k].url == u;
      }
    }
    forall i, j | 0 <= i < j < |all|
      ensures all[i] != all[j]
    {
      if i < |revoked| <= j {
        assert all[i] == revoked[i] && revoked[i] in revoked && HasUrl(cache, cache[j - |revoked|].url);
      }
    }
  }

  lemma DisposeHandles(cache: seq<Entry>, subs: seq<Subscription>, subs': seq<Subscription>, registered: set<nat>)
    requires HandlesOk(cache, subs, registered) && |subs'| == |subs|
    requires forall i | 0 <= i < |subs| :: subs'[i] == if i in registered then Settled(subs[i].(live := false), Withdrawn) else subs[i]
    ensures HandlesOk([], subs', {})
    ensures forall i | 0 <= i < |subs| && subs'[i].live :: subs'[i].flight.None? && subs'[i].entry.None?
  {
    hide HasUrl;
  }

  /** The index holds every pending flight, so closing empties the subscribers of each read. */
  lemma DisposeClears(s: State)
    requires Core(s) && !s.closed
    ensures forall f | f in s.reading :: f < |s.heap| && Dispose(s).heap[f].subscribers == []
    ensures forall x | 0 <= x < |s.heap| :: Dispose(s).heap[x].media == s.heap[x].media
  {
    forall f: nat | f in s.reading
      ensures f < |s.heap| && Dispose(s).heap[f].subscribers == []
    {
      assert Pending(s.queue, s.reading, f);
    }
  }

  lemma DisposeFields(s: State)
    requires !s.closed
    ensures Dispose(s) == s.(closed := true, subs := Dispose(s).subs, registered := {}, heap := Dispose(s).heap, flights := map[],
                             queue := [], revoked := s.revoked + Urls(s.cache), cache := [], cached := 0)
    ensures |Dispose(s).subs| == |s.subs| && |Dispose(s).heap| == |s.heap|
    ensures forall i | 0 <= i < |s.subs| ::
              Dispose(s).subs[i] == if i in s.registered then Settled(s.subs[i].(live := false), Withdrawn) else s.subs[i]
  {
  }

  lemma CoreParts(s: State)
    requires Core(s)
    ensures Distinct(s.cache) && EntriesOk(s.cache, s.nextUrl) && UrlsOk(s.cache, s.nextUrl, s.revoked)
    ensures HandlesOk(s.cache, s.subs, s.registered) && QueueOk(s.queue, s.reading, s.heap)
    ensures ReadsOk(s) && s.cached + s.reserved <= s.limits.bytes && |s.cache| + s.active <= s.limits.objects && s.cached >= 0
    ensures forall id | id in s.flights :: Pending(s.queue, s.reading, s.flights[id])
  {
    CachedNonNegative(s);
  }

  lemma ClosedCore(t: State)
    requires t.closed && t.cache == [] && t.cached == 0 && t.queue == [] && t.flights == map[]
    requires UrlsOk([], t.nextUrl, t.revoked) && HandlesOk([], t.subs, t.registered)
    requires ReadsOk(t) && t.reserved <= t.limits.bytes && t.active <= t.limits.objects
    requires QueueOk(t.queue, t.reading, t.heap) && LinksOk(t.queue, t.reading, t.heap, t.subs)
    requires forall f | f in t.reading && f < |t.heap| :: t.heap[f].subscribers == []
    ensures Valid(t)
  {
    hide UrlsOk, HandlesOk, ReadsOk, QueueOk, LinksOk;
    NoRefs(t.subs);
    NoEntries(t.nextUrl);
  }

  lemma DisposeKeeps(s: State)
    requires Valid(s)
    ensures Valid(Dispose(s)) && Dispose(s).closed && Dispose(s).reading == s.reading
  {
    if !s.closed {
      CoreParts(s);
      DisposeClears(s);
      DisposeFields(s);
      hide Valid, Core, Dispose, Sum, Reservations, HandlesOk, Distinct, EntriesOk, UrlsOk, LinksOk, QueueOk, Settled, Urls;
      var t := Dispose(s);
      UrlsNoRepeats(s.cache, s.revoked, s.nextUrl);
      DisposeHandles(s.cache, s.subs, t.subs, s.registered);
      ReservationsFrame(s.reading, s.heap, t.heap);
      EmptyLinks(t.queue, t.reading, t.heap, t.subs);
      EmptyQueue(t.reading, s.heap, t.heap, s.queue);
      ClosedCore(t);
    }
  }

  lemma NoRefs(subs: seq<Subscription>)
    ensures RefsOk([], subs)
  {
  }

  lemma NoEntries(nextUrl: nat)
    ensures Distinct([]) && EntriesOk([], nextUrl)
  {
  }

  lemma CachedNonNegative(s: State)
    requires CacheOk(s.cache, s.nextUrl, s.cached)
    ensures s.cached >= 0
  {
    PositiveBytes(s.cache, s.nextUrl);
  }

  lemma {:induction false} PositiveBytes(cache: seq<Entry>, nextUrl: nat)
    requires EntriesOk(cache, nextUrl)
    ensures SumBytes(cache) >= |cache|
  {
    if cache != [] { PositiveBytes(cache[..|cache| - 1], nextUrl); }
  }

  lemma EmptyLinks(queue: seq<nat>, reading: set<nat>, heap: seq<Flight>, subs: seq<Subscription>)
    requires forall f: nat | Pending(queue, reading, f) && f < |heap| :: heap[f].subscribers == []
    requires forall i | 0 <= i < |subs| && subs[i].live :: subs[i].flight.None?
    ensures LinksOk(queue, reading, heap, subs)
  {
  }

  lemma EmptyQueue(reading: set<nat>, heap: seq<Flight>, heap': seq<Flight>, queue: seq<nat>)
    requires QueueOk(queue, reading, heap)
    requires |heap'| == |heap| && forall x | 0 <= x < |heap| :: heap'[x].media == heap[x].media
    ensures QueueOk([], reading, heap')
  {
  }

  // ----- whole runs -----

  ghost predicate IsRun(states: seq<State>, events: seq<Event>) {
    && |states| == |events| + 1
    && (forall i {:trigger events[i]} | 0 <= i < |events| :: states[i + 1] == Next(states[i], events[i]))
  }

  lemma NextKeeps(s: State, ev: Event)
    requires Valid(s)
    ensures Valid(Next(s, ev))
    ensures Next(s, ev).closed == (s.closed || ev.Disposes?)
  {
    hide Valid, Acquire, Release, ReadReplies, Dispose;
    match ev
    case Acquires(media, ticket) => AcquireKeeps(s, media, ticket);
    case Releases(id) => ReleaseKeeps(s, id);
    case Replies(f, reply) => ReplyKeeps(s, f, reply);
    case Disposes => DisposeKeeps(s);
  }

  lemma InitialValid(limits: Limits)
    ensures Valid(Initial(limits))
  {
    assert Reservations({}, []) == map[];
  }

  /** Every interleaving of acquisitions, releases, late replies and disposal keeps the whole invariant. */
  lemma {:induction false} AlwaysValid(states: seq<State>, events: seq<Event>, limits: Limits, i: nat)
    requires IsRun(states, events) && states[0] == Initial(limits) && i < |states|
    ensures Valid(states[i])
  {
    hide Valid, Next, Initial;
    if i == 0 { InitialValid(limits); } else {
      AlwaysValid(states, events, limits, i - 1);
      NextKeeps(states[i - 1], events[i - 1]);
    }
  }

  /** No URL is revoked while a live handle displays it. */
  lemma ShownUrlNotRevoked(s: State, id: nat)
    requires Valid(s) && id < |s.subs| && s.subs[id].live && s.subs[id].entry.Some?
    ensures !s.closed && s.subs[id].entry.value !in s.revoked
    ensures exists i :: 0 <= i < |s.cache| && s.cache[i].url == s.subs[id].entry.value && s.cache[i].refs > 0
  {
    var url := s.subs[id].entry.value;
    assert HasUrl(s.cache, url);
    var i :| 0 <= i < |s.cache| && s.cache[i].url == url;
    assert id in Holders(s.subs, url);
  }

  /** An unsettled handle always belongs to a queued or running read, and while the cache is open some read is running. */
  lemma UnsettledHandleIsServed(s: State, id: nat)
    requires Valid(s) && s.limits.concurrency > 0 && id < |s.subs| && s.subs[id].outcome.Waiting?
    ensures s.subs[id].flight.Some? && Pending(s.queue, s.reading, s.subs[id].flight.value)
    ensures !s.closed && s.reading != {}
  {
    assert s.subs[id].live && s.subs[id].flight.Some?;
    FlightPending(s, id);
    LinkNoRepeats(s.queue, s.reading, s.heap, s.subs, id);
  }

  /** After disposal each outstanding reply only gives back its own reservation, until none is left. */
  lemma ClosedReplyDrains(s: State, f: nat, reply: Reply)
    requires Valid(s) && s.closed && f in s.reading
    ensures var t := ReadReplies(s, f, reply);
            && t.reading == s.reading - {f} && t.active == s.active - 1
            && t.reserved == s.reserved - s.heap[f].media.bytes
            && t.nextUrl == s.nextUrl && t.revoked == s.revoked
  {
    CoreFacts(s, f);
  }

  /** Once disposed and drained, every counter is zero and every URL ever created has been revoked exactly once. */
  lemma DrainedAfterDispose(s: State)
    requires Valid(s) && s.closed && s.reading == {}
    ensures s.active == 0 && s.reserved == 0 && s.cached == 0 && s.converting == 0 && s.cache == [] && s.queue == []
    ensures NoRepeats(s.revoked) && forall u :: u in s.revoked <==> 0 <= u < s.nextUrl
  {
    assert Reservations({}, s.heap) == map[];
  }

  // ----- which entries give way -----

  /** The position of the first entry nobody displays. */
  function FirstIdle(cache: seq<Entry>, i: nat): (k: nat)
    requires i <= |cache|
    ensures i <= k <= |cache|
    ensures k < |cache| ==> cache[k].refs == 0
    ensures forall j | i <= j < k :: cache[j].refs != 0
    decreases |cache| - i
  {
    if i == |cache| || cache[i].refs == 0 then i else FirstIdle(cache, i + 1)
  }

  /** The cache after its `n` least recently delivered idle entries are evicted. */
  function EvictIdle(s: State, n: nat): State
    decreases n
  {
    if n == 0 then s
    else
      var k := FirstIdle(s.cache, 0);
      if k == |s.cache| then s else EvictIdle(Evicted(s, k), n - 1)
  }

  lemma FirstIdleFrom(cache: seq<Entry>, i: nat)
    requires i <= |cache| && forall j | 0 <= j < i :: cache[j].refs != 0
    ensures FirstIdle(cache, 0) == FirstIdle(cache, i)
  {
    var a, b := FirstIdle(cache, 0), FirstIdle(cache, i);
    assert !(a < i) && !(a < b) && !(b < a);
  }

  /**
   Room evicts exactly the shortest sufficient run of idle entries, least recently
   delivered first: one fewer would not fit, and a refusal means no idle entry is left.
   */
  lemma {:induction false} RoomEvictsShortestPrefix(s: State, i: nat, bytes: int) returns (n: nat)
    requires i <= |s.cache| && forall j | 0 <= j < i :: s.cache[j].refs != 0
    ensures Room(s, i, bytes).0 == EvictIdle(s, n)
    ensures forall m | 0 <= m < n :: !Fits(EvictIdle(s, m), bytes)
    ensures Room(s, i, bytes).1 <==> Fits(EvictIdle(s, n), bytes)
    ensures !Room(s, i, bytes).1 ==> FirstIdle(EvictIdle(s, n).cache, 0) == |EvictIdle(s, n).cache|
    decreases |s.cache| - i
  {
    FirstIdleFrom(s.cache, i);
    if i == |s.cache| || Fits(s, bytes) {
      n := 0;
    } else if s.cache[i].refs != 0 {
      n := RoomEvictsShortestPrefix(s, i + 1, bytes);
    } else {
      var t := Evicted(s, i);
      n := RoomEvictsShortestPrefix(t, i, bytes);
      n := n + 1;
      forall m | 0 <= m < n
        ensures !Fits(EvictIdle(s, m), bytes)
      {
        if m > 0 { assert EvictIdle(s, m) == EvictIdle(t, m - 1); }
      }
    }
  }
}
