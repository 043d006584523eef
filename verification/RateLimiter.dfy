/** The fixed-window rate limiter with its background cleanup (pkg/api/middleware.go). Times are
    read before the lock is taken; they are assumed not to decrease in the order of the locks. */
module RateLimiter {
  /** The value of one client's entry. */
  datatype Window = Window(start: int, count: nat)

  datatype Event = Request(ip: string, time: int) | Cleanup(time: int)

  /** What was decided about one request; it is admitted if its number in the window is not
      above the limit. */
  datatype Decision = Decision(ip: string, time: int, start: int, count: nat)

  predicate Admits(d: Decision, limit: int) {
    d.count <= limit
  }

  function Remaining(d: Decision, limit: int): int {
    if limit - d.count < 0 then 0 else limit - d.count
  }

  predicate Fresh(m: map<string, Window>, ip: string, now: int, window: int) {
    ip !in m || now - m[ip].start > window
  }

  /** The entry that a request leaves behind. */
  function Hit(m: map<string, Window>, ip: string, now: int, window: int): Window {
    if Fresh(m, ip, now, window) then Window(now, 1) else Window(m[ip].start, m[ip].count + 1)
  }

  function Swept(m: map<string, Window>, now: int, window: int): map<string, Window> {
    map ip | ip in m && now - m[ip].start <= window :: m[ip]
  }

  // The program's objects.

  class Client {
    var windowStart: int
    var count: nat

    constructor (windowStart: int)
      ensures this.windowStart == windowStart && count == 0
    {
      this.windowStart, count := windowStart, 0;
    }
  }

  class Limiter {
    const window: int
    const limit: int
    var clients: map<string, Client>

    /** No two addresses share an entry. */
    ghost predicate Valid()
      reads this
    {
      forall a, b | a in clients && b in clients && clients[a] == clients[b] :: a == b
    }

    function Model(): map<string, Window>
      reads this, clients.Values
    {
      map ip | ip in clients :: Window(clients[ip].windowStart, clients[ip].count)
    }

    constructor (window: int, limit: int)
      ensures Valid() && clients == map[] && Model() == map[] && this.window == window && this.limit == limit
    {
      this.window, this.limit := window, limit;
      clients := map[];
    }

    method Allow(ip: string, now: int) returns (admitted: bool, remaining: int, reset: int)
      requires Valid()
      modifies this`clients, clients.Values
      ensures Valid() && ip in clients && clients == old(clients)[ip := clients[ip]]
      ensures (ip in old(clients) && clients[ip] == old(clients[ip])) || fresh(clients[ip])
      ensures Model() == old(Model())[ip := Hit(old(Model()), ip, now, window)]
      ensures var w := Model()[ip]; var d := Decision(ip, now, w.start, w.count);
        admitted == Admits(d, limit) && remaining == Remaining(d, limit) && reset == w.start + window
    {
      var client: Client;
      if ip !in clients || now - clients[ip].windowStart > window {
        client := new Client(now);
        clients := clients[ip := client];
      } else {
        client := clients[ip];
      }
      client.count := client.count + 1;
      var currentCount := client.count;
      var windowStart := client.windowStart;

      remaining := limit - currentCount;
      if remaining < 0 {
        remaining := 0;
      }
      reset := windowStart + window;
      admitted := !(currentCount > limit);
    }

    /** One tick of the cleanup goroutine. */
    method RemoveExpired(now: int)
      requires Valid()
      modifies this`clients
      ensures Valid() && forall ip | ip in clients :: ip in old(clients) && clients[ip] == old(clients)[ip]
      ensures Model() == Swept(old(Model()), now, window)
      ensures forall ip :: ip in clients <==> ip in old(clients) && now - old(clients[ip].windowStart) <= window
    {
      ghost var before := clients;
      var todo := clients.Keys;
      while todo != {}
        invariant todo <= before.Keys
        invariant forall ip | ip in clients :: ip in before && clients[ip] == before[ip]
        invariant forall ip :: ip in clients <==> ip in before && (ip in todo || now - before[ip].windowStart <= window)
        decreases |todo|
      {
        var ip :| ip in todo;
        if now - clients[ip].windowStart > window {
          clients := clients - {ip};
        }
        todo := todo - {ip};
      }
    }
  }

  // Whole traces.

  /** The decisions of a trace of requests and cleanups. */
  function Decide(m: map<string, Window>, events: seq<Event>, window: int): seq<Decision>
    decreases events
  {
    if events == [] then []
    else match events[0]
      case Request(ip, now) =>
        var w := Hit(m, ip, now, window);
        [Decision(ip, now, w.start, w.count)] + Decide(m[ip := w], events[1..], window)
      case Cleanup(now) => Decide(Swept(m, now, window), events[1..], window)
  }

  /** The table that a trace leaves behind. */
  function TableAfter(m: map<string, Window>, events: seq<Event>, window: int): map<string, Window>
    decreases events
  {
    if events == [] then m
    else match events[0]
      case Request(ip, now) => TableAfter(m[ip := Hit(m, ip, now, window)], events[1..], window)
      case Cleanup(now) => TableAfter(Swept(m, now, window), events[1..], window)
  }

  lemma {:induction false} TableSnoc(m: map<string, Window>, events: seq<Event>, e: Event, window: int)
    ensures TableAfter(m, events + [e], window) == TableAfter(TableAfter(m, events, window), [e], window)
    decreases events
  {
    if events == [] {
      assert events + [e] == [e];
    } else {
      assert (events + [e])[1..] == events[1..] + [e];
      match events[0]
      case Request(ip, now) => TableSnoc(m[ip := Hit(m, ip, now, window)], events[1..], e, window);
      case Cleanup(now) => TableSnoc(Swept(m, now, window), events[1..], e, window);
    }
  }

  /** After a cleanup the table holds exactly the entries it had whose window is not over: memory
      is bounded by the addresses of the last window. */
  lemma CleanupCleans(events: seq<Event>, now: int, window: int, ip: string)
    ensures var before, after := TableAfter(map[], events, window), TableAfter(map[], events + [Cleanup(now)], window);
      && (ip in after <==> ip in before && before[ip].start >= now - window)
      && (ip in after ==> after[ip] == before[ip])
  {
    TableSnoc(map[], events, Cleanup(now), window);
    assert [Cleanup(now)][1..] == [];
  }

  /** The limiter on a whole trace makes exactly these decisions and is left with this table. */
  method Replay(events: seq<Event>, window: int, limit: int)
    returns (decisions: seq<Decision>, admitted: seq<bool>, limiter: Limiter)
    ensures limiter.Model() == TableAfter(map[], events, window)
    ensures decisions == Decide(map[], events, window)
    ensures |admitted| == |decisions| && forall k | 0 <= k < |admitted| :: admitted[k] == Admits(decisions[k], limit)
  {
    limiter := new Limiter(window, limit);
    decisions, admitted := [], [];
    assert events[0..] == events;
    for i := 0 to |events|
      invariant limiter.Valid() && fresh(limiter)
      invariant forall ip | ip in limiter.clients :: fresh(limiter.clients[ip])
      invariant limiter.window == window && limiter.limit == limit
      invariant decisions + Decide(limiter.Model(), events[i..], window) == Decide(map[], events, window)
      invariant TableAfter(limiter.Model(), events[i..], window) == TableAfter(map[], events, window)
      invariant |admitted| == |decisions|
      invariant forall k | 0 <= k < |admitted| :: admitted[k] == Admits(decisions[k], limit)
    {
      ghost var before, rest := limiter.Model(), events[i + 1..];
      assert events[i..] == [events[i]] + rest && events[i..][1..] == rest;
      match events[i]
      case Request(ip, now) =>
        var ok, remaining, reset := limiter.Allow(ip, now);
        var client := limiter.clients[ip];
        var d := Decision(ip, now, client.windowStart, client.count);
        assert Decide(before, events[i..], window) == [d] + Decide(limiter.Model(), rest, window);
        decisions, admitted := decisions + [d], admitted + [ok];
      case Cleanup(now) =>
        limiter.RemoveExpired(now);
    }
    assert events[|events|..] == [];
  }

  ghost predicate NonDecreasing(events: seq<Event>) {
    forall k, l | 0 <= k < l < |events| :: events[k].time <= events[l].time
  }

  ghost predicate NotBefore(events: seq<Event>, now: int) {
    forall k | 0 <= k < |events| :: now <= events[k].time
  }

  function Requests(events: seq<Event>): seq<Event> {
    if events == [] then []
    else if events[0].Request? then [events[0]] + Requests(events[1..])
    else Requests(events[1..])
  }

  lemma {:induction false} RequestsOrdered(events: seq<Event>, now: int)
    requires NonDecreasing(events) && NotBefore(events, now)
    ensures NonDecreasing(Requests(events)) && NotBefore(Requests(events), now)
    ensures forall k | 0 <= k < |Requests(events)| :: Requests(events)[k].Request?
  {
    if events != [] {
      var t := events[0].time;
      assert NotBefore(events[1..], t);
      RequestsOrdered(events[1..], t);
      assert NotBefore(Requests(events[1..]), now);
    }
  }

  /** A table that was swept against one that was not: they differ in entries only that no later
      request will count with. */
  ghost predicate Agree(swept: map<string, Window>, kept: map<string, Window>, now: int, window: int) {
    && (forall ip | ip in swept :: ip in kept && kept[ip] == swept[ip])
    && (forall ip | ip in kept && ip !in swept :: now - kept[ip].start > window)
  }

  lemma {:induction false} CleanupTransparentFrom(
    swept: map<string, Window>, kept: map<string, Window>, events: seq<Event>, now: int, window: int)
    requires NonDecreasing(events) && NotBefore(events, now) && Agree(swept, kept, now, window)
    ensures Decide(swept, events, window) == Decide(kept, Requests(events), window)
    decreases events
  {
    if events != [] {
      var t := events[0].time;
      assert NonDecreasing(events[1..]) && NotBefore(events[1..], t);
      match events[0]
      case Request(ip, _) =>
        var w := Hit(swept, ip, t, window);
        assert Hit(kept, ip, t, window) == w;
        CleanupTransparentFrom(swept[ip := w], kept[ip := w], events[1..], t, window);
        assert ([events[0]] + Requests(events[1..]))[1..] == Requests(events[1..]);
      case Cleanup(_) =>
        CleanupTransparentFrom(Swept(swept, t, window), kept, events[1..], t, window);
    }
  }

  /** Cleanups inserted anywhere change no decision: the same requests are admitted, with the
      same counts and windows. */
  lemma CleanupTransparent(events: seq<Event>, window: int)
    requires NonDecreasing(events)
    ensures Decide(map[], events, window) == Decide(map[], Requests(events), window)
  {
    if events != [] {
      CleanupTransparentFrom(map[], map[], events, events[0].time, window);
    }
  }

  function EventsOf(events: seq<Event>, ip: string): seq<Event> {
    if events == [] then []
    else if events[0].Cleanup? || events[0].ip == ip then [events[0]] + EventsOf(events[1..], ip)
    else EventsOf(events[1..], ip)
  }

  function DecisionsOf(ds: seq<Decision>, ip: string): seq<Decision> {
    if ds == [] then []
    else if ds[0].ip == ip then [ds[0]] + DecisionsOf(ds[1..], ip)
    else DecisionsOf(ds[1..], ip)
  }

  predicate SameFor(m: map<string, Window>, m': map<string, Window>, ip: string) {
    (ip in m <==> ip in m') && (ip in m ==> m[ip] == m'[ip])
  }

  lemma {:induction false} IndependentFrom(
    m: map<string, Window>, m': map<string, Window>, events: seq<Event>, window: int, ip: string)
    requires SameFor(m, m', ip)
    ensures DecisionsOf(Decide(m, events, window), ip) == DecisionsOf(Decide(m', EventsOf(events, ip), window), ip)
    decreases events
  {
    if events != [] {
      var kept := EventsOf(events[1..], ip);
      assert ([events[0]] + kept)[1..] == kept;
      match events[0]
      case Request(other, now) =>
        var w := Hit(m, other, now, window);
        var ds := Decide(m[other := w], events[1..], window);
        assert ([Decision(other, now, w.start, w.count)] + ds)[1..] == ds;
        if other == ip {
          assert Hit(m', ip, now, window) == w;
          IndependentFrom(m[ip := w], m'[ip := w], events[1..], window, ip);
          var ds' := Decide(m'[ip := w], kept, window);
          assert ([Decision(ip, now, w.start, w.count)] + ds')[1..] == ds';
        } else {
          IndependentFrom(m[other := w], m', events[1..], window, ip);
        }
      case Cleanup(now) =>
        IndependentFrom(Swept(m, now, window), Swept(m', now, window), events[1..], window, ip);
    }
  }

  /** What is decided about one address does not depend on the requests of any other. */
  lemma Independent(events: seq<Event>, window: int, ip: string)
    ensures DecisionsOf(Decide(map[], events, window), ip) ==
      DecisionsOf(Decide(map[], EventsOf(events, ip), window), ip)
  {
    IndependentFrom(map[], map[], events, window, ip);
  }

  // Windows.

  /** Windows of one address start more than `window` apart, and inside one window the numbers
      go up. */
  predicate Ordered(d: Decision, e: Decision, window: int) {
    d.ip == e.ip ==> (e.start == d.start && d.count < e.count) || e.start - d.start > window
  }

  /** Every later decision follows the entry that is there now. */
  lemma {:induction false} FollowsEntry(
    m: map<string, Window>, events: seq<Event>, now: int, window: nat, ip: string, l: nat)
    requires NonDecreasing(events) && NotBefore(events, now) && forall k | 0 <= k < |events| :: events[k].Request?
    requires ip in m && m[ip].start <= now
    requires l < |Decide(m, events, window)| && Decide(m, events, window)[l].ip == ip
    ensures var d := Decide(m, events, window)[l];
      (d.start == m[ip].start && m[ip].count < d.count) || d.start - m[ip].start > window
    decreases events
  {
    var t := events[0].time;
    assert NotBefore(events[1..], t);
    var w := Hit(m, events[0].ip, t, window);
    if l > 0 {
      FollowsEntry(m[events[0].ip := w], events[1..], t, window, ip, l - 1);
    }
  }

  lemma {:induction false} WindowsFrom(
    m: map<string, Window>, events: seq<Event>, now: int, window: nat, k: nat, l: nat)
    requires NonDecreasing(events) && NotBefore(events, now) && forall i | 0 <= i < |events| :: events[i].Request?
    requires forall ip | ip in m :: m[ip].start <= now
    requires k < l < |Decide(m, events, window)|
    ensures Ordered(Decide(m, events, window)[k], Decide(m, events, window)[l], window)
    ensures Decide(m, events, window)[k].start <= Decide(m, events, window)[k].time
      && Decide(m, events, window)[k].time - Decide(m, events, window)[k].start <= window
      && Decide(m, events, window)[k].count > 0
    decreases events
  {
    var t := events[0].time;
    var ip := events[0].ip;
    assert NotBefore(events[1..], t);
    var m' := m[ip := Hit(m, ip, t, window)];
    if k > 0 {
      WindowsFrom(m', events[1..], t, window, k - 1, l - 1);
    } else if Decide(m', events[1..], window)[l - 1].ip == ip {
      FollowsEntry(m', events[1..], t, window, ip, l - 1);
    }
  }

  /** On every trace, cleanups included. */
  lemma WindowsApart(events: seq<Event>, window: nat, k: nat, l: nat)
    requires NonDecreasing(events) && k < l < |Decide(map[], events, window)|
    ensures Ordered(Decide(map[], events, window)[k], Decide(map[], events, window)[l], window)
  {
    CleanupTransparent(events, window);
    if events != [] {
      RequestsOrdered(events, events[0].time);
      WindowsFrom(map[], Requests(events), events[0].time, window, k, l);
    }
  }

  // The rate.

  /** Requests of `ip` admitted at times from `from` to `to`. */
  function AdmittedBetween(ds: seq<Decision>, ip: string, from: int, to: int, limit: int): nat {
    if ds == [] then 0
    else (if ds[0].ip == ip && from <= ds[0].time <= to && Admits(ds[0], limit) then 1 else 0)
         + AdmittedBetween(ds[1..], ip, from, to, limit)
  }

  /** Requests of `ip` admitted in the window that starts at `start`. */
  function AdmittedIn(ds: seq<Decision>, ip: string, start: int, limit: int): nat {
    if ds == [] then 0
    else (if ds[0].ip == ip && ds[0].start == start && Admits(ds[0], limit) then 1 else 0)
         + AdmittedIn(ds[1..], ip, start, limit)
  }

  function Min(a: int, b: int): int {
    if a < b then a else b
  }

  function NonNegative(a: int): nat {
    if a < 0 then 0 else a
  }

  /** The most that can be admitted in any interval as long as the window: a full window, and all
      but the first request of the one before. */
  function Burst(limit: int): nat {
    NonNegative(2 * limit - 1)
  }

  /** `n` requests of `ip` have been admitted since `from`, none of them later than one window
      after it, and the entry of `ip` stands at `m`. */
  predicate Spent(m: map<string, Window>, ip: string, from: int, limit: int, n: nat) {
    if ip !in m then n == 0
    else if m[ip].start < from then n <= NonNegative(Min(m[ip].count, NonNegative(limit)) - 1)
    else n <= Min(m[ip].count, NonNegative(limit)) + NonNegative(limit - 1)
  }

  lemma {:induction false} RateFrom(
    m: map<string, Window>, events: seq<Event>, now: int, window: nat, ip: string, from: int, limit: int, n: nat)
    requires NonDecreasing(events) && NotBefore(events, now) && forall k | 0 <= k < |events| :: events[k].Request?
    requires ip in m ==> m[ip].count > 0
    requires n <= Burst(limit) && (now <= from + window ==> Spent(m, ip, from, limit, n))
    requires now < from ==> n == 0
    ensures n + AdmittedBetween(Decide(m, events, window), ip, from, from + window, limit) <= Burst(limit)
    decreases events
  {
    if events != [] {
      var t := events[0].time;
      var w := Hit(m, events[0].ip, t, window);
      var d := Decision(events[0].ip, t, w.start, w.count);
      var counted := if d.ip == ip && from <= t <= from + window && Admits(d, limit) then 1 else 0;
      assert NotBefore(events[1..], t);
      assert Decide(m, events, window)[1..] == Decide(m[d.ip := w], events[1..], window);
      RateFrom(m[d.ip := w], events[1..], t, window, ip, from, limit, n + counted);
    }
  }

  /** Rate bound, on every trace and for every interval as long as the window: at most twice the
      limit, less one, is admitted. */
  lemma RateBound(events: seq<Event>, window: nat, ip: string, from: int, limit: int)
    requires NonDecreasing(events)
    ensures AdmittedBetween(Decide(map[], events, window), ip, from, from + window, limit) <= Burst(limit)
  {
    CleanupTransparent(events, window);
    if events != [] {
      RequestsOrdered(events, events[0].time);
      RateFrom(map[], Requests(events), Min(events[0].time, from), window, ip, from, limit, 0);
    }
  }

  /** `n` requests of `ip` have been admitted in the window that starts at `start`. */
  predicate Used(m: map<string, Window>, ip: string, start: int, limit: int, n: nat) {
    if ip !in m || m[ip].start < start then n == 0
    else if m[ip].start == start then n <= Min(m[ip].count, NonNegative(limit))
    else n <= NonNegative(limit)
  }

  lemma {:induction false} WindowFrom(
    m: map<string, Window>, events: seq<Event>, now: int, window: nat, ip: string, start: int, limit: int, n: nat)
    requires NonDecreasing(events) && NotBefore(events, now) && forall k | 0 <= k < |events| :: events[k].Request?
    requires Used(m, ip, start, limit, n) && (ip in m ==> m[ip].start <= now)
    ensures n + AdmittedIn(Decide(m, events, window), ip, start, limit) <= NonNegative(limit)
    decreases events
  {
    if events != [] {
      var t := events[0].time;
      var w := Hit(m, events[0].ip, t, window);
      var d := Decision(events[0].ip, t, w.start, w.count);
      var counted := if d.ip == ip && d.start == start && Admits(d, limit) then 1 else 0;
      assert NotBefore(events[1..], t);
      assert Decide(m, events, window)[1..] == Decide(m[d.ip := w], events[1..], window);
      WindowFrom(m[d.ip := w], events[1..], t, window, ip, start, limit, n + counted);
    }
  }

  /** No window of any address admits more than the limit. */
  lemma WindowBound(events: seq<Event>, window: nat, ip: string, start: int, limit: int)
    requires NonDecreasing(events)
    ensures AdmittedIn(Decide(map[], events, window), ip, start, limit) <= NonNegative(limit)
  {
    CleanupTransparent(events, window);
    if events != [] {
      RequestsOrdered(events, events[0].time);
      WindowFrom(map[], Requests(events), events[0].time, window, ip, start, limit, 0);
    }
  }

  function Repeat(ip: string, time: int, n: nat): (r: seq<Event>)
    ensures |r| == n && forall k | 0 <= k < n :: r[k] == Request(ip, time)
  {
    if n == 0 then [] else [Request(ip, time)] + Repeat(ip, time, n - 1)
  }

  /** `n` requests at one time in an open window that has room for them are all admitted. */
  lemma {:induction false} RoomFor(
    m: map<string, Window>, ip: string, time: int, n: nat, rest: seq<Event>,
    window: int, from: int, to: int, limit: int)
    requires ip in m && time - m[ip].start <= window && from <= time <= to && m[ip].count + n <= limit
    ensures AdmittedBetween(Decide(m, Repeat(ip, time, n) + rest, window), ip, from, to, limit) ==
      n + AdmittedBetween(Decide(m[ip := Window(m[ip].start, m[ip].count + n)], rest, window), ip, from, to, limit)
    decreases n
  {
    if n == 0 {
      assert Repeat(ip, time, n) + rest == rest;
      assert m[ip := Window(m[ip].start, m[ip].count)] == m;
    } else {
      var w := Window(m[ip].start, m[ip].count + 1);
      var events := Repeat(ip, time, n) + rest;
      var tail := Repeat(ip, time, n - 1) + rest;
      assert events == [Request(ip, time)] + tail && events[1..] == tail;
      var d := Decision(ip, time, w.start, w.count);
      assert ([d] + Decide(m[ip := w], tail, window))[1..] == Decide(m[ip := w], tail, window);
      RoomFor(m[ip := w], ip, time, n - 1, rest, window, from, to, limit);
      assert m[ip := w][ip := Window(w.start, w.count + (n - 1))] == m[ip := Window(m[ip].start, m[ip].count + n)];
    }
  }

  /** What the first request of a trace adds to the count. */
  lemma {:induction false} OneRequest(
    m: map<string, Window>, ip: string, time: int, rest: seq<Event>, window: int, from: int, to: int, limit: int)
    ensures var w := Hit(m, ip, time, window);
      AdmittedBetween(Decide(m, [Request(ip, time)] + rest, window), ip, from, to, limit) ==
      (if from <= time <= to && w.count <= limit then 1 else 0)
      + AdmittedBetween(Decide(m[ip := w], rest, window), ip, from, to, limit)
  {
    var events := [Request(ip, time)] + rest;
    assert events[1..] == rest;
    var w := Hit(m, ip, time, window);
    var ds := Decide(m[ip := w], rest, window);
    assert Decide(m, events, window) == [Decision(ip, time, w.start, w.count)] + ds;
    assert Decide(m, events, window)[1..] == ds;
  }

  /** One request opens a window, the rest of its quota comes at its very end, and a full quota in
      the next window just after. */
  function Squeezed(window: nat, limit: nat, ip: string): seq<Event>
    requires limit > 0
  {
    [Request(ip, 0)] + (Repeat(ip, window, limit - 1) + ([Request(ip, window + 1)] + Repeat(ip, window + 1, limit - 1)))
  }

  lemma {:induction false} SqueezedOrdered(window: nat, limit: nat, ip: string)
    requires limit > 0
    ensures NonDecreasing(Squeezed(window, limit, ip))
  {
    var tail := Repeat(ip, window, limit - 1) + ([Request(ip, window + 1)] + Repeat(ip, window + 1, limit - 1));
    assert forall k | 0 <= k < |tail| :: tail[k].time == if k < limit - 1 then window else window + 1;
    assert forall k | 0 < k <= |tail| :: Squeezed(window, limit, ip)[k] == tail[k - 1];
  }

  /** The bound is reached. */
  lemma BurstAttained(window: nat, limit: nat, ip: string)
    requires window > 0 && limit > 0
    ensures NonDecreasing(Squeezed(window, limit, ip))
    ensures AdmittedBetween(Decide(map[], Squeezed(window, limit, ip), window), ip, 1, 1 + window, limit) ==
      Burst(limit)
  {
    SqueezedOrdered(window, limit, ip);
    hide Decide, AdmittedBetween, Repeat;
    var last := Repeat(ip, window + 1, limit - 1);
    var second := [Request(ip, window + 1)] + last;
    OneRequest(map[], ip, 0, Repeat(ip, window, limit - 1) + second, window, 1, 1 + window, limit);
    var m: map<string, Window> := map[][ip := Window(0, 1)];
    RoomFor(m, ip, window, limit - 1, second, window, 1, 1 + window, limit);
    var m' := m[ip := Window(0, limit)];
    OneRequest(m', ip, window + 1, last, window, 1, 1 + window, limit);
    var m'' := m'[ip := Window(window + 1, 1)];
    assert last + [] == last;
    RoomFor(m'', ip, window + 1, limit - 1, [], window, 1, 1 + window, limit);
    NothingLeft(m''[ip := Window(window + 1, limit)], ip, window, 1, 1 + window, limit);
  }

  lemma NothingLeft(m: map<string, Window>, ip: string, window: int, from: int, to: int, limit: int)
    ensures AdmittedBetween(Decide(m, [], window), ip, from, to, limit) == 0
  {
  }

  /** What the remaining count promises: of further requests at the same time, exactly so many are
      admitted. */
  lemma {:induction false} RemainingIsRoom(
    m: map<string, Window>, ip: string, now: int, n: nat, window: nat, limit: int)
    requires n > 0
    ensures var w := Hit(m, ip, now, window);
      var d := Decision(ip, now, w.start, w.count);
      var next := Decide(m[ip := w], Repeat(ip, now, n), window);
      |next| == n && (Admits(next[n - 1], limit) <==> n <= Remaining(d, limit))
  {
    var w := Hit(m, ip, now, window);
    SameTimeCounts(m[ip := w], ip, now, n, window);
  }

  lemma {:induction false} SameTimeCounts(m: map<string, Window>, ip: string, now: int, n: nat, window: nat)
    requires ip in m && now - m[ip].start <= window && n > 0
    ensures var next := Decide(m, Repeat(ip, now, n), window);
      |next| == n && next[n - 1] == Decision(ip, now, m[ip].start, m[ip].count + n)
    decreases n
  {
    var w := Window(m[ip].start, m[ip].count + 1);
    var rest := Repeat(ip, now, n - 1);
    assert Repeat(ip, now, n)[1..] == rest;
    if n > 1 {
      SameTimeCounts(m[ip := w], ip, now, n - 1, window);
    } else {
      assert rest == [];
    }
  }
}
