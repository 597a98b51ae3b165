/** The fixed-window rate limiter per client (httpapi/security.go). */
module RateLimiter {
  import opened Wrappers

  datatype Window = Window(startedAt: int, count: nat)

  datatype Request = Request(client: string, now: int)

  // ----- the simple form: one client, no map, no cleanup -----

  /** The window that a request falls into: the running one, or a new one. */
  function Enter(entry: Option<Window>, now: int, window: int): Window {
    if entry.None? || now - entry.value.startedAt >= window then Window(now, 1)
    else entry.value.(count := entry.value.count + 1)
  }

  /** The window of one client after a sequence of requests of all clients. */
  function After(requests: seq<Request>, client: string, window: int): Option<Window> {
    if requests == [] then None
    else
      var before := After(requests[..|requests| - 1], client, window);
      var last := requests[|requests| - 1];
      if last.client == client then Some(Enter(before, last.now, window)) else before
  }

  /** Whether the last request of a sequence is admitted by the limiter that never forgets. */
  predicate Admits(requests: seq<Request>, limit: int, window: int)
    requires requests != []
  {
    var last := requests[|requests| - 1];
    Enter(After(requests[..|requests| - 1], last.client, window), last.now, window).count <= limit
  }

  /** The number of requests of one client. */
  function RequestsOf(requests: seq<Request>, client: string): nat {
    if requests == [] then 0
    else RequestsOf(requests[..|requests| - 1], client) + if requests[|requests| - 1].client == client then 1 else 0
  }

  lemma RequestsAppend(requests: seq<Request>, r: Request, client: string)
    ensures RequestsOf(requests + [r], client) == RequestsOf(requests, client) + if r.client == client then 1 else 0
  {
    assert (requests + [r])[..|requests|] == requests;
  }

  /** What a window is: it began with some request of the client, counts this one and all later ones, which came within its
      length, and began because it was the client's first request or the window before it had run out. */
  lemma {:induction false} WindowMeans(requests: seq<Request>, client: string, window: int) returns (k: nat)
    requires After(requests, client, window).Some? && window > 0
    ensures k < |requests| && requests[k].client == client
    ensures var w := After(requests, client, window).value;
      && w.startedAt == requests[k].now && w.count == RequestsOf(requests[k..], client)
      && (forall i :: k <= i < |requests| && requests[i].client == client ==> requests[i].now < w.startedAt + window)
    ensures var earlier := After(requests[..k], client, window);
      earlier.None? || earlier.value.startedAt + window <= requests[k].now
  {
    var init, last := requests[..|requests| - 1], requests[|requests| - 1];
    var before := After(init, client, window);
    if last.client == client && (before.None? || last.now - before.value.startedAt >= window) {
      k := |requests| - 1;
      assert requests[k..] == [] + [last];
      RequestsAppend([], last, client);
    } else {
      k := WindowMeans(init, client, window);
      assert requests[k..] == init[k..] + [last] && requests[..k] == init[..k];
      RequestsAppend(init[k..], last, client);
    }
  }

  /** A client without a window has sent nothing. */
  lemma {:induction false} NoWindowNoRequests(requests: seq<Request>, client: string, window: int)
    ensures After(requests, client, window).None? <==> RequestsOf(requests, client) == 0
  {
    if requests != [] {
      NoWindowNoRequests(requests[..|requests| - 1], client, window);
    }
  }

  /** A request is admitted exactly when at most `limit` requests of its client, itself included, belong to its window. */
  lemma {:induction false} AdmitsMeans(requests: seq<Request>, limit: int, window: int) returns (k: nat)
    requires requests != [] && window > 0
    ensures var client := requests[|requests| - 1].client;
      && k < |requests| && requests[k].client == client && requests[|requests| - 1].now < requests[k].now + window
      && (Admits(requests, limit, window) <==> RequestsOf(requests[k..], client) <= limit)
      && var earlier := After(requests[..k], client, window);
         earlier.None? || earlier.value.startedAt + window <= requests[k].now
  {
    k := WindowMeans(requests, requests[|requests| - 1].client, window);
  }

  predicate NonDecreasing(requests: seq<Request>) {
    forall i, j :: 0 <= i <= j < |requests| ==> requests[i].now <= requests[j].now
  }

  /** The requests of a client that are admitted within [from, from + window). */
  function AdmittedIn(requests: seq<Request>, client: string, from: int, limit: int, window: int): nat {
    if requests == [] then 0
    else
      var last := requests[|requests| - 1];
      AdmittedIn(requests[..|requests| - 1], client, from, limit, window)
      + if last.client == client && from <= last.now < from + window && Admits(requests, limit, window) then 1 else 0
  }

  // ----- the bound -----

  function Max(a: int, b: int): int {
    if a >= b then a else b
  }

  function Min(a: int, b: int): int {
    if a <= b then a else b
  }

  /** The most that may have been admitted since `from`, given the running window. */
  function Used(entry: Option<Window>, from: int, limit: int, window: int): int {
    if entry.None? || entry.value.startedAt <= from - window then 0
    else
      var running := Min(entry.value.count, Max(limit, 0));
      if entry.value.startedAt < from then running
      else if entry.value.startedAt < from + window then Max(limit, 0) + running
      else 2 * Max(limit, 0)
  }

  lemma {:induction false} WindowStarted(requests: seq<Request>, client: string, window: int)
    requires NonDecreasing(requests) && requests != []
    ensures After(requests, client, window).Some? ==>
              After(requests, client, window).value.startedAt <= requests[|requests| - 1].now
  {
    var init := requests[..|requests| - 1];
    if init != [] {
      assert init[|init| - 1] == requests[|requests| - 2];
      WindowStarted(init, client, window);
    }
  }

  lemma {:induction false} AdmittedBound(requests: seq<Request>, client: string, from: int, limit: int, window: int)
    requires NonDecreasing(requests) && window > 0
    ensures AdmittedIn(requests, client, from, limit, window) <= Used(After(requests, client, window), from, limit, window)
         || (requests != [] && requests[|requests| - 1].now >= from + window)
    ensures AdmittedIn(requests, client, from, limit, window) <= 2 * Max(limit, 0)
  {
    if requests != [] {
      var init, last := requests[..|requests| - 1], requests[|requests| - 1];
      AdmittedBound(init, client, from, limit, window);
      WindowStarted(requests, client, window);
      if init != [] {
        WindowStarted(init, client, window);
        assert init[|init| - 1] == requests[|requests| - 2];
      }
    }
  }

  /** Any half-open interval of the window's length admits at most twice the limit per client. */
  lemma {:induction false} AtMostTwiceTheLimit(requests: seq<Request>, client: string, from: int, limit: int, window: int)
    requires NonDecreasing(requests) && window > 0
    ensures AdmittedIn(requests, client, from, limit, window) <= 2 * Max(limit, 0)
  {
    AdmittedBound(requests, client, from, limit, window);
  }

  // ----- the program, with a shared map that is cleaned up -----

  function Lookup(clients: map<string, Window>, client: string): Option<Window> {
    if client in clients then Some(clients[client]) else None
  }

  /** The entry is that of the limiter that never forgets, or was forgotten after it had expired. */
  predicate Agrees(clients: map<string, Window>, requests: seq<Request>, window: int, now: int, client: string) {
    var kept, full := Lookup(clients, client), After(requests, client, window);
    kept == full || (kept.None? && now - full.value.startedAt >= window)
  }

  function Cleaned(clients: map<string, Window>, window: int, now: int): map<string, Window> {
    map c | c in clients && now - clients[c].startedAt < window :: clients[c]
  }

  lemma CleaningAgrees(clients: map<string, Window>, requests: seq<Request>, window: int, before: int, now: int, client: string)
    requires Agrees(clients, requests, window, before, client) && before <= now
    ensures Agrees(clients, requests, window, now, client) && Agrees(Cleaned(clients, window, now), requests, window, now, client)
  {
  }

  /** After the request the client's own entry is exact, and the others still agree. */
  lemma RequestAgrees(clients: map<string, Window>, requests: seq<Request>, window: int, r: Request, client: string)
    requires Agrees(clients, requests, window, r.now, client) && Agrees(clients, requests, window, r.now, r.client)
    ensures var entered := Enter(Lookup(clients, r.client), r.now, window);
      && entered == Enter(After(requests, r.client, window), r.now, window)
      && Agrees(clients[r.client := entered], requests + [r], window, r.now, client)
  {
    assert (requests + [r])[..|requests|] == requests;
  }

  ghost predicate AllAgree(clients: map<string, Window>, requests: seq<Request>, window: int, now: int) {
    forall c :: Agrees(clients, requests, window, now, c)
  }

  lemma CleaningKeeps(clients: map<string, Window>, requests: seq<Request>, window: int, before: int, now: int)
    requires AllAgree(clients, requests, window, before) && before <= now
    ensures AllAgree(clients, requests, window, now) && AllAgree(Cleaned(clients, window, now), requests, window, now)
  {
    forall c ensures Agrees(clients, requests, window, now, c) && Agrees(Cleaned(clients, window, now), requests, window, now, c) {
      CleaningAgrees(clients, requests, window, before, now, c);
    }
  }

  lemma RequestKeeps(clients: map<string, Window>, requests: seq<Request>, window: int, limit: int, r: Request)
    requires AllAgree(clients, requests, window, r.now)
    ensures var entered := Enter(Lookup(clients, r.client), r.now, window);
      && AllAgree(clients[r.client := entered], requests + [r], window, r.now)
      && (Admits(requests + [r], limit, window) <==> entered.count <= limit)
  {
    var entered := Enter(Lookup(clients, r.client), r.now, window);
    var updated := clients[r.client := entered];
    assert (requests + [r])[..|requests|] == requests;
    RequestAgrees(clients, requests, window, r, r.client);
    forall c ensures Agrees(updated, requests + [r], window, r.now, c) {
      RequestAgrees(clients, requests, window, r, c);
    }
  }

  class Limiter {
    const limit: int
    const window: int
    var clients: map<string, Window>
    var lastCleanup: int
    /** The requests handled so far, and the time of the last one. */
    ghost var history: seq<Request>
    ghost var clock: int

    ghost predicate Valid()
      reads this
    {
      && NonDecreasing(history) && lastCleanup <= clock
      && (forall i :: 0 <= i < |history| ==> history[i].now <= clock)
      && AllAgree(clients, history, window, clock)
    }

    constructor (limit: int, window: int, now: int)
      ensures Valid() && history == [] && clock == lastCleanup == now
      ensures this.limit == limit && this.window == window
    {
      this.limit, this.window := limit, window;
      clients, lastCleanup, history, clock := map[], now, [], now;
    }

    /** Admits exactly the requests that the limiter without cleanup admits. */
    method Handle(client: string, now: int) returns (admitted: bool)
      requires Valid() && now >= clock
      modifies this
      ensures Valid() && history == old(history) + [Request(client, now)] && clock == now
      ensures admitted == Admits(history, limit, window)
    {
      CleaningKeeps(clients, history, window, clock, now);
      if now - lastCleanup >= window {
        clients := Cleaned(clients, window, now);
        lastCleanup := now;
      }
      RequestKeeps(clients, history, window, limit, Request(client, now));
      var entry := if client in clients then clients[client] else Window(now - window, 0);
      if client !in clients || now - entry.startedAt >= window {
        entry := Window(now, 0);
      }
      entry := entry.(count := entry.count + 1);
      clients := clients[client := entry];
      admitted := entry.count <= limit;
      history, clock := history + [Request(client, now)], now;
    }
  }
}
