/**
  The in-memory sliding-window limiters: one for requests that come through a trusted proxy, bounded
  per client and per proxy, and one for login attempts.  They keep only the recent times of what
  they admitted, and yet decide as the full history of admissions would.
 */
module RateLimiter {
  import opened Wrappers

  type Time = real

  // ----- one log --------------------------------------------------------------------------

  /** How many of the times are at or after the horizon. */
  function Since(log: seq<Time>, horizon: Time): nat {
    if log == [] then 0 else Since(log[..|log| - 1], horizon) + if log[|log| - 1] >= horizon then 1 else 0
  }

  predicate Ordered(log: seq<Time>) {
    forall i, k :: 0 <= i < k < |log| ==> log[i] <= log[k]
  }

  /** The entries are what is left of the log after dropping only times before the horizon. */
  ghost predicate Keeps(entries: seq<Time>, log: seq<Time>, horizon: Time) {
    |entries| <= |log| && entries == log[|log| - |entries|..]
    && forall i :: 0 <= i < |log| - |entries| ==> log[i] < horizon
  }

  predicate Fresh(entries: seq<Time>, horizon: Time) {
    entries != [] ==> entries[0] >= horizon
  }

  /** Drops the leading entries before the horizon. */
  method Evict(entries: seq<Time>, horizon: Time) returns (kept: seq<Time>)
    ensures Keeps(kept, entries, horizon) && Fresh(kept, horizon)
  {
    var n := 0;
    while n < |entries| && entries[n] < horizon
      invariant 0 <= n <= |entries| && forall i :: 0 <= i < n ==> entries[i] < horizon
    {
      n := n + 1;
    }
    kept := entries[n..];
  }

  lemma {:induction false} SinceAll(log: seq<Time>, horizon: Time, n: nat)
    requires n <= |log|
    requires forall i :: 0 <= i < |log| ==> (log[i] >= horizon <==> i >= n)
    ensures Since(log, horizon) == |log| - n
  {
    if |log| > n {
      SinceAll(log[..|log| - 1], horizon, n);
    } else if log != [] {
      SinceAll(log[..|log| - 1], horizon, n - 1);
    }
  }

  lemma KeepsMost(kept: seq<Time>, entries: seq<Time>, log: seq<Time>, before: Time, horizon: Time)
    requires Keeps(kept, entries, horizon) && Keeps(entries, log, before) && before <= horizon
    ensures Keeps(kept, log, horizon)
  {
    var m := |log| - |entries|;
    forall i | m <= i < |log| - |kept| ensures log[i] < horizon {
      assert log[i] == entries[i - m];
    }
    forall i | 0 <= i < |kept| ensures kept[i] == log[|log| - |kept|..][i] {
      assert kept[i] == entries[|entries| - |kept| + i];
    }
  }

  /** Entries that were evicted up to the horizon are exactly those of the log since then. */
  lemma FreshCounts(kept: seq<Time>, log: seq<Time>, horizon: Time)
    requires Ordered(log) && Keeps(kept, log, horizon) && Fresh(kept, horizon)
    ensures |kept| == Since(log, horizon)
  {
    var n := |log| - |kept|;
    forall i | n <= i < |log| ensures log[i] >= horizon {
      assert kept[0] == log[n];
    }
    SinceAll(log, horizon, n);
  }

  // ----- requests through a proxy ---------------------------------------------------------

  /** A client as seen through a proxy. */
  datatype Client = Client(proxy: nat, address: nat)

  datatype Admission = Admission(client: Client, at: Time)

  function ClientLog(history: seq<Admission>, client: Client): seq<Time> {
    if history == [] then []
    else
      var last := history[|history| - 1];
      ClientLog(history[..|history| - 1], client) + if last.client == client then [last.at] else []
  }

  function ProxyLog(history: seq<Admission>, proxy: nat): seq<Time> {
    if history == [] then []
    else
      var last := history[|history| - 1];
      ProxyLog(history[..|history| - 1], proxy) + if last.client.proxy == proxy then [last.at] else []
  }

  /** What the full history says of a request at `now`. */
  predicate Admissible(history: seq<Admission>, client: Client, now: Time, window: Time, clientLimit: nat, proxyLimit: nat) {
    && Since(ClientLog(history, client), now - window) < clientLimit
    && Since(ProxyLog(history, client.proxy), now - window) < proxyLimit
  }

  /** Admissions in order of time, each admissible when it was made. */
  predicate Admitted(history: seq<Admission>, window: Time, clientLimit: nat, proxyLimit: nat) {
    && (forall i, k :: 0 <= i < k < |history| ==> history[i].at <= history[k].at)
    && (forall i :: 0 <= i < |history| ==>
          Admissible(history[..i], history[i].client, history[i].at, window, clientLimit, proxyLimit))
  }

  predicate UpTo(log: seq<Time>, t: Time) {
    forall i :: 0 <= i < |log| ==> log[i] <= t
  }

  lemma {:induction false} LogsOrdered(history: seq<Admission>, client: Client, proxy: nat, now: Time)
    requires forall i, k :: 0 <= i < k < |history| ==> history[i].at <= history[k].at
    requires history != [] ==> history[|history| - 1].at <= now
    ensures Ordered(ClientLog(history, client)) && Ordered(ProxyLog(history, proxy))
    ensures UpTo(ClientLog(history, client), now) && UpTo(ProxyLog(history, proxy), now)
  {
    if history != [] {
      LogsOrdered(history[..|history| - 1], client, proxy, history[|history| - 1].at);
    }
  }

  class ExternalRequestRateLimiter {
    const clientRequests: nat
    const proxyRequests: nat
    const window: Time
    var clients: map<Client, seq<Time>>
    var proxies: map<nat, seq<Time>>
    /** All admissions so far, and the latest time the clock has shown. */
    ghost var history: seq<Admission>
    ghost var clock: Time

    ghost predicate Valid()
      reads this
    {
      && 1 <= clientRequests <= proxyRequests && window > 0.0
      && Admitted(history, window, clientRequests, proxyRequests)
      && (history != [] ==> history[|history| - 1].at <= clock)
      && AllKept(clients, proxies, history, clock - window)
    }

    constructor (clientRequests: nat, proxyRequests: nat, window: Time)
      requires 1 <= clientRequests <= proxyRequests && window > 0.0
      ensures Valid() && history == []
      ensures this.clientRequests == clientRequests && this.proxyRequests == proxyRequests && this.window == window
    {
      this.clientRequests, this.proxyRequests, this.window := clientRequests, proxyRequests, window;
      clients, proxies, history, clock := map[], map[], [], 0.0;
    }

    /** Decides as the full history of admissions would, and admits or leaves the history alone. */
    method Allow(external: bool, proxy: Option<nat>, address: nat, now: Time) returns (allowed: bool)
      requires Valid() && clock <= now
      modifies this
      ensures Valid()
      ensures !external || proxy.None? ==> allowed && history == old(history) && clients == old(clients) && proxies == old(proxies)
      ensures external && proxy.Some? ==>
        var client := Client(proxy.value, address);
        && allowed == Admissible(old(history), client, now, window, clientRequests, proxyRequests)
        && history == if allowed then old(history) + [Admission(client, now)] else old(history)
    {
      hide Keeps, Fresh, Ordered, UpTo, Since, ClientLog, ProxyLog, Admitted, AllKept, Entries;
      if !external || proxy.None? {
        return true;
      }
      AdmittedOrdered(history, window, clientRequests, proxyRequests);
      var client := Client(proxy.value, address);
      var forClient := Evict(Entries(clients, client), now - window);
      var forProxy := Evict(Entries(proxies, client.proxy), now - window);
      ghost var horizon := now - window;
      LogsOrdered(history, client, client.proxy, now);
      KeptNow(clients, proxies, history, clock - window, client);
      KeepsMost(forClient, Entries(clients, client), ClientLog(history, client), clock - window, horizon);
      KeepsMost(forProxy, Entries(proxies, client.proxy), ProxyLog(history, client.proxy), clock - window, horizon);
      FreshCounts(forClient, ClientLog(history, client), horizon);
      FreshCounts(forProxy, ProxyLog(history, client.proxy), horizon);
      StillKept(clients, proxies, history, clock - window, now - window);
      allowed := |forClient| < clientRequests && |forProxy| < proxyRequests;
      if allowed {
        OneMore(clients, proxies, history, now - window, client, now, forClient, forProxy);
        MoreAdmitted(history, Admission(client, now), window, clientRequests, proxyRequests);
        forClient, forProxy := forClient + [now], forProxy + [now];
        history := history + [Admission(client, now)];
      } else {
        Replaced(clients, proxies, history, now - window, client, forClient, forProxy);
      }
      clients, proxies := clients[client := forClient], proxies[client.proxy := forProxy];
      clock := now;
    }
  }

  function Entries<K>(entries: map<K, seq<Time>>, key: K): seq<Time> {
    if key in entries then entries[key] else []
  }

  ghost predicate AllKept(clients: map<Client, seq<Time>>, proxies: map<nat, seq<Time>>, history: seq<Admission>, horizon: Time) {
    && (forall c: Client :: Keeps(Entries(clients, c), ClientLog(history, c), horizon))
    && (forall p: nat :: Keeps(Entries(proxies, p), ProxyLog(history, p), horizon))
  }

  lemma KeptNow(clients: map<Client, seq<Time>>, proxies: map<nat, seq<Time>>, history: seq<Admission>, horizon: Time, client: Client)
    requires AllKept(clients, proxies, history, horizon)
    ensures Keeps(Entries(clients, client), ClientLog(history, client), horizon)
    ensures Keeps(Entries(proxies, client.proxy), ProxyLog(history, client.proxy), horizon)
  {
    hide ClientLog, ProxyLog, Keeps, Entries;
  }

  lemma StillKept(clients: map<Client, seq<Time>>, proxies: map<nat, seq<Time>>, history: seq<Admission>, before: Time, horizon: Time)
    requires AllKept(clients, proxies, history, before) && before <= horizon
    ensures AllKept(clients, proxies, history, horizon)
  {
    hide ClientLog, ProxyLog;
  }

  lemma Replaced(clients: map<Client, seq<Time>>, proxies: map<nat, seq<Time>>, history: seq<Admission>, horizon: Time,
                 client: Client, forClient: seq<Time>, forProxy: seq<Time>)
    requires AllKept(clients, proxies, history, horizon)
    requires Keeps(forClient, ClientLog(history, client), horizon) && Keeps(forProxy, ProxyLog(history, client.proxy), horizon)
    ensures AllKept(clients[client := forClient], proxies[client.proxy := forProxy], history, horizon)
  {
    hide ClientLog, ProxyLog, Keeps;
  }

  lemma KeepsMore(entries: seq<Time>, log: seq<Time>, horizon: Time, now: Time)
    requires Keeps(entries, log, horizon)
    ensures Keeps(entries + [now], log + [now], horizon)
  {
  }

  lemma OneMore(clients: map<Client, seq<Time>>, proxies: map<nat, seq<Time>>, history: seq<Admission>, horizon: Time,
                client: Client, now: Time, forClient: seq<Time>, forProxy: seq<Time>)
    requires AllKept(clients, proxies, history, horizon)
    requires Keeps(forClient, ClientLog(history, client), horizon) && Keeps(forProxy, ProxyLog(history, client.proxy), horizon)
    ensures AllKept(clients[client := forClient + [now]], proxies[client.proxy := forProxy + [now]],
                    history + [Admission(client, now)], horizon)
  {
    ClientsOneMore(clients, history, horizon, Admission(client, now), forClient);
    ProxiesOneMore(proxies, history, horizon, Admission(client, now), forProxy);
    hide ClientLog, ProxyLog, Keeps, Entries;
  }

  lemma ClientsOneMore(clients: map<Client, seq<Time>>, history: seq<Admission>, horizon: Time, a: Admission, entries: seq<Time>)
    requires forall c: Client :: Keeps(Entries(clients, c), ClientLog(history, c), horizon)
    requires Keeps(entries, ClientLog(history, a.client), horizon)
    ensures forall c: Client :: Keeps(Entries(clients[a.client := entries + [a.at]], c), ClientLog(history + [a], c), horizon)
  {
    hide ClientLog, Keeps;
    forall c: Client
      ensures Keeps(Entries(clients[a.client := entries + [a.at]], c), ClientLog(history + [a], c), horizon)
    {
      LogsOneMore(history, a, c, a.client.proxy);
      if c == a.client {
        KeepsMore(entries, ClientLog(history, c), horizon, a.at);
      } else {
        assert Keeps(Entries(clients, c), ClientLog(history, c), horizon);
        assert ClientLog(history, c) + [] == ClientLog(history, c);
      }
    }
  }

  lemma ProxiesOneMore(proxies: map<nat, seq<Time>>, history: seq<Admission>, horizon: Time, a: Admission, entries: seq<Time>)
    requires forall p: nat :: Keeps(Entries(proxies, p), ProxyLog(history, p), horizon)
    requires Keeps(entries, ProxyLog(history, a.client.proxy), horizon)
    ensures forall p: nat :: Keeps(Entries(proxies[a.client.proxy := entries + [a.at]], p), ProxyLog(history + [a], p), horizon)
  {
    hide ProxyLog, Keeps;
    forall p: nat
      ensures Keeps(Entries(proxies[a.client.proxy := entries + [a.at]], p), ProxyLog(history + [a], p), horizon)
    {
      LogsOneMore(history, a, a.client, p);
      if p == a.client.proxy {
        KeepsMore(entries, ProxyLog(history, p), horizon, a.at);
      } else {
        assert Keeps(Entries(proxies, p), ProxyLog(history, p), horizon);
        assert ProxyLog(history, p) + [] == ProxyLog(history, p);
      }
    }
  }

  lemma LogsOneMore(history: seq<Admission>, a: Admission, client: Client, proxy: nat)
    ensures ClientLog(history + [a], client) == ClientLog(history, client) + if client == a.client then [a.at] else []
    ensures ProxyLog(history + [a], proxy) == ProxyLog(history, proxy) + if proxy == a.client.proxy then [a.at] else []
  {
    assert (history + [a])[..|history|] == history;
  }

  lemma AdmittedOrdered(history: seq<Admission>, window: Time, clientLimit: nat, proxyLimit: nat)
    requires Admitted(history, window, clientLimit, proxyLimit)
    ensures forall i, k :: 0 <= i < k < |history| ==> history[i].at <= history[k].at
  {
  }

  lemma MoreAdmitted(history: seq<Admission>, a: Admission, window: Time, clientLimit: nat, proxyLimit: nat)
    requires Admitted(history, window, clientLimit, proxyLimit)
    requires history != [] ==> history[|history| - 1].at <= a.at
    requires Admissible(history, a.client, a.at, window, clientLimit, proxyLimit)
    ensures Admitted(history + [a], window, clientLimit, proxyLimit)
  {
    hide Admissible;
    var after := history + [a];
    forall i | 0 <= i < |after| ensures Admissible(after[..i], after[i].client, after[i].at, window, clientLimit, proxyLimit) {
      assert after[..i] == history[..i];
      if i == |history| {
        assert history[..i] == history;
      }
    }
  }

  // ----- what the limits mean -------------------------------------------------------------

  /** How many of the times lie in the closed interval. */
  function Between(log: seq<Time>, from: Time, to: Time): nat {
    if log == [] then 0
    else Between(log[..|log| - 1], from, to) + if from <= log[|log| - 1] <= to then 1 else 0
  }

  lemma {:induction false} BetweenAtMostSince(log: seq<Time>, from: Time, to: Time, horizon: Time)
    requires horizon <= from
    ensures Between(log, from, to) <= Since(log, horizon)
  {
    if log != [] {
      BetweenAtMostSince(log[..|log| - 1], from, to, horizon);
    }
  }

  lemma BetweenOneMore(log: seq<Time>, t: Time, from: Time, to: Time)
    ensures Between(log + [t], from, to) == Between(log, from, to) + if from <= t <= to then 1 else 0
  {
    assert (log + [t])[..|log|] == log;
  }

  /** In no closed window were more requests admitted than the limits, whenever the window begins. */
  lemma {:induction false} WindowsBounded(history: seq<Admission>, window: Time, clientLimit: nat, proxyLimit: nat, client: Client, from: Time)
    requires Admitted(history, window, clientLimit, proxyLimit)
    ensures Between(ClientLog(history, client), from, from + window) <= clientLimit
    ensures Between(ProxyLog(history, client.proxy), from, from + window) <= proxyLimit
  {
    hide *;
    if history == [] {
      NothingBetween(client, from, from + window);
    } else {
      var rest, last := history[..|history| - 1], history[|history| - 1];
      assert history == rest + [last];
      RestAdmitted(history, window, clientLimit, proxyLimit);
      WindowsBounded(rest, window, clientLimit, proxyLimit, client, from);
      WindowStep(rest, last, window, clientLimit, proxyLimit, client, from);
    }
  }

  lemma NothingBetween(client: Client, from: Time, to: Time)
    ensures Between(ClientLog([], client), from, to) == 0 && Between(ProxyLog([], client.proxy), from, to) == 0
  {
  }

  lemma WindowStep(rest: seq<Admission>, last: Admission, window: Time, clientLimit: nat, proxyLimit: nat, client: Client, from: Time)
    requires Between(ClientLog(rest, client), from, from + window) <= clientLimit
    requires Between(ProxyLog(rest, client.proxy), from, from + window) <= proxyLimit
    requires Since(ClientLog(rest, last.client), last.at - window) < clientLimit
    requires Since(ProxyLog(rest, last.client.proxy), last.at - window) < proxyLimit
    ensures Between(ClientLog(rest + [last], client), from, from + window) <= clientLimit
    ensures Between(ProxyLog(rest + [last], client.proxy), from, from + window) <= proxyLimit
  {
    LogsOneMore(rest, last, client, client.proxy);
    hide *;
    assert ClientLog(rest, client) + [] == ClientLog(rest, client);
    assert ProxyLog(rest, client.proxy) + [] == ProxyLog(rest, client.proxy);
    if last.client == client {
      GrowBounded(ClientLog(rest, client), last.at, from, window, clientLimit);
    }
    if last.client.proxy == client.proxy {
      GrowBounded(ProxyLog(rest, client.proxy), last.at, from, window, proxyLimit);
    }
  }

  lemma GrowBounded(log: seq<Time>, at: Time, from: Time, window: Time, limit: nat)
    requires Between(log, from, from + window) <= limit && Since(log, at - window) < limit
    ensures Between(log + [at], from, from + window) <= limit
  {
    BetweenOneMore(log, at, from, from + window);
    if from <= at <= from + window {
      BetweenAtMostSince(log, from, from + window, at - window);
    }
    hide Between, Since;
  }

  lemma RestAdmitted(history: seq<Admission>, window: Time, clientLimit: nat, proxyLimit: nat)
    requires Admitted(history, window, clientLimit, proxyLimit) && history != []
    ensures var rest, last := history[..|history| - 1], history[|history| - 1];
      && Admitted(rest, window, clientLimit, proxyLimit)
      && Since(ClientLog(rest, last.client), last.at - window) < clientLimit
      && Since(ProxyLog(rest, last.client.proxy), last.at - window) < proxyLimit
  {
    assert Admissible(history[..|history| - 1], history[|history| - 1].client, history[|history| - 1].at, window, clientLimit, proxyLimit);
    hide Admissible;
    var rest := history[..|history| - 1];
    forall i | 0 <= i < |rest| ensures Admissible(rest[..i], rest[i].client, rest[i].at, window, clientLimit, proxyLimit) {
      assert rest[..i] == history[..i];
    }
  }

  /** The in-window requests of these clients of a proxy, taken together. */
  function SumSince(history: seq<Admission>, proxy: nat, addresses: seq<nat>, horizon: Time): nat {
    if addresses == [] then 0
    else SumSince(history, proxy, addresses[..|addresses| - 1], horizon)
         + Since(ClientLog(history, Client(proxy, addresses[|addresses| - 1])), horizon)
  }

  predicate Distinct(addresses: seq<nat>) {
    forall i, k :: 0 <= i < k < |addresses| ==> addresses[i] != addresses[k]
  }

  lemma SinceOneMore(log: seq<Time>, t: Time, horizon: Time)
    ensures Since(log + [t], horizon) == Since(log, horizon) + if t >= horizon then 1 else 0
  {
    assert (log + [t])[..|log|] == log;
  }

  lemma ClientOneMore(history: seq<Admission>, a: Admission, client: Client, horizon: Time)
    ensures Since(ClientLog(history + [a], client), horizon) == Since(ClientLog(history, client), horizon)
      + if a.client == client && a.at >= horizon then 1 else 0
  {
    LogsOneMore(history, a, client, client.proxy);
    hide ClientLog;
    SinceOneMore(ClientLog(history, client), a.at, horizon);
    assert ClientLog(history, client) + [] == ClientLog(history, client);
  }

  lemma DistinctRest(addresses: seq<nat>)
    requires Distinct(addresses) && addresses != []
    ensures var rest, last := addresses[..|addresses| - 1], addresses[|addresses| - 1];
      Distinct(rest) && last !in rest && forall x :: x in addresses <==> x in rest || x == last
  {
    assert addresses == addresses[..|addresses| - 1] + [addresses[|addresses| - 1]];
  }

  lemma {:induction false} SumOneMore(history: seq<Admission>, a: Admission, proxy: nat, addresses: seq<nat>, horizon: Time)
    requires Distinct(addresses)
    ensures SumSince(history + [a], proxy, addresses, horizon) == SumSince(history, proxy, addresses, horizon)
      + if a.client.proxy == proxy && a.client.address in addresses && a.at >= horizon then 1 else 0
  {
    if addresses != [] {
      hide ClientLog, Since, Distinct;
      var rest, last := addresses[..|addresses| - 1], addresses[|addresses| - 1];
      DistinctRest(addresses);
      SumOneMore(history, a, proxy, rest, horizon);
      ClientOneMore(history, a, Client(proxy, last), horizon);
    }
  }

  predicate Covers(addresses: seq<nat>, history: seq<Admission>, proxy: nat) {
    forall i :: 0 <= i < |history| && history[i].client.proxy == proxy ==> history[i].client.address in addresses
  }

  lemma CoversRest(addresses: seq<nat>, history: seq<Admission>, proxy: nat)
    requires Covers(addresses, history, proxy) && history != []
    ensures Covers(addresses, history[..|history| - 1], proxy)
    ensures var last := history[|history| - 1];
      last.client.proxy == proxy ==> last.client.address in addresses
  {
  }

  lemma ProxyOneMore(history: seq<Admission>, a: Admission, proxy: nat, horizon: Time)
    ensures Since(ProxyLog(history + [a], proxy), horizon) == Since(ProxyLog(history, proxy), horizon)
      + if a.client.proxy == proxy && a.at >= horizon then 1 else 0
  {
    LogsOneMore(history, a, a.client, proxy);
    hide ProxyLog;
    SinceOneMore(ProxyLog(history, proxy), a.at, horizon);
    assert ProxyLog(history, proxy) + [] == ProxyLog(history, proxy);
  }

  /** The admissions of a proxy are those of its clients, each counted once. */
  lemma {:induction false} HistoryIsSumOfClients(history: seq<Admission>, proxy: nat, addresses: seq<nat>, horizon: Time)
    requires Distinct(addresses) && Covers(addresses, history, proxy)
    ensures Since(ProxyLog(history, proxy), horizon) == SumSince(history, proxy, addresses, horizon)
  {
    if history == [] {
      NoSum(proxy, addresses, horizon);
    } else {
      hide *;
      var rest, last := history[..|history| - 1], history[|history| - 1];
      CoversRest(addresses, history, proxy);
      HistoryIsSumOfClients(rest, proxy, addresses, horizon);
      SumOneMore(rest, last, proxy, addresses, horizon);
      ProxyOneMore(rest, last, proxy, horizon);
      assert history == rest + [last];
    }
  }

  lemma {:induction false} NoSum(proxy: nat, addresses: seq<nat>, horizon: Time)
    ensures SumSince([], proxy, addresses, horizon) == 0
  {
    if addresses != [] {
      NoSum(proxy, addresses[..|addresses| - 1], horizon);
    }
  }

  // ----- the stored logs ------------------------------------------------------------------

  lemma {:induction false} SinceNone(log: seq<Time>, horizon: Time)
    requires forall i :: 0 <= i < |log| ==> log[i] < horizon
    ensures Since(log, horizon) == 0
  {
    if log != [] {
      SinceNone(log[..|log| - 1], horizon);
    }
  }

  lemma {:induction false} SinceAdd(a: seq<Time>, b: seq<Time>, horizon: Time)
    ensures Since(a + b, horizon) == Since(a, horizon) + Since(b, horizon)
  {
    if b == [] {
      assert a + b == a;
    } else {
      assert (a + b)[..|a + b| - 1] == a + b[..|b| - 1];
      SinceAdd(a, b[..|b| - 1], horizon);
    }
  }

  /** What was dropped before a horizon is not counted from it on. */
  lemma KeepsCounts(entries: seq<Time>, log: seq<Time>, before: Time, horizon: Time)
    requires Keeps(entries, log, before) && before <= horizon
    ensures Since(entries, horizon) == Since(log, horizon)
  {
    var dropped := log[..|log| - |entries|];
    assert log == dropped + entries;
    SinceNone(dropped, horizon);
    SinceAdd(dropped, entries, horizon);
  }

  /** The stored recent requests of these clients of a proxy, taken together. */
  function StoredSum(clients: map<Client, seq<Time>>, proxy: nat, addresses: seq<nat>, horizon: Time): nat {
    if addresses == [] then 0
    else StoredSum(clients, proxy, addresses[..|addresses| - 1], horizon)
         + Since(Entries(clients, Client(proxy, addresses[|addresses| - 1])), horizon)
  }

  lemma {:induction false} StoredSumCounts(clients: map<Client, seq<Time>>, proxies: map<nat, seq<Time>>, history: seq<Admission>,
                                           proxy: nat, addresses: seq<nat>, before: Time, horizon: Time)
    requires AllKept(clients, proxies, history, before) && before <= horizon
    ensures StoredSum(clients, proxy, addresses, horizon) == SumSince(history, proxy, addresses, horizon)
  {
    hide Since, Entries, ClientLog, ProxyLog, Keeps, AllKept;
    if addresses != [] {
      var client := Client(proxy, addresses[|addresses| - 1]);
      StoredSumCounts(clients, proxies, history, proxy, addresses[..|addresses| - 1], before, horizon);
      KeptNow(clients, proxies, history, before, client);
      KeepsCounts(Entries(clients, client), ClientLog(history, client), before, horizon);
    }
  }

  lemma KeepsOrdered(entries: seq<Time>, log: seq<Time>, horizon: Time)
    requires Keeps(entries, log, horizon) && Ordered(log)
    ensures Ordered(entries)
  {
  }

  lemma StoredInOrder(clients: map<Client, seq<Time>>, proxies: map<nat, seq<Time>>, history: seq<Admission>, before: Time,
                      client: Client)
    requires AllKept(clients, proxies, history, before)
    requires forall i, k :: 0 <= i < k < |history| ==> history[i].at <= history[k].at
    ensures Ordered(Entries(clients, client)) && Ordered(Entries(proxies, client.proxy))
  {
    hide Entries, ClientLog, ProxyLog, Keeps, AllKept, Ordered, UpTo;
    KeptNow(clients, proxies, history, before, client);
    LogsOrdered(history, client, client.proxy, if history == [] then 0.0 else history[|history| - 1].at);
    KeepsOrdered(Entries(clients, client), ClientLog(history, client), before);
    KeepsOrdered(Entries(proxies, client.proxy), ProxyLog(history, client.proxy), before);
  }

  lemma StoredSumsUp(clients: map<Client, seq<Time>>, proxies: map<nat, seq<Time>>, history: seq<Admission>, before: Time,
                     proxy: nat, addresses: seq<nat>, horizon: Time)
    requires AllKept(clients, proxies, history, before) && before <= horizon
    requires Distinct(addresses) && Covers(addresses, history, proxy)
    ensures Since(Entries(proxies, proxy), horizon) == StoredSum(clients, proxy, addresses, horizon)
  {
    hide *;
    KeptNow(clients, proxies, history, before, Client(proxy, 0));
    KeepsCounts(Entries(proxies, proxy), ProxyLog(history, proxy), before, horizon);
    StoredSumCounts(clients, proxies, history, proxy, addresses, before, horizon);
    HistoryIsSumOfClients(history, proxy, addresses, horizon);
  }

  /** In every state of the limiter a proxy's stored log is in order, and from any horizon in the
      window on it holds just the entries of the stored logs of its clients, each counted once: within
      the window it is the merge of these logs. */
  lemma ProxyIsMergeOfClients(l: ExternalRequestRateLimiter, proxy: nat, addresses: seq<nat>, horizon: Time)
    requires l.Valid() && l.clock - l.window <= horizon
    requires Distinct(addresses) && Covers(addresses, l.history, proxy)
    ensures Ordered(Entries(l.proxies, proxy))
    ensures forall a: nat :: Ordered(Entries(l.clients, Client(proxy, a)))
    ensures Since(Entries(l.proxies, proxy), horizon) == StoredSum(l.clients, proxy, addresses, horizon)
  {
    var before := l.clock - l.window;
    AdmittedOrdered(l.history, l.window, l.clientRequests, l.proxyRequests);
    hide Since, Entries, AllKept, Ordered, Admitted, Covers, Distinct, StoredSum;
    forall client: Client ensures Ordered(Entries(l.clients, client)) && Ordered(Entries(l.proxies, client.proxy)) {
      StoredInOrder(l.clients, l.proxies, l.history, before, client);
    }
    assert Ordered(Entries(l.proxies, Client(proxy, 0).proxy));
    StoredSumsUp(l.clients, l.proxies, l.history, before, proxy, addresses, horizon);
  }

  // ----- login attempts -------------------------------------------------------------------

  datatype LoginEvent = Attempt(address: nat, at: Time) | Cleared(address: nat)

  /** The attempts admitted since the address was last cleared. */
  function LoginLog(history: seq<LoginEvent>, address: nat): seq<Time> {
    if history == [] then []
    else
      var before := LoginLog(history[..|history| - 1], address);
      match history[|history| - 1]
      case Attempt(a, at) => if a == address then before + [at] else before
      case Cleared(a) => if a == address then [] else before
  }

  ghost predicate LogKept(entries: seq<Time>, log: seq<Time>, clock: Time, horizon: Time) {
    Keeps(entries, log, horizon) && Ordered(log) && UpTo(log, clock)
  }

  ghost predicate LoginsKept(entries: map<nat, seq<Time>>, history: seq<LoginEvent>, clock: Time, horizon: Time) {
    forall a: nat :: LogKept(Entries(entries, a), LoginLog(history, a), clock, horizon)
  }

  lemma LoginKept(entries: map<nat, seq<Time>>, history: seq<LoginEvent>, clock: Time, horizon: Time, address: nat)
    requires LoginsKept(entries, history, clock, horizon)
    ensures Keeps(Entries(entries, address), LoginLog(history, address), horizon) && Ordered(LoginLog(history, address))
  {
    assert LogKept(Entries(entries, address), LoginLog(history, address), clock, horizon);
  }

  lemma LoginOneMore(history: seq<LoginEvent>, address: nat, now: Time, a: nat)
    ensures LoginLog(history + [Attempt(address, now)], a) == LoginLog(history, a) + if a == address then [now] else []
    ensures LoginLog(history + [Cleared(address)], a) == if a == address then [] else LoginLog(history, a)
  {
    assert (history + [Attempt(address, now)])[..|history|] == history;
    assert (history + [Cleared(address)])[..|history|] == history;
  }

  /** Admitting or refusing an attempt keeps the entries in step with the history. */
  lemma LoginNext(entries: map<nat, seq<Time>>, history: seq<LoginEvent>, clock: Time, before: Time, now: Time, horizon: Time,
                  address: nat, kept: seq<Time>)
    requires LoginsKept(entries, history, clock, before) && clock <= now && before <= horizon
    requires Keeps(kept, LoginLog(history, address), horizon)
    ensures LoginsKept(entries[address := kept], history, now, horizon)
    ensures LoginsKept(entries[address := kept + [now]], history + [Attempt(address, now)], now, horizon)
  {
    hide LoginLog, LogKept, Keeps, Entries;
    forall a: nat
      ensures LogKept(Entries(entries[address := kept], a), LoginLog(history, a), now, horizon)
      ensures LogKept(Entries(entries[address := kept + [now]], a), LoginLog(history + [Attempt(address, now)], a), now, horizon)
    {
      LoginOneMore(history, address, now, a);
      assert LogKept(Entries(entries, a), LoginLog(history, a), clock, before);
      assert LoginLog(history, a) + [] == LoginLog(history, a);
      LogLater(Entries(entries, a), LoginLog(history, a), clock, before, now, horizon);
      EntriesAfter(entries, address, kept, a);
      EntriesAfter(entries, address, kept + [now], a);
      if a == address {
        LogGrows(Entries(entries, a), kept, LoginLog(history, a), now, horizon);
      }
    }
  }

  lemma ClearedKept(entries: map<nat, seq<Time>>, history: seq<LoginEvent>, clock: Time, horizon: Time, address: nat)
    requires LoginsKept(entries, history, clock, horizon)
    ensures LoginsKept(entries - {address}, history + [Cleared(address)], clock, horizon)
  {
    hide LoginLog, LogKept;
    forall a: nat
      ensures LogKept(Entries(entries - {address}, a), LoginLog(history + [Cleared(address)], a), clock, horizon)
    {
      LoginOneMore(history, address, clock, a);
      NothingKept(clock, horizon);
      assert LogKept(Entries(entries, a), LoginLog(history, a), clock, horizon);
    }
  }

  lemma NothingKept(clock: Time, horizon: Time)
    ensures LogKept([], [], clock, horizon)
  {
  }

  lemma EntriesAfter(entries: map<nat, seq<Time>>, address: nat, kept: seq<Time>, a: nat)
    ensures Entries(entries[address := kept], a) == if a == address then kept else Entries(entries, a)
  {
  }

  lemma LogLater(entries: seq<Time>, log: seq<Time>, clock: Time, before: Time, now: Time, horizon: Time)
    requires LogKept(entries, log, clock, before) && clock <= now && before <= horizon
    ensures LogKept(entries, log, now, horizon)
  {
  }

  lemma LogGrows(entries: seq<Time>, kept: seq<Time>, log: seq<Time>, now: Time, horizon: Time)
    requires LogKept(entries, log, now, horizon) && Keeps(kept, log, horizon)
    ensures LogKept(kept, log, now, horizon) && LogKept(kept + [now], log + [now], now, horizon)
  {
    KeepsMore(kept, log, horizon, now);
  }

  /** Each attempt was admissible when it was made. */
  predicate LoginsAdmitted(history: seq<LoginEvent>, window: Time, attempts: nat) {
    forall i :: 0 <= i < |history| && history[i].Attempt? ==>
      Since(LoginLog(history[..i], history[i].address), history[i].at - window) < attempts
  }

  lemma MoreLogins(history: seq<LoginEvent>, e: LoginEvent, window: Time, attempts: nat)
    requires LoginsAdmitted(history, window, attempts)
    requires e.Attempt? ==> Since(LoginLog(history, e.address), e.at - window) < attempts
    ensures LoginsAdmitted(history + [e], window, attempts)
  {
    hide Since, LoginLog;
    var after := history + [e];
    forall i | 0 <= i < |after| && after[i].Attempt?
      ensures Since(LoginLog(after[..i], after[i].address), after[i].at - window) < attempts
    {
      assert after[..i] == history[..i];
      if i == |history| {
        assert history[..i] == history;
      }
    }
  }

  /** Between two clears of an address, and so since the last one, no closed window holds more
      admitted attempts than the limit, wherever it begins. */
  lemma {:induction false} LoginWindowsBounded(history: seq<LoginEvent>, window: Time, attempts: nat, address: nat, from: Time)
    requires LoginsAdmitted(history, window, attempts)
    ensures Between(LoginLog(history, address), from, from + window) <= attempts
  {
    hide Since, Between;
    if history == [] {
      NoTimes(from, from + window);
    } else {
      var rest, last := history[..|history| - 1], history[|history| - 1];
      assert history == rest + [last];
      RestOfLogins(history, window, attempts);
      LoginWindowsBounded(rest, window, attempts, address, from);
      NoTimes(from, from + window);
      if last.Attempt? && last.address == address {
        GrowBounded(LoginLog(rest, address), last.at, from, window, attempts);
      }
    }
  }

  lemma NoTimes(from: Time, to: Time)
    ensures Between([], from, to) == 0
  {
  }

  lemma RestOfLogins(history: seq<LoginEvent>, window: Time, attempts: nat)
    requires LoginsAdmitted(history, window, attempts) && history != []
    ensures LoginsAdmitted(history[..|history| - 1], window, attempts)
    ensures var last := history[|history| - 1];
      last.Attempt? ==> Since(LoginLog(history[..|history| - 1], last.address), last.at - window) < attempts
  {
    hide Since, LoginLog;
    var rest := history[..|history| - 1];
    assert forall i :: 0 <= i < |rest| ==> rest[..i] == history[..i];
  }

  class LoginRateLimiter {
    const attempts: nat
    const window: Time
    var entries: map<nat, seq<Time>>
    ghost var history: seq<LoginEvent>
    ghost var clock: Time

    ghost predicate Valid()
      reads this
    {
      window >= 0.0 && LoginsKept(entries, history, clock, clock - window) && LoginsAdmitted(history, window, attempts)
    }

    constructor (attempts: nat, window: Time)
      requires window >= 0.0
      ensures Valid() && history == [] && this.attempts == attempts && this.window == window
    {
      this.attempts, this.window, entries, history, clock := attempts, window, map[], [], 0.0;
    }

    method Allow(address: nat, now: Time) returns (allowed: bool)
      requires Valid() && clock <= now
      modifies this
      ensures Valid()
      ensures allowed == (Since(LoginLog(old(history), address), now - window) < attempts)
      ensures history == if allowed then old(history) + [Attempt(address, now)] else old(history)
    {
      hide Keeps, Fresh, Since, LoginLog, LoginsKept, Entries, Ordered, LoginsAdmitted;
      var kept := Evict(Entries(entries, address), now - window);
      LoginKept(entries, history, clock, clock - window, address);
      KeepsMost(kept, Entries(entries, address), LoginLog(history, address), clock - window, now - window);
      FreshCounts(kept, LoginLog(history, address), now - window);
      allowed := |kept| < attempts;
      LoginNext(entries, history, clock, clock - window, now, now - window, address, kept);
      if allowed {
        MoreLogins(history, Attempt(address, now), window, attempts);
        kept := kept + [now];
        history := history + [Attempt(address, now)];
      }
      entries := entries[address := kept];
      clock := now;
    }

    method Clear(address: nat)
      requires Valid()
      modifies this
      ensures Valid() && history == old(history) + [Cleared(address)]
    {
      hide LoginLog, LoginsAdmitted, LoginsKept;
      MoreLogins(history, Cleared(address), window, attempts);
      ClearedKept(entries, history, clock, clock - window, address);
      entries := entries - {address};
      history := history + [Cleared(address)];
    }
  }
}
