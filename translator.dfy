/**
 The coalescing translator (`MyTranslator`): a cache in front of the backoff
 fetch, and a table of in-flight requests so that concurrent requests for the
 same key share one fetch.

 Each step of the source that touches shared state is one method here, run
 atomically: `Lookup` (the `cache.Get` of `Translate`, taken without the
 lock), `Enqueue` (the locked region of `enqueue`), `Worker` (a whole
 `worker` goroutine: its fetch touches no shared state), `Receive` (the
 receive from a sink, once per sink) and `Expire` (freecache forgetting
 entries). A spawned goroutine is an entry of the multiset `workers`, and
 sending a result on a sink is an entry of `delivered`. Every interleaving of
 these steps that the source allows, with `Worker` called for a key in
 `workers`, is a sequence of these calls, each under its precondition, so
 the invariant `Valid()` holds all along every run of the source. The
 converse is not claimed: the preconditions also admit calls the source never
 makes, such as `CacheSet`, `Complete` or `Release` on their own.
 `Translate` is `Lookup` directly followed by `Enqueue`; a run in which
 other steps come between the two is written as the two calls.
 */
module Translator {
  import opened Request
  import opened Backoff
  import opened Coalescing

  /** What a `Translate` call has got so far: an answer, or the sink it blocks on. */
  datatype Call = Answered(text: Bytes, err: Option<TranslateError>) | Waiting(sink: Sink)

  /**
   The send loop of `worker`: each sink of `consumers`, in order, is sent
   `res`; `delivered` records what every sink has received.
   */
  method Send(delivered: map<Sink, FetchResult>, consumers: seq<Sink>, res: FetchResult)
    returns (sent: map<Sink, FetchResult>)
    ensures sent == Served(delivered, consumers, res)
  {
    sent := delivered;
    for i := 0 to |consumers|
      invariant sent == delivered + map s | s in consumers[..i] :: res
    {
      sent := sent[consumers[i] := res];
    }
    assert consumers[..|consumers|] == consumers;
  }

  class MyTranslator {
    const url: Bytes
    const formatter: RequestKey -> Bytes
    const cacheEntryExpireSec: int

    /** What the cache currently holds, by `AsBytes` of the request. */
    var cache: map<Bytes, Bytes>
    /** The in-flight requests, each with its waiters in the order they came. */
    var inProgress: map<RequestKey, seq<Sink>>
    /** Worker goroutines started and not yet finished, by key. */
    var workers: multiset<RequestKey>
    /** The next sink to be made; every smaller number has been handed out. */
    var nextSink: Sink
    /** The result sent on each sink that has been served. */
    var delivered: map<Sink, FetchResult>
    /** Where each unserved sink waits: its key, and its position in that key's list. */
    ghost var waiting: map<Sink, Slot>

    /**
     The coalescing invariant: a key is in flight exactly when one worker for
     it runs, and then it has at least one waiter; every sink handed out is
     either waiting in exactly one list or has been served, never both.
     */
    ghost predicate Valid()
      reads this`inProgress, this`workers, this`waiting, this`delivered, this`nextSink
    {
      Inv(inProgress, workers, waiting, delivered, nextSink)
    }

    /** `newTranslator`: an empty cache and no request in flight. */
    constructor (url: Bytes, formatter: RequestKey -> Bytes, cacheSizeBytes: int, cacheEntryExpireSec: int)
      ensures Valid()
      ensures this.url == url && this.formatter == formatter
      ensures this.cacheEntryExpireSec == cacheEntryExpireSec
      ensures cache == map[] && inProgress == map[] && workers == multiset{}
      ensures nextSink == 0 && delivered == map[]
    {
      this.url := url;
      this.formatter := formatter;
      this.cacheEntryExpireSec := cacheEntryExpireSec;
      cache := map[];
      inProgress := map[];
      workers := multiset{};
      nextSink := 0;
      delivered := map[];
      waiting := map[];
    }

    /**
     `enqueue`: starts a worker for `key` exactly when `key` is not in flight,
     and appends one fresh sink to the end of its waiters; no other key's
     waiters change.
     */
    method Enqueue(key: RequestKey) returns (sink: Sink)
      requires Valid()
      modifies this
      ensures Valid()
      ensures sink == old(nextSink) && nextSink == old(nextSink) + 1
      ensures sink !in old(waiting) && sink !in old(delivered)
      ensures workers == if key in old(inProgress) then old(workers) else old(workers) + multiset{key}
      ensures inProgress == old(inProgress)[key := Waiters(old(inProgress), key) + [sink]]
      ensures waiting == old(waiting)[sink := Slot(key, |Waiters(old(inProgress), key)|)]
      ensures cache == old(cache) && delivered == old(delivered)
    {
      // a worker is started only for a key with no entry yet
      sink := nextSink;
      var spawned := if key in inProgress then workers else workers + multiset{key};
      var waiters := inProgress[key := Waiters(inProgress, key) + [sink]];
      ghost var waiting' := waiting[sink := Slot(key, |Waiters(inProgress, key)|)];
      EnqueueKeepsInv(inProgress, workers, waiting, delivered, nextSink, key);
      assert Inv(waiters, spawned, waiting', delivered, nextSink + 1);
      inProgress, workers, waiting, nextSink := waiters, spawned, waiting', nextSink + 1;
    }

    /**
     `worker`: fetches with backoff, then completes with the fetch's result.
     The timeouts of its `doFetch` calls and its sleeps are returned as logs.
     */
    method Worker(key: RequestKey, doFetch: Fetcher) returns (timeouts: seq<nat>, sleeps: seq<nat>)
      requires Valid()
      requires key in workers
      modifies this
      ensures Valid()
      ensures var run := Run(url + [63] + formatter(key), key, doFetch);
        && timeouts == run.timeouts && sleeps == run.sleeps
        && cache == (if run.result.Ok? then old(cache)[AsBytes(key) := run.result.body] else old(cache))
        && delivered == Served(old(delivered), old(Waiters(inProgress, key)), run.result)
      ensures forall s :: s in old(Waiters(inProgress, key)) ==> s !in old(delivered)
      ensures inProgress == old(inProgress) - {key}
      ensures workers == old(workers) - multiset{key}
      ensures nextSink == old(nextSink)
    {
      var resp;
      resp, timeouts, sleeps := FetchWithBackOff(url + [63] + formatter(key), key, doFetch);
      Complete(key, resp);
    }

    /**
     The part of `worker` after its fetch: writes the cache only when the fetch
     succeeded; removes the key's entry; and sends the same result once to each
     of the detached waiters, none of which had been served before. No other
     key's entry changes.
     */
    method Complete(key: RequestKey, resp: FetchResult)
      requires Valid()
      requires key in workers
      modifies this
      ensures Valid()
      ensures cache == (if resp.Ok? then old(cache)[AsBytes(key) := resp.body] else old(cache))
      ensures delivered == Served(old(delivered), old(Waiters(inProgress, key)), resp)
      ensures forall s :: s in old(Waiters(inProgress, key)) ==> s !in old(delivered)
      ensures inProgress == old(inProgress) - {key}
      ensures workers == old(workers) - multiset{key}
      ensures nextSink == old(nextSink)
    {
      if resp.Ok? {
        CacheSet(AsBytes(key), resp.body);
      }
      Release(key, resp);
    }

    /**
     The locked region at the end of `worker`: the key's entry is removed and
     every waiter of the detached list, none of which had been served before,
     is sent `resp` once.
     */
    method Release(key: RequestKey, resp: FetchResult)
      requires Valid()
      requires key in workers
      modifies this`inProgress, this`workers, this`waiting, this`delivered
      ensures Valid()
      ensures delivered == Served(old(delivered), old(Waiters(inProgress, key)), resp)
      ensures forall s :: s in old(Waiters(inProgress, key)) ==> s !in old(delivered)
      ensures inProgress == old(inProgress) - {key}
      ensures workers == old(workers) - multiset{key}
    {
      var consumers := Waiters(inProgress, key);
      WorkerKeepsInv(inProgress, workers, waiting, delivered, nextSink, key, resp);
      var sent := Send(delivered, consumers, resp);
      inProgress, workers, waiting, delivered :=
        inProgress - {key}, workers - multiset{key}, waiting - SinksOf(consumers), sent;
    }

    /** `cache.Set`: stores `value` under `k`, replacing any earlier entry. */
    method CacheSet(k: Bytes, value: Bytes)
      modifies this`cache
      ensures cache == old(cache)[k := value]
    {
      cache := cache[k := value];
    }

    /**
     freecache may drop any entry at any time (its byte budget is full, or the
     entry's lifetime has passed): the entries under `keys` are forgotten.
     */
    method Expire(keys: set<Bytes>)
      requires Valid()
      modifies this
      ensures Valid()
      ensures cache == old(cache) - keys
      ensures inProgress == old(inProgress) && workers == old(workers)
      ensures nextSink == old(nextSink) && delivered == old(delivered)
    {
      cache := cache - keys;
    }

    /** `cache.Get`, taken without the lock: the cached text of the request, if there is one. */
    method Lookup(key: RequestKey) returns (hit: Option<Bytes>)
      ensures hit.Some? <==> AsBytes(key) in cache
      ensures hit.Some? ==> hit.value == cache[AsBytes(key)]
    {
      if AsBytes(key) in cache {
        return Some(cache[AsBytes(key)]);
      }
      return None;
    }

    /**
     `Translate` up to its receive, with no other step between its lookup and
     its enqueue: a cache hit answers at once with the cached text and changes
     nothing; a miss enqueues the request and waits on the fresh sink.
     */
    method Translate(from: Tag, to: Tag, data: Bytes) returns (call: Call)
      requires Valid()
      modifies this
      ensures Valid()
      ensures var key := RequestKey(from, to, data);
        if AsBytes(key) in old(cache) then
          && call == Answered(old(cache)[AsBytes(key)], None)
          && inProgress == old(inProgress) && workers == old(workers)
          && nextSink == old(nextSink) && delivered == old(delivered)
        else
          && call == Waiting(old(nextSink)) && nextSink == old(nextSink) + 1
          && workers == (if key in old(inProgress) then old(workers) else old(workers) + multiset{key})
          && inProgress == old(inProgress)[key := Waiters(old(inProgress), key) + [call.sink]]
          && delivered == old(delivered)
      ensures cache == old(cache)
    {
      var key := RequestKey(from, to, data);
      var hit := Lookup(key);
      if hit.Some? {
        return Answered(hit.value, None);
      }
      var sink := Enqueue(key);
      call := Waiting(sink);
    }

    /**
     The rest of `Translate`: once its sink has been served, the body on
     success, or the empty text with the error on failure.
     */
    method Receive(sink: Sink) returns (text: Bytes, err: Option<TranslateError>)
      requires sink in delivered
      ensures delivered[sink].Ok? ==> text == delivered[sink].body && err == None
      ensures delivered[sink].Err? ==> text == [] && err == Some(delivered[sink].error)
    {
      var r := delivered[sink];
      if r.Err? {
        return [], Some(r.error);
      }
      return r.body, None;
    }
  }
}
