# Coalescing translator: a Dafny model

This project models the core of a translation gateway, `MyTranslator` in
`cmd/translator/my_translator.go`. A request asks for a text to be
translated from one language into another. The answer comes from a slow,
unreliable HTTP backend, and the core puts three mechanisms around that call:

- a cache keyed by the request's byte encoding (`asBytes`);
- a table of in-flight requests (`inProgress`), so that concurrent requests for
  the same key share one fetch and all get its one result;
- a fetch with bounded exponential backoff (`fetchWithBackOff`). The retry
  delay starts at 1 second and doubles after each failure. The timeout starts
  at 1 second and grows by one second after each failure. Attempts continue
  while the delay is at most 8 seconds.

The model has five modules, one file each.

- `request.dfy` (`Request`): the request key, bytes, and the `from-to-data`
  encoding `AsBytes`. It proves that the encoding can be parsed back when the
  language tags contain no dash, and it exhibits two different requests with
  the same encoding.
- `backoff.dfy` (`Backoff`): the retry loop as an imperative method over an
  oracle `doFetch(url, timeout)`. The method returns the timeouts of the
  calls it made and the sleeps it took as logs. It is proved equal to a
  loop-free description `Run`, and `Run` is characterised by lemmas.
- `coalescing.dfy` (`Coalescing`): the invariant of the in-flight table,
  stated over values. It also proves that the two table updates of the source
  keep that invariant: adding a waiter, and detaching and serving a key's
  waiters.
- `translator.dfy` (`Translator`): `MyTranslator` as a class whose fields are
  the cache, the table and the set of running workers. Each step of the
  source that touches shared state is one atomic method: the unlocked cache
  lookup of `Translate` (`Lookup`), each locked region, and a whole worker. A goroutine started by `go t.worker(key)`
  is an entry of the multiset `workers`, and `Worker(key, …)` is that
  goroutine's run. A channel is a number (`Sink`). Sending a result on it is
  an entry of the map `delivered`, which `Receive` reads. Every method keeps
  `Valid()`, so any sequence of calls made under their preconditions keeps
  the coalescing invariant:
  - a key is in flight exactly when one worker for it is running;
  - its waiter list is then non-empty;
  - every sink handed out waits in exactly one place in one list, or has been
    served exactly once.
- `scenario.dfy` (`Scenario`): an end-to-end example and two runs that show
  corners of the code:
  - three requests for en → ja "cat" start one worker;
  - that worker's backend fails twice and then answers "猫";
  - all three callers receive "猫";
  - a fourth request is a cache hit;
  - a caller whose lookup misses just before the worker finishes starts a
    second worker although the text is then cached;
  - a request answered from the entry cached for a different request.

Three facts about the code shape the model:

- The backoff constants are hard-coded: the ceiling of 8 seconds
  (my_translator.go:18), and the first delay and the first timeout of 1 second
  (my_translator.go:84-85). The model keeps them as constants.
- The cache is keyed by `asBytes`, and language tags such as `ja-JP` contain
  its separator, so two different requests can share a cache entry
  (`Request.AsBytesCollision`, `Scenario.WrongCacheHit`). The model's cache is
  keyed exactly as the code's.
- `worker` has no guard against a fault in the fetch. The model's fetch
  cannot fault.

## Model

| member | source | states |
|---|---|---|
| Request.ParseAsBytes | cmd/translator/my_translator.go:25-27 | when neither language tag contains `-`, splitting the `from-to-data` encoding at its first two dashes gives back the request |
| Request.AsBytesInjective | cmd/translator/my_translator.go:25-27 | when no tag of either request contains `-`, two requests with equal encodings are the same request |
| Request.AsBytesCollision | cmd/translator/my_translator.go:20-27 | en→ja "JP-x" and en→ja-JP "x" are different requests with the same encoding `en-ja-JP-x`, so in general the encoding is not injective |
| Backoff.RetryDelays | cmd/translator/my_translator.go:84-100 | the delays the loop passes through from `d` on: non-empty exactly when `d <= 8`, starting at `d`, each the double of the one before, all between `d` and 8, and ending only where the next doubling passes 8 |
| Backoff.RetryDelaysArePowers | cmd/translator/my_translator.go:84-100 | starting from 1 second, the `i`-th retry delay (from 0) is `2^i` seconds |
| Backoff.RetryDelaysFromOne | cmd/translator/my_translator.go:18-18 | with the ceiling of 8 seconds, the delays are exactly 1, 2, 4, 8, which allows four attempts |
| Backoff.FirstSuccess | cmd/translator/my_translator.go:90-107 | the attempt that ends the loop: every attempt before it failed, and it succeeded unless it is the limit |
| Backoff.FetchWithBackOff | cmd/translator/my_translator.go:81-117 | the loop's result, the timeouts of its `doFetch` calls and its sleeps are exactly those of `Run`, the loop-free description of the retry schedule |
| Backoff.RunShape | cmd/translator/my_translator.go:84-115 | one to four calls; call `i` (from 0) uses timeout `i + 1`; after each failed call `i` the loop sleeps `2^i`; every call but the last failed; the result is a body exactly when the last call succeeded, and then it is that call's body unchanged |
| Backoff.AllAttemptsFail | cmd/translator/my_translator.go:94-113 | when all four calls fail: timeouts 1, 2, 3, 4, sleeps 1, 2, 4, 8 (one after the last failure too), and the error names the text and both languages |
| Backoff.FirstSuccessEndsRun | cmd/translator/my_translator.go:90-115 | when call `n` is the first to succeed: no later call is made, the sleeps are the first `n - 1` of 1, 2, 4, 8, and that call's body is returned with no error |
| Backoff.RunFailsIffAllFail | cmd/translator/my_translator.go:111-115 | the fetch fails exactly when all four attempts fail |
| Coalescing.EnqueueKeepsInv | cmd/translator/my_translator.go:143-160 | adding a fresh sink to the end of a key's list, and a worker when the key had no entry, keeps the coalescing invariant |
| Coalescing.WorkerKeepsInv | cmd/translator/my_translator.go:127-139 | removing a key's entry and its worker, and serving every detached sink the same result, keeps the coalescing invariant |
| Translator.Send | cmd/translator/my_translator.go:133-139 | the send loop serves every sink of the detached list the same result and changes no other sink |
| Translator.MyTranslator.constructor | cmd/translator/my_translator.go:49-57 | a new translator has an empty cache, no request in flight and keeps the url, formatter and expiry it was given |
| Translator.MyTranslator.Enqueue | cmd/translator/my_translator.go:143-160 | starts a worker exactly when the key has no entry; appends exactly one fresh, never-used sink to the end of the key's list; leaves every other key's list, the cache and all delivered results unchanged; keeps the invariant |
| Translator.MyTranslator.Worker | cmd/translator/my_translator.go:119-141 | fetches `url?formatter(key)` with backoff and returns its logs; writes the cache only when the fetch succeeded; removes the key's entry and worker; sends the same result once to each detached sink, none served before; no other key's entry changes |
| Translator.MyTranslator.Complete | cmd/translator/my_translator.go:122-139 | given the fetch's result: writes the cache only on success, then detaches and serves the key's waiters as `Release` does |
| Translator.MyTranslator.Release | cmd/translator/my_translator.go:127-139 | removes the key's entry and its worker and sends the result once to each sink of the detached list, none served before; no other key's entry changes |
| Translator.MyTranslator.CacheSet | cmd/translator/my_translator.go:124-124 | `cache.Set` stores the value under the key, replacing any earlier entry |
| Translator.MyTranslator.Expire | cmd/translator/my_translator.go:40-41 | the cache may forget any entries, as eviction and expiry do; nothing else changes and the invariant is kept |
| Translator.MyTranslator.Lookup | cmd/translator/my_translator.go:166-169 | `cache.Get` without the lock: a hit exactly when the request's key is cached, and then the cached text; nothing changes |
| Translator.MyTranslator.Translate | cmd/translator/my_translator.go:162-171 | on a cache hit answers with the cached text and no error and changes nothing; on a miss enqueues the request and waits on the fresh sink; never writes the cache; no other step runs between its lookup and its enqueue |
| Translator.MyTranslator.Receive | cmd/translator/my_translator.go:171-177 | what the caller returns once its sink is served: the body with no error on success, the empty text with the error on failure |
| Scenario.ThreeRequests | cmd/translator/my_translator.go:143-171 | three misses for one request on a fresh translator start exactly one worker and queue sinks 0, 1 and 2 in order |
| Scenario.ServeThree | cmd/translator/my_translator.go:119-141 | the one worker, against a backend that fails twice then answers "猫": three attempts with timeouts 1, 2, 3 and sleeps 1, 2; "猫" is cached and sent once to each of sinks 0, 1, 2 |
| Scenario.CoalescedRun | cmd/translator/my_translator.go:119-177 | with a backend that fails twice then answers "猫": three attempts with timeouts 1, 2, 3 and sleeps 1, 2; all three callers get "猫" with no error; a fourth request is answered from the cache |

| Scenario.LateEnqueue | cmd/translator/my_translator.go:119-171 | a lookup that misses while the worker runs, followed by the worker's cache write and detach, leads the caller's enqueue to start a second worker for a key that is cached |
| Scenario.WrongCacheHit | cmd/translator/my_translator.go:25-27 | after en→ja-JP "x" is fetched and cached, a request for en→ja "JP-x" is answered from the cache with that translation |

## Left out

- `doFetch` (cmd/translator/my_translator.go:59-79) does HTTP I/O. It is the oracle parameter `doFetch(url, timeout)`. The timeouts within one fetch are all different, so this oracle can describe any behaviour of the backend during that fetch.
- `log.Printf` and the real waiting of `time.Sleep` are not modelled. Each sleep is recorded in the `sleeps` log, and the log line's contents are not modelled.
- Error values carry only the three fields the error message names. The message formatting and the wrapped `doFetch` errors are not modelled.
- The freecache library's internals are not modelled: its byte budget `cacheSizeBytes`, its eviction and its per-entry lifetime `cacheEntryExpireSec`. The cache is the map of what freecache currently holds. `Expire` may drop any entries at any time, and no claim is made that a `Get` after a `Set` hits.
- Real concurrency is not modelled: goroutine scheduling, the mutex and unbuffered channel blocking. Each locked region, the unlocked cache lookup and each whole worker is one atomic method. Every run of the source is a sequence of these calls; the converse is not claimed, since the preconditions also admit calls the source never makes (`CacheSet`, `Complete` or `Release` on their own, `Receive` twice on one sink).
- Translator.MyTranslator.Translate: it runs its lookup and its enqueue with nothing in between. In the source other steps can run between `cache.Get` (my_translator.go:166) and the enqueue (my_translator.go:171). A run with such steps is modelled by calling `Lookup` and `Enqueue` separately, as `Scenario.LateEnqueue` does.
- Translator.MyTranslator.Release: the source unlocks the table before its send loop. A request arriving between the unlock and the sends could start a second worker during the sends. The model performs the detach and the sends as one step, so that interleaving is not modelled.
- The `ctx` parameter of `Translate` is unused by the source, so it is not a parameter of the model.
- The source's `Translate` blocks on its sink. The model splits it in two: `Translate` stops at the receive, and `Receive` is the rest of it, which requires that the sink has been served.
- Language tags are their printed text (`%s`). Tag parsing and canonicalisation are not modelled.
- The bootstrap files `cmd/translator/main.go` and `cmd/translator/service.go` are not part of this model. The test backend `test_server/server.py` is not part of this model.
