/**
 Whole runs of the translator. In the first, three concurrent requests for
 the same text share one worker, whose backend fails twice and then answers;
 all three get the same answer, and a later request is answered from the
 cache. The other two show a second worker started for a cached key, and a
 request answered with the text cached for a different request.
 */
module Scenario {
  import opened Request
  import opened Backoff
  import opened Coalescing
  import opened Translator

  const EN: Tag := [101, 110]
  const JA: Tag := [106, 97]
  /** "cat" */
  const CAT: Bytes := [99, 97, 116]
  /** "猫" in UTF-8 */
  const NEKO: Bytes := [231, 140, 171]

  /** The backend's address, "http". */
  const BACKEND: Bytes := [104, 116, 116, 112]

  /** "ja-JP" */
  const JA_JP: Tag := [106, 97, 45, 74, 80]

  /** A backend that times out on the first two attempts and answers on the third. */
  function FlakyBackend(): Fetcher
  {
    (url: Bytes, timeout: nat) => if timeout == 3 then Fetched(NEKO) else FetchFailed
  }

  /** The request of the run: "cat" from en to ja. */
  function CatRequest(): RequestKey
  {
    RequestKey(EN, JA, CAT)
  }

  /**
   Three `Translate` calls for en → ja "cat" on a fresh translator: none finds
   the text in the cache, a single worker is started, and the three callers
   wait on sinks 0, 1 and 2 of the request's list.
   */
  method ThreeRequests() returns (t: MyTranslator, c1: Call, c2: Call, c3: Call)
    ensures fresh(t) && t.Valid()
    ensures t.url + [63] + t.formatter(CatRequest()) == BACKEND + [63] + CAT
    ensures t.cache == map[] && t.delivered == map[]
    ensures t.inProgress == map[CatRequest() := [0, 1, 2]]
    ensures t.workers == multiset{CatRequest()}
    ensures c1 == Waiting(0) && c2 == Waiting(1) && c3 == Waiting(2)
  {
    var key := CatRequest();
    t := new MyTranslator(BACKEND, (k: RequestKey) => k.data, 1, 0);
    c1 := t.Translate(EN, JA, CAT);
    assert Waiters(map[], key) + [0] == [0];
    assert c1.sink == 0 && t.inProgress == map[key := [0]];
    c2 := t.Translate(EN, JA, CAT);
    assert [0] + [1] == [0, 1];
    assert c2.sink == 1 && t.inProgress == map[key := [0, 1]];
    c3 := t.Translate(EN, JA, CAT);
    assert [0, 1] + [2] == [0, 1, 2];
    assert c3.sink == 2 && t.inProgress == map[key := [0, 1, 2]];
  }

  /**
   The one worker of the run: its fetch makes three attempts, with timeouts of
   1, 2 and 3 seconds and sleeps of 1 and 2 seconds between them; then "猫"
   is cached and sent to sinks 0, 1 and 2.
   */
  method ServeThree(t: MyTranslator) returns (attempts: seq<nat>, sleeps: seq<nat>)
    requires t.Valid()
    requires t.url + [63] + t.formatter(CatRequest()) == BACKEND + [63] + CAT
    requires t.cache == map[] && t.delivered == map[]
    requires t.inProgress == map[CatRequest() := [0, 1, 2]]
    requires t.workers == multiset{CatRequest()}
    modifies t
    ensures t.Valid()
    ensures attempts == [1, 2, 3] && sleeps == [1, 2]
    ensures t.cache == map[AsBytes(CatRequest()) := NEKO]
    ensures t.delivered == map[0 := Ok(NEKO), 1 := Ok(NEKO), 2 := Ok(NEKO)]
    ensures t.inProgress == map[] && t.workers == multiset{}
  {
    var key := CatRequest();
    var url := t.url + [63] + t.formatter(key);
    FirstSuccessEndsRun(url, key, FlakyBackend(), 3);
    assert Timeouts(3) == [1, 2, 3] && [1, 2, 4, 8][..2] == [1, 2];
    assert Run(url, key, FlakyBackend()) == FetchRun(Ok(NEKO), [1, 2, 3], [1, 2]);
    assert t.inProgress - {key} == map[] && t.workers - multiset{key} == multiset{};
    attempts, sleeps := t.Worker(key, FlakyBackend());
  }

  /**
   The whole run: the one worker's fetch makes three attempts, every one of
   the three callers receives "猫" with no error, and a fourth call is then
   answered from the cache.
   */
  method CoalescedRun() returns (attempts: seq<nat>, sleeps: seq<nat>, texts: seq<Bytes>,
                                 errs: seq<Option<TranslateError>>, fourth: Call)
    ensures attempts == [1, 2, 3] && sleeps == [1, 2]
    ensures texts == [NEKO, NEKO, NEKO]
    ensures errs == [None, None, None]
    ensures fourth == Answered(NEKO, None)
  {
    var t, c1, c2, c3 := ThreeRequests();
    attempts, sleeps := ServeThree(t);
    var x1, e1 := t.Receive(c1.sink);
    var x2, e2 := t.Receive(c2.sink);
    var x3, e3 := t.Receive(c3.sink);
    texts, errs := [x1, x2, x3], [e1, e2, e3];
    fourth := t.Translate(EN, JA, CAT);
  }

  /**
   The window between the lookup and the enqueue of `Translate`: a fourth
   caller misses the cache while the worker runs; the worker then caches "猫"
   and removes the entry; so the fourth caller's enqueue starts a second
   worker although the text is cached.
   */
  method LateEnqueue() returns (hit: Option<Bytes>, cachedAtEnqueue: bool, workers: multiset<RequestKey>)
    ensures hit == None
    ensures cachedAtEnqueue
    ensures workers == multiset{CatRequest()}
  {
    var t, c1, c2, c3 := ThreeRequests();
    hit := t.Lookup(CatRequest());
    var attempts, sleeps := ServeThree(t);
    cachedAtEnqueue := AsBytes(CatRequest()) in t.cache;
    var sink := t.Enqueue(CatRequest());
    workers := t.workers;
  }

  /** A backend that answers every call with `text`. */
  function Answering(text: Bytes): Fetcher
  {
    (url: Bytes, timeout: nat) => Fetched(text)
  }

  /**
   Two requests that share a cache key: once "x" from en to ja-JP has been
   translated (as `translation`) and cached, a request for "JP-x" from en to ja
   is answered from the cache with that same text.
   */
  method WrongCacheHit(translation: Bytes) returns (answer: Call)
    ensures answer == Answered(translation, None)
  {
    var t := new MyTranslator(BACKEND, (k: RequestKey) => k.data, 1, 0);
    var first := RequestKey(EN, JA_JP, [120]);
    var c := t.Translate(EN, JA_JP, [120]);
    var url := t.url + [63] + t.formatter(first);
    FirstSuccessEndsRun(url, first, Answering(translation), 1);
    var attempts, sleeps := t.Worker(first, Answering(translation));
    AsBytesCollision();
    assert AsBytes(RequestKey(EN, JA, [74, 80, 45, 120])) == AsBytes(first);
    answer := t.Translate(EN, JA, [74, 80, 45, 120]);
  }
}
