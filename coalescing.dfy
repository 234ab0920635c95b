/**
 The invariant of the in-flight table of the translator, stated over the values
 of its fields, and the two table updates of the source proved to keep it:
 adding a waiter (`enqueue`) and detaching and serving a key's waiters (the end
 of `worker`).
 */
module Coalescing {
  import opened Request
  import opened Backoff

  /** A one-shot result channel, identified by the order in which it was made. */
  type Sink = nat

  /** The waiters recorded for `key`, the empty list when it has no entry (Go's nil slice). */
  function Waiters(inProgress: map<RequestKey, seq<Sink>>, key: RequestKey): seq<Sink>
  {
    if key in inProgress then inProgress[key] else []
  }

  /** The sinks of a waiter list, as a set. */
  function SinksOf(l: seq<Sink>): set<Sink>
  {
    set s | s in l
  }

  /** `delivered` once every sink of `l` has also been sent `res`. */
  function Served(delivered: map<Sink, FetchResult>, l: seq<Sink>, res: FetchResult): map<Sink, FetchResult>
  {
    delivered + map s | s in l :: res
  }

  /** Where a waiting sink sits: in the list of `key`, at position `index`. */
  datatype Slot = Slot(key: RequestKey, index: nat)

  /** A key is in flight exactly when one worker for it is running. */
  ghost predicate OneWorkerPerKey(inProgress: map<RequestKey, seq<Sink>>, workers: multiset<RequestKey>)
  {
    && (forall k :: k in inProgress <==> k in workers)
    && (forall k :: k in workers ==> workers[k] == 1)
  }

  /**
   Every waiter list is non-empty, and `waiting` is exactly the inverse of the
   lists: each position of each list holds a different sink, recorded with
   that position. So no sink is in two lists, or twice in one.
   */
  ghost predicate ListsOwned(inProgress: map<RequestKey, seq<Sink>>, waiting: map<Sink, Slot>)
  {
    && (forall k :: k in inProgress ==> inProgress[k] != [])
    && (forall k, i :: k in inProgress && 0 <= i < |inProgress[k]| ==>
          inProgress[k][i] in waiting && waiting[inProgress[k][i]] == Slot(k, i))
    && (forall s :: s in waiting ==>
          && waiting[s].key in inProgress
          && waiting[s].index < |inProgress[waiting[s].key]|
          && inProgress[waiting[s].key][waiting[s].index] == s)
  }

  /** Every sink made so far either waits or has been served, never both. */
  ghost predicate SinksAccounted(waiting: map<Sink, Slot>, delivered: map<Sink, FetchResult>, nextSink: Sink)
  {
    && (forall s :: s in waiting ==> s < nextSink && s !in delivered)
    && (forall s :: s in delivered ==> s < nextSink)
    && (forall s: nat :: s < nextSink ==> s in waiting || s in delivered)
  }

  ghost predicate Inv(inProgress: map<RequestKey, seq<Sink>>, workers: multiset<RequestKey>,
                      waiting: map<Sink, Slot>, delivered: map<Sink, FetchResult>, nextSink: Sink)
  {
    && OneWorkerPerKey(inProgress, workers)
    && ListsOwned(inProgress, waiting)
    && SinksAccounted(waiting, delivered, nextSink)
  }

  /**
   `enqueue` keeps the invariant: the key gets a worker when it had none, and
   the fresh sink `nextSink` goes to the end of its list.
   */
  lemma EnqueueKeepsInv(inProgress: map<RequestKey, seq<Sink>>, workers: multiset<RequestKey>,
                        waiting: map<Sink, Slot>, delivered: map<Sink, FetchResult>, nextSink: Sink,
                        key: RequestKey)
    requires Inv(inProgress, workers, waiting, delivered, nextSink)
    ensures Inv(inProgress[key := Waiters(inProgress, key) + [nextSink]],
                if key in inProgress then workers else workers + multiset{key},
                waiting[nextSink := Slot(key, |Waiters(inProgress, key)|)], delivered, nextSink + 1)
  {
    var before := Waiters(inProgress, key);
    var ip := inProgress[key := before + [nextSink]];
    var wt := waiting[nextSink := Slot(key, |before|)];
    forall k, i | k in ip && 0 <= i < |ip[k]|
      ensures ip[k][i] in wt && wt[ip[k][i]] == Slot(k, i)
    {
      if k != key || i < |before| {
        assert ip[k][i] == inProgress[k][i];
      }
    }
    assert ListsOwned(ip, wt);
  }

  /**
   The end of `worker` keeps the invariant: the key's entry and its worker go,
   and every sink of the detached list is served `res`.
   */
  lemma WorkerKeepsInv(inProgress: map<RequestKey, seq<Sink>>, workers: multiset<RequestKey>,
                       waiting: map<Sink, Slot>, delivered: map<Sink, FetchResult>, nextSink: Sink,
                       key: RequestKey, res: FetchResult)
    requires Inv(inProgress, workers, waiting, delivered, nextSink)
    requires key in workers
    ensures var detached := Waiters(inProgress, key);
      Inv(inProgress - {key}, workers - multiset{key},
          waiting - SinksOf(detached), Served(delivered, detached, res), nextSink)
  {
    var detached := inProgress[key];
    var ip := inProgress - {key};
    var gone := SinksOf(detached);
    var wt := waiting - gone;
    forall s | s in gone
      ensures s in waiting && waiting[s].key == key
    {
      var i :| 0 <= i < |detached| && detached[i] == s;
    }
    forall k, i | k in ip && 0 <= i < |ip[k]|
      ensures ip[k][i] in wt && wt[ip[k][i]] == Slot(k, i)
    {
      assert ip[k][i] == inProgress[k][i];
    }
    assert ListsOwned(ip, wt);
    assert SinksAccounted(wt, Served(delivered, detached, res), nextSink);
  }
}
