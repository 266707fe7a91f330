/**
 * The request coordinator of `create_asx_report` in src/asx_mcp/server.py: a cache of recent
 * results, a cache of recent failures and the table of in-flight executions, all keyed by
 * the request key.
 *
 * A call is modelled as two atomic steps: admission (prune both caches, answer from the
 * result cache, refuse after a recent failure, attach to the execution in flight, or start
 * one) and, for the caller that started the execution, its completion (success or failure).
 * An execution is named by a task number. Times are integers.
 */
module Coordinator {
  import opened Text

  /** A result dictionary, as `run_asx_report` returns it. */
  type Dict = map<string, string>

  /** A cache entry: the time it was stored and its value. */
  datatype Stamped<T> = Stamped(at: int, value: T)

  type Cache<T> = map<string, Stamped<T>>

  // ---------------------------------------------------------------------------------------
  // Pruning

  /** `_prune_cache` on one cache: with a positive window, drop entries older than twice it; else clear it. */
  function Pruned<T>(cache: Cache<T>, now: int, window: int): (r: Cache<T>)
    ensures forall k :: k in r <==> k in cache && window > 0 && now - cache[k].at <= 2 * window
    ensures forall k :: k in r ==> r[k] == cache[k]
  {
    if window > 0 then map k | k in cache && now - cache[k].at <= 2 * window :: cache[k] else map[]
  }

  /** The loop of `_prune_cache`: visit every key once and pop the stale ones. */
  method PruneEntries<T>(cache: Cache<T>, now: int, window: int) returns (r: Cache<T>)
    ensures r == Pruned(cache, now, window)
  {
    if window <= 0 {
      return map[];
    }
    r := cache;
    var keys := cache.Keys;
    while keys != {}
      invariant keys <= cache.Keys
      invariant forall k :: k in r <==> k in cache && (k in keys || now - cache[k].at <= 2 * window)
      invariant forall k :: k in r ==> r[k] == cache[k]
      decreases |keys|
    {
      var k :| k in keys;
      if now - cache[k].at > 2 * window {
        r := r - {k};
      }
      keys := keys - {k};
    }
    assert r.Keys == Pruned(cache, now, window).Keys;
  }

  // ---------------------------------------------------------------------------------------
  // Answers

  /** `{**result, "deduplicated": ..., "dedupe_reason": ..., "dedupe_window_seconds": str(window)}`. */
  function Annotated(result: Dict, deduplicated: string, reason: string, window: nat): (r: Dict)
    ensures r.Keys == result.Keys + {"deduplicated", "dedupe_reason", "dedupe_window_seconds"}
    ensures r["deduplicated"] == deduplicated && r["dedupe_reason"] == reason
    ensures r["dedupe_window_seconds"] == IntToString(window)
  {
    result + map["deduplicated" := deduplicated, "dedupe_reason" := reason,
                 "dedupe_window_seconds" := IntToString(window)]
  }

  const SuppressedPrefix := "Skipped duplicate retry after recent failure: "
  const FailedPrefix := "Failed to create Yahoo chart report: "

  /** What admission decides for a call. */
  datatype Admission =
    | CacheHit(result: Dict)      // the cached result, annotated `recent-cache`
    | Suppressed(message: string) // the `AsxReportError` raised after a recent failure
    | Attach(task: nat)           // await the execution already in flight
    | Start(task: nat)            // start an execution and own it

  /** The keys `Annotated` adds to a result. */
  const DedupeFields: set<string> := {"deduplicated", "dedupe_reason", "dedupe_window_seconds"}

  /** What the owner of a successful execution returns. */
  function OwnerResult(result: Dict, window: nat): (r: Dict)
    ensures r.Keys == result.Keys + DedupeFields
    ensures r["deduplicated"] == "false" && r["dedupe_reason"] == "none"
    ensures forall k :: k in result && k !in DedupeFields ==> r[k] == result[k]
  {
    Annotated(result, "false", "none", window)
  }

  /** What a caller attached to a successful execution returns. */
  function AttachedResult(result: Dict, window: nat): (r: Dict)
    ensures r.Keys == result.Keys + DedupeFields
    ensures r["deduplicated"] == "true" && r["dedupe_reason"] == "in-flight"
    ensures forall k :: k in result && k !in DedupeFields ==> r[k] == result[k]
  {
    Annotated(result, "true", "in-flight", window)
  }

  /** What every caller of a failed execution raises: `f"Failed to create Yahoo chart report: {exc}"`. */
  function FailureMessage(message: string): (r: string)
    ensures StartsWith(r, FailedPrefix) && r[|FailedPrefix|..] == message
  {
    FailedPrefix + message
  }

  // ---------------------------------------------------------------------------------------
  // The state and its steps

  /** `_RECENT_RESULTS`, `_RECENT_ERRORS`, `_IN_FLIGHT` and the next task number. */
  datatype Caches = Caches(results: Cache<Dict>, errors: Cache<string>, inFlight: map<string, nat>, nextTask: nat)

  /** Every execution in flight has been started, and no two keys share one. */
  predicate Valid(c: Caches) {
    (forall k :: k in c.inFlight ==> c.inFlight[k] < c.nextTask)
    && (forall k, k' :: k in c.inFlight && k' in c.inFlight && k != k' ==> c.inFlight[k] != c.inFlight[k'])
  }

  /** The checks of `create_asx_report` on pruned caches, in order. */
  function Decide(c: Caches, key: string, now: int, successWindow: nat, errorWindow: nat): (a: Admission)
    ensures a.CacheHit? ==> successWindow > 0 && key in c.results && now - c.results[key].at <= successWindow
    ensures a.Suppressed? ==> errorWindow > 0 && key in c.errors && StartsWith(a.message, SuppressedPrefix)
    ensures a.Attach? <==> (a.Attach? || a.Start?) && key in c.inFlight
    ensures a.Attach? ==> a.task == c.inFlight[key]
    ensures a.Start? ==> key !in c.inFlight && a.task == c.nextTask
  {
    if successWindow > 0 && key in c.results && now - c.results[key].at <= successWindow then
      CacheHit(Annotated(c.results[key].value, "true", "recent-cache", successWindow))
    else if errorWindow > 0 && key in c.errors && now - c.errors[key].at <= errorWindow then
      Suppressed(SuppressedPrefix + c.errors[key].value)
    else if key in c.inFlight then Attach(c.inFlight[key])
    else Start(c.nextTask)
  }

  /** Admission: prune both caches, decide, and register a started execution. */
  function Admitted(c: Caches, key: string, now: int, successWindow: nat, errorWindow: nat): (r: (Caches, Admission))
    ensures r.1.Start? ==> key !in c.inFlight && r.1.task == c.nextTask
    ensures r.1.Start? ==> key in r.0.inFlight && r.0.inFlight[key] == r.1.task && r.1.task < r.0.nextTask
    ensures !r.1.Start? ==> r.0.inFlight == c.inFlight && r.0.nextTask == c.nextTask
  {
    var pruned := c.(results := Pruned(c.results, now, successWindow), errors := Pruned(c.errors, now, errorWindow));
    var a := Decide(pruned, key, now, successWindow, errorWindow);
    if a.Start? then (pruned.(inFlight := pruned.inFlight[key := a.task], nextTask := a.task + 1), a)
    else (pruned, a)
  }

  /** The owner's bookkeeping after success: leave the table, forget the failure, cache the result. */
  function Succeeded(c: Caches, key: string, result: Dict, now: int): (r: Caches)
    ensures key !in r.inFlight && key !in r.errors && key in r.results && r.results[key] == Stamped(now, result)
  {
    Caches(c.results[key := Stamped(now, result)], c.errors - {key}, c.inFlight - {key}, c.nextTask)
  }

  /** The owner's bookkeeping after failure: leave the table and cache the message. */
  function Failed(c: Caches, key: string, message: string, now: int): (r: Caches)
    ensures key !in r.inFlight && key in r.errors && r.errors[key] == Stamped(now, message)
    ensures r.results == c.results
  {
    c.(errors := c.errors[key := Stamped(now, message)], inFlight := c.inFlight - {key})
  }

  /** The coordinator starts empty, which is a valid state. */
  lemma InitialValid()
    ensures Valid(Caches(map[], map[], map[], 0))
  {
  }

  /** Admission keeps every execution numbered below the next task number and distinct per key. */
  lemma AdmitKeepsValid(c: Caches, key: string, now: int, successWindow: nat, errorWindow: nat)
    requires Valid(c)
    ensures Valid(Admitted(c, key, now, successWindow, errorWindow).0)
  {
    var (c', a) := Admitted(c, key, now, successWindow, errorWindow);
    if a.Start? {
      assert a.task == c.nextTask;
      forall k, k' | k in c'.inFlight && k' in c'.inFlight && k != k'
        ensures c'.inFlight[k] != c'.inFlight[k']
      {
        if k == key {
          assert c.inFlight[k'] < c.nextTask;
        } else if k' == key {
          assert c.inFlight[k] < c.nextTask;
        }
      }
    }
  }

  /** A success keeps the state valid. */
  lemma SucceededKeepsValid(c: Caches, key: string, result: Dict, now: int)
    requires Valid(c)
    ensures Valid(Succeeded(c, key, result, now))
  {
  }

  /** A failure keeps the state valid. */
  lemma FailedKeepsValid(c: Caches, key: string, message: string, now: int)
    requires Valid(c)
    ensures Valid(Failed(c, key, message, now))
  {
  }

  // ---------------------------------------------------------------------------------------
  // The module-level dictionaries

  class Server {
    var results: Cache<Dict>
    var errors: Cache<string>
    var inFlight: map<string, nat>
    var nextTask: nat

    function State(): Caches
      reads this
    {
      Caches(results, errors, inFlight, nextTask)
    }

    constructor ()
      ensures State() == Caches(map[], map[], map[], 0) && Valid(State())
    {
      results, errors, inFlight, nextTask := map[], map[], map[], 0;
    }

    /** `_prune_cache(now, success_window, error_window)`. */
    method Prune(now: int, successWindow: nat, errorWindow: nat)
      requires Valid(State())
      modifies this
      ensures Valid(State())
      ensures State() == old(State()).(results := Pruned(old(results), now, successWindow),
                                       errors := Pruned(old(errors), now, errorWindow))
    {
      results := PruneEntries(results, now, successWindow);
      errors := PruneEntries(errors, now, errorWindow);
    }

    /** The part of `create_asx_report` before it awaits the execution. */
    method Admit(key: string, now: int, successWindow: nat, errorWindow: nat) returns (a: Admission)
      requires Valid(State())
      modifies this
      ensures (State(), a) == Admitted(old(State()), key, now, successWindow, errorWindow)
      ensures Valid(State())
    {
      AdmitKeepsValid(State(), key, now, successWindow, errorWindow);
      Prune(now, successWindow, errorWindow);
      if successWindow > 0 && key in results && now - results[key].at <= successWindow {
        return CacheHit(Annotated(results[key].value, "true", "recent-cache", successWindow));
      }
      if errorWindow > 0 && key in errors && now - errors[key].at <= errorWindow {
        return Suppressed(SuppressedPrefix + errors[key].value);
      }
      if key in inFlight {
        return Attach(inFlight[key]);
      }
      a := Start(nextTask);
      inFlight := inFlight[key := nextTask];
      nextTask := nextTask + 1;
    }

    /** The owner's path after its execution returned `result` at time `now`. */
    method CompleteSuccess(key: string, result: Dict, now: int, successWindow: nat) returns (answer: Dict)
      requires Valid(State())
      modifies this
      ensures State() == Succeeded(old(State()), key, result, now)
      ensures answer == OwnerResult(result, successWindow)
      ensures Valid(State())
    {
      SucceededKeepsValid(State(), key, result, now);
      inFlight := inFlight - {key};
      errors := errors - {key};
      results := results[key := Stamped(now, result)];
      answer := OwnerResult(result, successWindow);
    }

    /** The owner's path after its execution raised `message` at time `now`. */
    method CompleteFailure(key: string, message: string, now: int) returns (raised: string)
      requires Valid(State())
      modifies this
      ensures State() == Failed(old(State()), key, message, now)
      ensures raised == FailureMessage(message)
      ensures Valid(State())
    {
      FailedKeepsValid(State(), key, message, now);
      inFlight := inFlight - {key};
      errors := errors[key := Stamped(now, message)];
      raised := FailureMessage(message);
    }
  }
}
