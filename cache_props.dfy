/**
 * Properties of the request coordinator: pruning stays exact, idempotent and never changes an
 * answer; admission answers from the caches in order; a key has at most one execution in
 * flight and a second request for it attaches instead of starting another; a success is
 * answered from the cache and a failure refused within their windows.
 */
module CoordinatorProps {
  import opened Text
  import opened Coordinator

  // ---------------------------------------------------------------------------------------
  // Pruning

  /** A window of zero (or less) empties the cache. */
  lemma ZeroWindowClears<T>(cache: Cache<T>, now: int, window: int)
    requires window <= 0
    ensures Pruned(cache, now, window) == map[]
  {
  }

  /** Pruning twice at the same time prunes nothing more. */
  lemma PruneIdempotent<T>(cache: Cache<T>, now: int, window: int)
    ensures Pruned(Pruned(cache, now, window), now, window) == Pruned(cache, now, window)
  {
    var once := Pruned(cache, now, window);
    assert Pruned(once, now, window).Keys == once.Keys;
  }

  /** Pruning at `t1` and then at a later `t2` is pruning at `t2`. */
  lemma PruneLater<T>(cache: Cache<T>, t1: int, t2: int, window: int)
    requires t1 <= t2
    ensures Pruned(Pruned(cache, t1, window), t2, window) == Pruned(cache, t2, window)
  {
    var first := Pruned(cache, t1, window);
    assert Pruned(first, t2, window).Keys == Pruned(cache, t2, window).Keys;
  }

  /** The caches as admission sees them, after pruning at `now`. */
  function PrunedCaches(c: Caches, now: int, successWindow: nat, errorWindow: nat): Caches {
    c.(results := Pruned(c.results, now, successWindow), errors := Pruned(c.errors, now, errorWindow))
  }

  /**
   * Pruning never changes an answer: an entry recent enough to answer at `now` is within
   * twice its window and survives.
   */
  lemma PruningKeepsDecision(c: Caches, key: string, now: int, successWindow: nat, errorWindow: nat)
    ensures Decide(PrunedCaches(c, now, successWindow, errorWindow), key, now, successWindow, errorWindow)
         == Decide(c, key, now, successWindow, errorWindow)
  {
    var p := PrunedCaches(c, now, successWindow, errorWindow);
    if successWindow > 0 && key in c.results && now - c.results[key].at <= successWindow {
      assert key in p.results;
    } else if errorWindow > 0 && key in c.errors && now - c.errors[key].at <= errorWindow {
      assert key in p.errors;
    }
  }

  // ---------------------------------------------------------------------------------------
  // Admission

  /** A call is answered from the cache exactly when a result for its key is within the success window. */
  lemma CacheHitExact(c: Caches, key: string, now: int, successWindow: nat, errorWindow: nat)
    ensures var a := Admitted(c, key, now, successWindow, errorWindow).1;
            a.CacheHit? <==> successWindow > 0 && key in c.results && now - c.results[key].at <= successWindow
    ensures var a := Admitted(c, key, now, successWindow, errorWindow).1;
            a.CacheHit? ==> a == CacheHit(Annotated(c.results[key].value, "true", "recent-cache", successWindow))
  {
    PruningKeepsDecision(c, key, now, successWindow, errorWindow);
  }

  /**
   * A call not answered from the cache is refused exactly when a failure for its key is
   * within the error window, with that failure's message.
   */
  lemma SuppressedExact(c: Caches, key: string, now: int, successWindow: nat, errorWindow: nat)
    requires !(successWindow > 0 && key in c.results && now - c.results[key].at <= successWindow)
    ensures var a := Admitted(c, key, now, successWindow, errorWindow).1;
            a.Suppressed? <==> errorWindow > 0 && key in c.errors && now - c.errors[key].at <= errorWindow
    ensures var a := Admitted(c, key, now, successWindow, errorWindow).1;
            a.Suppressed? ==> a.message == SuppressedPrefix + c.errors[key].value
  {
    PruningKeepsDecision(c, key, now, successWindow, errorWindow);
  }

  /**
   * A call neither answered nor refused attaches to the execution in flight for its key, or
   * else starts a new one, registered under its key with a fresh task number.
   */
  lemma AttachOrStart(c: Caches, key: string, now: int, successWindow: nat, errorWindow: nat)
    requires !(successWindow > 0 && key in c.results && now - c.results[key].at <= successWindow)
    requires !(errorWindow > 0 && key in c.errors && now - c.errors[key].at <= errorWindow)
    ensures var (c', a) := Admitted(c, key, now, successWindow, errorWindow);
            (key in c.inFlight ==> a == Attach(c.inFlight[key]) && c'.inFlight == c.inFlight)
            && (key !in c.inFlight ==> a == Start(c.nextTask) && c'.inFlight == c.inFlight[key := c.nextTask]
                                       && c'.nextTask == c.nextTask + 1)
  {
    PruningKeepsDecision(c, key, now, successWindow, errorWindow);
  }

  /**
   * Admission only prunes the two caches, and registers an execution only when it starts one;
   * every other execution in flight stays as it was.
   */
  lemma AdmitTouches(c: Caches, key: string, now: int, successWindow: nat, errorWindow: nat)
    ensures var (c', a) := Admitted(c, key, now, successWindow, errorWindow);
            c'.results == Pruned(c.results, now, successWindow) && c'.errors == Pruned(c.errors, now, errorWindow)
            && (a.Start? ==> c'.inFlight == c.inFlight[key := a.task] && c'.nextTask == c.nextTask + 1)
            && (!a.Start? ==> c'.inFlight == c.inFlight && c'.nextTask == c.nextTask)
            && (forall k :: k in c.inFlight && k != key ==> k in c'.inFlight && c'.inFlight[k] == c.inFlight[k])
  {
  }

  /**
   * Only one execution per key: while the execution a call started is in flight, a later
   * call with the same key and windows attaches to it rather than starting another.
   */
  lemma SecondCallerAttaches(c: Caches, key: string, now: int, later: int, successWindow: nat, errorWindow: nat)
    requires Admitted(c, key, now, successWindow, errorWindow).1.Start?
    requires now <= later
    ensures var (c', a) := Admitted(c, key, now, successWindow, errorWindow);
            Admitted(c', key, later, successWindow, errorWindow).1 == Attach(a.task)
  {
    var (c', a) := Admitted(c, key, now, successWindow, errorWindow);
    CacheHitExact(c, key, now, successWindow, errorWindow);
    SuppressedExact(c, key, now, successWindow, errorWindow);
    AttachOrStart(c, key, now, successWindow, errorWindow);
    assert !(successWindow > 0 && key in c'.results && later - c'.results[key].at <= successWindow);
    assert !(errorWindow > 0 && key in c'.errors && later - c'.errors[key].at <= errorWindow);
    AttachOrStart(c', key, later, successWindow, errorWindow);
  }

  // ---------------------------------------------------------------------------------------
  // Completion

  /** A success leaves the table, forgets any failure, and caches the result; nothing else changes. */
  lemma SuccessTouches(c: Caches, key: string, result: Dict, now: int)
    ensures var c' := Succeeded(c, key, result, now);
            key !in c'.inFlight && key !in c'.errors && key in c'.results && c'.results[key] == Stamped(now, result)
            && (forall k :: k != key ==>
                  (k in c'.results <==> k in c.results) && (k in c'.errors <==> k in c.errors)
                  && (k in c'.inFlight <==> k in c.inFlight))
            && (forall k :: k != key && k in c.results ==> c'.results[k] == c.results[k])
            && (forall k :: k != key && k in c.errors ==> c'.errors[k] == c.errors[k])
            && (forall k :: k != key && k in c.inFlight ==> c'.inFlight[k] == c.inFlight[k])
  {
  }

  /**
   * A failure leaves the table and caches the message, but leaves the result cache alone:
   * an older success for the same key stays cached beside the failure.
   */
  lemma FailureTouches(c: Caches, key: string, message: string, now: int)
    ensures var c' := Failed(c, key, message, now);
            key !in c'.inFlight && key in c'.errors && c'.errors[key] == Stamped(now, message)
            && c'.results == c.results && c'.nextTask == c.nextTask
            && (forall k :: k != key ==>
                  (k in c'.errors <==> k in c.errors) && (k in c'.inFlight <==> k in c.inFlight))
            && (forall k :: k != key && k in c.errors ==> c'.errors[k] == c.errors[k])
            && (forall k :: k != key && k in c.inFlight ==> c'.inFlight[k] == c.inFlight[k])
  {
  }

  /** Within the success window after a success, the same request is answered from the cache. */
  lemma SuccessThenHit(c: Caches, key: string, result: Dict, done: int, now: int, successWindow: nat, errorWindow: nat)
    requires 0 < successWindow && done <= now <= done + successWindow
    ensures Admitted(Succeeded(c, key, result, done), key, now, successWindow, errorWindow).1
         == CacheHit(Annotated(result, "true", "recent-cache", successWindow))
  {
    CacheHitExact(Succeeded(c, key, result, done), key, now, successWindow, errorWindow);
  }

  /**
   * Within the error window after a failure, the same request is refused with the failure's
   * message, unless an older success is still within the success window.
   */
  lemma FailureThenSuppressed(c: Caches, key: string, message: string, done: int, now: int,
                              successWindow: nat, errorWindow: nat)
    requires 0 < errorWindow && done <= now <= done + errorWindow
    requires !(successWindow > 0 && key in c.results && now - c.results[key].at <= successWindow)
    ensures Admitted(Failed(c, key, message, done), key, now, successWindow, errorWindow).1
         == Suppressed(SuppressedPrefix + message)
  {
    SuppressedExact(Failed(c, key, message, done), key, now, successWindow, errorWindow);
  }

  /** Once the error window has passed after a failure, with no recent success, the request runs again. */
  lemma FailureThenRetry(c: Caches, key: string, message: string, done: int, now: int,
                         successWindow: nat, errorWindow: nat)
    requires now - done > errorWindow
    requires !(successWindow > 0 && key in c.results && now - c.results[key].at <= successWindow)
    ensures Admitted(Failed(c, key, message, done), key, now, successWindow, errorWindow).1 == Start(c.nextTask)
  {
    var f := Failed(c, key, message, done);
    SuppressedExact(f, key, now, successWindow, errorWindow);
    AttachOrStart(f, key, now, successWindow, errorWindow);
  }

  // ---------------------------------------------------------------------------------------
  // Answers

  /** The annotated answer is the result with exactly the three de-duplication fields set. */
  lemma AnnotatedFields(result: Dict, deduplicated: string, reason: string, window: nat)
    ensures var r := Annotated(result, deduplicated, reason, window);
            r.Keys == result.Keys + {"deduplicated", "dedupe_reason", "dedupe_window_seconds"}
            && r["deduplicated"] == deduplicated && r["dedupe_reason"] == reason
            && r["dedupe_window_seconds"] == IntToString(window)
            && (forall k :: k in result && k !in {"deduplicated", "dedupe_reason", "dedupe_window_seconds"}
                           ==> r[k] == result[k])
  {
  }

  /** The owner's answer and an attached caller's answer differ only in the two flags. */
  lemma OwnerAndAttachedAgree(result: Dict, window: nat)
    ensures OwnerResult(result, window).Keys == AttachedResult(result, window).Keys
    ensures OwnerResult(result, window)["deduplicated"] == "false" && AttachedResult(result, window)["deduplicated"] == "true"
    ensures OwnerResult(result, window)["dedupe_reason"] == "none" && AttachedResult(result, window)["dedupe_reason"] == "in-flight"
    ensures forall k :: k in result && k != "deduplicated" && k != "dedupe_reason"
                        ==> OwnerResult(result, window)[k] == AttachedResult(result, window)[k]
  {
  }
}
