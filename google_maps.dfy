/**
 * The lazy loader of the Google Maps script (`src/lib/google-maps.ts`): the
 * module-level flags `isLoaded`, `isLoading`, `loadError` and the `callbacks`
 * waiter list, changed by three kinds of event: a call to
 * `loadGoogleMapsApi`, the script's ready callback (`initializeGoogleMaps`)
 * and the script's `onerror`.
 *
 * Promises are named by numbers. Each call to `loadGoogleMapsApi` creates
 * one; `settlements` logs every `resolve`/`reject` call in the order it is
 * made. The DOM is reduced to what it decides: whether creating or appending
 * the script element throws, and whether the API key is set.
 */
module GoogleMaps {
  import opened Wrappers
  import JsText

  type PromiseId = nat

  /** One call of a promise's `resolve` or `reject`. */
  datatype Settlement = Resolve(promise: PromiseId) | Reject(promise: PromiseId, error: string)

  /** What the script set-up inside the `try` block does. */
  datatype Setup =
    | ScriptAppended          // the element is created and appended
    | CreateThrows(m: string) // `document.createElement` throws
    | AppendThrows(m: string) // `document.head.appendChild` throws

  const KeyMissingMessage := "Google Maps API key is not defined"
  const ScriptErrorMessage := "Failed to load Google Maps API"

  /** What one waiter registered in `callbacks` does when it is invoked. */
  function WaiterSettles(w: PromiseId, loadError: Option<string>): Settlement
  {
    if loadError.Some? then Reject(w, loadError.value) else Resolve(w)
  }

  /**
   * `callbacks.forEach(callback => callback())`: every waiter is invoked once,
   * in registration order, and rejects exactly when `loadError` is set.
   */
  function NotifyWaiters(ws: seq<PromiseId>, loadError: Option<string>): (r: seq<Settlement>)
    ensures |r| == |ws|
    ensures forall k :: 0 <= k < |r| ==> r[k].promise == ws[k]
    ensures forall k :: 0 <= k < |r| ==> (r[k].Reject? <==> loadError.Some?)
    ensures loadError.Some? ==> forall k :: 0 <= k < |r| ==> r[k].error == loadError.value
  {
    if ws == [] then []
    else NotifyWaiters(ws[..|ws| - 1], loadError) + [WaiterSettles(ws[|ws| - 1], loadError)]
  }

  class MapsLoader {
    var isLoaded: bool
    var isLoading: bool
    var loadError: Option<string>
    var callbacks: seq<PromiseId>
    /** The promise of the script element in flight, which `initializeGoogleMaps` resolves. */
    var script: Option<PromiseId>
    var settlements: seq<Settlement>
    var nextPromise: PromiseId

    ghost predicate Valid()
      reads this
    {
      && (isLoaded ==> !isLoading && script.None?)
      && (script.Some? ==> isLoading && script.value < nextPromise)
      && (forall k :: 0 <= k < |callbacks| ==> callbacks[k] < nextPromise)
    }

    /** The module's initial state. */
    constructor ()
      ensures Valid()
      ensures !isLoaded && !isLoading && loadError == None && callbacks == []
      ensures script == None && settlements == [] && nextPromise == 0
    {
      isLoaded, isLoading, loadError, callbacks := false, false, None, [];
      script, settlements, nextPromise := None, [], 0;
    }

    /** `isGoogleMapsLoaded()`. */
    function IsGoogleMapsLoaded(): (r: bool)
      reads this
      ensures r == isLoaded
    {
      isLoaded
    }

    /**
     * `loadGoogleMapsApi()` with the environment's API key `apiKey`; returns the
     * new promise. Loaded: it is resolved at once and nothing else changes.
     * Loading: it is queued as a waiter and nothing else changes. Idle:
     * `isLoading` is set first, then the set-up runs: a missing key sets
     * `loadError` and rejects but leaves `isLoading` set; a set-up exception
     * sets `loadError`, clears `isLoading` and rejects; otherwise the script is
     * in flight.
     */
    method Load(apiKey: Option<string>, setup: Setup) returns (p: PromiseId)
      requires Valid()
      modifies this
      ensures Valid()
      ensures p == old(nextPromise) && nextPromise == p + 1
      ensures old(isLoaded) ==> isLoaded
      ensures old(isLoaded) ==>
        && settlements == old(settlements) + [Resolve(p)]
        && isLoading == old(isLoading) && loadError == old(loadError)
        && callbacks == old(callbacks) && script == old(script)
      ensures !old(isLoaded) && old(isLoading) ==>
        && callbacks == old(callbacks) + [p]
        && settlements == old(settlements)
        && !isLoaded && isLoading && loadError == old(loadError) && script == old(script)
      ensures !old(isLoaded) && !old(isLoading) ==>
        && !isLoaded && callbacks == old(callbacks)
        && match setup
           case CreateThrows(m) =>
             && loadError == Some(m) && !isLoading && script == None
             && settlements == old(settlements) + [Reject(p, m)]
           case _ =>
             if !JsText.Truthy(apiKey) then
               && loadError == Some(KeyMissingMessage) && isLoading && script == None
               && settlements == old(settlements) + [Reject(p, KeyMissingMessage)]
             else if setup.AppendThrows? then
               && loadError == Some(setup.m) && !isLoading && script == None
               && settlements == old(settlements) + [Reject(p, setup.m)]
             else
               && loadError == old(loadError) && isLoading && script == Some(p)
               && settlements == old(settlements)
    {
      p := nextPromise;
      nextPromise := nextPromise + 1;
      if isLoaded {
        settlements := settlements + [Resolve(p)];
        return;
      }
      if isLoading {
        callbacks := callbacks + [p];
        return;
      }
      isLoading := true;
      if setup.CreateThrows? {
        loadError := Some(setup.m);
        isLoading := false;
        settlements := settlements + [Reject(p, setup.m)];
        return;
      }
      if !JsText.Truthy(apiKey) {
        loadError := Some(KeyMissingMessage);
        settlements := settlements + [Reject(p, KeyMissingMessage)];
        return;
      }
      if setup.AppendThrows? {
        loadError := Some(setup.m);
        isLoading := false;
        settlements := settlements + [Reject(p, setup.m)];
        return;
      }
      script := Some(p);
    }

    /**
     * The script calls `initializeGoogleMaps`: loaded, no longer loading, every
     * registered waiter invoked once in order (each rejecting when `loadError`
     * is set), then the in-flight promise resolved. `callbacks` is kept.
     */
    method ScriptReady()
      requires Valid() && script.Some?
      modifies this
      ensures Valid()
      ensures isLoaded && !isLoading && script == None
      ensures settlements == old(settlements) + NotifyWaiters(old(callbacks), old(loadError)) + [Resolve(old(script).value)]
      ensures callbacks == old(callbacks) && loadError == old(loadError) && nextPromise == old(nextPromise)
    {
      var own := script.value;
      isLoaded := true;
      isLoading := false;
      script := None;
      var waiters := callbacks;
      for k := 0 to |waiters|
        invariant settlements == old(settlements) + NotifyWaiters(waiters[..k], loadError)
        invariant isLoaded && !isLoading && script == None && callbacks == waiters
        invariant loadError == old(loadError) && nextPromise == old(nextPromise)
      {
        assert waiters[..k + 1][..k] == waiters[..k];
        settlements := settlements + [WaiterSettles(waiters[k], loadError)];
      }
      assert waiters[..|waiters|] == waiters;
      settlements := settlements + [Resolve(own)];
    }

    /**
     * The script's `onerror`: `loadError` set, no longer loading, the in-flight
     * promise rejected. Queued waiters are not invoked.
     */
    method ScriptError()
      requires Valid() && script.Some?
      modifies this
      ensures Valid()
      ensures loadError == Some(ScriptErrorMessage) && !isLoading && script == None
      ensures settlements == old(settlements) + [Reject(old(script).value, ScriptErrorMessage)]
      ensures isLoaded == old(isLoaded) && callbacks == old(callbacks) && nextPromise == old(nextPromise)
    {
      var own := script.value;
      loadError := Some(ScriptErrorMessage);
      isLoading := false;
      script := None;
      settlements := settlements + [Reject(own, ScriptErrorMessage)];
    }
  }

  /**
   * A missing key leaves `isLoading` set with no script in flight, so every
   * later call is queued and never answered: the loader stays stuck.
   */
  method MissingKeyQueuesLaterCalls(loader: MapsLoader, key: Option<string>, setup: Setup)
    returns (first: PromiseId, second: PromiseId)
    requires loader.Valid() && !loader.isLoaded && !loader.isLoading
    requires !JsText.Truthy(key) && !setup.CreateThrows?
    modifies loader
    ensures first !in loader.callbacks && loader.callbacks == old(loader.callbacks) + [second]
    ensures loader.settlements == old(loader.settlements) + [Reject(first, KeyMissingMessage)]
    ensures loader.isLoading && loader.script == None && loader.loadError == Some(KeyMissingMessage)
  {
    first := loader.Load(key, setup);
    second := loader.Load(key, setup);
  }
  /**
   * `loadError` is never cleared: after a script error, a retry whose script
   * loads still rejects the waiters queued behind it, although the API is
   * now loaded; only the retrying call itself is resolved.
   */
  method RetryAfterScriptError(key: string) returns (loader: MapsLoader, retry: PromiseId, waiter: PromiseId)
    requires key != ""
    ensures loader.isLoaded && loader.IsGoogleMapsLoaded()
    ensures Reject(waiter, ScriptErrorMessage) in loader.settlements
    ensures loader.settlements[|loader.settlements| - 1] == Resolve(retry)
  {
    loader := new MapsLoader();
    var first := loader.Load(Some(key), ScriptAppended);
    loader.ScriptError();
    retry := loader.Load(Some(key), ScriptAppended);
    waiter := loader.Load(Some(key), ScriptAppended);
    assert loader.callbacks == [waiter];
    loader.ScriptReady();
    assert NotifyWaiters([waiter], Some(ScriptErrorMessage))[0] == Reject(waiter, ScriptErrorMessage);
  }
}
