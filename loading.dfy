/** The keyed loading flags of the client (src/lib/loadingManager.ts). The flags are a
    map from key to boolean; start and stop replace the map by a copy with one key set. */
module Loading {
  /** `{ [key: string]: boolean }`. */
  type LoadingState = map<string, bool>

  /** `!!states[key]`: a key that was never set reads as `undefined`, which is falsy. */
  predicate LoadingIn(states: LoadingState, key: string) {
    key in states && states[key]
  }

  /** `{ ...prev, [key]: true }`: `key` is loading and every other key keeps its entry. */
  function WithStarted(states: LoadingState, key: string): (r: LoadingState)
    ensures LoadingIn(r, key)
    ensures r.Keys == states.Keys + {key}
    ensures forall k :: k in states && k != key ==> r[k] == states[k]
  {
    states[key := true]
  }

  /** `{ ...prev, [key]: false }`: `key` is not loading and every other key keeps its entry. */
  function WithStopped(states: LoadingState, key: string): (r: LoadingState)
    ensures !LoadingIn(r, key) && key in r
    ensures r.Keys == states.Keys + {key}
    ensures forall k :: k in states && k != key ==> r[k] == states[k]
  {
    states[key := false]
  }

  /** Starting a key that is already started changes nothing. */
  lemma StartIdempotent(states: LoadingState, key: string)
    ensures WithStarted(WithStarted(states, key), key) == WithStarted(states, key)
  {
  }

  /** Stopping after starting leaves every other key as before the start. */
  lemma StopAfterStart(states: LoadingState, key: string, other: string)
    requires other != key
    ensures LoadingIn(WithStopped(WithStarted(states, key), key), other) <==> LoadingIn(states, other)
    ensures !LoadingIn(WithStopped(WithStarted(states, key), key), key)
  {
  }

  /** The state held by `useLoadingManager`. The ref that `isLoading` reads is taken to
      be in step with the state. */
  class LoadingManager {
    var loadingStates: LoadingState

    constructor ()
      ensures loadingStates == map[]
    {
      loadingStates := map[];
    }

    method StartLoading(key: string)
      modifies this
      ensures loadingStates == WithStarted(old(loadingStates), key)
    {
      loadingStates := loadingStates[key := true];
    }

    method StopLoading(key: string)
      modifies this
      ensures loadingStates == WithStopped(old(loadingStates), key)
    {
      loadingStates := loadingStates[key := false];
    }

    /** `isLoading(key)`: false for a key that was never set. */
    function IsLoading(key: string): (r: bool)
      reads this
      ensures key !in loadingStates ==> !r
      ensures key in loadingStates ==> r == loadingStates[key]
    {
      LoadingIn(loadingStates, key)
    }
  }

  /** A fresh manager reports no key loading; after a start the key reads true and after
      a stop it reads false, while other keys keep their value. */
  method StartStopScenario(key: string, other: string) returns (fresh0: bool, afterStart: bool, afterStop: bool)
    requires key != other
    ensures !fresh0 && afterStart && !afterStop
  {
    var m := new LoadingManager();
    fresh0 := m.IsLoading(key);
    m.StartLoading(key);
    afterStart := m.IsLoading(key);
    assert !m.IsLoading(other);
    m.StopLoading(key);
    afterStop := m.IsLoading(key);
  }
}
