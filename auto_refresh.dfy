/**
 * The `useAutoRefresh` hook: one refresh when the screen mounts, and another whenever the
 * app returns to the foreground from `inactive` or `background`. The hook's two refs
 * (`appState.current` and `intervalRef.current`) are fields of a class; each call of
 * `fetchFunction` is recorded, together with the errors `refresh` logs instead of throwing.
 */
module AutoRefresh {
  import opened Wrappers
  import opened Text

  /** React Native's `AppStateStatus`. */
  datatype AppStateStatus = Active | Background | Inactive | Unknown | Extension

  function StatusName(s: AppStateStatus): string {
    match s
    case Active => "active"
    case Background => "background"
    case Inactive => "inactive"
    case Unknown => "unknown"
    case Extension => "extension"
  }

  /** `appState.current.match(/inactive|background/)`: the name holds either word. */
  predicate LeftForeground(s: AppStateStatus) {
    Contains(StatusName(s), "inactive") || Contains(StatusName(s), "background")
  }

  /** Of the five states exactly `inactive` and `background` match the pattern. */
  lemma LeftForegroundIff(s: AppStateStatus)
    ensures LeftForeground(s) <==> s == Inactive || s == Background
  {
    match s
    case Active =>
      assert !Contains("active", "inactive");
      assert !Contains("active", "background");
    case Background =>
      assert "background"[..10] == "background";
    case Inactive =>
      assert "inactive"[..8] == "inactive";
    case Unknown =>
      assert !Contains("unknown", "inactive");
      assert !Contains("unknown", "background");
    case Extension =>
      assert !Contains("extension", "background");
      assert "extension"[1..] == "xtension" && "xtension"[1..] == "tension";
      assert "xtension"[..8] != "inactive" by { assert "xtension"[..8][0] == 'x'; }
      assert !Contains("extension", "inactive");
  }

  /** The hook's options; an omitted option is `None`. */
  datatype Options = Options(interval: Option<int>, refreshOnFocus: Option<bool>)

  datatype Config = Config(interval: int, refreshOnFocus: bool)

  /** `const { interval = 30000, refreshOnFocus = true } = options`. */
  function Resolve(options: Options): (c: Config)
    ensures options.interval.None? ==> c.interval == 30000
    ensures options.interval.Some? ==> c.interval == options.interval.value
    ensures options.refreshOnFocus.None? ==> c.refreshOnFocus
    ensures options.refreshOnFocus.Some? ==> c.refreshOnFocus == options.refreshOnFocus.value
  {
    Config(options.interval.GetOr(30000), options.refreshOnFocus.GetOr(true))
  }

  /** The rule of `handleAppStateChange`: does moving from `prev` to `next` refresh? */
  predicate Wakes(refreshOnFocus: bool, prev: AppStateStatus, next: AppStateStatus) {
    refreshOnFocus && LeftForeground(prev) && next == Active
  }

  /** How many refreshes a run of state changes starting from `prev` triggers. */
  function WakeCount(refreshOnFocus: bool, prev: AppStateStatus, events: seq<AppStateStatus>): nat
    decreases |events|
  {
    if events == [] then 0
    else (if Wakes(refreshOnFocus, prev, events[0]) then 1 else 0) + WakeCount(refreshOnFocus, events[0], events[1..])
  }

  /** The number of `active` entries in a run. */
  function Activations(events: seq<AppStateStatus>): nat {
    if events == [] then 0 else (if events[0] == Active then 1 else 0) + Activations(events[1..])
  }

  /** With `refreshOnFocus` off no state change refreshes. */
  lemma {:induction false} WakeCountOff(prev: AppStateStatus, events: seq<AppStateStatus>)
    ensures WakeCount(false, prev, events) == 0
    decreases |events|
  {
    if events != [] {
      WakeCountOff(events[0], events[1..]);
    }
  }

  /**
   * Each refresh needs an `active` event, and an `active` event right after `active` never
   * refreshes: from the foreground there are at most as many refreshes as activations after
   * the first event.
   */
  lemma {:induction false} WakeCountBound(refreshOnFocus: bool, prev: AppStateStatus, events: seq<AppStateStatus>)
    ensures WakeCount(refreshOnFocus, prev, events) <= Activations(events)
    ensures prev == Active && events != [] && events[0] == Active ==>
      WakeCount(refreshOnFocus, prev, events) <= Activations(events) - 1
    decreases |events|
  {
    if events != [] {
      LeftForegroundIff(prev);
      WakeCountBound(refreshOnFocus, events[0], events[1..]);
    }
  }

  class AutoRefresher {
    const config: Config
    /** `appState.current`. */
    var appState: AppStateStatus
    /** `intervalRef.current`: the timer id, or `None` for null. */
    var intervalRef: Option<int>
    /** How many times `fetchFunction` has been called. */
    var fetches: nat
    /** What `refresh` logged instead of rethrowing. */
    var errorLog: seq<string>
    /** The timers `clearInterval` was called on. */
    var cleared: seq<int>
    /** Whether the `'change'` listener is registered: from set-up until `subscription.remove()`. */
    var subscribed: bool

    constructor (options: Options, current: AppStateStatus)
      ensures config == Resolve(options) && appState == current && intervalRef == None
      ensures fetches == 0 && errorLog == [] && cleared == [] && !subscribed
    {
      config := Resolve(options);
      appState := current;
      intervalRef := None;
      fetches := 0;
      errorLog := [];
      cleared := [];
      subscribed := false;
    }

    /** `refresh`: call `fetchFunction` once; a failure is logged and goes no further. */
    method Refresh(outcome: Result<(), string>)
      modifies this
      ensures fetches == old(fetches) + 1
      ensures errorLog == old(errorLog) + (if outcome.Failure? then [outcome.error] else [])
      ensures appState == old(appState) && intervalRef == old(intervalRef) && cleared == old(cleared)
      ensures subscribed == old(subscribed)
    {
      fetches := fetches + 1;
      if outcome.Failure? {
        errorLog := errorLog + [outcome.error];
      }
    }

    /**
     * The effect's set-up: one immediate refresh, then the interval's timer id is stored
     * and the `'change'` listener is registered.
     */
    method Mount(outcome: Result<(), string>, timer: int)
      modifies this
      ensures fetches == old(fetches) + 1
      ensures errorLog == old(errorLog) + (if outcome.Failure? then [outcome.error] else [])
      ensures intervalRef == Some(timer) && subscribed
      ensures appState == old(appState) && cleared == old(cleared)
    {
      Refresh(outcome);
      intervalRef := Some(timer);
      subscribed := true;
    }

    /**
     * An app-state change. While the listener is registered, `handleAppStateChange` runs:
     * refresh exactly on a return to `active` from `inactive` or `background` while
     * `refreshOnFocus` is on, and store the new state either way. Once the listener is
     * removed (or before it is added) the change reaches nothing.
     */
    method OnAppStateChange(next: AppStateStatus, outcome: Result<(), string>)
      modifies this
      ensures subscribed ==> appState == next
      ensures !subscribed ==> appState == old(appState)
      ensures subscribed && Wakes(config.refreshOnFocus, old(appState), next) ==>
        fetches == old(fetches) + 1 && errorLog == old(errorLog) + (if outcome.Failure? then [outcome.error] else [])
      ensures !(subscribed && Wakes(config.refreshOnFocus, old(appState), next)) ==>
        fetches == old(fetches) && errorLog == old(errorLog)
      ensures intervalRef == old(intervalRef) && cleared == old(cleared) && subscribed == old(subscribed)
    {
      if !subscribed {
        return;
      }
      if config.refreshOnFocus && (Contains(StatusName(appState), "inactive") || Contains(StatusName(appState), "background")) && next == Active {
        Refresh(outcome);
      }
      appState := next;
    }

    /**
     * The effect's clean-up: clear the interval when a (truthy) timer id is stored, then
     * remove the `'change'` listener.
     */
    method Cleanup()
      modifies this
      ensures cleared == old(cleared) + (if intervalRef.Some? && intervalRef.value != 0 then [intervalRef.value] else [])
      ensures !subscribed
      ensures intervalRef == old(intervalRef) && appState == old(appState)
      ensures fetches == old(fetches) && errorLog == old(errorLog)
    {
      if intervalRef.Some? && intervalRef.value != 0 {
        cleared := cleared + [intervalRef.value];
      }
      subscribed := false;
    }
  }
}
