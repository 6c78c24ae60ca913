/**
 * The module-level state of geolocation.js: the `Preferences` store and
 * the connection to the background-geolocation plugin. The plugin itself
 * is opaque; the bridge records every command sent to it and every call
 * made into opaque code in `trace`, and keeps the callbacks the plugin has
 * not yet answered in `awaiting`. The plugin answering one of them is the
 * separate step Deliver.
 */
module Geolocation {
  import opened Wrappers
  import opened Preferences
  import opened Tracking
  import opened Iteration

  /** The calls `sub.remove()` made for `subs`, in list order. */
  function Removals(subs: seq<Subscription>): seq<Effect>
  {
    if subs == [] then []
    else Removals(subs[..|subs| - 1]) + [Remove(subs[|subs| - 1])]
  }

  /** The i-th removal goes to the i-th handle, and removal sends no command. */
  lemma {:induction false} RemovalsInOrder(subs: seq<Subscription>)
    ensures |Removals(subs)| == |subs|
    ensures forall i :: 0 <= i < |subs| ==> Removals(subs)[i] == Remove(subs[i])
    ensures Commands(Removals(subs)) == [] && Steps(Removals(subs)) == []
  {
    if subs != [] {
      RemovalsInOrder(subs[..|subs| - 1]);
      CommandsAppend(Removals(subs[..|subs| - 1]), [Remove(subs[|subs| - 1])]);
    }
  }

  /** The six subscriptions `addListeners` makes, in source order. */
  const ListenerEvents: seq<Event> := [Location, Error, ActivityChange, ProviderChange, MotionChange, Geofence]

  class PluginBridge<V> {
    const prefs: ConfigStore<V>
    var trace: seq<Effect>
    var awaiting: seq<Pending>

    constructor (prefs: ConfigStore<V>)
      ensures this.prefs == prefs && trace == [] && awaiting == []
    {
      this.prefs := prefs;
      trace := [];
      awaiting := [];
    }

    /** Carries out a reaction: its effects in order, its callbacks left with the plugin. */
    method Perform(r: Reaction)
      modifies this`trace, this`awaiting, prefs`configured
      ensures trace == old(trace) + r.effects
      ensures awaiting == old(awaiting) + r.awaits
      ensures prefs.configured == (r.configured || old(prefs.configured))
    {
      if r.configured {
        prefs.SetConfigured(true);
      }
      trace := trace + r.effects;
      awaiting := awaiting + r.awaits;
    }

    /** The plugin answers the `i`-th outstanding callback, reporting `enabled`. */
    method Deliver(i: nat, enabled: bool)
      requires i < |awaiting|
      modifies this`trace, this`awaiting, prefs`configured
      ensures var r := OnReply(old(awaiting[i]), enabled);
        trace == old(trace) + r.effects &&
        awaiting == old(awaiting[..i] + awaiting[i + 1..]) + r.awaits &&
        prefs.configured == (r.configured || old(prefs.configured))
    {
      var k := awaiting[i];
      awaiting := awaiting[..i] + awaiting[i + 1..];
      Perform(OnReply(k, enabled));
    }

    /**
     * Subscribes to the six plugin events and stores each handle the plugin
     * returns, one at a time, in source order.
     */
    method AddListeners(location: Subscription, error: Subscription, activity: Subscription,
                        provider: Subscription, motion: Subscription, geofence: Subscription)
      modifies this`trace, prefs`eventSubscriptions
      ensures trace == old(trace) + [Send(Subscribe(Location)), Send(Subscribe(Error)),
        Send(Subscribe(ActivityChange)), Send(Subscribe(ProviderChange)),
        Send(Subscribe(MotionChange)), Send(Subscribe(Geofence))]
      ensures prefs.eventSubscriptions ==
        old(prefs.eventSubscriptions) + [location, error, activity, provider, motion, geofence]
    {
      var handles := [location, error, activity, provider, motion, geofence];
      var i := 0;
      while i < 6
        invariant 0 <= i <= 6
        invariant trace == old(trace) + seq(i, j requires 0 <= j < i => Send(Subscribe(ListenerEvents[j])))
        invariant prefs.eventSubscriptions == old(prefs.eventSubscriptions) + handles[..i]
      {
        trace := trace + [Send(Subscribe(ListenerEvents[i]))];
        prefs.SetEventSubscriptions([handles[i]]);
        assert handles[..i + 1] == handles[..i] + [handles[i]];
        i := i + 1;
      }
    }

    /**
     * Calls `remove()` on the stored handles in list order, until one
     * returns false or throws (`reply(i)` says how the i-th call ends). The list
     * itself is kept.
     */
    method RemoveListeners(reply: nat -> Reply) returns (threw: bool)
      modifies this`trace
      ensures trace == old(trace) +
        Removals(prefs.eventSubscriptions[..Reached(|prefs.eventSubscriptions|, reply)])
      ensures threw == Throws(|prefs.eventSubscriptions|, reply)
    {
      var subs := prefs.GetEventSubscriptions();
      FirstStopSpec(|subs|, reply);
      var i, stop := 0, false;
      threw := false;
      while i < |subs| && !stop
        invariant 0 <= i <= |subs|
        invariant !stop ==> i <= FirstStop(|subs|, reply) && !threw
        invariant stop ==> i == FirstStop(|subs|, reply) + 1 && threw == (reply(i - 1) == Threw)
        invariant trace == old(trace) + Removals(subs[..i])
      {
        assert subs[..i + 1][..i] == subs[..i];
        trace := trace + [Remove(subs[i])];
        var r := reply(i);
        if r != Done {
          stop, threw := true, r == Threw;
        }
        i := i + 1;
      }
    }
  }

  /**
   * `configure` sends the command but marks the store configured only when
   * the plugin answers; `opt_cb` is called after that.
   */
  method ConfigureScenario(cb: Callback) returns (before: bool, after: bool, trace: seq<Effect>)
    ensures !before && after
    ensures trace == [Send(Configure), Invoke(cb)]
  {
    var store := new ConfigStore<string>();
    var bridge := new PluginBridge(store);
    bridge.Perform(ConfigurePlugin(Some(cb)));
    before := store.IsConfigured();
    bridge.Deliver(0, true);
    after := store.IsConfigured();
    trace := bridge.trace;
  }

  /**
   * Listeners added once and removed twice, every `remove()` ending
   * normally: each removal reaches every handle, since removal does not
   * empty the list.
   */
  method ListenersScenario(a: Subscription, b: Subscription, c: Subscription,
                           d: Subscription, e: Subscription, f: Subscription)
    returns (removals: seq<Effect>, kept: seq<Subscription>)
    ensures kept == [a, b, c, d, e, f]
    ensures removals == Removals(kept) + Removals(kept)
    ensures |removals| == 12 && removals[0] == removals[6] == Remove(a)
  {
    var store := new ConfigStore<string>();
    var bridge := new PluginBridge(store);
    bridge.AddListeners(a, b, c, d, e, f);
    var subscribed := bridge.trace;
    kept := store.GetEventSubscriptions();
    assert kept == [a, b, c, d, e, f];
    var normal := (i: nat) => Done;
    NothingStops(|kept|, normal);
    assert kept[..Reached(|kept|, normal)] == kept;
    var _ := bridge.RemoveListeners(normal);
    assert bridge.trace == subscribed + Removals(kept);
    var _ := bridge.RemoveListeners(normal);
    assert bridge.trace == subscribed + Removals(kept) + Removals(kept);
    removals := bridge.trace[|subscribed|..];
    assert removals == Removals(kept) + Removals(kept);
    RemovalsInOrder(kept);
  }

  /**
   * A second `remove()` call that throws ends the removal: later handles
   * are not removed and the exception reaches the caller.
   */
  method RemoveStopsScenario(a: Subscription, b: Subscription, c: Subscription,
                             d: Subscription, e: Subscription, f: Subscription)
    returns (removals: seq<Effect>, threw: bool)
    ensures removals == [Remove(a), Remove(b)] && threw
  {
    var store := new ConfigStore<string>();
    var bridge := new PluginBridge(store);
    bridge.AddListeners(a, b, c, d, e, f);
    var subscribed := bridge.trace;
    var secondThrows := (i: nat) => if i == 1 then Threw else Done;
    assert store.eventSubscriptions == [a, b, c, d, e, f];
    assert FirstStop(6, secondThrows) == 1;
    assert [a, b, c, d, e, f][..2] == [a, b];
    RemovalsInOrder([a, b]);
    threw := bridge.RemoveListeners(secondThrows);
    assert bridge.trace == subscribed + Removals([a, b]);
    removals := bridge.trace[|subscribed|..];
  }

  /**
   * Switching tracking off while the plugin reports it on: getState, then
   * stop, with the flow advanced right after stop is sent and nothing more
   * when stop's callback fires.
   */
  method StopScenario(flow: FlowAction) returns (trace: seq<Effect>, left: seq<Pending>)
    ensures trace == [Send(GetState), Send(Stop), NextStep(flow)]
    ensures left == []
  {
    var store := new ConfigStore<string>();
    var bridge := new PluginBridge(store);
    bridge.Perform(ToggleTracking(false, Some(flow)));
    bridge.Deliver(0, true);
    assert bridge.awaiting == [AfterStop];
    bridge.Deliver(0, false);
    trace, left := bridge.trace, bridge.awaiting;
  }
}
