/**
 * The preference store of geolocation.js (class ConfigStore and its
 * singleton `Preferences`): a configured flag, a key/value preference map
 * merged last-write-wins, a late-bound harvester with the callbacks waiting
 * for it, and the list of plugin event subscriptions. Preference values
 * are of any type V: the store only keeps and returns them.
 */
module Preferences {
  import opened Wrappers
  import opened Iteration

  /** Opaque handles: the store passes them around and never looks inside. */
  datatype Harvester = Harvester(id: nat)
  datatype Callback = Callback(id: nat)
  datatype Subscription = Subscription(id: nat)

  /** One call `cb(harvester)` the store makes into code it cannot see. */
  datatype Delivery = Delivery(cb: Callback, harvester: Harvester)

  /** Immutable.Map#merge with a plain object: every key of `data` takes its new value. */
  function Merge<V>(prefs: map<string, V>, data: map<string, V>): (r: map<string, V>)
    ensures r.Keys == prefs.Keys + data.Keys
    ensures forall k :: k in data ==> r[k] == data[k]
    ensures forall k :: k in prefs && k !in data ==> r[k] == prefs[k]
  {
    prefs + data
  }

  /** `prefs.get(key)`: undefined when the key was never set. */
  function Lookup<V>(prefs: map<string, V>, key: string): (r: Option<V>)
    ensures r.Some? <==> key in prefs
    ensures r.Some? ==> r.value == prefs[key]
  {
    if key in prefs then Some(prefs[key]) else None
  }

  /** The calls made when `queue` is handed harvester `h`, one per callback. */
  function Deliveries(queue: seq<Callback>, h: Harvester): seq<Delivery>
  {
    if queue == [] then []
    else Deliveries(queue[..|queue| - 1], h) + [Delivery(queue[|queue| - 1], h)]
  }

  /** The i-th call goes to the i-th callback, with `h`. */
  lemma {:induction false} DeliveriesInOrder(queue: seq<Callback>, h: Harvester)
    ensures |Deliveries(queue, h)| == |queue|
    ensures forall i :: 0 <= i < |queue| ==> Deliveries(queue, h)[i] == Delivery(queue[i], h)
  {
    if queue != [] {
      DeliveriesInOrder(queue[..|queue| - 1], h);
    }
  }

  class ConfigStore<V> {
    var configured: bool
    var harvester: Option<Harvester>
    var preferences: map<string, V>
    var harvestCallbacks: seq<Callback>
    var eventSubscriptions: seq<Subscription>
    /** Every `cb(harvester)` call made so far, in the order made. */
    var delivered: seq<Delivery>

    /**
     * Once a harvester is set, nothing is left waiting for it. Every
     * operation keeps this, except a `setHarvester` whose draining throws.
     */
    ghost predicate Drained()
      reads this
    {
      harvester.Some? ==> harvestCallbacks == []
    }

    constructor ()
      ensures Drained()
      ensures !configured && harvester == None && preferences == map[]
      ensures harvestCallbacks == [] && eventSubscriptions == [] && delivered == []
    {
      configured := false;
      harvester := None;
      preferences := map[];
      harvestCallbacks := [];
      eventSubscriptions := [];
      delivered := [];
    }

    method Update(data: map<string, V>)
      modifies this`preferences
      ensures preferences == Merge(old(preferences), data)
    {
      preferences := Merge(preferences, data);
    }

    function IsConfigured(): (b: bool)
      reads this
      ensures b == configured
    {
      configured
    }

    method SetConfigured(flag: bool)
      modifies this`configured
      ensures configured == flag
    {
      configured := flag;
    }

    /** Appends the given handles, in argument order. */
    method SetEventSubscriptions(subs: seq<Subscription>)
      modifies this`eventSubscriptions
      ensures eventSubscriptions == old(eventSubscriptions) + subs
    {
      eventSubscriptions := eventSubscriptions + subs;
    }

    /** The stored handles, in the order they were added. */
    function GetEventSubscriptions(): (subs: seq<Subscription>)
      reads this
      ensures subs == eventSubscriptions
    {
      eventSubscriptions
    }

    /**
     * Stores `h`, then calls the waiting callbacks with it in enqueue order
     * until one returns false or throws (`reply(i)` says how the i-th call ends).
     * Unless a call threw, the queue is then emptied, so none of them is
     * called again; a throw leaves the queue as it was.
     */
    method SetHarvester(h: Harvester, reply: nat -> Reply) returns (threw: bool)
      modifies this`harvester, this`harvestCallbacks, this`delivered
      ensures harvester == Some(h)
      ensures delivered == old(delivered) +
        Deliveries(old(harvestCallbacks)[..Reached(|old(harvestCallbacks)|, reply)], h)
      ensures threw == Throws(|old(harvestCallbacks)|, reply)
      ensures harvestCallbacks == if threw then old(harvestCallbacks) else []
      ensures !threw ==> Drained()
    {
      harvester := Some(h);
      var queue := harvestCallbacks;
      FirstStopSpec(|queue|, reply);
      var i, stop := 0, false;
      threw := false;
      while i < |queue| && !stop
        invariant 0 <= i <= |queue|
        invariant harvester == Some(h) && harvestCallbacks == queue
        invariant !stop ==> i <= FirstStop(|queue|, reply) && !threw
        invariant stop ==> i == FirstStop(|queue|, reply) + 1 && threw == (reply(i - 1) == Threw)
        invariant delivered == old(delivered) + Deliveries(queue[..i], h)
      {
        assert queue[..i + 1][..i] == queue[..i];
        delivered := delivered + [Delivery(queue[i], h)];
        var r := reply(i);
        if r != Done {
          stop, threw := true, r == Threw;
        }
        i := i + 1;
      }
      if !threw {
        harvestCallbacks := [];
      }
    }

    /** Calls `cb` at once when a harvester is set; otherwise queues it. */
    method OnHarvesterReady(cb: Callback)
      modifies this`harvestCallbacks, this`delivered
      ensures old(harvester).Some? ==>
        delivered == old(delivered) + [Delivery(cb, harvester.value)] &&
        harvestCallbacks == old(harvestCallbacks)
      ensures old(harvester).None? ==>
        delivered == old(delivered) &&
        harvestCallbacks == old(harvestCallbacks) + [cb]
      ensures old(Drained()) ==> Drained()
    {
      if harvester.Some? {
        delivered := delivered + [Delivery(cb, harvester.value)];
      } else {
        harvestCallbacks := harvestCallbacks + [cb];
      }
    }

    function GetDatumId(): (r: Option<V>)
      reads this
      ensures r.Some? <==> "datum_id" in preferences
      ensures r.Some? ==> r.value == preferences["datum_id"]
    {
      Lookup(preferences, "datum_id")
    }

    function GetDatumType(): (r: Option<V>)
      reads this
      ensures r.Some? <==> "datum_type" in preferences
      ensures r.Some? ==> r.value == preferences["datum_type"]
    {
      Lookup(preferences, "datum_type")
    }
  }

  /** Two updates with disjoint keys: each getter sees its own key. */
  method DatumScenario() returns (id: Option<string>, kind: Option<string>)
    ensures id == Some("A") && kind == Some("B")
  {
    var store := new ConfigStore<string>();
    store.Update(map["datum_id" := "A"]);
    store.Update(map["datum_type" := "B"]);
    id, kind := store.GetDatumId(), store.GetDatumType();
  }

  /**
   * Two callbacks wait, a harvester arrives, a second harvester replaces it,
   * and a third callback registers late. When every call ends normally the
   * first two are called once with the first harvester, the third at once
   * with the second.
   */
  method DrainOnceScenario(a: Callback, b: Callback, c: Callback, h1: Harvester, h2: Harvester)
    returns (calls: seq<Delivery>, waiting: seq<Callback>)
    ensures calls == [Delivery(a, h1), Delivery(b, h1), Delivery(c, h2)]
    ensures waiting == []
  {
    var store := new ConfigStore<string>();
    var normal := (i: nat) => Done;
    store.OnHarvesterReady(a);
    store.OnHarvesterReady(b);
    NothingStops(2, normal);
    var _ := store.SetHarvester(h1, normal);
    DeliveriesInOrder([a, b], h1);
    NothingStops(0, normal);
    var _ := store.SetHarvester(h2, normal);
    store.OnHarvesterReady(c);
    calls, waiting := store.delivered, store.harvestCallbacks;
  }

  /**
   * Early exits of the drain, by call position. If the first call returns
   * false, `b` is never called and the queue is still emptied. If the first
   * call throws, the queue survives with the harvester set, and the next
   * harvester calls `a` and `b` again.
   */
  method EarlyExitScenario(a: Callback, b: Callback, h1: Harvester, h2: Harvester)
    returns (dropped: seq<Delivery>, afterFalse: seq<Callback>,
             afterThrow: seq<Callback>, redelivered: seq<Delivery>, waiting: seq<Callback>)
    ensures dropped == [Delivery(a, h1)] && afterFalse == []
    ensures afterThrow == [a, b]
    ensures redelivered == [Delivery(a, h1), Delivery(a, h2), Delivery(b, h2)] && waiting == []
  {
    var firstStops := (i: nat) => if i == 0 then ReturnedFalse else Done;
    var first := new ConfigStore<string>();
    first.OnHarvesterReady(a);
    first.OnHarvesterReady(b);
    assert FirstStop(2, firstStops) == 0;
    var _ := first.SetHarvester(h1, firstStops);
    assert [a, b][..1] == [a];
    dropped, afterFalse := first.delivered, first.harvestCallbacks;

    var firstThrows := (i: nat) => if i == 0 then Threw else Done;
    var second := new ConfigStore<string>();
    second.OnHarvesterReady(a);
    second.OnHarvesterReady(b);
    assert FirstStop(2, firstThrows) == 0;
    var threw := second.SetHarvester(h1, firstThrows);
    afterThrow := second.harvestCallbacks;
    NothingStops(2, (i: nat) => Done);
    DeliveriesInOrder([a, b], h2);
    var _ := second.SetHarvester(h2, (i: nat) => Done);
    redelivered, waiting := second.delivered, second.harvestCallbacks;
  }

  /**
   * A callback queued twice can end differently on its two calls: when
   * the second call of `a` returns false, `b` is never called.
   */
  method RepeatedCallbackScenario(a: Callback, b: Callback, h: Harvester)
    returns (calls: seq<Delivery>, waiting: seq<Callback>)
    ensures calls == [Delivery(a, h), Delivery(a, h)] && waiting == []
  {
    var secondStops := (i: nat) => if i == 1 then ReturnedFalse else Done;
    var store := new ConfigStore<string>();
    store.OnHarvesterReady(a);
    store.OnHarvesterReady(a);
    store.OnHarvesterReady(b);
    assert FirstStop(3, secondStops) == 1;
    var _ := store.SetHarvester(h, secondStops);
    DeliveriesInOrder([a, a], h);
    assert [a, a, b][..2] == [a, a];
    calls, waiting := store.delivered, store.harvestCallbacks;
  }
}
