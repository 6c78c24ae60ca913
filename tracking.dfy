/**
 * The tracking reconciler of geolocation.js as pure decisions. Each source
 * function that talks to the background-geolocation plugin becomes a
 * function returning a Reaction: the effects it has at once (plugin
 * commands, calls into opaque code) and the callbacks it leaves with the
 * plugin. OnReply is the body of each such callback, run when the plugin
 * answers.
 */
module Tracking {
  import opened Wrappers
  import opened Preferences

  /** The optional flow action whose `gotoNextStep()` the reconciler calls. */
  datatype FlowAction = FlowAction(id: nat)

  /** The plugin events `addListeners` subscribes to. */
  datatype Event = Location | Error | ActivityChange | ProviderChange | MotionChange | Geofence

  /** The plugin commands the core issues. */
  datatype Command = Configure | SetConfig | Start | Stop | GetState | Subscribe(event: Event)

  /** A callback left with the plugin, with what the source captured in its closure. */
  datatype Pending =
    | AfterConfigure(cb: Option<Callback>)
    | AfterGetState(wanted: bool, flow: Option<FlowAction>)
    | AfterSetConfig(flow: Option<FlowAction>)
    | AfterStart(flow: Option<FlowAction>)
    | AfterStop

  /** What the core does that leaves it: a command, `sub.remove()`, `gotoNextStep()`, `cb()`. */
  datatype Effect = Send(cmd: Command) | Remove(sub: Subscription) | NextStep(flow: FlowAction) | Invoke(cb: Callback)

  /** Effects in order, callbacks left with the plugin, and whether the store becomes configured. */
  datatype Reaction = Reaction(effects: seq<Effect>, awaits: seq<Pending>, configured: bool)

  /** The commands among `effects`, in order. */
  function Commands(effects: seq<Effect>): seq<Command>
  {
    if effects == [] then []
    else (if effects[0].Send? then [effects[0].cmd] else []) + Commands(effects[1..])
  }

  /** The flow actions advanced among `effects`, in order. */
  function Steps(effects: seq<Effect>): seq<FlowAction>
  {
    if effects == [] then []
    else (if effects[0].NextStep? then [effects[0].flow] else []) + Steps(effects[1..])
  }

  lemma {:induction false} CommandsAppend(a: seq<Effect>, b: seq<Effect>)
    ensures Commands(a + b) == Commands(a) + Commands(b)
    ensures Steps(a + b) == Steps(a) + Steps(b)
  {
    if a != [] {
      assert (a + b)[1..] == a[1..] + b;
      CommandsAppend(a[1..], b);
    } else {
      assert a + b == b;
    }
  }

  /** The flow action that is given, if any. */
  function Flows(flow: Option<FlowAction>): seq<FlowAction>
  {
    if flow.Some? then [flow.value] else []
  }

  /** `if (opt_flowAction != null) opt_flowAction.gotoNextStep()`. */
  function Advance(flow: Option<FlowAction>): (r: seq<Effect>)
    ensures Commands(r) == []
    ensures Steps(r) == Flows(flow)
  {
    if flow.Some? then [NextStep(flow.value)] else []
  }

  function Issue(cmd: Command, k: Pending): Reaction
  {
    Reaction([Send(cmd)], [k], false)
  }

  /** `configure(opt_cb)`: the store is marked configured only inside the plugin's callback. */
  function ConfigurePlugin(cb: Option<Callback>): (r: Reaction)
    ensures Commands(r.effects) == [Configure] && !r.configured
    ensures r.awaits == [AfterConfigure(cb)]
  {
    Issue(Configure, AfterConfigure(cb))
  }

  function StartTracking(flow: Option<FlowAction>): (r: Reaction)
    ensures Commands(r.effects) == [Start] && Steps(r.effects) == []
    ensures r.awaits == [AfterStart(flow)]
  {
    Issue(Start, AfterStart(flow))
  }

  function Reconfigure(flow: Option<FlowAction>): (r: Reaction)
    ensures Commands(r.effects) == [SetConfig] && Steps(r.effects) == []
    ensures r.awaits == [AfterSetConfig(flow)]
  {
    Issue(SetConfig, AfterSetConfig(flow))
  }

  /** `stopTracking` advances the flow right after issuing stop, not in stop's callback. */
  function StopTracking(flow: Option<FlowAction>): (r: Reaction)
    ensures Commands(r.effects) == [Stop] && Steps(r.effects) == Flows(flow)
    ensures r.effects[0] == Send(Stop)
    ensures r.awaits == [AfterStop]
  {
    Reaction([Send(Stop)] + Advance(flow), [AfterStop], false)
  }

  /** `toggleTracking` only asks for the plugin's state; the decision waits for the answer. */
  function ToggleTracking(wanted: bool, flow: Option<FlowAction>): (r: Reaction)
    ensures Commands(r.effects) == [GetState] && Steps(r.effects) == []
    ensures r.awaits == [AfterGetState(wanted, flow)]
  {
    Issue(GetState, AfterGetState(wanted, flow))
  }

  /** The switch on (wanted, actual) inside `toggleTracking`'s state callback. */
  function Decide(wanted: bool, actual: bool, flow: Option<FlowAction>): (r: Reaction)
    ensures |Commands(r.effects)| == if wanted != actual then 1 else 0
    ensures wanted && !actual ==> Commands(r.effects) == [SetConfig] && Steps(r.effects) == []
    ensures !wanted && actual ==> Commands(r.effects) == [Stop] && Steps(r.effects) == Flows(flow)
    ensures wanted && actual ==> Steps(r.effects) == Flows(flow) && r.awaits == []
    ensures !wanted && !actual ==> r.effects == [] && r.awaits == []
  {
    if wanted && !actual then Reconfigure(flow)
    else if wanted && actual then Reaction(Advance(flow), [], false)
    else if !wanted && actual then StopTracking(flow)
    else Reaction([], [], false)
  }

  /** The body of a plugin callback, given the `enabled` flag the plugin reports (ignored by start and stop). */
  function OnReply(k: Pending, enabled: bool): (r: Reaction)
    ensures |r.awaits| <= 1
    ensures r.configured <==> k.AfterConfigure?
    ensures k.AfterConfigure? ==>
      r.effects == (if k.cb.Some? then [Invoke(k.cb.value)] else []) && r.awaits == []
  {
    match k
    case AfterConfigure(cb) =>
      Reaction(if cb.Some? then [Invoke(cb.value)] else [], [], true)
    case AfterGetState(wanted, flow) =>
      Decide(wanted, enabled, flow)
    case AfterSetConfig(flow) =>
      if !enabled then StartTracking(flow) else Reaction(Advance(flow), [], false)
    case AfterStart(flow) =>
      Reaction(Advance(flow), [], false)
    case AfterStop =>
      Reaction([], [], false)
  }

  /**
   * The effects of answering `k` and then each callback it leaves, one
   * after another, with the reported flags `replies`.
   */
  function Settle(k: Pending, replies: seq<bool>): seq<Effect>
    decreases |replies|
  {
    if replies == [] then []
    else
      var r := OnReply(k, replies[0]);
      r.effects + (if r.awaits == [] then [] else Settle(r.awaits[0], replies[1..]))
  }

  /** Answering start's callback advances the flow and sends nothing. */
  lemma SettleStart(flow: Option<FlowAction>, replies: seq<bool>)
    requires |replies| >= 1
    ensures Commands(Settle(AfterStart(flow), replies)) == []
    ensures Steps(Settle(AfterStart(flow), replies)) == Flows(flow)
  {
  }

  /** After setConfig: start when the plugin still reports tracking disabled, else advance at once. */
  lemma {:induction false} SettleSetConfig(flow: Option<FlowAction>, replies: seq<bool>)
    requires |replies| >= 2
    ensures Commands(Settle(AfterSetConfig(flow), replies)) == if replies[0] then [] else [Start]
    ensures Steps(Settle(AfterSetConfig(flow), replies)) == Flows(flow)
  {
    var r := OnReply(AfterSetConfig(flow), replies[0]);
    if replies[0] {
      assert Settle(AfterSetConfig(flow), replies) == Advance(flow);
    } else {
      var rest := Settle(AfterStart(flow), replies[1..]);
      assert Settle(AfterSetConfig(flow), replies) == [Send(Start)] + rest;
      SettleStart(flow, replies[1..]);
      CommandsAppend([Send(Start)], rest);
    }
  }

  /** Wanted on, reported off: setConfig, then start if the plugin still reports off. */
  lemma SettleTurnOn(flow: Option<FlowAction>, replies: seq<bool>)
    requires |replies| >= 3 && !replies[0]
    ensures Commands(Settle(AfterGetState(true, flow), replies)) ==
      if replies[1] then [SetConfig] else [SetConfig, Start]
    ensures Steps(Settle(AfterGetState(true, flow), replies)) == Flows(flow)
  {
    var rest := Settle(AfterSetConfig(flow), replies[1..]);
    assert Settle(AfterGetState(true, flow), replies) == [Send(SetConfig)] + rest;
    SettleSetConfig(flow, replies[1..]);
    CommandsAppend([Send(SetConfig)], rest);
  }

  /** Wanted off, reported on: stop, with the flow advanced at once and nothing after stop's callback. */
  lemma SettleTurnOff(flow: Option<FlowAction>, replies: seq<bool>)
    requires |replies| >= 2 && replies[0]
    ensures Commands(Settle(AfterGetState(false, flow), replies)) == [Stop]
    ensures Steps(Settle(AfterGetState(false, flow), replies)) == Flows(flow)
  {
    var r := StopTracking(flow);
    assert Settle(AfterStop, replies[1..]) == [];
    assert r.effects + [] == r.effects;
    assert Settle(AfterGetState(false, flow), replies) == r.effects;
  }

  /**
   * A whole reconciliation. When the plugin answers every callback,
   * `toggleTracking` sends the commands of the decision table (setConfig
   * followed by start when the plugin still reports tracking disabled) and
   * advances the flow exactly once, except for (false, false), which never
   * advances it.
   */
  lemma ToggleSettles(wanted: bool, flow: Option<FlowAction>, replies: seq<bool>)
    requires |replies| >= 3
    ensures Commands(Settle(AfterGetState(wanted, flow), replies)) ==
      if wanted && !replies[0] then (if replies[1] then [SetConfig] else [SetConfig, Start])
      else if !wanted && replies[0] then [Stop]
      else []
    ensures Steps(Settle(AfterGetState(wanted, flow), replies)) ==
      if !wanted && !replies[0] then [] else Flows(flow)
  {
    if wanted && !replies[0] {
      SettleTurnOn(flow, replies);
    } else if wanted {
      assert Settle(AfterGetState(wanted, flow), replies) == Advance(flow) + [];
    } else if replies[0] {
      SettleTurnOff(flow, replies);
    } else {
      assert Settle(AfterGetState(wanted, flow), replies) == [];
    }
  }
}
