/** The caching step of request assembly: three zones, one after the other, on one running budget. */
module CacheAssembly {
  import opened Prelude
  import opened Json
  import opened Cache

  /** The parts of a request that are decorated. */
  datatype Args = Args(toolConfig: Option<Json>, system: Json, messages: Json)

  /** What a request says of caching itself. */
  datatype Control = Control(system: Option<bool>, messages: Option<bool>, ttl: Option<string>)

  datatype Policy = Policy(caps: Caps, control: Control, globalDefault: bool, ttlDefault: string)
  {
    /** Tools follow the system switch. */
    function SystemOn(off: bool): bool { !off && control.system.GetOr(globalDefault) }

    function MessagesOn(off: bool): bool { !off && control.messages.GetOr(globalDefault) }

    function Ceiling(): nat { caps.maxCheckpoints.GetOr(DEFAULT_MAX_CACHE_CHECKPOINTS) }

    function Ttl(): Option<string> { Some(ResolveTtl(control.ttl, ttlDefault, caps)) }
  }

  /** The tools of a tool configuration, if it has any. */
  function ToolsOf(toolConfig: Option<Json>): Option<Json> {
    match toolConfig
    case Some(Object(fields)) => if "tools" in fields then Some(fields["tools"]) else None
    case _ => None
  }

  function WithTools(toolConfig: Option<Json>, tools: Json): Option<Json>
    requires ToolsOf(toolConfig).Some?
  {
    Some(Object(toolConfig.value.fields["tools" := tools]))
  }

  function MapTools(toolConfig: Option<Json>, f: Json -> Json): Option<Json> {
    match ToolsOf(toolConfig)
    case None => toolConfig
    case Some(tools) => WithTools(toolConfig, f(tools))
  }

  function CountTools(toolConfig: Option<Json>): nat {
    match ToolsOf(toolConfig)
    case None => 0
    case Some(tools) => CountPoints(tools)
  }

  function CountArgs(args: Args): nat {
    CountTools(args.toolConfig) + CountPoints(args.system) + CountPoints(args.messages)
  }

  function EraseArgs(args: Args): Args {
    Args(MapTools(args.toolConfig, Erase), Erase(args.system), Erase(args.messages))
  }

  // ---- the three zones in order ----

  function ToolZone(policy: Policy, off: bool): Json -> Json {
    tools => DecorateTools(tools, policy.caps, policy.SystemOn(off), 0, Some(policy.Ceiling()), policy.Ttl())
  }

  function Decorate(policy: Policy, args: Args, off: bool): Args {
    var toolConfig := MapTools(args.toolConfig, ToolZone(policy, off));
    var system := DecorateSystem(args.system, policy.caps, policy.SystemOn(off), policy.Ttl());
    var used := CountTools(toolConfig) + CountPoints(system);
    Args(toolConfig, system,
         DecorateMessages(args.messages, policy.caps, policy.MessagesOn(off), used,
                          Some(policy.Ceiling()), policy.Ttl()))
  }

  method DecorateZones(policy: Policy, args: Args, off: bool) returns (decorated: Args, injected: bool)
    ensures decorated == Decorate(policy, args, off)
    ensures injected <==> CountArgs(decorated) > 0
  {
    var used := 0;
    decorated := args;
    match ToolsOf(decorated.toolConfig)
    {
      case None =>
      case Some(tools) =>
        var specs := DecorateTools(tools, policy.caps, policy.SystemOn(off), used,
                                   Some(policy.Ceiling()), policy.Ttl());
        used := used + CountPoints(specs);
        decorated := decorated.(toolConfig := WithTools(decorated.toolConfig, specs));
    }
    var system := DecorateSystem(decorated.system, policy.caps, policy.SystemOn(off), policy.Ttl());
    used := used + CountPoints(system);
    decorated := decorated.(system := system);
    var messages := PlaceMessagePoint(decorated.messages, policy.caps, policy.MessagesOn(off), used,
                                      Some(policy.Ceiling()), policy.Ttl());
    used := used + CountPoints(messages);
    decorated := decorated.(messages := messages);
    injected := used > 0;
  }

  // ---- what decoration keeps ----

  predicate ToolPointDue(policy: Policy, args: Args, off: bool) {
    ToolsOf(args.toolConfig).Some?
    && TakesToolPoint(ToolsOf(args.toolConfig).value, policy.caps, policy.SystemOn(off), 0, Some(policy.Ceiling()))
  }

  predicate SystemPointDue(policy: Policy, args: Args, off: bool) {
    TakesSystemPoint(args.system, policy.caps, policy.SystemOn(off))
  }

  lemma {:induction false} ToolZoneGains(policy: Policy, args: Args, off: bool)
    ensures var d := Decorate(policy, args, off);
            && MapTools(d.toolConfig, Erase) == MapTools(args.toolConfig, Erase)
            && CountTools(d.toolConfig) == CountTools(args.toolConfig)
                                          + if ToolPointDue(policy, args, off) then 1 else 0
  {
    if ToolsOf(args.toolConfig).Some? {
      var tools := ToolsOf(args.toolConfig).value;
      ToolsGainAtMostOne(tools, policy.caps, policy.SystemOn(off), 0, Some(policy.Ceiling()), policy.Ttl());
      var fields, specs := args.toolConfig.value.fields, ToolZone(policy, off)(tools);
      assert fields["tools" := specs]["tools" := Erase(specs)] == fields["tools" := Erase(tools)];
    }
  }

  /** Decoration adds cache points and nothing else, at most one to each zone. */
  lemma {:induction false} DecorationAddsOnlyPoints(policy: Policy, args: Args, off: bool)
    ensures var d := Decorate(policy, args, off);
            && EraseArgs(d) == EraseArgs(args)
            && CountTools(d.toolConfig) == CountTools(args.toolConfig)
                                          + (if ToolPointDue(policy, args, off) then 1 else 0)
            && CountPoints(d.system) == CountPoints(args.system) + (if SystemPointDue(policy, args, off) then 1 else 0)
            && CountPoints(args.messages) <= CountPoints(d.messages) <= CountPoints(args.messages) + 1
            && (d.messages != args.messages ==> CountTools(d.toolConfig) + CountPoints(d.system) < policy.Ceiling())
  {
    var d := Decorate(policy, args, off);
    ToolZoneGains(policy, args, off);
    SystemGainsAtMostOne(args.system, policy.caps, policy.SystemOn(off), policy.Ttl());
    MessagesGainAtMostOne(args.messages, policy.caps, policy.MessagesOn(off),
                          CountTools(d.toolConfig) + CountPoints(d.system), Some(policy.Ceiling()), policy.Ttl());
  }

  /** With caching off nothing is touched. */
  lemma {:induction false} OffTouchesNothing(policy: Policy, args: Args)
    ensures Decorate(policy, args, true) == args
  {
    if ToolsOf(args.toolConfig).Some? {
      var fields := args.toolConfig.value.fields;
      assert fields["tools" := fields["tools"]] == fields;
    }
  }

  /** A request without points, decorated and then erased, is the request with caching off. */
  lemma {:induction false} ErasingUndoesDecoration(policy: Policy, args: Args, off: bool)
    requires CountArgs(args) == 0
    ensures EraseArgs(Decorate(policy, args, off)) == args == Decorate(policy, args, true)
  {
    DecorationAddsOnlyPoints(policy, args, off);
    OffTouchesNothing(policy, args);
    NothingToErase(args.system);
    NothingToErase(args.messages);
    if ToolsOf(args.toolConfig).Some? {
      var fields := args.toolConfig.value.fields;
      NothingToErase(fields["tools"]);
      assert fields["tools" := fields["tools"]] == fields;
    }
  }

  /**
   * The ceiling. Because the system prompt ignores the budget, the points of a request stay within it
   * exactly when it is at least 2, or the system takes no point, or it is 1 and the tools take none.
   */
  lemma {:induction false} WithinCeilingIff(policy: Policy, args: Args, off: bool)
    requires CountArgs(args) == 0
    ensures CountArgs(Decorate(policy, args, off)) <= policy.Ceiling()
            <==> || policy.Ceiling() >= 2
                 || !SystemPointDue(policy, args, off)
                 || (policy.Ceiling() == 1 && !ToolPointDue(policy, args, off))
  {
    DecorationAddsOnlyPoints(policy, args, off);
    MessagesUnchangedCount(policy, args, off);
  }

  /** With no points allowed the system prompt takes one all the same. */
  lemma {:induction false} SystemOverrunsCeiling(text: string, ttl: string)
    ensures var policy := Policy(Caps(None, Some(1), Some(0), false), Control(None, None, None), true, ttl);
            var args := Args(None, Array([Object(map["text" := String(text)])]), Array([]));
            && policy.Ceiling() == 0 && CountArgs(args) == 0
            && CountArgs(Decorate(policy, args, false)) == 1
  {
    var policy := Policy(Caps(None, Some(1), Some(0), false), Control(None, None, None), true, ttl);
    var block := Object(map["text" := String(text)]);
    var args := Args(None, Array([block]), Array([]));
    assert CountBlocks([]) == 0 && CountPoints(args.messages) == 0;
    assert CountBlocks([block]) == 0 by {
      OneMoreBlock([], block);
      assert [] + [block] == [block];
    }
    assert SystemPointDue(policy, args, false);
    DecorationAddsOnlyPoints(policy, args, false);
    var d := Decorate(policy, args, false);
    assert d.messages == args.messages;
  }

  lemma {:induction false} MessagesUnchangedCount(policy: Policy, args: Args, off: bool)
    ensures var d := Decorate(policy, args, off);
            CountPoints(d.messages) > CountPoints(args.messages) ==> d.messages != args.messages
  {
  }
}
