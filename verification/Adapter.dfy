/** The identity part of the adapter (adapter.py): claiming identities, binding inbound routes, resolving sends. */
module Adapter {
  import opened Wrappers
  import opened Routes
  import opened RouteRegistry
  import opened Migration

  type RuntimeId = nat

  /** Where one outbound delivery goes, with the channel type it was given or that was recorded. */
  datatype Delivery = Via(runtime: RuntimeId, channel: Option<int>) | Undelivered(reason: Refusal)

  datatype Refusal = NotConnected | UnknownRoute | IdentityUnavailable

  class OctoAdapter {
    const routes: IdentityRouteRegistry
    const runtimes: seq<RuntimeId>
    const homeChat: string
    const baseUid: string -> string  // the uid inside an old-style direct chat id
    var robotOf: map<RuntimeId, string>
    var runtimeOf: map<string, RuntimeId>
    var connected: set<RuntimeId>  // kept by the connections, which are not part of this model
    var spaceDmTargets: map<(RuntimeId, string), string>
    var startup: Startup

    constructor (routes: IdentityRouteRegistry, runtimes: seq<RuntimeId>, homeChat: string, baseUid: string -> string,
                 startup: Startup)
      requires routes.Valid()
      ensures Valid() && this.routes == routes && this.runtimes == runtimes && this.startup == startup
    {
      this.routes, this.runtimes, this.homeChat, this.baseUid := routes, runtimes, homeChat, baseUid;
      robotOf, runtimeOf, connected, spaceDmTargets, this.startup := map[], map[], {}, map[], startup;
    }

    /** Every robot id is served by the one runtime that registered under it, and no runtime serves two. */
    ghost predicate Valid()
      reads this, routes
    {
      && routes.Valid()
      && (forall robot <- runtimeOf :: runtimeOf[robot] in robotOf && robotOf[runtimeOf[robot]] == robot)
      && (forall runtime <- robotOf :: robotOf[runtime] in runtimeOf && runtimeOf[robotOf[runtime]] == runtime)
    }

    /** _claim_identity, and the runtime taking its robot id; false is the IdentityConflictError. */
    method ClaimIdentity(runtime: RuntimeId, robot: string) returns (ok: bool)
      requires Valid()
      modifies `robotOf, `runtimeOf
      ensures Valid()
      ensures ok <==> !(robot in old(runtimeOf) && old(runtimeOf)[robot] != runtime)
      ensures ok ==> robotOf == old(robotOf)[runtime := robot]
      ensures !ok ==> robotOf == old(robotOf) && runtimeOf == old(runtimeOf)
      ensures forall other <- old(runtimeOf) :: old(runtimeOf)[other] != runtime ==>
        other in runtimeOf && runtimeOf[other] == old(runtimeOf)[other]
    {
      if robot in runtimeOf && runtimeOf[robot] != runtime {
        return false;
      }
      if runtime in robotOf && robotOf[runtime] != robot {
        runtimeOf := runtimeOf - {robotOf[runtime]};
      }
      runtimeOf := runtimeOf[robot := runtime];
      robotOf := robotOf[runtime := robot];
      return true;
    }

    /** The identity that frozen targets are kept for: the legacy one, or that of the first runtime. */
    function Primary(): string
      reads this
    {
      if startup.legacy != "" then startup.legacy
      else if runtimes != [] && runtimes[0] in robotOf then robotOf[runtimes[0]]
      else ""
    }

    /** A target of the plan, while its migration is pending. */
    predicate Frozen(t: Target)
      reads this
    {
      startup.phase == Pending && exists p <- startup.plan :: p.target == t
    }

    predicate Refuses(q: Request)
      reads this
    {
      q.robot == "" || (Frozen(q.target) && (Primary() == "" || q.robot != Primary()))
    }

    /**
     bind_inbound_route: a conversation that is accepted belongs to the identity that received it.
     While a migration is pending, a frozen target is refused to every identity but the primary one.
     None is the ValueError of a bind with arguments that fail its checks.
     */
    method BindInboundRoute(q: Request) returns (accepted: Option<bool>)
      requires Valid()
      modifies routes
      ensures Valid()
      ensures startup.sole ==> accepted == Some(true) && routes.Model() == old(routes.Model())
      ensures !startup.sole && accepted == Some(true) ==>
        var s := routes.Model();
        && q.target in s.targets.items && s.targets.items[q.target] == q.robot && q.target !in s.targetConflicts
        && (q.session != "" ==> RobotForSession(s, q.session) == Some(q.robot))
        && q.Valid() && !Refuses(q)
      ensures !startup.sole && q.Valid() && !Refuses(q) && accepted != Some(true) ==>
        var c := Claim(old(routes.Model()), q);
        accepted == Some(false) && c.result in {Conflict, Capacity} && routes.Model() == c.routes
      ensures !startup.sole && Refuses(q) ==> accepted == Some(false) && routes.Model() == old(routes.Model())
      ensures !startup.sole && !Refuses(q) && !q.Valid() ==> accepted == None && routes.Model() == old(routes.Model())
    {
      if startup.sole {
        return Some(true);
      }
      if q.robot == "" {
        return Some(false);
      }
      if startup.phase == Pending && exists p <- startup.plan :: p.target == q.target {
        var primary := startup.legacy;
        if primary == "" && runtimes != [] {
          primary := if runtimes[0] in robotOf then robotOf[runtimes[0]] else "";
        }
        if primary == "" || q.robot != primary {
          return Some(false);
        }
      }
      ghost var before := routes.Model();
      var result := routes.Bind(q);
      if result.None? {
        return None;
      }
      if result.value in {Conflict, Capacity} {
        return Some(false);
      }
      BindSucceeds(before, q);
      return Some(true);
    }

    /** With a legacy identity on record, as a pending profile always has, it admits what the migration runs admit. */
    lemma AdmitsAsMigrating(q: Request)
      requires startup.legacy != "" && !startup.sole
      ensures q.Valid() && !Refuses(q) <==> Admitted(startup, q)
    {
    }

    predicate Serving(robot: string)
      reads this
    {
      robot in runtimeOf && runtimeOf[robot] in connected
    }

    /** The trusted identity of a send: the turn's, else the session's. */
    function TrustedRobot(current: string, key: string): string
      reads this, routes
    {
      if current != "" then current
      else match RobotForSession(routes.Model(), key) case None => "" case Some(r) => r
    }

    predicate SessionBlocked(current: string, key: string)
      reads this, routes
    {
      current == "" && key != "" && key in routes.Model().sessionConflicts
    }

    /** `t` is the one bound target of the chat, it is not in conflict, and its owner is connected. */
    ghost predicate Usable(t: Target, chatId: string)
      reads this, routes
      requires routes.Valid()
    {
      var s := routes.Model();
      t.chatId == chatId && Only(s, t) && t !in s.targetConflicts && Serving(s.targets.items[t])
    }

    /**
     resolve_outbound.  A send into a chat with any route state goes out only through the runtime
     claimed under the one unconflicted owner of the chat; a trusted identity is never replaced by
     another; and a chat with one usable target and a connected owner is served.
     */
    method ResolveOutbound(chatId: string, current: string, key: string, channel: Option<int>) returns (d: Delivery)
      requires Valid()
      modifies `spaceDmTargets
      ensures Valid()
      ensures startup.sole && runtimes != [] ==> d == Via(runtimes[0], channel)
      ensures !startup.sole && d.Via? && ChatHasState(routes.Model(), chatId) ==>
        exists t: Target :: Usable(t, chatId) && d.runtime == runtimeOf[routes.Model().targets.items[t]]
          && d.channel == (if channel.Some? then channel else Some(routes.Model().channels[t]))
      ensures !startup.sole && d.Via? && TrustedRobot(current, key) != "" ==>
        Serving(TrustedRobot(current, key)) && d.runtime == runtimeOf[TrustedRobot(current, key)]
      ensures !startup.sole && d.Via? && !ChatHasState(routes.Model(), chatId) && TrustedRobot(current, key) == "" ==>
        chatId == homeChat && Serving(startup.legacy) && d.runtime == runtimeOf[startup.legacy]
      ensures !startup.sole && runtimes != [] && !SessionBlocked(current, key) && d.Undelivered? ==>
        forall t: Target :: Usable(t, chatId) && t in routes.Model().wires ==>
          TrustedRobot(current, key) !in {"", routes.Model().targets.items[t]}
    {
      if runtimes == [] {
        return Undelivered(NotConnected);
      }
      if startup.sole {
        return Via(runtimes[0], channel);
      }
      if SessionBlocked(current, key) {
        return Undelivered(UnknownRoute);
      }
      var robot := TrustedIdentity(current, key);
      var lookup := routes.LookupChatId(chatId);
      LookupFacts(routes.Model(), chatId);
      if robot != "" {
        d := SendAs(robot, chatId, channel, lookup);
      } else {
        d := SendByRoute(chatId, channel, lookup);
      }
    }

    /** The identity of the turn or, failing that, the owner of the session. */
    method TrustedIdentity(current: string, key: string) returns (robot: string)
      requires Valid()
      ensures robot == TrustedRobot(current, key)
    {
      robot := current;
      if robot == "" && key != "" {
        var owner := routes.RobotIdForSession(key);
        robot := if owner.Some? then owner.value else "";
      }
    }

    /** A send under a trusted identity: through its own runtime, into its own chats and unknown ones. */
    method SendAs(robot: string, chatId: string, channel: Option<int>, lookup: Option<TargetLookup>) returns (d: Delivery)
      requires Valid() && lookup == LookupChat(routes.Model(), chatId)
      modifies `spaceDmTargets
      ensures Valid()
      ensures d.Via? ==> Serving(robot) && d.runtime == runtimeOf[robot]
      ensures d.Via? && ChatHasState(routes.Model(), chatId) ==>
        lookup.Some? && lookup.value.robot == robot && d.channel == if channel.Some? then channel else Some(lookup.value.channel)
      ensures d.Undelivered? && Serving(robot) && lookup.Some? ==> lookup.value.robot != robot
    {
      if robot !in runtimeOf || runtimeOf[robot] !in connected {
        return Undelivered(IdentityUnavailable);
      }
      if lookup.Some? {
        if lookup.value.robot != robot {
          return Undelivered(UnknownRoute);
        }
        RememberDm(runtimeOf[robot], chatId, lookup.value);
        return Via(runtimeOf[robot], if channel.Some? then channel else Some(lookup.value.channel));
      }
      var state := routes.ChatIdHasState(chatId);
      return if state then Undelivered(UnknownRoute) else Via(runtimeOf[robot], channel);
    }

    /** A send without an identity: through the owner of the chat, or the legacy one into the home chat. */
    method SendByRoute(chatId: string, channel: Option<int>, lookup: Option<TargetLookup>) returns (d: Delivery)
      requires Valid() && lookup == LookupChat(routes.Model(), chatId)
      modifies `spaceDmTargets
      ensures Valid()
      ensures d.Via? && lookup.Some? ==> Serving(lookup.value.robot) && d.runtime == runtimeOf[lookup.value.robot]
      ensures d.Via? && lookup.Some? ==> d.channel == if channel.Some? then channel else Some(lookup.value.channel)
      ensures d.Via? && lookup.None? ==> !ChatHasState(routes.Model(), chatId) && chatId == homeChat
      ensures d.Via? && lookup.None? ==> Serving(startup.legacy) && d.runtime == runtimeOf[startup.legacy]
      ensures d.Undelivered? && lookup.Some? ==> !Serving(lookup.value.robot)
    {
      if lookup.None? {
        var state := routes.ChatIdHasState(chatId);
        if state || homeChat == "" || chatId != homeChat || startup.legacy == "" {
          return Undelivered(UnknownRoute);
        }
        if startup.legacy !in runtimeOf || runtimeOf[startup.legacy] !in connected {
          return Undelivered(IdentityUnavailable);
        }
        return Via(runtimeOf[startup.legacy], channel);
      }
      if lookup.value.robot !in runtimeOf || runtimeOf[lookup.value.robot] !in connected {
        return Undelivered(IdentityUnavailable);
      }
      RememberDm(runtimeOf[lookup.value.robot], chatId, lookup.value);
      return Via(runtimeOf[lookup.value.robot], if channel.Some? then channel else Some(lookup.value.channel));
    }

    /** The wire id a direct chat is sent to, kept with the runtime that sends. */
    method RememberDm(runtime: RuntimeId, chatId: string, l: TargetLookup)
      modifies `spaceDmTargets
      ensures l.channel != 1 ==> spaceDmTargets == old(spaceDmTargets)
      ensures l.channel == 1 ==>
        spaceDmTargets == old(spaceDmTargets)[(runtime, chatId) := if l.wire == chatId then baseUid(chatId) else l.wire]
    {
      if l.channel == 1 {
        var wire := if l.wire == chatId then baseUid(chatId) else l.wire;
        spaceDmTargets := spaceDmTargets[(runtime, chatId) := wire];
      }
    }
  }

  /** The answer of a lookup is the one bound target of the chat, and there is one whenever that target can be used. */
  lemma LookupFacts(s: Routes, chatId: string)
    requires Inv(s)
    ensures LookupChat(s, chatId).Some? ==>
      var l := LookupChat(s, chatId).value;
      var t := Target(l.chatType, chatId);
      && Only(s, t) && t !in s.targetConflicts && ChatHasState(s, chatId)
      && l.robot == s.targets.items[t] && l.channel == s.channels[t]
    ensures forall t: Target :: t.chatId == chatId && Only(s, t) && t !in s.targetConflicts && t in s.wires ==>
      LookupChat(s, chatId).Some? && LookupChat(s, chatId).value.robot == s.targets.items[t]
  {
    if LookupChat(s, chatId).Some? {
      var l := LookupChat(s, chatId).value;
      LookupChatIsUnique(s, chatId, l);
      var u := Target(l.chatType, chatId);
      assert u in s.targets.items && u.chatId == chatId;
    }
    forall t: Target | t.chatId == chatId && Only(s, t) && t !in s.targetConflicts && t in s.wires
      ensures LookupChat(s, chatId).Some? && LookupChat(s, chatId).value.robot == s.targets.items[t]
    {
      OnlyIsFound(s, t);
    }
  }
}
