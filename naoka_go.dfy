/**
 * The NaokaGo plugin: the per-room state (the actor registry, the runtime
 * policy, the game id) and the host callbacks that admit actors, guard
 * property updates and moderate raised events. Each callback issues its
 * terminal actions on the call-info object it receives and appends the
 * outbound calls it makes (to the host and to EventLogic) to `sent`.
 */
module Plugin {
  import opened Wrappers
  import opened HostTypes
  import opened RuntimeConfiguration
  import opened Registry
  import opened Moderation

  const InvalidJwt := "Invalid JWT presented."
  const KickedReason := "*TeamSpeak Voice*: You have been kicked from the server."

  /** Fail with the sanitizer's error, when it reported one (create and join do not return after it). */
  function FailIfError(error: string): seq<Terminal>
  {
    if error != "" then [Failed(error)] else []
  }

  ghost predicate IsModerator(jwt: JwtValidation)
  {
    ModeratorTag in jwt.tags
  }

  /** Once set, an actor's Instantiated flag stays set while its record exists. */
  ghost predicate FlagsKept(before: map<int, Session>, after: map<int, Session>)
  {
    forall k :: k in before && k in after && before[k].instantiated ==> after[k].instantiated
  }

  /** The executive message a master's kick sends: to the first record with the target id, unless the lookup yields key 0. */
  ghost function KickMessages(order: seq<int>, actors: map<int, Session>, targetUser: string, message: string): seq<Outbound>
    requires Within(order, actors)
  {
    var i := FirstIndexOfUser(order, actors, targetUser);
    if i < |order| && order[i] != 0 then [ExecutiveMessage(order[i], message)] else []
  }

  /** The outbound calls of an ExecutiveAction packet. */
  ghost function ExecutiveOutbound(action: ExecutiveAction, order: seq<int>, actors: map<int, Session>,
                                   sender: int, masterClientId: int): seq<Outbound>
    requires Within(order, actors)
    requires action.RequestPlayerMods? ==> LongIds(actors, sender)
  {
    match action
    case RequestPlayerMods(blocked, muted) => ModerationReplies(order, actors, sender, blocked, muted)
    case Kick(targetUser, message) =>
      if masterClientId != sender then [] else KickMessages(order, actors, targetUser, message)
    case Warn => []
    case OtherAction => []
  }

  /** The terminal the executive sub-handler issues before the enclosing Cancel. */
  function ExecutiveTerminals(action: ExecutiveAction, sender: int, masterClientId: int): seq<Terminal>
  {
    if action.Kick? && masterClientId != sender then [Failed(KickDenied)] else []
  }

  /** The casts OnRaiseEvent makes on the payload succeed. */
  ghost predicate PayloadReadable(req: RaiseEventRequest, actors: map<int, Session>, sender: int)
  {
    && (Classify(req.evCode) == ExecutiveActionEvent ==>
          && req.parameter245.ExecutivePacket?
          && (req.parameter245.action.RequestPlayerMods? ==> LongIds(actors, sender)))
    && (req.evCode == 202 ==>
          && req.parameter245.Table?
          && (0 in req.parameter245.entries ==> req.parameter245.entries[0].Text?))
  }

  /** The paths on which OnRaiseEvent indexes the registry by the sender. */
  ghost predicate ReadsSenderRecord(req: RaiseEventRequest, sender: int, masterClientId: int)
  {
    match Classify(req.evCode)
    case Unauthorized => true
    case UserRecordUpdate => true
    case ExecutiveActionEvent =>
      req.parameter245.ExecutivePacket? && req.parameter245.action.Kick? && masterClientId == sender
    case Instantiation =>
      req.evCode == 202 && req.parameter245.Table? && SpawnType(req.parameter245.entries) == Some(PlayerType)
    case _ => false
  }

  class NaokaGo {
    /** ActorsInternalProps. */
    var actors: map<int, Session>
    /** RuntimeConfig without its gameId entry. */
    var runtime: RuntimeConfig
    /** RuntimeConfig["gameId"], set by OnCreateGame. */
    var gameId: Option<string>
    /** The calls made on the host and on EventLogic, oldest first. */
    var sent: seq<Outbound>

    ghost predicate Valid()
      reads this
    {
      Keyed(actors)
    }

    constructor ()
      ensures Valid()
      ensures actors == map[] && runtime == Defaults() && gameId == None && sent == []
    {
      actors := map[];
      runtime := Defaults();
      gameId := None;
      sent := [];
    }

    /** The configuration part of SetupInstance, given what the remote fetch returned. */
    method SetupInstance(remote: Option<RemoteConfig>) returns (ok: bool)
      modifies this`runtime
      ensures ok && runtime == Merged(remote)
    {
      runtime := LoadRuntimeConfig(remote);
      ok := true;
    }

    method OnCreateGame(info: CallInfo<CreateGameRequest>,
                        validate: string -> JwtValidation, prepare: (int, Props) -> Prepared)
      requires Valid()
      requires validate(info.request.joinToken).valid ==> 1 !in actors  // Dictionary.Add throws on a present key
      modifies this`actors, this`gameId, this`sent, info
      ensures Valid()
      ensures gameId == Some(old(info.request).gameId)
      ensures FlagsKept(old(actors), actors)
      ensures var req := old(info.request); var jwt := validate(req.joinToken);
        !jwt.valid ==>
          && actors == old(actors) && sent == old(sent) && info.request == req
          && info.terminals == old(info.terminals) + [Failed(InvalidJwt)]
      ensures var req := old(info.request); var jwt := validate(req.joinToken);
        var prepared := prepare(1, req.actorProperties);
        jwt.valid ==>
          && actors == old(actors)[1 := NewSession(1, jwt)]
          && info.request == req.(actorProperties := prepared.props)
          && info.terminals == old(info.terminals) + FailIfError(prepared.error) + [Continued]
          && sent == old(sent) + [ModerationRequest(1),
                                  RatelimiterValues(1, runtime.configuredRateLimits, runtime.ratelimiterBoolean)]
    {
      gameId := Some(info.request.gameId);
      var jwt := validate(info.request.joinToken);
      if !jwt.valid {
        info.Fail(InvalidJwt);
        return;
      }
      actors := actors[1 := NewSession(1, jwt)];
      var prepared := prepare(1, info.request.actorProperties);
      if prepared.error != "" {
        info.Fail(prepared.error);
      }
      info.request := info.request.(actorProperties := prepared.props);
      info.Continue();
      sent := sent + [ModerationRequest(1)];
      sent := sent + [RatelimiterValues(1, runtime.configuredRateLimits, runtime.ratelimiterBoolean)];
    }

    method OnJoin(info: CallInfo<JoinGameRequest>, order: seq<int>,
                  validate: string -> JwtValidation, prepare: (int, Props) -> Prepared)
      requires Valid()
      requires IsEnumeration(order, actors)
      requires var jwt := validate(info.request.joinToken);
        jwt.valid && JoinAdmissible(actors, jwt.userId, jwt.ip, IsModerator(jwt), runtime.maxAccsPerIp) ==>
          info.request.actorNr !in actors  // Dictionary.Add throws on a present key
      modifies this`actors, this`sent, info
      ensures Valid()
      ensures FlagsKept(old(actors), actors)
      ensures var req := old(info.request); var jwt := validate(req.joinToken);
        !jwt.valid ==>
          && actors == old(actors) && sent == old(sent) && info.request == req
          && info.terminals == old(info.terminals) + [Failed(InvalidJwt)]
      ensures var req := old(info.request); var jwt := validate(req.joinToken);
        var verdict := ScanVerdict(order, old(actors), jwt.userId, jwt.ip, IsModerator(jwt), runtime.maxAccsPerIp, 0);
        jwt.valid && !JoinAdmissible(old(actors), jwt.userId, jwt.ip, IsModerator(jwt), runtime.maxAccsPerIp) ==>
          && verdict.Reject?
          && (verdict.reason == AlreadyInRoom || verdict.reason == AccountLimitReached)
          && actors == old(actors) && sent == old(sent) && info.request == req
          && info.terminals == old(info.terminals) + [Failed(verdict.reason)]
      ensures var req := old(info.request); var jwt := validate(req.joinToken);
        var prepared := prepare(info.actorNr, req.actorProperties);
        jwt.valid && JoinAdmissible(old(actors), jwt.userId, jwt.ip, IsModerator(jwt), runtime.maxAccsPerIp) ==>
          && actors == old(actors)[req.actorNr := NewSession(req.actorNr, jwt)]
          && info.request == req.(actorProperties := prepared.props)
          && info.terminals == old(info.terminals) + FailIfError(prepared.error) + [Continued]
          && sent == old(sent) + [ModerationRequest(info.actorNr), ModerationRequestToAllFor(info.actorNr),
                                  RatelimiterValues(info.actorNr, runtime.configuredRateLimits, runtime.ratelimiterBoolean)]
    {
      var jwt := validate(info.request.joinToken);
      if !jwt.valid {
        info.Fail(InvalidJwt);
        return;
      }
      var verdict := ScanRegistry(actors, order, jwt.userId, jwt.ip, ModeratorTag in jwt.tags, runtime.maxAccsPerIp);
      if verdict.Reject? {
        info.Fail(verdict.reason);
        return;
      }
      var actorNr := info.request.actorNr;
      actors := actors[actorNr := NewSession(actorNr, jwt)];
      var prepared := prepare(info.actorNr, info.request.actorProperties);
      if prepared.error != "" {
        info.Fail(prepared.error);
      }
      info.request := info.request.(actorProperties := prepared.props);
      info.Continue();
      sent := sent + [ModerationRequest(info.actorNr)];
      sent := sent + [ModerationRequestToAllFor(info.actorNr)];
      sent := sent + [RatelimiterValues(info.actorNr, runtime.configuredRateLimits, runtime.ratelimiterBoolean)];
    }

    method OnCloseGame(info: CallInfo<()>)
      modifies info`terminals
      ensures info.terminals == old(info.terminals) + [Continued]
    {
      info.Continue();
    }

    /**
     * A property update aimed at another actor, or at the room (actor 0),
     * gets its sender removed and fails; otherwise the update is broadcast
     * with the sanitized set in place of the submitted one.
     */
    method BeforeSetProperties(info: CallInfo<SetPropertiesRequest>, prepare: (int, Props) -> Prepared)
      modifies this`sent, info
      ensures var req := old(info.request);
        req.actorNumber == 0 || req.actorNumber != info.actorNr ==>
          && sent == old(sent) + [RemoveActor(info.actorNr, KickedReason)]
          && info.request == req
          && info.terminals == old(info.terminals) + [Failed(KickedReason)]
      ensures var req := old(info.request); var prepared := prepare(info.actorNr, req.properties);
        req.actorNumber != 0 && req.actorNumber == info.actorNr && prepared.error != "" ==>
          && sent == old(sent)
          && info.request == req.(broadcast := true)
          && info.terminals == old(info.terminals) + [Failed(prepared.error)]
      ensures var req := old(info.request); var prepared := prepare(info.actorNr, req.properties);
        req.actorNumber != 0 && req.actorNumber == info.actorNr && prepared.error == "" ==>
          && sent == old(sent)
          && info.request == req.(broadcast := true, properties := prepared.props, parameter251 := Some(prepared.props))
          && info.terminals == old(info.terminals) + [Continued]
    {
      if info.request.actorNumber == 0 || info.request.actorNumber != info.actorNr {
        sent := sent + [RemoveActor(info.actorNr, KickedReason)];
        info.Fail(KickedReason);
        return;
      }
      info.request := info.request.(broadcast := true);
      var prepared := prepare(info.actorNr, info.request.properties);
      if prepared.error != "" {
        info.Fail(prepared.error);
        return;
      }
      info.request := info.request.(properties := prepared.props);
      info.request := info.request.(parameter251 := Some(prepared.props));
      info.Continue();
    }

    /** The departing actor's record, and only it, leaves the registry. */
    method OnLeave(info: CallInfo<()>)
      requires Valid()
      modifies this`actors, info`terminals
      ensures Valid()
      ensures actors == old(actors) - {info.actorNr}
      ensures info.terminals == old(info.terminals) + [Continued]
    {
      actors := actors - {info.actorNr};
      info.Continue();
    }

    method OnSetProperties(info: CallInfo<SetPropertiesRequest>)
      modifies info`terminals
      ensures info.terminals == old(info.terminals) + [Continued]
    {
      info.Continue();
    }

    /** The reply loop of a Request_PlayerMods packet. */
    method SendModerationReplies(sender: int, order: seq<int>, blocked: seq<string>, muted: seq<string>)
      requires Within(order, actors) && LongIds(actors, sender)
      modifies this`sent
      ensures sent == old(sent) + ModerationReplies(order, actors, sender, blocked, muted)
    {
      var i := 0;
      while i < |order|
        invariant 0 <= i <= |order|
        invariant Within(order[..i], actors)
        invariant sent == old(sent) + ModerationReplies(order[..i], actors, sender, blocked, muted)
      {
        assert order[..i + 1][..i] == order[..i];
        var key := order[i];
        var s := actors[key];
        if s.actorNr != sender {
          var u := IdPrefix(s.id);
          var isBlocked := u in blocked;
          var isMuted := u in muted;
          sent := sent + [ModerationReply(sender, key, isBlocked, isMuted)];
        }
        i := i + 1;
      }
      assert order[..|order|] == order;
    }

    /** The ExecutiveAction (event 33) sub-handlers, up to the enclosing Cancel. */
    method HandleExecutiveAction(info: CallInfo<RaiseEventRequest>, order: seq<int>, masterClientId: int)
      requires IsEnumeration(order, actors)
      requires info.request.parameter245.ExecutivePacket?
      requires info.request.parameter245.action.RequestPlayerMods? ==> LongIds(actors, info.actorNr)
      requires info.request.parameter245.action.Kick? && masterClientId == info.actorNr ==> info.actorNr in actors
      modifies this`sent, info`terminals
      ensures sent == old(sent) + ExecutiveOutbound(info.request.parameter245.action, order, actors, info.actorNr, masterClientId)
      ensures info.terminals == old(info.terminals) + ExecutiveTerminals(info.request.parameter245.action, info.actorNr, masterClientId)
    {
      match info.request.parameter245.action
      case RequestPlayerMods(blocked, muted) =>
        SendModerationReplies(info.actorNr, order, blocked, muted);
      case Kick(targetUser, message) =>
        if masterClientId != info.actorNr {
          info.Fail(KickDenied);
          return;
        }
        var i := FirstIndexOfUser(order, actors, targetUser);
        var target: Option<int> := if i < |order| then Some(order[i]) else None;
        ghost var requester := actors[info.actorNr].id;  // named in the log line
        if target.None? || target.value == 0 {
          // "Could not find target user": logged only.
        } else {
          sent := sent + [ExecutiveMessage(target.value, message)];
        }
      case Warn =>
      case OtherAction =>
    }

    /** The event-202 gate; `spawned` is false when it failed the callback. */
    method GateInstantiation(info: CallInfo<RaiseEventRequest>) returns (spawned: bool)
      requires Valid()
      requires info.request.parameter245.Table?
      requires SpawnType(info.request.parameter245.entries) == Some(PlayerType) ==> info.actorNr in actors
      modifies this`actors, info
      ensures Valid()
      ensures FlagsKept(old(actors), actors)
      ensures var req := old(info.request);
        SpawnType(req.parameter245.entries) != Some(PlayerType) ==>
          && !spawned && actors == old(actors) && info.request == req
          && info.terminals == old(info.terminals) + [Failed(OnlyPlayerSpawns)]
      ensures var req := old(info.request);
        SpawnType(req.parameter245.entries) == Some(PlayerType) && old(actors)[info.actorNr].instantiated ==>
          && !spawned && actors == old(actors) && info.request == req
          && info.terminals == old(info.terminals) + [Failed(AlreadyInstantiated)]
      ensures var req := old(info.request);
        SpawnType(req.parameter245.entries) == Some(PlayerType) && !old(actors)[info.actorNr].instantiated ==>
          && spawned
          && actors == old(actors)[info.actorNr := old(actors)[info.actorNr].(instantiated := true)]
          && info.request == req.(cache := AddToRoomCache,
                                  parameter245 := Table(req.parameter245.entries - {1, 2}))
          && info.terminals == old(info.terminals)
    {
      var spawnType := SpawnType(info.request.parameter245.entries);
      if spawnType != Some(PlayerType) {
        info.Fail(OnlyPlayerSpawns);
        return false;
      }
      if spawnType == Some(PlayerType) && actors[info.actorNr].instantiated {
        info.Fail(AlreadyInstantiated);
        return false;
      }
      if spawnType == Some(PlayerType) {
        actors := actors[info.actorNr := actors[info.actorNr].(instantiated := true)];
      }
      info.request := info.request.(cache := AddToRoomCache);
      // Force a spawn at the origin: drop the position and rotation entries.
      var entries := info.request.parameter245.entries;
      var trimmed := entries - {1};
      trimmed := trimmed - {2};
      assert trimmed == entries - {1, 2};
      info.request := info.request.(parameter245 := Table(trimmed));
      return true;
    }

    /**
     * The event moderation state machine. `host` is what the handler reads
     * from the host (the master client and the host's actor list) and
     * `order` the registry's enumeration order.
     */
    method OnRaiseEvent(info: CallInfo<RaiseEventRequest>, order: seq<int>, host: HostView,
                        prepare: (int, Props) -> Prepared)
      requires Valid()
      requires IsEnumeration(order, actors)
      requires PayloadReadable(info.request, actors, info.actorNr)
      requires ReadsSenderRecord(info.request, info.actorNr, host.masterClientId) ==> info.actorNr in actors
      modifies this`actors, this`sent, info
      ensures Valid()
      ensures FlagsKept(old(actors), actors)
      ensures old(info.request).evCode != 202 ==> actors == old(actors)
      ensures var req := old(info.request);
        Classify(req.evCode) == Unauthorized ==>
          && sent == old(sent) && info.request == req
          && info.terminals == old(info.terminals) + [Failed(UnauthorizedReason)]
      ensures var req := old(info.request);
        Classify(req.evCode) == Forwarded ==>
          && sent == old(sent) && info.request == req
          && info.terminals == old(info.terminals) + [Continued]
      ensures var req := old(info.request);
        Classify(req.evCode) == InterestListRequest ==>
          && sent == old(sent) + [BroadcastEvent([info.actorNr], 8, host.gameActors)]
          && info.request == req
          && info.terminals == old(info.terminals) + [Cancelled]
      ensures var req := old(info.request);
        Classify(req.evCode) == ExecutiveActionEvent ==>
          && sent == old(sent) + ExecutiveOutbound(req.parameter245.action, order, old(actors), info.actorNr, host.masterClientId)
          && info.request == req
          && info.terminals == old(info.terminals) + ExecutiveTerminals(req.parameter245.action, info.actorNr, host.masterClientId) + [Cancelled]
      ensures var req := old(info.request);
        Classify(req.evCode) == UserRecordUpdate ==>
          && sent == old(sent) + [PullPartialActorProperties(info.actorNr, old(actors)[info.actorNr].id)]
          && info.request == req
          && info.terminals == old(info.terminals) + [Cancelled]
      ensures var req := old(info.request); var prepared := prepare(info.actorNr, req.data);
        Classify(req.evCode) == EyeHeightUpdate ==>
          && info.request == req
          && (prepared.error != "" ==>
                sent == old(sent) && info.terminals == old(info.terminals) + [Failed(prepared.error)])
          && (prepared.error == "" ==>
                && sent == old(sent) + [SetProperties(info.actorNr, prepared.props), SendProperties(prepared.props, info.actorNr)]
                && info.terminals == old(info.terminals) + [Cancelled])
      ensures var req := old(info.request);
        Classify(req.evCode) == UnknownDropped ==>
          && sent == old(sent) && info.request == req
          && info.terminals == old(info.terminals) + [Cancelled]
      ensures var req := old(info.request);
        Classify(req.evCode) == Instantiation && req.evCode != 202 ==>
          && sent == old(sent) && info.request == req
          && info.terminals == old(info.terminals) + [Continued]
      ensures var req := old(info.request);
        req.evCode == 202 ==>
          var spawnType := SpawnType(req.parameter245.entries);
          && sent == old(sent)
          && (spawnType != Some(PlayerType) ==>
                && actors == old(actors) && info.request == req
                && info.terminals == old(info.terminals) + [Failed(OnlyPlayerSpawns)])
          && (spawnType == Some(PlayerType) && old(actors)[info.actorNr].instantiated ==>
                && actors == old(actors) && info.request == req
                && info.terminals == old(info.terminals) + [Failed(AlreadyInstantiated)])
          && (spawnType == Some(PlayerType) && !old(actors)[info.actorNr].instantiated ==>
                && actors == old(actors)[info.actorNr := old(actors)[info.actorNr].(instantiated := true)]
                && info.request == req.(cache := AddToRoomCache,
                                        parameter245 := Table(req.parameter245.entries - {1, 2}))
                && info.terminals == old(info.terminals) + [Continued])
    {
      var code := info.request.evCode;
      match Classify(code) {
        case Unauthorized =>
          ghost var suspect := actors[info.actorNr].id;  // named in the warning
          info.Fail(UnauthorizedReason);
          return;
        case Forwarded =>
          info.Continue();
        case InterestListRequest =>
          sent := sent + [BroadcastEvent([info.actorNr], 8, host.gameActors)];
          info.Cancel();
        case ExecutiveActionEvent =>
          HandleExecutiveAction(info, order, host.masterClientId);
          info.Cancel();
        case UserRecordUpdate =>
          sent := sent + [PullPartialActorProperties(info.actorNr, actors[info.actorNr].id)];
          info.Cancel();
        case EyeHeightUpdate =>
          var prepared := prepare(info.actorNr, info.request.data);
          if prepared.error != "" {
            info.Fail(prepared.error);
            return;
          }
          sent := sent + [SetProperties(info.actorNr, prepared.props)];
          sent := sent + [SendProperties(prepared.props, info.actorNr)];
          info.Cancel();
        case UnknownDropped =>
          info.Cancel();
        case Instantiation =>
      }
      if code >= 200 {
        if code == 202 {
          var spawned := GateInstantiation(info);
          if !spawned {
            return;
          }
        }
        info.Continue();
      }
    }
  }
}
