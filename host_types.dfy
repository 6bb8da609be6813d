/**
 * The values that cross the boundary between the relay host (Photon), the
 * NaokaGo plugin and its EventLogic collaborator: property sets, requests,
 * the call-info objects on which a handler issues its terminal action, and
 * the records of the outbound calls the plugin makes.
 */
module HostTypes {
  import opened Wrappers

  /** C# `byte`. */
  newtype byte = x: int | 0 <= x < 256

  /** A value stored in a property set or in an event payload table. */
  datatype Value = Text(s: string) | Number(n: int) | Opaque

  /** A Photon property set (a Hashtable). */
  type Props = map<Value, Value>

  /** The terminal actions of a Photon call-info object. */
  datatype Terminal = Continued | Failed(reason: string) | Cancelled

  /** What EventLogic.ValidateJoinJwt reports about a join token. */
  datatype JwtValidation = JwtValidation(valid: bool, userId: string, ip: string, tags: seq<string>)

  /** What EventLogic.PrepareProperties returns: the sanitized set and an error ("" when none). */
  datatype Prepared = Prepared(props: Props, error: string)

  /** The sub-types of an ExecutiveAction (event 33) packet, with the fields each one reads. */
  datatype ExecutiveAction =
    | RequestPlayerMods(blocked: seq<string>, muted: seq<string>)
    | Kick(targetUser: string, mainProperty: string)
    | Warn
    | OtherAction

  /** Parameter 245 of a RaiseEvent request, in the shapes the handler casts it to. */
  datatype EventData =
    | Table(entries: map<byte, Value>)      // a Hashtable (event 202)
    | ExecutivePacket(action: ExecutiveAction)  // a Dictionary<byte, object> (event 33)
    | OtherData

  datatype CacheOperation = DoNotCache | AddToRoomCache | OtherCacheOperation(code: byte)

  datatype CreateGameRequest = CreateGameRequest(gameId: string, joinToken: string, actorProperties: Props)

  datatype JoinGameRequest = JoinGameRequest(actorNr: int, joinToken: string, actorProperties: Props)

  /** `parameter251` is Parameters[251], which the handler overwrites with the sanitized set. */
  datatype SetPropertiesRequest =
    SetPropertiesRequest(actorNumber: int, properties: Props, broadcast: bool, parameter251: Option<Props>)

  datatype RaiseEventRequest =
    RaiseEventRequest(evCode: byte, parameter245: EventData, data: Props, cache: CacheOperation)

  /** What the handlers read from the host: the master client and the host's own actor list. */
  datatype HostView = HostView(masterClientId: int, gameActors: seq<int>)

  /** The calls the plugin makes on the host and on EventLogic, in the order it makes them. */
  datatype Outbound =
    | ModerationRequest(actor: int)                            // SendModerationRequestToActor
    | ModerationRequestToAllFor(actor: int)                    // SendModerationRequestToAllForActor
    | RatelimiterValues(actor: int, limits: map<byte, int>, enabled: bool)  // SendRatelimiterValues
    | ModerationReply(requester: int, subject: int, isBlocked: bool, isMuted: bool)  // SendModerationReply
    | ExecutiveMessage(target: int, message: string)           // SendExecutiveMessage
    | PullPartialActorProperties(actor: int, userId: string)
    | SendProperties(props: Props, actor: int)
    | RemoveActor(actor: int, reason: string)                  // host RemoveActor
    | BroadcastEvent(targets: seq<int>, evCode: byte, actorNumbers: seq<int>)  // host BroadcastEvent
    | SetProperties(actor: int, props: Props)                  // host SetProperties

  /**
   * A Photon call-info object: the sender's actor number, the request the
   * handler may rewrite, and the terminal actions issued on it so far.
   */
  class CallInfo<R> {
    const actorNr: int
    var request: R
    var terminals: seq<Terminal>

    constructor (actorNr: int, request: R)
      ensures this.actorNr == actorNr && this.request == request && terminals == []
    {
      this.actorNr := actorNr;
      this.request := request;
      terminals := [];
    }

    method Continue()
      modifies this`terminals
      ensures terminals == old(terminals) + [Continued]
    {
      terminals := terminals + [Continued];
    }

    method Fail(reason: string)
      modifies this`terminals
      ensures terminals == old(terminals) + [Failed(reason)]
    {
      terminals := terminals + [Failed(reason)];
    }

    method Cancel()
      modifies this`terminals
      ensures terminals == old(terminals) + [Cancelled]
    {
      terminals := terminals + [Cancelled];
    }
  }
}
