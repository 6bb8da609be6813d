# NaokaGo session admission and event moderation, in Dafny

This project models the core of the NaokaGo Photon plugin (`NaokaGo.cs`): the
gateway that sits between the clients of a multiplayer room and the relay
host. It covers:

- the **actor registry** (`ActorsInternalProps`), a map from actor number to a
  `Session` record (the source's `CustomActor`);
- **admission** on room creation and on join: token validation, the duplicate-user
  scan with its moderator override, and the per-address account cap;
- the **property-update guard** (`BeforeSetProperties`);
- the **event-code state machine** (`OnRaiseEvent`): reserved codes, pass-through
  codes, the interest-list reply, the executive-action sub-handlers (the
  moderation reply and the master-only kick), the user-record and eye-height
  codes, dropping of unknown codes, and gating of instantiation event 202;
- the **interest-list decoder** `LogEventEight`: back-to-back six-byte records of
  a little-endian Int32 view id and an Int16 interest;
- the **runtime policy**: the defaults and their merge with a remote configuration.

Layout, one module per file:

| file | module | contents |
|---|---|---|
| `wrappers.dfy` | `Wrappers` | `Option`, `Result` |
| `host_types.dfy` | `HostTypes` | requests, property values, terminal actions, outbound-call records, the `CallInfo` class |
| `runtime_config.dfy` | `RuntimeConfiguration` | defaults, merge loop, last-write-wins lemma |
| `registry.dfy` | `Registry` | `Session`, the join scan and its order-free characterisation, the kick lookup |
| `moderation.dfy` | `Moderation` | event-code classification, moderation replies, spawn type |
| `event_eight.dfy` | `EventEight` | the event-8 payload decoder, its encoder and round trip |
| `naoka_go.dfy` | `Plugin` | the `NaokaGo` class and its handlers |

How the host boundary is represented:

- Each callback receives a `CallInfo<R>` object. It holds the sender's actor number and a request that the handler may rewrite. It also logs the terminal actions issued on it (`Continued`, `Failed(reason)`, `Cancelled`).
- Every call the plugin makes on the host or on EventLogic is appended to `NaokaGo.sent`. These are `SendModerationRequestToActor`, `SendRatelimiterValues`, `SendModerationReply`, `SendExecutiveMessage`, `RemoveActor`, `BroadcastEvent`, `SetProperties` and the rest.
- `ValidateJoinJwt` and `PrepareProperties` live in EventLogic, which is not part of this model. The handlers take them as function parameters (`validate`, `prepare`).
- .NET leaves the enumeration order of a `Dictionary` unspecified. Handlers that loop over the registry take that order as a parameter `order`, constrained by `IsEnumeration(order, actors)`.
- `MasterClientId` and `GameActors` are host state. They arrive in a `HostView` parameter.
- Where the source would throw, the handler states the requirement as a precondition, only on the path that throws. The cases are:
  - an absent sender record on codes 0, 2 and 40, on a master's kick, and on a `"VRCPlayer"` spawn;
  - a payload of the wrong shape;
  - an id shorter than ten characters in the reply loop;
  - `Dictionary.Add` of a key that is already present.

Behaviour of the source that the model reproduces as written:

- **Account cap.** The cap compares the count of *existing* records from the address strictly (`>`) against `maxAccsPerIp`. So a join is refused only when more than `maxAccsPerIp` records already share the address, and `maxAccsPerIp + 1` sessions per address are admitted. With a cap of 2 the third account is admitted and the fourth refused (`CapOfTwoAdmitsThirdAccount`).
- **Negative cap.** The cap is checked after every entry, so a negative `maxAccsPerIp` refuses every join into a non-empty room.
- **Room creation** runs neither the duplicate check nor the cap check.
- **Sanitizer error on create or join.** The handler calls `Fail` and then still calls `Continue`, after the record has been inserted.
- **Non-master kick.** The handler calls `Fail` and then `Cancel`.
- **Block and mute flags** test exact equality of `Id.Substring(4, 6)` with a list entry. A six-character entry therefore matches exactly the ids that, after their first four characters, start with it (`EntryMatchesIdPrefix`). Entries of any other length never match.
- **Kick lookup.** The kick treats a lookup that yields key 0 as "not found", as the `FirstOrDefault` sentinel does.

## Model

| member | source | states |
|---|---|---|
| `RuntimeConfiguration.Defaults` | NaokaGo.cs:44-49 | the defaults are an empty rate-limit table, the switch off, and a cap of 5 accounts per address |
| `RuntimeConfiguration.LoadRuntimeConfig` | NaokaGo.cs:44-66 | no remote configuration leaves the defaults; a present one overrides the switch and the cap and writes each listed limit under its key cast to a byte, in list order |
| `RuntimeConfiguration.RateLimitIsLastWrite` | NaokaGo.cs:58-62 | after the merge a byte key holds the value of the last listed entry whose key truncates to it; untouched keys keep their value; no other keys appear |
| `Plugin.NaokaGo.constructor` | NaokaGo.cs:23 | a new plugin starts with an empty registry, the default policy, no game id and no outbound calls |
| `Plugin.NaokaGo.SetupInstance` | NaokaGo.cs:33-71 | the policy becomes the merge of the defaults with the remote configuration; setup reports success |
| `Plugin.NaokaGo.OnCreateGame` | NaokaGo.cs:73-106 | records the game id; an invalid token fails with "Invalid JWT presented." and changes nothing else; a valid one inserts the record under key 1, substitutes the sanitized properties, fails with the sanitizer's error if there is one and then continues, and sends the moderation request and the rate-limiter values to actor 1 |
| `Registry.ScanRegistry` | NaokaGo.cs:123-140 | the join scan: its verdict is the entry-by-entry scan in enumeration order, it admits exactly when the order-free rule `JoinAdmissible` holds, and a rejection carries one of the two source reasons |
| `Registry.ScanAdmitsIff` | NaokaGo.cs:123-140 | from any running count, the scan admits exactly when no entry is a non-moderator duplicate and, for a non-empty enumeration, the count plus the matching entries stays within the cap |
| `Registry.CountIpIsCardinality` | NaokaGo.cs:132-133 | counting same-address entries along a duplicate-free enumeration equals the number of such keys |
| `Registry.AdmissionIsOrderFree` | NaokaGo.cs:123-140 | in every enumeration order, the scan admits exactly when there is no same-user record (or the newcomer has the moderator tag) and, in a non-empty registry, at most `maxAccsPerIp` records share the address |
| `Registry.RejectionReasonDependsOnOrder` | NaokaGo.cs:124-139 | one registry, two enumeration orders: one rejects with the account limit, the other with "already in this room" |
| `Registry.CapOfTwoAdmitsThirdAccount` | NaokaGo.cs:132-138 | with a cap of 2, a third account from one address is admitted and a fourth is rejected with the account limit |
| `Registry.AdmittedJoinBoundsAddress` | NaokaGo.cs:135-149 | inserting an admitted actor leaves at most `maxAccsPerIp + 1` records on its address (for an empty registry, when the cap is not negative) |
| `Plugin.NaokaGo.OnJoin` | NaokaGo.cs:108-163 | an invalid token fails and changes nothing; a scan rejection fails with the scan's reason, inserts nothing and sends nothing; an admitted join inserts exactly one record, under the request's actor number, leaves every other entry unchanged, substitutes the sanitized properties, fails on a sanitizer error and still continues, and sends the three post-admission calls |
| `Plugin.NaokaGo.OnCloseGame` | NaokaGo.cs:165-169 | continues |
| `Plugin.NaokaGo.BeforeSetProperties` | NaokaGo.cs:171-193 | a target of 0 or of another actor removes the sender and fails, leaving the request untouched; otherwise broadcast is switched on; a sanitizer error fails; success substitutes the sanitized set in the properties and in parameter 251 and continues |
| `Plugin.NaokaGo.OnLeave` | NaokaGo.cs:195-199 | exactly the leaver's key leaves the registry; the callback continues |
| `Plugin.NaokaGo.OnSetProperties` | NaokaGo.cs:201-204 | continues |
| `Plugin.NaokaGo.SendModerationReplies` | NaokaGo.cs:273-284 | the reply loop sends, in enumeration order, one reply per record other than the sender's |
| `Moderation.ModerationRepliesCoverOthers` | NaokaGo.cs:270-284 | every reply goes to the sender of the lists and concerns a registered actor other than the sender; no actor is named twice; every other registered actor is named; the flags are exact membership of that actor's id substring in the blocked and muted lists |
| `Moderation.IdPrefix` | NaokaGo.cs:277 | the substring is the six characters that follow the first four of the id |
| `Moderation.EntryMatchesIdPrefix` | NaokaGo.cs:268-279 | a list entry equals an id's substring exactly when it has six characters and the id, after its first four characters, starts with it |
| `Registry.FirstIndexOfUser` | NaokaGo.cs:299 | the lookup finds the first entry in enumeration order whose user id is the target, and only if one exists |
| `Plugin.NaokaGo.HandleExecutiveAction` | NaokaGo.cs:257-315 | moderation replies as above; a kick from a non-master fails and sends nothing; a master's kick sends at most one executive message, to the first record with the target id, and none when there is none or the key found is 0; warn and unknown sub-types do nothing |
| `Plugin.NaokaGo.GateInstantiation` | NaokaGo.cs:355-374 | a non-"VRCPlayer" type fails; a second spawn by an already instantiated actor fails with "Already Instantiated"; otherwise the sender's flag becomes true, the request is marked AddToRoomCache and loses payload keys 1 and 2 |
| `Plugin.NaokaGo.OnRaiseEvent` | NaokaGo.cs:206-378 | codes 0 and 2 fail "Unauthorized."; 1, 3-7, 9 and 15 continue; 8 sends the host's actor list to the requester only and cancels; 33 runs the executive sub-handler and always cancels; 40 pulls the sender's profile and cancels; 42 fails on a sanitizer error, otherwise applies and re-sends the sanitized properties and cancels; other codes below 200 cancel; codes from 200 continue, 202 through the spawn gate; only 202 changes the registry and no Instantiated flag is ever reset |
| `EventEight.Int32Bytes` | NaokaGo.cs:387 | the four little-endian bytes of a 32-bit integer read back, through the `ToInt32` model, as that integer |
| `EventEight.Int16Bytes` | NaokaGo.cs:389 | the two little-endian bytes of a 16-bit integer read back, through the `ToInt16` model, as that integer |
| `EventEight.LogEventEight` | NaokaGo.cs:380-398 | the loop builds exactly the dictionary `ParseInterests` describes; a short final record or a repeated view id, where the source throws, is a failure |
| `EventEight.ParsedPayloadIsWholeRecords` | NaokaGo.cs:385-392 | a payload that parses is a whole number of six-byte records |
| `EventEight.ParseEncodedInterests` | NaokaGo.cs:385-392 | decoding the encoding of distinct in-range records succeeds, keeps what was there, and maps every view id to its interest and no other key |
| `EventEight.RepeatedViewIdFails` | NaokaGo.cs:390 | an encoding in which a view id repeats, or names one already present, fails |
| `EventEight.EncodedInterestsParseIff` | NaokaGo.cs:384-392 | an encoding of in-range records decodes exactly when its view ids are distinct |
| `EventEight.Int32BytesOfInt32LE` | NaokaGo.cs:387 | any four bytes read as an Int32 write back to the same four bytes |
| `EventEight.Int16BytesOfInt16LE` | NaokaGo.cs:389 | any two bytes read as an Int16 write back to the same two bytes |
| `EventEight.EncodeDecodedRecords` | NaokaGo.cs:385-392 | every payload of whole six-byte records is the encoding of the records it holds |
| `EventEight.PayloadParsesIff` | NaokaGo.cs:384-392 | any payload parses exactly when its length is a multiple of six and the view ids of its records are pairwise distinct |

## Left out

- The HTTP GET of the remote configuration and its JSON deserialisation (NaokaGo.cs:51-53). `SetupInstance` receives the deserialised result, or `None`, as a parameter.
- The `ApiConfig`, `Config`, `Logger` and `Host` assignments in `SetupInstance` (NaokaGo.cs:35-43) and `EventLogic.Setup`. They store references and make no decision.
- `Plugin.NaokaGo.SetupInstance`: returns true in place of `base.SetupInstance`, whose body is not part of this model.
- Before `SetupInstance`, the source's `RuntimeConfig` is null. The model starts from the defaults instead.
- `Task.Run(_EventLogic.RunEvent35Timer)` (NaokaGo.cs:68). It is background concurrency whose body is not part of this model.
- All EventLogic members: `ValidateJoinJwt`, `PrepareProperties`, `Send*`, `PullPartialActorProperties`. EventLogic is not part of this model. The first two are function parameters; the others are recorded calls.
- Properties that depend on the sanitizer's own behaviour, such as idempotence. `PrepareProperties` is not part of this model.
- Photon host primitives are recorded, not executed. In particular, what `RemoveActor` does later (it leads to `OnLeave`) is outside the model.
- Extraction of the join token from `Parameters[248]` and its `(byte)2` slot. The request carries the extracted string.
- The `BroadcastEvent` record for code 8 keeps the targets, the code and the actor list. It drops the constant entry `254 = 0`, the sender 0 and the default send parameters.
- Logging and `JsonConvert.SerializeObject` (NaokaGo.cs:211, 220, 302, 306, 344-345, 394-397). A ghost read marks where a log line reads the sender's record. `LogEventEight` returns the dictionary it would log and drops the `actorNr` it only prints.
- `NaokaGoFactory` (NaokaGo.cs:401-407), a trivial factory.
- `Moderation.IdPrefix`: ids and list entries are modelled as sequences of characters. `Id.Substring(4, 6)` in the source counts UTF-16 code units, so for an id with a character outside the Basic Multilingual Plane among its first ten units the source takes different characters (possibly half a surrogate pair); that UTF-16 indexing is not captured.
- Util.cs is not part of this model. It only copies fields into untyped dictionaries.
- `CustomActor` is a reference type in the source. The model keeps it as a value in the registry map, because nothing in the core aliases it.
- The payload `Hashtable` of event 202 is updated in place in the source. The model rewrites the request's payload value instead, so aliasing of that table is not captured.
- Exceptions are preconditions, not modelled outcomes. They are: a missing sender record, a wrong payload shape, a short id in the reply loop, and `Dictionary.Add` of a present key. The exception in `LogEventEight` is the exception: it is modelled as a `Failure`.
