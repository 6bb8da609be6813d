/**
 * The pure parts of the event moderation handler: how an event code is
 * classified, how the moderation reply to a blocked/muted list is computed,
 * and which object type event 202 spawns.
 */
module Moderation {
  import opened Wrappers
  import opened HostTypes
  import opened Registry

  /** The policy OnRaiseEvent applies to an event code. */
  datatype EventClass =
    | Unauthorized          // 0 and 2: reserved, fail
    | Forwarded             // 1, 3-7, 9, 15: continue unmodified
    | InterestListRequest   // 8: reply with the actor list, cancel
    | ExecutiveActionEvent  // 33: moderation reply / kick / warn, cancel
    | UserRecordUpdate      // 40: pull profile data, cancel
    | EyeHeightUpdate       // 42: sanitize and apply properties, cancel
    | UnknownDropped        // any other code below 200: cancel
    | Instantiation         // 200 and above: gated by code, continue

  function Classify(code: byte): EventClass
  {
    if code == 0 || code == 2 then Unauthorized
    else if code == 1 || 3 <= code <= 7 || code == 9 || code == 15 then Forwarded
    else if code == 8 then InterestListRequest
    else if code == 33 then ExecutiveActionEvent
    else if code == 40 then UserRecordUpdate
    else if code == 42 then EyeHeightUpdate
    else if code < 200 then UnknownDropped
    else Instantiation
  }

  const UnauthorizedReason := "Unauthorized."
  const KickDenied := "Only the master client can kick other users."
  const OnlyPlayerSpawns := "Only VRCPlayer can be spawned."
  const AlreadyInstantiated := "Already Instantiated"
  const PlayerType := "VRCPlayer"

  /** `Id.Substring(4, 6)`: the six characters after the four-character prefix of a user id. */
  function IdPrefix(id: string): (p: string)
    requires |id| >= 10
    ensures |p| == 6 && id[..4] + p + id[10..] == id
  {
    id[4..10]
  }

  /**
   * A six-character list entry equals the id's substring exactly when the id,
   * after its first four characters, starts with that entry; entries of any
   * other length never match.
   */
  lemma EntryMatchesIdPrefix(entry: string, id: string)
    requires |id| >= 10
    ensures IdPrefix(id) == entry <==> |entry| == 6 && entry <= id[4..]
  {
    if |entry| == 6 && entry <= id[4..] {
      assert entry == id[4..][..6];
    }
  }

  /** Every other actor's id is long enough for the substring the reply loop takes. */
  ghost predicate LongIds(actors: map<int, Session>, sender: int)
  {
    forall k :: k in actors && actors[k].actorNr != sender ==> |actors[k].id| >= 10
  }

  /** The reply the loop issues for one registry entry: none for the sender's own record. */
  function ReplyTo(sender: int, key: int, s: Session, blocked: seq<string>, muted: seq<string>): seq<Outbound>
    requires s.actorNr != sender ==> |s.id| >= 10
  {
    if s.actorNr != sender then
      var u := IdPrefix(s.id);
      [ModerationReply(sender, key, u in blocked, u in muted)]
    else []
  }

  /** The replies to a Request_PlayerMods packet, entry by entry in enumeration order. */
  ghost function ModerationReplies(order: seq<int>, actors: map<int, Session>, sender: int,
                                   blocked: seq<string>, muted: seq<string>): seq<Outbound>
    requires Within(order, actors) && LongIds(actors, sender)
    decreases |order|
  {
    if order == [] then []
    else
      var n := |order| - 1;
      ModerationReplies(order[..n], actors, sender, blocked, muted) + ReplyTo(sender, order[n], actors[order[n]], blocked, muted)
  }

  /**
   * `replies` answers `sender` about every entry of `order` other than the
   * sender, once each, with the flags the lists give that entry's id substring.
   */
  ghost predicate RepliesCoverOthers(replies: seq<Outbound>, order: seq<int>, actors: map<int, Session>, sender: int,
                                     blocked: seq<string>, muted: seq<string>)
    requires Within(order, actors) && LongIds(actors, sender)
  {
    && (forall i :: 0 <= i < |replies| ==>
          && replies[i].ModerationReply?
          && replies[i].requester == sender
          && replies[i].subject in order
          && replies[i].subject in actors
          && actors[replies[i].subject].actorNr != sender
          && replies[i].isBlocked == (IdPrefix(actors[replies[i].subject].id) in blocked)
          && replies[i].isMuted == (IdPrefix(actors[replies[i].subject].id) in muted))
    && (forall i, j :: 0 <= i < j < |replies| ==>
          replies[i].ModerationReply? && replies[j].ModerationReply? && replies[i].subject != replies[j].subject)
    && (forall k :: k in order && k != sender ==>
          exists i :: 0 <= i < |replies| && replies[i].ModerationReply? && replies[i].subject == k)
  }

  /**
   * The sender of the lists receives exactly one reply about every other
   * registered actor and none about itself; each reply's flags are exact
   * membership of that actor's id substring in the blocked and muted lists.
   */
  lemma {:induction false} ModerationRepliesCoverOthers(order: seq<int>, actors: map<int, Session>, sender: int,
                                                        blocked: seq<string>, muted: seq<string>)
    requires Keyed(actors) && Distinct(order) && Within(order, actors) && LongIds(actors, sender)
    ensures RepliesCoverOthers(ModerationReplies(order, actors, sender, blocked, muted), order, actors, sender, blocked, muted)
    decreases |order|
  {
    if order != [] {
      var n := |order| - 1;
      var front := order[..n];
      var last := order[n];
      assert forall i :: 0 <= i < n ==> front[i] == order[i];
      ModerationRepliesCoverOthers(front, actors, sender, blocked, muted);
      var before := ModerationReplies(front, actors, sender, blocked, muted);
      var tail := ReplyTo(sender, last, actors[last], blocked, muted);
      var replies := before + tail;
      assert replies == ModerationReplies(order, actors, sender, blocked, muted);
      assert last !in front by {
        forall j | 0 <= j < n ensures front[j] != last { assert front[j] == order[j]; }
      }
      assert actors[last].actorNr == last;
      forall i | 0 <= i < |replies|
        ensures replies[i].ModerationReply? && replies[i].subject in order && replies[i].subject in actors
        ensures actors[replies[i].subject].actorNr != sender
      {
        if i < |before| {
          assert replies[i] == before[i];
          var j :| 0 <= j < |front| && front[j] == before[i].subject;
          assert order[j] == front[j];
        } else {
          assert replies[i] == tail[0];
        }
      }
      forall i, j | 0 <= i < j < |replies|
        ensures replies[i].ModerationReply? && replies[j].ModerationReply? && replies[i].subject != replies[j].subject
      {
        if j >= |before| {
          assert replies[j].subject == last;
          assert replies[i] == before[i];
          assert before[i].subject in front;
        }
      }
      forall k | k in order && k != sender
        ensures exists i :: 0 <= i < |replies| && replies[i].ModerationReply? && replies[i].subject == k
      {
        if k == last {
          assert replies[|before|].subject == k;
        } else {
          var j :| 0 <= j < |order| && order[j] == k;
          assert j < n && front[j] == k;
          assert k in front;
          var i :| 0 <= i < |before| && before[i].ModerationReply? && before[i].subject == k;
          assert replies[i] == before[i];
        }
      }
    }
  }

  /** Key 0 of the spawn table cast to string: None when the key is absent (a null string). */
  function SpawnType(entries: map<byte, Value>): Option<string>
  {
    if 0 in entries && entries[0].Text? then Some(entries[0].s) else None
  }
}
