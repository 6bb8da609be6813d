/**
 * The actor session registry (ActorsInternalProps): one record per admitted
 * actor, keyed by actor number, and the admission scan OnJoin runs over it
 * before a new record may be inserted.
 */
module Registry {
  import opened HostTypes

  /** CustomActor: what the plugin keeps about one admitted actor. */
  datatype Session = Session(actorNr: int, id: string, ip: string, claims: JwtValidation, instantiated: bool)

  /** The outcome of the join scan. */
  datatype Verdict = Admit | Reject(reason: string)

  const AlreadyInRoom := "User is already in this room."
  const AccountLimitReached := "Max. account limit per instance reached. You've been bapped."
  const ModeratorTag := "admin_moderator"

  /** The record created for a freshly admitted actor. */
  function NewSession(actorNr: int, jwt: JwtValidation): Session
  {
    Session(actorNr, jwt.userId, jwt.ip, jwt, false)
  }

  /** Every record is stored under its own actor number. */
  ghost predicate Keyed(actors: map<int, Session>)
  {
    forall k :: k in actors ==> actors[k].actorNr == k
  }

  ghost predicate Distinct(order: seq<int>)
  {
    forall i, j :: 0 <= i < j < |order| ==> order[i] != order[j]
  }

  ghost predicate Within(order: seq<int>, actors: map<int, Session>)
  {
    forall i :: 0 <= i < |order| ==> order[i] in actors
  }

  /** `order` lists every key of `actors` exactly once: one enumeration order of the dictionary. */
  ghost predicate IsEnumeration(order: seq<int>, actors: map<int, Session>)
  {
    && Distinct(order)
    && Within(order, actors)
    && forall k :: k in actors ==> k in order
  }

  /** The number of records whose address is `ip`. */
  ghost function IpCount(actors: map<int, Session>, ip: string): nat
  {
    |set k | k in actors && actors[k].ip == ip|
  }

  ghost predicate HasSession(actors: map<int, Session>, userId: string)
  {
    exists k :: k in actors && actors[k].id == userId
  }

  /**
   * The order-free admission rule: no live record of the same user unless the
   * newcomer is a moderator, and, when the registry is not empty, at most
   * `maxPerIp` existing records from the newcomer's address.
   */
  ghost predicate JoinAdmissible(actors: map<int, Session>, userId: string, ip: string, moderator: bool, maxPerIp: int)
  {
    && !(HasSession(actors, userId) && !moderator)
    && (actors == map[] || IpCount(actors, ip) <= maxPerIp)
  }

  /** The scan of OnJoin, entry by entry in enumeration order, from a running address count. */
  ghost function ScanVerdict(order: seq<int>, actors: map<int, Session>, userId: string, ip: string,
                             moderator: bool, maxPerIp: int, count: int): Verdict
    requires Within(order, actors)
    decreases |order|
  {
    if order == [] then Admit
    else
      var s := actors[order[0]];
      if s.id == userId && !moderator then Reject(AlreadyInRoom)
      else
        var c := if s.ip == ip then count + 1 else count;
        if c > maxPerIp then Reject(AccountLimitReached)
        else ScanVerdict(order[1..], actors, userId, ip, moderator, maxPerIp, c)
  }

  /** The number of entries of `order` whose record has address `ip`. */
  ghost function CountIp(order: seq<int>, actors: map<int, Session>, ip: string): nat
    requires Within(order, actors)
    decreases |order|
  {
    if order == [] then 0
    else (if actors[order[0]].ip == ip then 1 else 0) + CountIp(order[1..], actors, ip)
  }

  /**
   * The join scan (the foreach of OnJoin): rejects on the first record of the
   * same user (unless moderator), counts records of the same address and
   * rejects as soon as the count exceeds the cap; admits otherwise.
   */
  method ScanRegistry(actors: map<int, Session>, order: seq<int>, userId: string, ip: string,
                      moderator: bool, maxPerIp: int) returns (v: Verdict)
    requires IsEnumeration(order, actors)
    ensures v == ScanVerdict(order, actors, userId, ip, moderator, maxPerIp, 0)
    ensures v.Admit? <==> JoinAdmissible(actors, userId, ip, moderator, maxPerIp)
    ensures v.Reject? ==> v.reason == AlreadyInRoom || v.reason == AccountLimitReached
  {
    AdmissionIsOrderFree(order, actors, userId, ip, moderator, maxPerIp);
    var count := 0;
    var i := 0;
    while i < |order|
      invariant 0 <= i <= |order|
      invariant ScanVerdict(order[i..], actors, userId, ip, moderator, maxPerIp, count)
             == ScanVerdict(order, actors, userId, ip, moderator, maxPerIp, 0)
    {
      assert order[i..][1..] == order[i + 1..];
      var s := actors[order[i]];
      if s.id == userId && !moderator {
        return Reject(AlreadyInRoom);
      }
      if s.ip == ip {
        count := count + 1;
      }
      if count > maxPerIp {
        return Reject(AccountLimitReached);
      }
      i := i + 1;
    }
    return Admit;
  }

  /**
   * The scan admits exactly when no entry is a (non-moderator) duplicate and,
   * for a non-empty enumeration, the running count plus the entries from `ip`
   * stays within the cap.
   */
  lemma {:induction false} ScanAdmitsIff(order: seq<int>, actors: map<int, Session>, userId: string, ip: string,
                                         moderator: bool, maxPerIp: int, count: int)
    requires Within(order, actors)
    ensures ScanVerdict(order, actors, userId, ip, moderator, maxPerIp, count).Admit? <==>
              && (moderator || forall k :: k in order ==> actors[k].id != userId)
              && (order == [] || count + CountIp(order, actors, ip) <= maxPerIp)
    decreases |order|
  {
    if order != [] {
      var s := actors[order[0]];
      assert forall k :: k in order <==> k == order[0] || k in order[1..];
      if !(s.id == userId && !moderator) {
        var c := if s.ip == ip then count + 1 else count;
        ScanAdmitsIff(order[1..], actors, userId, ip, moderator, maxPerIp, c);
      }
    }
  }

  /** Counting along a duplicate-free enumeration is counting the set of matching keys. */
  lemma {:induction false} CountIpIsCardinality(order: seq<int>, actors: map<int, Session>, ip: string)
    requires Distinct(order) && Within(order, actors)
    ensures CountIp(order, actors, ip) == |set k | k in order && k in actors && actors[k].ip == ip|
    decreases |order|
  {
    if order != [] {
      var rest := order[1..];
      assert forall k :: k in order <==> k == order[0] || k in rest;
      CountIpIsCardinality(rest, actors, ip);
      var all := set k | k in order && k in actors && actors[k].ip == ip;
      var tail := set k | k in rest && k in actors && actors[k].ip == ip;
      assert order[0] !in rest by {
        forall j | 0 <= j < |rest| ensures rest[j] != order[0] { assert rest[j] == order[j + 1]; }
      }
      if actors[order[0]].ip == ip {
        assert all == tail + {order[0]};
      } else {
        assert all == tail;
      }
    }
  }

  /**
   * Admission does not depend on the enumeration order: whatever order the
   * dictionary uses, the scan admits exactly when JoinAdmissible holds.
   */
  lemma AdmissionIsOrderFree(order: seq<int>, actors: map<int, Session>, userId: string, ip: string,
                             moderator: bool, maxPerIp: int)
    requires IsEnumeration(order, actors)
    ensures ScanVerdict(order, actors, userId, ip, moderator, maxPerIp, 0).Admit? <==>
              JoinAdmissible(actors, userId, ip, moderator, maxPerIp)
  {
    ScanAdmitsIff(order, actors, userId, ip, moderator, maxPerIp, 0);
    CountIpIsCardinality(order, actors, ip);
    var inOrder := set k | k in order && k in actors && actors[k].ip == ip;
    var inMap := set k | k in actors && actors[k].ip == ip;
    forall k ensures k in inOrder <==> k in inMap {
      if k in order {
        var i :| 0 <= i < |order| && order[i] == k;
      }
      assert k in actors ==> k in order;
    }
    assert inOrder == inMap;
    if order == [] {
      forall k ensures k !in actors {
        assert k in actors ==> k in order;
      }
      assert actors == map[];
    } else {
      assert order[0] in actors;
    }
    if HasSession(actors, userId) {
      var k :| k in actors && actors[k].id == userId;
      assert k in order;
    }
  }

  /**
   * The rejection reason, unlike the decision, follows the enumeration order:
   * the same registry yields "already in room" in one order and the account
   * limit in the other.
   */
  lemma RejectionReasonDependsOnOrder()
    ensures var jwt := JwtValidation(true, "usr_b", "B", []);
            var actors := map[1 := Session(1, "usr_a", "A", jwt, false), 2 := Session(2, "usr_b", "C", jwt, false)];
            && ScanVerdict([1, 2], actors, "usr_b", "A", false, 0, 0) == Reject(AccountLimitReached)
            && ScanVerdict([2, 1], actors, "usr_b", "A", false, 0, 0) == Reject(AlreadyInRoom)
  {
  }

  /**
   * With a cap of 2 the strict comparison admits a third account from one
   * address and rejects only the fourth.
   */
  lemma CapOfTwoAdmitsThirdAccount()
    ensures var jwt := JwtValidation(true, "", "A", []);
            var two := map[1 := Session(1, "usr_1", "A", jwt, false), 2 := Session(2, "usr_2", "A", jwt, false)];
            var three := two[3 := Session(3, "usr_3", "A", jwt, false)];
            && ScanVerdict([1, 2], two, "usr_3", "A", false, 2, 0) == Admit
            && ScanVerdict([1, 2, 3], three, "usr_4", "A", false, 2, 0) == Reject(AccountLimitReached)
  {
  }

  /**
   * What the cap guarantees once a record is inserted: at most
   * maxPerIp + 1 records share the newcomer's address. An empty registry
   * admits whatever the cap, so there a negative cap is excluded.
   */
  lemma AdmittedJoinBoundsAddress(actors: map<int, Session>, userId: string, ip: string, moderator: bool,
                                  maxPerIp: int, actorNr: int, s: Session)
    requires JoinAdmissible(actors, userId, ip, moderator, maxPerIp)
    requires actors != map[] || maxPerIp >= 0
    requires actorNr !in actors && s.ip == ip
    ensures IpCount(actors[actorNr := s], ip) <= maxPerIp + 1
  {
    var after := actors[actorNr := s];
    assert (set k | k in after && after[k].ip == ip) == (set k | k in actors && actors[k].ip == ip) + {actorNr};
  }

  /**
   * FirstOrDefault over the registry: the position of the first entry, in
   * enumeration order, whose user id is `userId`, or |order| when none is.
   */
  function FirstIndexOfUser(order: seq<int>, actors: map<int, Session>, userId: string): (i: nat)
    requires Within(order, actors)
    ensures i <= |order|
    ensures i < |order| ==> actors[order[i]].id == userId
    ensures forall j :: 0 <= j < i ==> actors[order[j]].id != userId
    decreases |order|
  {
    if order == [] then 0
    else if actors[order[0]].id == userId then 0
    else 1 + FirstIndexOfUser(order[1..], actors, userId)
  }
}
