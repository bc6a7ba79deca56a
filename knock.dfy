/** The KNOCK command handler of the IRC daemon: a non-member asks the
    operators of a closed channel to invite them.

    The handler is an ordered chain of checks, each of which ends the command
    with exactly one numeric reply when it fails; a request that passes all of
    them is delivered: the channel's (and, for a local sender, the user's)
    last-knock timestamp is set to the current time, the channel operators are
    noticed and the command is passed on to the servers that know KNOCK.

    The module gives the checks as an ordered list (Checks) and the decision
    as "the reply of the first failing check" (Decide); the handler itself is
    the method Knock, an early-return chain over the Channel and LocalClient
    objects, proved to agree with Decide. */
module Knock {

  datatype Option<+T> = None | Some(value: T)

  /** The mode bit that makes a channel invite-only (+i). */
  const MODE_INVITEONLY: bv32 := 0x10

  /** The channel's mode record: the mode bit word, the key (+k, empty when
      unset) and the member limit (+l, 0 when unset). */
  datatype ChannelMode = ChannelMode(bits: bv32, key: string, limit: nat)

  /** ConfigChannel's two flood-protection intervals, in seconds. */
  datatype ChannelConfig = ChannelConfig(knockDelay: int, knockDelayChannel: int)

  /** The daemon's answers about this sender and this channel: IsMember,
      is_banned and PrivateChannel. Their internals are not part of this model. */
  datatype Standing = Standing(isMember: bool, isBanned: bool, isPrivate: bool)

  /** Which of the two flood limits refused a knock (the last parameter of
      ERR_TOOMANYKNOCK). */
  datatype Limit = PerUser | PerChannel

  /** The numeric replies the handler sends to the requesting client, with the
      name each one carries. */
  datatype Numeric =
    | NeedMoreParams(command: string)            // ERR_NEEDMOREPARAMS
    | NoSuchChannel(name: string)                // ERR_NOSUCHCHANNEL
    | KnockOnChan(name: string)                  // ERR_KNOCKONCHAN
    | ChanOpen(name: string)                     // ERR_CHANOPEN
    | CannotSendToChan(name: string)             // ERR_CANNOTSENDTOCHAN
    | TooManyKnock(name: string, limit: Limit)   // ERR_TOOMANYKNOCK
    | KnockDelivered(name: string)               // RPL_KNOCKDLVR

  /** One message the handler sends: a numeric to the sender, the NOTICE to
      the channel's operators, or the KNOCK passed on to the servers that
      have the KNOCK capability. */
  datatype Send =
    | Reply(numeric: Numeric)
    | NoticeChanops(channel: string)
    | PropagateKnock(channel: string)

  /** What the handler decided: a rejection with its one numeric, or a
      delivery to the named channel (acknowledged when the sender is local). */
  datatype Outcome = Rejected(numeric: Numeric) | Delivered(channel: string, local: bool)

  /** What the handler sees of a channel it found: its name, modes and
      number of members. */
  datatype ChannelView = ChannelView(name: string, mode: ChannelMode, memberCount: nat)

  /** Everything one KNOCK is decided on. `channel` is the result of the
      channel lookup; `userClock` is the sender's last knock when the sender is
      a local client and None for a remote one; `chanClock` is the channel's
      last knock (meaningful only when the channel exists). */
  datatype Request = Request(
    param: string,
    channel: Option<ChannelView>,
    standing: Standing,
    userClock: Option<int>,
    chanClock: int,
    now: int,
    config: ChannelConfig)

  predicate InviteOnly(m: ChannelMode) {
    m.bits & MODE_INVITEONLY != 0
  }

  /** A channel is closed, so that knocking on it makes sense, when it is
      invite-only, keyed, or has a limit that its members have reached. */
  function Closed(m: ChannelMode, memberCount: nat): (r: bool)
    ensures InviteOnly(m) || m.key != [] ==> r
    ensures !InviteOnly(m) && m.key == [] ==> (r <==> 0 < m.limit <= memberCount)
    ensures m.limit == 0 ==> (r <==> InviteOnly(m) || m.key != [])
  {
    InviteOnly(m) || |m.key| != 0 || (m.limit != 0 && memberCount >= m.limit)
  }

  /** One check of the chain: whether it fails, and the reply it then sends. */
  datatype Check = Check(fails: bool, reply: Numeric)

  /** The reply of the first failing check, or None when every check passes. */
  function FirstFailing(cs: seq<Check>): (r: Option<Numeric>)
    ensures r.None? <==> forall i :: 0 <= i < |cs| ==> !cs[i].fails
    decreases |cs|
  {
    if cs == [] then None
    else if cs[0].fails then Some(cs[0].reply)
    else FirstFailing(cs[1..])
  }

  /** Only the first failing check's reply is produced. */
  lemma {:induction false} FirstFailingIsFirst(cs: seq<Check>, i: nat)
    requires i < |cs| && cs[i].fails
    requires forall k :: 0 <= k < i ==> !cs[k].fails
    ensures FirstFailing(cs) == Some(cs[i].reply)
    decreases i
  {
    if i > 0 {
      assert !cs[0].fails;
      FirstFailingIsFirst(cs[1..], i - 1);
    }
  }

  /** The checks of the handler in the order it makes them. The checks on
      the channel exist only once the lookup found it, and the ban, private
      and flood checks only for a local sender. */
  function Checks(q: Request): seq<Check> {
    [Check(q.param == "", NeedMoreParams("KNOCK"))] +
    match q.channel
    case None => [Check(true, NoSuchChannel(q.param))]
    case Some(c) =>
      [Check(false, NoSuchChannel(q.param)),
       Check(q.standing.isMember, KnockOnChan(c.name)),
       Check(!Closed(c.mode, c.memberCount), ChanOpen(c.name))] +
      match q.userClock
      case None => []
      case Some(u) =>
        [Check(q.standing.isPrivate || q.standing.isBanned, CannotSendToChan(c.name)),
         Check(u + q.config.knockDelay > q.now, TooManyKnock(c.name, PerUser)),
         Check(q.chanClock + q.config.knockDelayChannel > q.now, TooManyKnock(c.name, PerChannel))]
  }

  /** The decision: the first failing check's reply, or delivery. */
  function Decide(q: Request): Outcome {
    match FirstFailing(Checks(q))
    case Some(n) => Rejected(n)
    case None =>
      PassedChecksFoundChannel(q);
      Delivered(q.channel.value.name, q.userClock.Some?)
  }

  /** A request that passes every check names a channel the lookup found. */
  lemma PassedChecksFoundChannel(q: Request)
    ensures FirstFailing(Checks(q)).None? ==> q.channel.Some?
  {
    if q.channel.None? {
      assert Checks(q)[1].fails;
    }
  }

  /** The four checks every sender goes through, in their order of priority. */
  lemma CommonChecks(q: Request)
    ensures q.param == "" ==> Decide(q) == Rejected(NeedMoreParams("KNOCK"))
    ensures q.param != "" && q.channel.None? ==> Decide(q) == Rejected(NoSuchChannel(q.param))
    ensures q.param != "" && q.channel.Some? && q.standing.isMember ==>
      Decide(q) == Rejected(KnockOnChan(q.channel.value.name))
    ensures (q.param != "" && q.channel.Some? && !q.standing.isMember &&
             !Closed(q.channel.value.mode, q.channel.value.memberCount)) ==>
      Decide(q) == Rejected(ChanOpen(q.channel.value.name))
  {
    var cs := Checks(q);
    if q.param == "" {
      FirstFailingIsFirst(cs, 0);
    } else if q.channel.None? {
      FirstFailingIsFirst(cs, 1);
    } else if q.standing.isMember {
      FirstFailingIsFirst(cs, 2);
    } else if !Closed(q.channel.value.mode, q.channel.value.memberCount) {
      FirstFailingIsFirst(cs, 3);
    }
  }

  /** The request passes the four checks every sender goes through. */
  predicate PassesCommonChecks(q: Request) {
    q.param != "" && q.channel.Some? && !q.standing.isMember &&
    Closed(q.channel.value.mode, q.channel.value.memberCount)
  }

  /** A local sender that passed the common checks: a private channel or a
      ban comes first, then the per-user flood limit, then the per-channel
      one; a sender past all three is delivered and acknowledged. */
  lemma LocalChecks(q: Request)
    requires PassesCommonChecks(q) && q.userClock.Some?
    ensures q.standing.isPrivate || q.standing.isBanned ==>
      Decide(q) == Rejected(CannotSendToChan(q.channel.value.name))
    ensures (!q.standing.isPrivate && !q.standing.isBanned &&
             q.userClock.value + q.config.knockDelay > q.now) ==>
      Decide(q) == Rejected(TooManyKnock(q.channel.value.name, PerUser))
    ensures (!q.standing.isPrivate && !q.standing.isBanned &&
             q.userClock.value + q.config.knockDelay <= q.now &&
             q.chanClock + q.config.knockDelayChannel > q.now) ==>
      Decide(q) == Rejected(TooManyKnock(q.channel.value.name, PerChannel))
    ensures (!q.standing.isPrivate && !q.standing.isBanned &&
             q.userClock.value + q.config.knockDelay <= q.now &&
             q.chanClock + q.config.knockDelayChannel <= q.now) ==>
      Decide(q) == Delivered(q.channel.value.name, true)
  {
    var cs := Checks(q);
    assert |cs| == 7;
    if q.standing.isPrivate || q.standing.isBanned {
      FirstFailingIsFirst(cs, 4);
    } else if q.userClock.value + q.config.knockDelay > q.now {
      FirstFailingIsFirst(cs, 5);
    } else if q.chanClock + q.config.knockDelayChannel > q.now {
      FirstFailingIsFirst(cs, 6);
    }
  }

  /** A remote sender that passed the common checks is always delivered,
      whatever the timestamps, the ban list or the private mode say. */
  lemma RemoteDelivered(q: Request)
    requires PassesCommonChecks(q) && q.userClock.None?
    ensures Decide(q) == Delivered(q.channel.value.name, false)
  {
    assert |Checks(q)| == 4;
  }

  /** A knock is delivered exactly when every check of its sender's chain
      passes; a delivery names the channel that was found and is
      acknowledged exactly for a local sender. */
  lemma DeliveredIff(q: Request)
    ensures Decide(q).Delivered? <==>
      PassesCommonChecks(q) &&
      (q.userClock.Some? ==>
        !q.standing.isPrivate && !q.standing.isBanned &&
        q.userClock.value + q.config.knockDelay <= q.now &&
        q.chanClock + q.config.knockDelayChannel <= q.now)
    ensures Decide(q).Delivered? ==>
      q.channel.Some? && Decide(q) == Delivered(q.channel.value.name, q.userClock.Some?)
  {
    CommonChecks(q);
    if PassesCommonChecks(q) {
      if q.userClock.Some? {
        LocalChecks(q);
      } else {
        RemoteDelivered(q);
      }
    }
  }

  /** The messages sent for an outcome, in the handler's order: a rejection
      sends its one numeric; a delivery sends RPL_KNOCKDLVR to a local sender,
      then the chanop NOTICE, then the KNOCK to the servers. */
  function Sends(o: Outcome): seq<Send> {
    match o
    case Rejected(n) => [Reply(n)]
    case Delivered(name, local) =>
      (if local then [Reply(KnockDelivered(name))] else []) +
      [NoticeChanops(name), PropagateKnock(name)]
  }

  /** Exactly one numeric reply reaches the sender on every path except a
      remote delivery, which sends it none; a rejection sends nothing else. */
  lemma OneReply(o: Outcome)
    ensures o.Rejected? ==> Sends(o) == [Reply(o.numeric)]
    ensures o.Delivered? ==>
      |Sends(o)| == (if o.local then 3 else 2) &&
      Sends(o)[|Sends(o)| - 2] == NoticeChanops(o.channel) &&
      Sends(o)[|Sends(o)| - 1] == PropagateKnock(o.channel)
    ensures (exists i :: 0 <= i < |Sends(o)| && Sends(o)[i].Reply?) <==> (o.Rejected? || o.local)
    ensures o.Delivered? && o.local ==> Sends(o)[0] == Reply(KnockDelivered(o.channel))
  {
    if o.Rejected? || o.local {
      assert Sends(o)[0].Reply?;
    }
  }

  /** A last-knock timestamp after the outcome: the current time when the
      knock was delivered, unchanged otherwise. */
  function Stamp(o: Outcome, clock: int, now: int): int {
    if o.Delivered? then now else clock
  }

  /** A channel: its name and modes, its member count (the length of its
      member list) and the time of the last knock delivered to it. */
  class Channel {
    const name: string
    var mode: ChannelMode
    var memberCount: nat
    var lastKnock: int

    constructor (name: string, mode: ChannelMode, memberCount: nat)
      ensures this.name == name && this.mode == mode && this.memberCount == memberCount
      ensures lastKnock == 0
    {
      this.name := name;
      this.mode := mode;
      this.memberCount := memberCount;
      lastKnock := 0;
    }

    function View(): ChannelView
      reads this
    {
      ChannelView(name, mode, memberCount)
    }
  }

  /** The part of a client that only clients of this server have: here, the
      time of its last delivered knock. */
  class LocalClient {
    var lastKnock: int

    constructor ()
      ensures lastKnock == 0
    {
      lastKnock := 0;
    }
  }

  /** The request the handler decides on, read from the objects. A null
      `chptr` is a failed channel lookup; a null `localClient` is a remote
      sender. */
  function RequestFor(param: string, chptr: Channel?, standing: Standing, localClient: LocalClient?,
                      now: int, config: ChannelConfig): Request
    reads chptr, localClient
  {
    Request(param,
            if chptr == null then None else Some(chptr.View()),
            standing,
            if localClient == null then None else Some(localClient.lastKnock),
            if chptr == null then 0 else chptr.lastKnock,
            now, config)
  }

  /** KNOCK <channel>. `chptr` is what the channel lookup returned for
      `param`; `localClient` is the sender's local part, null for a client of
      another server. Only the two last-knock fields may change. */
  method Knock(param: string, chptr: Channel?, standing: Standing, localClient: LocalClient?,
               now: int, config: ChannelConfig) returns (sends: seq<Send>)
    modifies (if chptr == null then {} else {chptr})`lastKnock
    modifies (if localClient == null then {} else {localClient})`lastKnock
    ensures sends == Sends(old(Decide(RequestFor(param, chptr, standing, localClient, now, config))))
    ensures chptr != null ==>
      chptr.lastKnock ==
        Stamp(old(Decide(RequestFor(param, chptr, standing, localClient, now, config))), old(chptr.lastKnock), now)
    ensures localClient != null ==>
      localClient.lastKnock ==
        Stamp(old(Decide(RequestFor(param, chptr, standing, localClient, now, config))), old(localClient.lastKnock), now)
  {
    ghost var q := RequestFor(param, chptr, standing, localClient, now, config);
    CommonChecks(q);
    if param == "" {
      sends := [Reply(NeedMoreParams("KNOCK"))];
      return;
    }
    if chptr == null {
      sends := [Reply(NoSuchChannel(param))];
      return;
    }
    if standing.isMember {
      sends := [Reply(KnockOnChan(chptr.name))];
      return;
    }
    if !Closed(chptr.mode, chptr.memberCount) {
      sends := [Reply(ChanOpen(chptr.name))];
      return;
    }
    sends := [];
    if localClient != null {
      LocalChecks(q);
      if standing.isPrivate || standing.isBanned {
        sends := [Reply(CannotSendToChan(chptr.name))];
        return;
      }
      if localClient.lastKnock + config.knockDelay > now {
        sends := [Reply(TooManyKnock(chptr.name, PerUser))];
        return;
      }
      if chptr.lastKnock + config.knockDelayChannel > now {
        sends := [Reply(TooManyKnock(chptr.name, PerChannel))];
        return;
      }
      localClient.lastKnock := now;
      sends := [Reply(KnockDelivered(chptr.name))];
    } else {
      RemoteDelivered(q);
    }
    chptr.lastKnock := now;
    sends := sends + [NoticeChanops(chptr.name), PropagateKnock(chptr.name)];
  }
  /** Two KNOCKs by the same local client on the same channel within
      knock_delay of each other: when the first is delivered, the second is
      refused by the per-user limit and leaves both timestamps as the first
      one set them. */
  method KnockTwice(param: string, chptr: Channel, standing: Standing, localClient: LocalClient,
                    now1: int, now2: int, config: ChannelConfig) returns (first: seq<Send>, second: seq<Send>)
    requires now2 < now1 + config.knockDelay
    modifies chptr`lastKnock, localClient`lastKnock
    ensures first == [Reply(KnockDelivered(chptr.name)), NoticeChanops(chptr.name), PropagateKnock(chptr.name)] ==>
      second == [Reply(TooManyKnock(chptr.name, PerUser))] &&
      chptr.lastKnock == now1 && localClient.lastKnock == now1
  {
    ghost var q1 := RequestFor(param, chptr, standing, localClient, now1, config);
    DeliveredIff(q1);
    first := Knock(param, chptr, standing, localClient, now1, config);
    ghost var q2 := RequestFor(param, chptr, standing, localClient, now2, config);
    if first == [Reply(KnockDelivered(chptr.name)), NoticeChanops(chptr.name), PropagateKnock(chptr.name)] {
      assert Decide(q1).Delivered?;
      assert q2.userClock == Some(now1);
      LocalChecks(q2);
    }
    second := Knock(param, chptr, standing, localClient, now2, config);
  }
}
