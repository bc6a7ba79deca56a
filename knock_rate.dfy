/** The flood protection of KNOCK over a run of commands.

    The handler keeps one last-knock timestamp per local client and one per
    channel. Here those timestamps are two maps, a run is a sequence of KNOCK
    commands handled one after the other, and each command is decided by
    Knock.Decide exactly as the handler decides it. The lemmas state what the
    two limits guarantee over a whole run: two knocks delivered to the same
    local client, or locally to the same channel object, are at least the configured
    interval apart. */
module KnockRate {
  import opened Knock

  type ClientId = nat

  /** The identity of a channel object. A channel that is destroyed and
      created again under the same name is a new object with a new identity,
      and so starts from a fresh timestamp. */
  type ChannelId = nat

  /** A channel the lookup found: which channel object it is, and what the
      handler sees of it. */
  datatype Found = Found(id: ChannelId, view: ChannelView)

  /** One KNOCK command as it reaches the handler: the parameter, what the
      channel lookup found, the daemon's answers about the sender, who sent
      it, whether that sender is a client of this server, and CurrentTime. */
  datatype Event = Event(
    param: string,
    channel: Option<Found>,
    standing: Standing,
    sender: ClientId,
    local: bool,
    now: int)

  /** The last-knock timestamps of every local client and every channel
      object. A client or channel the maps do not mention has the timestamp 0. */
  datatype Clocks = Clocks(user: map<ClientId, int>, chan: map<ChannelId, int>)

  function Clock<K>(m: map<K, int>, k: K): int {
    if k in m then m[k] else 0
  }

  /** The request the handler decides an event on, given the timestamps. */
  function RequestOf(w: Clocks, e: Event, config: ChannelConfig): Request {
    Request(e.param,
            match e.channel case None => None case Some(f) => Some(f.view),
            e.standing,
            if e.local then Some(Clock(w.user, e.sender)) else None,
            match e.channel case None => 0 case Some(f) => Clock(w.chan, f.id),
            e.now, config)
  }

  /** Handling one event: its outcome and the timestamps afterwards. A
      rejection changes no timestamp; a delivery stamps the channel with the
      current time, and the sender too when the sender is local; no other
      client's or channel's timestamp changes. */
  function Step(w: Clocks, e: Event, config: ChannelConfig): (r: (Clocks, Outcome))
    ensures r.1 == Decide(RequestOf(w, e, config))
    ensures r.1.Rejected? ==> r.0 == w
    ensures r.1.Delivered? ==>
      e.channel.Some? && r.1.channel == e.channel.value.view.name && r.1.local == e.local &&
      Clock(r.0.chan, e.channel.value.id) == e.now &&
      (e.local ==> Clock(r.0.user, e.sender) == e.now)
    ensures forall k :: k != e.sender || !e.local ==> Clock(r.0.user, k) == Clock(w.user, k)
    ensures forall n :: e.channel.None? || n != e.channel.value.id ==> Clock(r.0.chan, n) == Clock(w.chan, n)
  {
    var q := RequestOf(w, e, config);
    var o := Decide(q);
    DeliveredIff(q);
    if o.Rejected? then (w, o)
    else
      (Clocks(if e.local then w.user[e.sender := e.now] else w.user,
              w.chan[e.channel.value.id := e.now]),
       o)
  }

  /** The outcomes of a run of events handled in order from the timestamps w. */
  function Outcomes(w: Clocks, es: seq<Event>, config: ChannelConfig): (r: seq<Outcome>)
    ensures |r| == |es|
    decreases |es|
  {
    if es == [] then []
    else
      var s := Step(w, es[0], config);
      [s.1] + Outcomes(s.0, es[1..], config)
  }

  /** Event j of the run was delivered to a local sender. */
  predicate LocalDelivery(w: Clocks, es: seq<Event>, config: ChannelConfig, j: nat)
    requires j < |es|
  {
    Outcomes(w, es, config)[j].Delivered? && es[j].local
  }

  /** Times never go backwards along the run. */
  predicate Nondecreasing(es: seq<Event>) {
    forall a, b :: 0 <= a < b < |es| ==> es[a].now <= es[b].now
  }

  /** A local knock is delivered only knock_delay after the sender's
      timestamp at the start of the run. With a non-negative delay this holds
      however CurrentTime moves, since the sender's own timestamp only ever
      grows. */
  lemma {:induction false} UserSpacing(w: Clocks, es: seq<Event>, config: ChannelConfig, j: nat)
    requires config.knockDelay >= 0
    requires j < |es| && LocalDelivery(w, es, config, j)
    ensures es[j].now >= Clock(w.user, es[j].sender) + config.knockDelay
    decreases j
  {
    var s := Step(w, es[0], config);
    var q := RequestOf(w, es[0], config);
    DeliveredIff(q);
    if j > 0 {
      assert Outcomes(w, es, config)[j] == Outcomes(s.0, es[1..], config)[j - 1];
      UserSpacing(s.0, es[1..], config, j - 1);
    }
  }

  /** Two knocks delivered to the same local client are at least
      knock_delay apart. */
  lemma {:induction false} UserKnocksSpaced(w: Clocks, es: seq<Event>, config: ChannelConfig, i: nat, j: nat)
    requires config.knockDelay >= 0
    requires i < j < |es|
    requires LocalDelivery(w, es, config, i) && LocalDelivery(w, es, config, j)
    requires es[i].sender == es[j].sender
    ensures es[j].now >= es[i].now + config.knockDelay
    decreases i
  {
    var s := Step(w, es[0], config);
    assert Outcomes(w, es, config)[j] == Outcomes(s.0, es[1..], config)[j - 1];
    if i == 0 {
      UserSpacing(s.0, es[1..], config, j - 1);
    } else {
      assert Outcomes(w, es, config)[i] == Outcomes(s.0, es[1..], config)[i - 1];
      UserKnocksSpaced(s.0, es[1..], config, i - 1, j - 1);
    }
  }

  /** A local knock on channel c is delivered only knock_delay_channel after
      c's timestamp at the start of the run, provided time does not go
      backwards and no event of the run comes before that timestamp. Remote
      deliveries restamp the channel too, so a remote knock in between
      pushes the next local one further out. */
  lemma {:induction false} ChannelSpacing(w: Clocks, es: seq<Event>, config: ChannelConfig, c: ChannelId, j: nat)
    requires Nondecreasing(es)
    requires forall k :: 0 <= k < |es| ==> Clock(w.chan, c) <= es[k].now
    requires j < |es| && LocalDelivery(w, es, config, j)
    requires es[j].channel.Some? && es[j].channel.value.id == c
    ensures es[j].now >= Clock(w.chan, c) + config.knockDelayChannel
    decreases j
  {
    var s := Step(w, es[0], config);
    var q := RequestOf(w, es[0], config);
    DeliveredIff(q);
    if j > 0 {
      assert Outcomes(w, es, config)[j] == Outcomes(s.0, es[1..], config)[j - 1];
      forall k | 0 <= k < |es[1..]|
        ensures Clock(s.0.chan, c) <= es[1..][k].now
      {
        assert es[0].now <= es[k + 1].now;
      }
      ChannelSpacing(s.0, es[1..], config, c, j - 1);
    }
  }

  /** A knock delivered locally to a channel object comes at least
      knock_delay_channel after any earlier knock delivered to it, local or
      remote and from any client, provided time does not go backwards. A channel recreated under an old name is
      another object and is not held to the old one's timestamp. */
  lemma {:induction false} ChannelKnocksSpaced(w: Clocks, es: seq<Event>, config: ChannelConfig, i: nat, j: nat)
    requires Nondecreasing(es)
    requires i < j < |es|
    requires Outcomes(w, es, config)[i].Delivered? && LocalDelivery(w, es, config, j)
    requires es[i].channel.Some? && es[j].channel.Some?
    requires es[i].channel.value.id == es[j].channel.value.id
    ensures es[j].now >= es[i].now + config.knockDelayChannel
    decreases i
  {
    var s := Step(w, es[0], config);
    assert Outcomes(w, es, config)[j] == Outcomes(s.0, es[1..], config)[j - 1];
    if i == 0 {
      var c := es[0].channel.value.id;
      forall k | 0 <= k < |es[1..]|
        ensures Clock(s.0.chan, c) <= es[1..][k].now
      {
        assert es[0].now <= es[k + 1].now;
      }
      ChannelSpacing(s.0, es[1..], config, c, j - 1);
    } else {
      assert Outcomes(w, es, config)[i] == Outcomes(s.0, es[1..], config)[i - 1];
      ChannelKnocksSpaced(s.0, es[1..], config, i - 1, j - 1);
    }
  }

  /** A remote client's knocks are never held back by either limit: a remote
      event that passes the four common checks is delivered whatever the
      timestamps are. */
  lemma RemoteNeverLimited(w: Clocks, e: Event, config: ChannelConfig)
    requires !e.local && PassesCommonChecks(RequestOf(w, e, config))
    ensures Step(w, e, config).1.Delivered?
    ensures forall w2: Clocks :: Step(w2, e, config).1 == Step(w, e, config).1
  {
    var q := RequestOf(w, e, config);
    RemoteDelivered(q);
    forall w2: Clocks ensures Step(w2, e, config).1 == Step(w, e, config).1 {
      RemoteDelivered(RequestOf(w2, e, config));
    }
  }
}
