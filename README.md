# KNOCK admission in ircd-hybrid

This project models the KNOCK command handler `m_knock` of ircd-hybrid. With KNOCK, a
client that is not on a closed channel asks that channel's operators for an invite.

The handler is a chain of checks. Each check that fails ends the command with exactly one
numeric reply. In order, the checks are:

1. the parameter is empty;
2. the channel does not exist;
3. the sender is already on it;
4. the channel is not closed, meaning it is not invite-only, has no key and is not full.

A sender that is a client of this server (a local client) then goes through three more checks:

5. the channel is private or the sender is banned;
6. the sender's last delivered knock was less than `knock_delay` seconds ago;
7. the channel's last delivered knock, local or remote, was less than `knock_delay_channel` seconds ago.

A refused knock sets neither timestamp.

A request that passes every check is delivered. The channel's last-knock time is set to the
current time. For a local sender, the sender's last-knock time is set too, and the sender gets
RPL_KNOCKDLVR. Then the channel operators get a NOTICE, and the KNOCK is passed on to the
servers that have the KNOCK capability.

- `knock.dfy`, module `Knock`, models the single command.
  - `Checks` lists the handler's checks in order, as (fails, reply) pairs.
  - `Decide` takes the reply of the first failing check (`FirstFailing`), or delivers the request.
  - `Closed` is the closed-channel test.
  - `Knock` is the handler itself. It is an early-return method over the two objects
    whose fields it changes: `Channel` and `LocalClient`, each with a `lastKnock` field.
    It is proved to send exactly `Sends(Decide(...))` and to change only the two timestamps,
    as `Stamp` says.
- `knock_rate.dfy`, module `KnockRate`, models a run of KNOCK commands.
  - The timestamps of all clients and channels are kept as two maps. Channels are keyed by the identity of the channel object, not by name, so a channel destroyed and created again under the same name starts from a fresh timestamp, as a new `struct Channel` does.
  - It proves what the two flood limits guarantee across the whole run.

The daemon's helpers appear as inputs:

- `hash_find_channel` is the `chptr: Channel?` argument; null means not found.
- `IsMember`, `is_banned` and `PrivateChannel` are the three booleans of `Standing`.
- `localClient` is non-null exactly when `MyClient(source_p)` holds, and is then the sender's `localClient`.
- `CurrentTime` is `now`; `ConfigChannel` is `ChannelConfig`.

`MODE_INVITEONLY` is given the value 0x10. channel_mode.h is not part of this model, and no
proof depends on that value. numeric.h is not part of this model either, so numerics appear by
name rather than by number.

## Model

| member | source | states |
|---|---|---|
| Knock.Closed | modules/m_knock.c:83-89 | an invite-only or keyed channel is closed; otherwise the channel is closed exactly when its limit is non-zero and its members have reached it; a limit of 0 never closes it |
| Knock.FirstFailing | modules/m_knock.c:64-120 | the chain produces no reply exactly when every check passes |
| Knock.FirstFailingIsFirst | modules/m_knock.c:64-120 | when check i fails and every earlier check passes, the reply of check i is the one produced, whatever the later checks say |
| Knock.PassedChecksFoundChannel | modules/m_knock.c:70-74 | a request that passes every check names a channel the lookup found |
| Knock.CommonChecks | modules/m_knock.c:64-89 | priority of the first four checks: empty parameter gives ERR_NEEDMOREPARAMS("KNOCK"); otherwise a missing channel gives ERR_NOSUCHCHANNEL with the parameter; otherwise membership gives ERR_KNOCKONCHAN; otherwise an open channel gives ERR_CHANOPEN |
| Knock.LocalChecks | modules/m_knock.c:91-124 | for a local sender past the first four checks: private or banned gives ERR_CANNOTSENDTOCHAN before any rate check; then `user + knock_delay > now` gives ERR_TOOMANYKNOCK "user"; only then `chan + knock_delay_channel > now` gives ERR_TOOMANYKNOCK "channel"; otherwise the knock is delivered and acknowledged |
| Knock.RemoteDelivered | modules/m_knock.c:91-136 | a remote sender past the first four checks is always delivered, with no acknowledgement, whatever its ban, the private mode or the timestamps |
| Knock.DeliveredIff | modules/m_knock.c:64-126 | a knock is delivered if and only if every check of its sender's chain passes (both directions); a delivery names the channel found and is acknowledged exactly for a local sender |
| Knock.OneReply | modules/m_knock.c:64-136 | a rejection sends its one numeric and nothing else; a local delivery starts with RPL_KNOCKDLVR for the channel; a delivery ends with the chanop NOTICE and then the server propagation; a reply to the sender exists exactly for rejections and local deliveries |
| Knock.Knock | modules/m_knock.c:58-138 | the handler sends exactly the messages of the decided outcome; the channel's timestamp (and a local sender's) becomes `now` on delivery and stays unchanged on every rejection; no other field changes |
| Knock.KnockTwice | modules/m_knock.c:109-122 | a second knock by the same local client on the same channel, with the same parameter and standing, within knock_delay of a delivered one is refused with ERR_TOOMANYKNOCK "user" and changes neither timestamp |
| KnockRate.Step | modules/m_knock.c:64-126 | a rejected knock changes no timestamp; a delivered one stamps its channel with `now`, and stamps the sender too exactly when the sender is local; no other client's or channel's timestamp changes |
| KnockRate.Outcomes | modules/m_knock.c:58-138 | a run of commands yields one outcome per command |
| KnockRate.UserSpacing | modules/m_knock.c:109-122 | a local delivery happens at least knock_delay after the sender's timestamp at the start of the run, for any movement of the clock, given knock_delay >= 0 |
| KnockRate.UserKnocksSpaced | modules/m_knock.c:102-122 | two knocks delivered to the same local client are at least knock_delay apart, for any movement of the clock, given knock_delay >= 0 |
| KnockRate.ChannelSpacing | modules/m_knock.c:116-126 | a local delivery on a channel happens at least knock_delay_channel after that channel's starting timestamp, when time does not go backwards and no command of the run comes before that starting timestamp; remote deliveries in between only push it later |
| KnockRate.ChannelKnocksSpaced | modules/m_knock.c:102-126 | a local delivery on a channel object comes at least knock_delay_channel after any earlier delivery on that channel, local or remote and by any client, when time does not go backwards |
| KnockRate.RemoteNeverLimited | modules/m_knock.c:91-126 | a remote knock past the first four checks is delivered, and its outcome does not depend on any timestamp |

## Left out

- Module registration and unloading (`knock_msgtab`, `module_init`, `module_exit`, `module_entry`, lines 140-171). This is command-table and capability plumbing in the module loader. The KNOCK capability and ISUPPORT token are not modelled.
- Message text and delivery (`sendto_one_numeric`, `sendto_channel_local`, `sendto_server`). These are network I/O. Each appears only as an abstract `Send` value that carries the name the numeric carries (the parameter, the channel name, or "KNOCK" for ERR_NEEDMOREPARAMS) and, for ERR_TOOMANYKNOCK, the "user"/"channel" tag. The sender's nick, user and host in the NOTICE are not modelled, and neither is which link the propagation skips (`client_p`).
- What `hash_find_channel`, `IsMember`, `is_banned`, `PrivateChannel` and `MyClient` compute. They are defined elsewhere in the daemon. The model takes their answers as inputs, and a channel's member list appears only as its length.
- `time_t` arithmetic is unbounded `int`. An overflow of `last_knock + knock_delay` is not modelled.
- A NULL `parv[1]` and an empty one are both the empty string.
- `KnockRate` gives a client or channel that has never knocked the timestamp 0. UserSpacing, UserKnocksSpaced and ChannelKnocksSpaced hold for any starting timestamps. ChannelSpacing needs the channel's starting timestamp to be no later than any command of the run.
- `KnockRate` takes the channel identities from the events: a recreated channel must carry an identity the run has not used before. The channel lookup that would hand out such identities is not part of this model.
