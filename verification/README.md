# Verification of silcd

This project models silcd, the SILC chat server, and proves properties of the
model with Dafny 4.11. `dafny verify dfyconfig.toml` checks all of it. The server
is single threaded: packets, commands and scheduled callbacks are handlers over
shared state, so most models are a state value with one total step function per
handler, a theorem over every sequence of steps, and a class whose methods
update the same state in place and are proved to follow the step functions.

Line numbers below refer to the repository's files.

## The models

**Backup resuming** (`ResumeInitiator`, `ResumeResponder`, `ResumeNetwork`,
`ResumeHandOver`, `ResumeRestarts`). When a primary router returns, the acting
backup hands the cell back with START, CONNECTED, ENDING and RESUMED. The arrival
of a packet and the protocol run it schedules are separate steps, so a later
packet can overwrite the type and the session of an earlier one.
`ResumeInitiator` is the acting backup, `ResumeResponder` every other participant
with its disabled link, `ResumeNetwork` the whole cell over a wire that delays,
reorders, repeats and loses packets, with any number of restarts;
`ResumeHandOver` constructs the schedules that hand a cell back or mislead an
attempt. `MarkedIff` says for every run which sessions get marked, and everything
else about ENDING follows from it. Five
things one might expect do not hold; each has its exact condition, and runs that
show all but the third are constructed:

- an answer is lost when another packet arrives before the run it scheduled: a
  session is marked exactly when some answer of it is followed by a run first
  (`MarkedIffAnswered`), and no continuation without another answer sends ENDING;
- a CONNECTED with a number nobody was given can mark a session that never
  answered, exactly when the peers may also send a packet of another kind that
  schedules the run (`SafeIffNotFoolable`);
- more than 256 sessions share one-byte numbers, so ENDING is never sent
  (`CanFinishIffNumbersDistinct`);
- an answer of an earlier attempt counts in a later one: ENDING speaks for the
  attempt it is sent in exactly when no peer's old answers arrive late
  (`AttemptsSafeIff`);
- a RESUMED of the backup's that arrives before a server has connected to the
  primary lifts the restriction of the fresh link, because nothing looks at who
  sent it: the link stays quiet exactly when the context that moves to it is
  neither finishing nor about to take that RESUMED (`QuietIff`).

**Router ring** (`RouterRing`). Broadcasts follow primary routes until the next
one is the originator. Whatever the primary routes, in every run a broadcast goes
along the walk of routes from its originator. On a ring it is therefore handled
once by everybody else; in general its copies are bounded exactly when the walk
ends within one hop more than there are routes, and with the routes 0 to 1, 1 to
2, 2 to 1 a broadcast of router 0 circulates for ever.

**Channels** (`Channel`, `ChannelRules`, `ChannelFounder`, `ChannelKeys`,
`ChannelEntry`). One channel under JOIN, LEAVE, KICK, QUIT, CMODE, CUMODE,
detach, resume, the timed rekey and the notifies. `ChannelRules` says for each
of them who may do it and what it comes to. `ChannelFounder` proves that there
is at most one founder, and for normal servers when exactly there is a second.
`ChannelKeys` proves that outside private-key mode the current key is held by
members only and by all connected members, and that a joiner never gets an older
key, each with its exact exception: a joined client that resumes another session
keeps the key of the channels it is taken off, because that removal generates no
key (packet_receive.c:3779-3780), and on a router that session need not even be
detached (packet_receive.c:3586-3613); and in private-key mode no key is
generated (server.c:3952-3955) while a change of cipher and the timed rekey
still distribute the one there is, to whoever joined since it was made. A
channel with founder authentication that has been emptied keeps its last key
until the next JOIN. `ChannelEntry` is the entry as the handlers change it,
early exits included; its invariant carries the founder and key results.

**Membership** (`Membership`, `MembershipTables`). The user lists of channels and
the channel tables of clients share one record per membership;
`MembershipTables` keeps both in step through every event, with loops that delete
while they iterate, and from the empty tables through every run that revives no
expired entry. `Membership` proves over all runs that entries on the expired list are
on no channel, as the destructor asserts, exactly as long as no expired entry
registers again. The exception exists: a KILLED notify that is not destined to
the client expires the entry of a local client without clearing its connection's
context (packet_receive.c:1500-1543).

**Sessions** (`Sessions`). `stat.clients`, `stat.cell_clients` and
`stat.my_clients` over accept, register, detach, resume, quit, loss of the
connection and detach timeout, with the exact events that break the account; the
class `Server` runs any sequence of them. A detached session can be resumed from
any other connection until its timeout frees it, and a resumed one is safe from
that timeout (`DetachedIsResumed`, `DetachedTimesOut`, `ResumedIsLeftAlone`).
The check at command.c:4102 takes the address of the counter and so never fails.

**Fan-out** (`Relay`, `NotifyChannels`). The two loops that deliver to channel
members, with their deduplicating arrays, against a specification by sets.

**Pending commands** (`PendingCommands`). Registration, marking, execution and
deletion of callbacks. A reply calls exactly what matched and removes it; what a
callback registers for the same command and identifier is removed uncalled.

**Tables, codecs, arithmetic** (`BackupTables`, `AnnounceCodec`, `IdSearch`,
`Backoff`, `Getopt`). Slot tables with holes, announcement payloads, ID probing,
the retry timeout, and the bundled option scanner.

Where the code and its documentation differ the model follows the code:

- The comment before `silc_server_channel_delete` (server_util.c:917-920) has the
  return values the wrong way round: FALSE means destroyed.
- `silc_server_backup_replaced_add` and `_get` are documented for an IP address
  and port (server_backup.c:210-213, 252-255); only the address is stored and compared.
- `getopt` reports a missing argument with '?' whatever the option string starts
  with; getopt() in IEEE Std 1003.1 asks for ':' when it starts with a colon.

## Model

| member | source | states |
|---|---|---|
| ResumeInitiator.MarkedIff | apps/silcd/server_backup.c:1085-1112 | over every run, with any packets and schedule: session i is marked if and only if some scheduled run found a CONNECTED as the last packet and i as the last number given out, session 0 to begin with |
| ResumeInitiator.EndingScheduledIff | apps/silcd/server_backup.c:1085-1123 | ENDING is scheduled or sent if and only if every session was marked so, and there are at most 256 |
| ResumeInitiator.MarkedIffAnswered | apps/silcd/server_backup.c:728-755 | when peers echo, a session is marked if and only if an answer of it was followed by a run before any other packet, in every interleaving |
| ResumeInitiator.EndingIffAllAnswered | apps/silcd/server_backup.c:1085-1123 | and ENDING is scheduled or sent if and only if every session has such an answer |
| ResumeInitiator.OverwrittenAnswerIsLost | apps/silcd/server_backup.c:728-742 | after two answers that arrive before their runs, no continuation sends ENDING unless the first peer answers again |
| ResumeInitiator.SafeIffNotFoolable | apps/silcd/server_backup.c:728-751 | for any set of packets the peers may send: no run sends ENDING without every answer, if and only if no session can be marked by a stray CONNECTED after another packet that schedules a run for it, the others being markable too |
| ResumeInitiator.EchoIsSafe | apps/silcd/server_backup.c:728-751 | peers that send no stray number, or nothing but CONNECTED, meet that condition |
| ResumeInitiator.EndingIsSafe | apps/silcd/server_backup.c:924-946 | when peers echo: over every interleaving of arrivals and runs, ENDING is sent only when every opened session had a CONNECTED with its number, always to the primary with its own number, and the backup steps down only after ENDING and RESUMED |
| ResumeInitiator.StrayNumberMarksWrongSession | apps/silcd/server_backup.c:728-751 | a stray CONNECTED and an ENDING with a given number are enough: the backup sends ENDING although no CONNECTED for the session arrived |
| ResumeInitiator.CanFinishIffNumbersDistinct | apps/silcd/server_backup.c:967-1025 | ENDING can be reached if and only if between 1 and 256 sessions were opened |
| ResumeInitiator.InitiatorContext.constructor | apps/silcd/server_backup.c:967-1025 | the START loop opens one numbered session per eligible stream and sends it its number |
| ResumeInitiator.StartAsksExactly | apps/silcd/server_backup.c:967-1025 | a session and a START for each stream that has an entry, is not our own, leads to a router or server and is not disabled, in stream order with their numbers; for no other stream |
| ResumeInitiator.ArrivalSets | apps/silcd/server_backup.c:728-755 | what an arrival changes and when it schedules a run |
| ResumeInitiator.RunSets | apps/silcd/server_backup.c:1085-1123 | a run marks only the first session with the current number, only after a CONNECTED; ENDING is scheduled exactly when all are then marked; RESUMED ends the primary role |
| ResumeInitiator.EndingSets | apps/silcd/server_backup.c:924-946 | ENDING names the last session of the primary, in one byte |
| ResumeInitiator.InitiatorContext.Receive | apps/silcd/server_backup.c:728-755 | an arrival overwrites the type, the session only for a known number |
| ResumeInitiator.InitiatorContext.RunProtocol | apps/silcd/server_backup.c:1085-1123 | a run marks the first session with the current number and schedules ENDING when all are marked |
| ResumeInitiator.InitiatorContext.SendEndingTask | apps/silcd/server_backup.c:924-946 | ENDING carries the last session number of the primary |
| ResumeResponder.QuietUntilResumed | apps/silcd/server_backup.c:861-914 | when the context that a CONNECTED answer moves to the fresh link is harmless: until a RESUMED arrives over that link, it passes only heartbeats out and heartbeat, resume and rekey in, through every event including timeouts and a later RESUMED of the backup's |
| ResumeResponder.QuietIff | apps/silcd/server_backup.c:1243-1273 | over every run of a fresh server up to that answer: no continuation without RESUMED over the link lifts its restriction, if and only if the context is not finishing and has no pending run that would take a RESUMED |
| ResumeResponder.EarlyResumedLifts | apps/silcd/server_backup.c:728-755 | a run in which a RESUMED over the backup's link, before the connection, lifts the restriction of the primary's |
| ResumeResponder.StaysQuiet | apps/silcd/packet_send.c:39-45 | no event but a RESUMED over the link lifts the restriction once it is there |
| ResumeResponder.UnresumedUntilResumed | apps/silcd/server_backup.c:1243-1273 | along every run without RESUMED from a fresh server no context finishes or sees RESUMED, so the one that moves is harmless |
| ResumeResponder.TimeoutLiftsIffRouter | apps/silcd/server_backup.c:1346-1351 | a timeout leaves the link disabled exactly on a normal server |
| ResumeResponder.Responder.Handle | apps/silcd/server_backup.c:651-914 | every handler, with its early exits, follows the protocol and keeps the quiet link quiet until a RESUMED over it |
| ResumeResponder.Responder.Execute | apps/silcd/server_backup.c:1028-1083 | so does any run, from any state |
| ResumeResponder.Responder.MaySend | apps/silcd/packet_send.c:39-45 | in such a state the send guard lets exactly heartbeats through |
| ResumeResponder.StartSets | apps/silcd/server_backup.c:651-682 | START makes one new context over its link, unless a router that had closed its backup refuses it, once |
| ResumeResponder.ReplacedDisables | apps/silcd/server_backup.c:684-697 | REPLACED over its primary route disables that link at a router, changes nothing else and makes no protocol context |
| ResumeResponder.AdoptionSets | apps/silcd/server_backup.c:699-715 | a RESUMED of a router over a disabled link without a context takes over the context of its replaced backup |
| ResumeResponder.PacketSets | apps/silcd/server_backup.c:717-755 | any other packet over a link with a context overwrites its type, the session only for a known number, and schedules a run for that or RESUMED |
| ResumeResponder.AnswersIff | apps/silcd/server_backup.c:1034-1066 | CONNECTED is answered exactly by a first run at a server that need not connect to the primary, over the link of its context, or by the connection to the primary, to the backup; with the number of the context |
| ResumeResponder.AnnouncesIff | apps/silcd/server_backup.c:1130-1203 | RESUMED is announced exactly by the run that waits for ENDING and finds it |
| ResumeResponder.FirstRunSets | apps/silcd/server_backup.c:1028-1083 | the first run records the session; only a router without a usable route goes on to wait for ENDING, all others to the end state |
| ResumeResponder.EndingRunSets | apps/silcd/server_backup.c:1125-1220 | the run that has seen ENDING makes both links point at its context, lifts the restriction and finishes |
| ResumeResponder.ResumedRunSets | apps/silcd/server_backup.c:1223-1286 | the run that has seen RESUMED finishes, and switches back exactly over the link to a replaced primary |
| ResumeResponder.ConnectSets | apps/silcd/server_backup.c:861-914 | the context of the backup's link moves to the new one, which is then disabled; without a context it is free |
| ResumeResponder.SwitchesBackIff | apps/silcd/server_backup.c:1230-1273 | a server goes back to the primary exactly in a run of the end state that finds a RESUMED over the link to it, being replaced |
| ResumeResponder.LiftsIff | apps/silcd/server_backup.c:1138-1411 | exactly which event lifts the restriction of the link to the primary |
| ResumeResponder.ImposesIff | apps/silcd/server_backup.c:684-910 | exactly which event imposes it |
| ResumeResponder.CompletionSets | apps/silcd/server_backup.c:1331-1411 | a completed context is gone with the pointer of its link, and nothing else moves |
| ResumeNetwork.ResumeIsSafe | apps/silcd/server_backup.c:951-1308 | for all cells and interleavings: ENDING after a CONNECTED from every peer, RESUMED from the primary only and after ENDING, switching back only after a RESUMED |
| ResumeNetwork.PromptAttemptsAreSafe | apps/silcd/server_backup.c:1364-1384 | when no answer of an earlier attempt is delivered after a restart, ENDING means that every peer answered the START of this very attempt |
| ResumeHandOver.AttemptsSafeIff | apps/silcd/server_backup.c:1364-1384 | for any set of servers whose old answers may be delivered after a restart: in all such runs ENDING means that every peer answered this very attempt, if and only if no peer is in the set |
| ResumeHandOver.LateAnswerMisleads | apps/silcd/server_backup.c:1364-1384 | in a cell of up to 256 distinct peers, an old answer of any one of them makes the second attempt send ENDING though that peer handled the first START only |
| ResumeHandOver.CellCanBeHandedBack | apps/silcd/server_backup.c:951-1308 | such a cell with the primary among the peers has a run in which every normal server goes back to the primary and the backup steps down |
| ResumeNetwork.EndingCarriesRecordedNumber | apps/silcd/server_backup.c:924-946 | with one session per peer, ENDING carries exactly the number the primary recorded |
| ResumeNetwork.RestartSends | apps/silcd/server_backup.c:1364-1384 | a restart sends every session its START again and nothing else |
| ResumeNetwork.RunSends | apps/silcd/server_backup.c:1028-1220 | what a run of a server puts on the wire: CONNECTED, not over a disabled link, or RESUMED to everybody else, or nothing |
| ResumeNetwork.ConnectSends | apps/silcd/server_backup.c:861-914 | the connection to the primary is answered for to the backup |
| ResumeNetwork.DeliverySends | apps/silcd/server_backup.c:651-765 | a packet is handled by the server it was sent to, over the link it came by, and handling it sends nothing |
| ResumeRestarts.Complete | apps/silcd/server_backup.c:1336-1411 | a run that ends in error starts at most one new run, exactly when our primary route carried it; giving up leaves the backup role; exactly which links are enabled again, for every kind of server |
| ResumeRestarts.Attempts | apps/silcd/server_backup.c:1359-1384 | successive runs of the callback: at most twelve, each but the last failed and was restarted, and the server steps back exactly when the last one failed as the twelfth or with a failure reported |
| ResumeRestarts.AlwaysFailingGivesUp | apps/silcd/server_backup.c:1359-1362 | if no run ever succeeds the chain has exactly twelve and gives up |
| ResumeRestarts.OutcomeMeans | apps/silcd/server_backup.c:1346-1405 | when a failed run is tried again, when given up: from the streams, the error, the role and the attempt |
| ResumeRestarts.EnablesMeans | apps/silcd/server_backup.c:1346-1411 | which links are enabled again, stream by stream |
| RouterRing.HandledAtMostOnce | apps/silcd/packet_send.c:133-161 | on a ring of any size, with any broadcasts under way and any order: nobody handles one twice, its originator never, at most n - 1 sends |
| RouterRing.HandledByAll | apps/silcd/server.c:168-182 | a broadcast with nothing in the air was handled by every other router, with exactly n - 1 sends |
| RouterRing.ArrivalsProgress | apps/silcd/packet_receive.c:86-124 | each arrival is one more handling, bounded by n - 1 |
| RouterRing.BroadcastFollowsRoutes | apps/silcd/packet_send.c:133-161 | for any primary routes, in every run: the receivers of a broadcast are the walk of routes from its originator, handled in turn, and nothing is in the air exactly when the walk ends |
| RouterRing.BoundedIff | apps/silcd/packet_send.c:133-161 | the copies of a broadcast are bounded over all runs if and only if the routes lead from its originator, within one hop more than there are routes, to a router without one or back to it |
| RouterRing.RoutesPastOriginatorCirculate | apps/silcd/packet_send.c:133-161 | three routers whose routes lead past the originator: a run with more copies than any bound |
| ChannelFounder.SingleFounder | apps/silcd/command.c:1905-1939 | on a router without a primary route a channel has at most one founder in every reachable state, failing commands included |
| ChannelFounder.SingleFounderIff | apps/silcd/command.c:3589-3603 | on routers and normal servers: always at most one founder if and only if no event was a claim or notify accepted beside an existing founder |
| ChannelFounder.NotifiedRival | apps/silcd/packet_receive.c:931-1028 | a run on a normal server that ends with two founders, by a notify |
| ChannelFounder.StepKeepsOneIff | apps/silcd/packet_receive.c:931-1028 | the same for one event from any state with at most one founder |
| ChannelFounder.CumodeKeepsOneIff | apps/silcd/command.c:3537-3617 | CUMODE breaks it only by a proved claim on a normal server with a founder present |
| ChannelFounder.NotifyKeepsOneIff | apps/silcd/packet_receive.c:931-1028 | CUMODE_CHANGE breaks it only on a normal server |
| ChannelFounder.FounderIsEarned | apps/silcd/packet_receive.c:229-242 | who becomes founder came first to an ownerless channel, proved the founder key, or was announced by the network under the stated checks, all in the fields of the channel |
| ChannelFounder.OperatorChangesOrdinaryModes | apps/silcd/server_util.c:1272-1390 | an operator who is not founder leaves the private-key, passphrase, cipher, silencing and authentication modes, the founder key and the channel key as they are |
| ChannelRules.JoinAdmitsIff | apps/silcd/command.c:1976-2057 | a client not on an existing channel is on it after JOIN if and only if it is resolved, comes first, proves the founder key or is invited where needed, not banned and within the limit, has the passphrase where one is asked for, and passes the channel authentication where that is asked for |
| ChannelRules.JoinerRights | apps/silcd/command.c:1976-2114 | it joins as founder exactly when it came first or proved the founder key |
| ChannelRules.JoinOthers | apps/silcd/command.c:1905-1939 | the others keep their modes, except that a proof deposes the founder, even when the JOIN then fails |
| ChannelRules.JoinCreates | apps/silcd/command.c:2590-2655 | a channel nobody has is made with the client as founder, or empty if it is not resolved |
| ChannelRules.LeaveMeans | apps/silcd/server.c:3640-3715 | who is left, when the channel goes or is disabled, and that the others get a new key outside private-key mode |
| ChannelRules.LeaveGlobal | apps/silcd/server.c:3676-3680 | a normal server forgets that there are remote users exactly with the last of them |
| ChannelRules.RemovalsMean | apps/silcd/server.c:3540-3634 | QUIT, detach timeout and LEAVE notify remove as LEAVE does, the notify without a new key |
| ChannelRules.KickIff | apps/silcd/command.c:3822-3934 | KICK removes its target if and only if the kicker is operator or founder and the target no founder |
| ChannelRules.ResumeMeans | apps/silcd/packet_receive.c:3733-3916 | what a resumed session costs the resuming client and gives the session |
| ChannelRules.RekeyMeans | apps/silcd/server.c:3921-3938 | the timed rekey makes a key on routers only, outside private-key mode, and sends the current one to the connected members |
| ChannelRules.CmodeRights | apps/silcd/server_util.c:1272-1390 | who may change which modes; for everybody else CMODE does nothing |
| ChannelRules.CmodeIff | apps/silcd/command.c:3002-3411 | the new mask holds if and only if every argument the changed bits ask for is there and good |
| ChannelRules.CmodeSets | apps/silcd/command.c:3002-3411 | the limit, passphrase, founder key and number of key changes a successful CMODE leaves |
| ChannelRules.CmodeNeedsMember | apps/silcd/command.c:2960-3002 | without a mask or for a non-member nothing happens |
| ChannelRules.CumodeRights | apps/silcd/command.c:3499-3586 | nobody changes a founder or, without being operator or founder, another member, and nobody becomes founder but by the proof, and for himself |
| ChannelRules.CumodeSets | apps/silcd/command.c:3589-3740 | the exact mode of the target after an accepted CUMODE |
| ChannelRules.CumodeOthers | apps/silcd/command.c:3589-3603 | the other members keep theirs, but a claim on a router deposes the founder |
| ChannelRules.CumodeNeedsMembers | apps/silcd/command.c:3463-3521 | for a non-member, or about one, nothing happens |
| ChannelRules.JoinNotifiedMeans | apps/silcd/packet_receive.c:198-247 | a JOIN notify puts the client on the channel, as founder only as the first there |
| ChannelRules.CumodeNotifiedMeans | apps/silcd/packet_receive.c:865-1036 | when a CUMODE_CHANGE notify is heeded and when its founder bit is refused |
| ChannelKeys.CurrentKeyStaysInside | apps/silcd/server.c:3616-3630 | over every run: whenever not in private-key mode and not empty, all who were ever sent the current key are members, if and only if no client on the channel resumed another session |
| ChannelKeys.CurrentKeyReachesMembers | apps/silcd/command.c:2091-2139 | over every run, outside private-key mode every connected member was sent the current key |
| ChannelKeys.JoinersGetNewKeysIff | apps/silcd/command.c:2091-2139 | nobody is ever sent a key generated before its admission, if and only if no key was distributed in private-key mode while a connected member had joined since the key was last changed |
| ChannelKeys.LateIsExact | apps/silcd/server.c:3952-3955 | over every run: the clients let in since the channel last changed its key are exactly those admitted after the current key was made |
| ChannelKeys.StepIff | apps/silcd/server.c:3941-4027 | the same claims for one event, exactly, from any state that keeps their invariant |
| ChannelKeys.JoinKept | apps/silcd/command.c:2091-2139 | JOIN generates after admission and keeps both claims, also when it fails |
| ChannelKeys.RemovedKept | apps/silcd/server.c:3540-3634 | LEAVE, KICK, QUIT and detach timeout renew the key for those who stay |
| ChannelKeys.CmodeEffect | apps/silcd/command.c:3002-3411 | what a CMODE does to keys and modes through all its stages and error exits |
| ChannelKeys.CmodeKept | apps/silcd/command.c:3010-3037 | CMODE keeps the key claims except for a change of cipher while the channel stays in private-key mode |
| ChannelKeys.RekeyKept | apps/silcd/server.c:3921-3938 | the timed rekey keeps them except in private-key mode |
| ChannelKeys.ResumeKept | apps/silcd/packet_receive.c:3876-3916 | resume keeps them except when the resuming client is itself on the channel; a router also resumes sessions that are not detached |
| ChannelKeys.ResumeStrandsKey | apps/silcd/packet_receive.c:3779-3780 | a run in which a former member holds the current key |
| ChannelKeys.RouterTakeoverStrandsKey | apps/silcd/packet_receive.c:3586-3613 | the same on a router without any session being detached |
| ChannelKeys.CipherChangeLeaksKey | apps/silcd/command.c:3085-3185 | a run in which a later joiner is sent an older key |
| ChannelEntry.Entry.StripFounder | apps/silcd/command.c:1923-1934 | the loop takes founder mode from the first founder it meets and from nobody else |
| ChannelEntry.Entry.Check | apps/silcd/command.c:1976-2075 | the checks of JOIN in order: invite, ban, limit, passphrase, channel authentication, already joined |
| ChannelEntry.Entry.JoinCommand | apps/silcd/command.c:1905-2139 | the whole JOIN, creation and failing paths included |
| ChannelEntry.Entry.CmodeStages | apps/silcd/command.c:3002-3354 | the mode bits in order until one fails |
| ChannelEntry.Entry.CmodeCommand | apps/silcd/command.c:2960-3415 | the old mask after any failure, the new one after success |
| ChannelEntry.Entry.CumodeCommand | apps/silcd/command.c:3470-3750 | founder bit first, then the other bits one by one with their exits |
| ChannelEntry.ChangeBits | apps/silcd/command.c:3619-3740 | the bits after the founder bit, each changed or ending the command |
| ChannelEntry.Entry.CumodeNotified | apps/silcd/packet_receive.c:865-1036 | a router grants founder mode only when there is none and the key matches |
| ChannelEntry.Entry.Handle | apps/silcd/command.c:1905-4126 | every command, callback and notify on the entry: a second founder comes by a rival event only and never on a router, the current key leaves the members by a stranding event only, an old key reaches a joiner by a leaking one only |
| ChannelEntry.Entry.Execute | apps/silcd/command.c:1905-4126 | the same for any run of the entry, from its constructor on |
| Membership.ExpiredIdleIff | apps/silcd/idlist.c:390-410 | over every run: expired entries are unregistered and on no channel in all states, if and only if no expired entry was registered again |
| Membership.StepKeepsIff | apps/silcd/server.c:5073-5103 | the same for one event; memberships always join known clients and channels |
| Membership.PurgeFindsNoChannels | apps/silcd/server.c:1283-1306 | the destructor's assertion holds for whatever is purged |
| Membership.RevivedClientBreaksPurge | apps/silcd/packet_receive.c:1500-1543 | a run in which the purge frees an entry that is on a channel |
| Membership.RemovedNext | apps/silcd/server.c:3540-3634 | one turn of the removal loop, whatever was visited before |
| Membership.RemovedEvery | apps/silcd/server.c:3540-3634 | after all turns the client is off every channel and exactly the emptied channels are gone, in any order |
| Membership.LeaveMeans | apps/silcd/server.c:3640-3715 | after LEAVE a channel that is not permanent is gone if and only if no other user, on a normal server no other local one, is on it; all other memberships and channels stay |
| Membership.SignOffMeans | apps/silcd/server.c:3540-3634 | SIGNOFF does the same to every channel of the client, and expires it |
| Membership.ForgetMeans | apps/silcd/command_reply.c:131-158 | removal of an entry does too, and takes it off every list |
| Membership.NoEmptyChannelLeft | apps/silcd/server.c:3545-3549 | over every run of a router without revived entries: after any of these no channel the client was on is left without users unless it is permanent |
| Membership.DeleteMeans | apps/silcd/server_util.c:922-978 | deletion takes everybody off; a permanent channel stays |
| Membership.JoinMeans | apps/silcd/server.c:5014-5104 | who gets on a channel by JOIN or in a list of its users, and who becomes known by it |
| Membership.SaveChannelsMeans | apps/silcd/server.c:5113-5210 | the client is on exactly the listed channels, on none if unregistered |
| Membership.PermanentMeans | apps/silcd/command.c:3252-3340 | founder authentication makes a channel permanent, and its removal undoes that |
| Membership.UnknownChangesNothing | apps/silcd/packet_receive.c:3573-3613 | events about a client without an entry change nothing |
| Membership.AddMeans | apps/silcd/command_reply.c:476-505 | what a new entry looks like, and what a WHOWAS reply about an unknown client makes |
| Membership.WhowasMeans | apps/silcd/command_reply.c:505-560 | a client that is gone is unregistered, and expires if it is remote and on no channel |
| Membership.PurgeMeans | apps/silcd/server.c:1283-1306 | the purge takes exactly the aged expired entries |
| Membership.ResumeMeans | apps/silcd/packet_receive.c:3733-3784 | resuming deletes the own entry and revives the other |
| MembershipTables.Tables.OnChannel | apps/silcd/server_util.c:980-993 | looking in the client's table answers for both |
| MembershipTables.Tables.AddUser | apps/silcd/command.c:2104-2114 | one shared record enters both tables, never a second for the same pair |
| MembershipTables.Tables.SetMode | apps/silcd/server.c:5099-5102 | a mode change through one table is seen through the other |
| MembershipTables.Tables.RemoveOne | apps/silcd/server.c:3640-3715 | both tables lose the record; the last user's, or last local user's, channel goes |
| MembershipTables.Tables.DeleteChannel | apps/silcd/server_util.c:922-978 | a permanent channel is emptied, any other disappears from every client's table |
| MembershipTables.Tables.DropReferences | apps/silcd/idlist.c:660-693 | the foreach removes exactly this channel from its users' tables |
| MembershipTables.Tables.RemoveAll | apps/silcd/server.c:3540-3634 | iterating over a table while deleting from it removes the client from every channel |
| MembershipTables.Tables.SignOff | apps/silcd/server.c:3146-3230 | off all channels, unregistered, expired |
| MembershipTables.Tables.Forget | apps/silcd/command_reply.c:131-158 | off all channels and out of every list |
| MembershipTables.Tables.PurgeExpired | apps/silcd/server.c:1283-1306 | aged expired entries go and the tables still agree |
| MembershipTables.Tables.SaveChannels | apps/silcd/server.c:5113-5210 | the client ends on exactly the listed channels, on none if unregistered |
| MembershipTables.Tables.Handle | apps/silcd/server.c:3540-3715 | every event on the tables: they stay in agreement, describe the memberships the event leaves, and expired entries stay idle if and only if it revives none |
| MembershipTables.Tables.Execute | apps/silcd/idlist.c:390-410 | from the empty tables, through any run that revives no expired entry |
| Sessions.ConservedIff | apps/silcd/server.c:2360-2365 | over every run: counters equal the live sessions and those with a connection, and streams and sessions refer to each other, if and only if no event misfires |
| Sessions.DoubleDetachMisfires | apps/silcd/command.c:4061-4106 | two DETACH commands before the first callback: `my_clients` ends at -1 |
| Sessions.OrderlySessionsAreConserved | apps/silcd/command.c:4061-4126 | with one delayed command per stream, and resumes and timeouts after the detach callback, the counters are exact and never negative |
| Sessions.StepGoodIff | apps/silcd/server.c:3191-3220 | the same for one event, exactly |
| Sessions.DetachRanIff | apps/silcd/command.c:4061-4106 | the detach callback is sound exactly when its stream is still the client's connection |
| Sessions.QuitRanIff | apps/silcd/command.c:1320-1336 | the quit callback, likewise, or a detached client's |
| Sessions.TimedOutIff | apps/silcd/command.c:4108-4126 | the detach timeout is sound exactly when the client has no connection |
| Sessions.ResumeIff | apps/silcd/packet_receive.c:3733-3784 | resume is sound exactly when the detach callback has run |
| Sessions.DetachRunEnds | apps/silcd/command.c:4061-4156 | in every run: after an accepted DETACH and its callback, with nothing about the client between and after, the session is live, registered and without a connection, and its timeout is waiting |
| Sessions.DetachedIsResumed | apps/silcd/packet_receive.c:3573-3784 | such a session is taken over by a RESUME from any other client's open stream: that stream is its connection, and the entry of the stream's own client is gone |
| Sessions.DetachedTimesOut | apps/silcd/command.c:4108-4126 | otherwise the timeout of its DETACH frees it, and nobody else |
| Sessions.ResumedIsLeftAlone | apps/silcd/packet_receive.c:3733-3784 | a session that was resumed is left alone by the timeouts of its DETACH |
| Sessions.DetachAndAfter | apps/silcd/command.c:4061-4156 | both continuations of one run, from an empty server on |
| Sessions.NotDetachedStays | apps/silcd/packet_receive.c:3577-3613 | a session whose client never sent DETACH cannot be resumed or timed out |
| Sessions.LeftAloneSame | apps/silcd/server.c:3191-3275 | no event about others changes an entry or its streams |
| Sessions.ConnectionMeans | apps/silcd/server.c:2335-2365 | what accepting, registering and losing a connection do |
| Sessions.CloseMeans | apps/silcd/server.c:3191-3275 | the end of a connection takes its session out of every table and counter, the cell's not below zero |
| Sessions.TasksRunOnce | apps/silcd/command.c:1320-1336 | delayed callbacks run once, and without a session on their stream do nothing else |
| Sessions.ResumeCounts | apps/silcd/packet_receive.c:3733-3784 | a resume ends one entry and the counters know; the session cannot be resumed again before the next DETACH |
| Sessions.QuitEndsSession | apps/silcd/command.c:1320-1373 | the callback of QUIT ends the session and closes its stream |
| Sessions.Server.Handle | apps/silcd/server.c:3191-3275 | every event on the entries and counters: the account stays exact if and only if the event does not misfire |
| Sessions.Server.Execute | apps/silcd/server.c:2335-2365 | any run of a new server: no event misfires if and only if the run says so, the counters are then the sizes of what they count, and orderly runs are such |
| Relay.RelayToChannel | apps/silcd/packet_send.c:498-677 | one copy to each due client and normal server, one to all due routers together, none to anyone else; the array of user_list slots suffices |
| Relay.OrderDoesNotMatter | apps/silcd/packet_send.c:538-677 | two iteration orders reach the same clients and servers, with as many copies |
| Relay.ClientCopyIff | apps/silcd/packet_send.c:538-677 | a client gets its copy if and only if an entry of it is local and connected, is not the sender, does not block the message, and is not where it came from |
| Relay.ServerCopyIff | apps/silcd/packet_send.c:498-677 | a router copies to exactly the normal servers such a member is behind and to one of the due routers; a normal server to its router only |
| NotifyChannels.SendNotifyOnChannels | apps/silcd/packet_send.c:1283-1391 | each local client sharing a channel exactly once, each server entry once, the excluded sender never |
| NotifyChannels.SameCopies | apps/silcd/packet_send.c:1309-1391 | the delivered copies do not depend on iteration order |
| NotifyChannels.NotifiedIff | apps/silcd/packet_send.c:1283-1391 | who gets a copy, in terms of the user lists |
| PendingCommands.NeverTwins | apps/silcd/command.c:399-410 | over every run no two entries agree on command, ident, callback and context |
| PendingCommands.AccountedIff | apps/silcd/command.c:426-475 | every registration is waiting or was called exactly once, in all states, if and only if no callback registered for the reply it was called by |
| PendingCommands.AskingAgainLoses | apps/silcd/command.c:426-475 | a run in which a callback registers for its own reply and the registration is neither waiting nor called |
| PendingCommands.ReplyToWaiting | apps/silcd/command.c:448-475 | after a final reply a waiting registration is called and gone if and only if its ident is the reply's and its command the reply's or 0; all others stay as they are, uncalled |
| PendingCommands.ReplyToNew | apps/silcd/command.h:92-99 | what a callback registers is not called, and stays unless it is for the same command and ident |
| PendingCommands.AskAddsIff | apps/silcd/command.c:387-422 | registration is refused exactly when the same command, ident, callback and context are waiting |
| PendingCommands.WildcardGoesWithFinal | apps/silcd/command.c:426-475 | a wildcard marked by intermediate replies is called and removed by the final one |
| PendingCommands.TimeoutCalls | apps/silcd/command.c:333-370 | a timeout calls and removes what a reply to its entry would |
| PendingCommands.CallsInOrder | apps/silcd/command.c:448-475 | callbacks are called in the order of their registration |
| PendingCommands.ListReplyOnlyMarks | apps/silcd/command_reply.c:424-430 | intermediate list replies mark exactly those, and call and remove nothing |
| PendingCommands.Table.Ask | apps/silcd/command.c:387-422 | refuses exactly the duplicates |
| PendingCommands.Table.Check | apps/silcd/command.c:448-475 | returns and marks the matching entries, in order |
| PendingCommands.Table.Delete | apps/silcd/command.c:426-443 | deletes while iterating: the named ones and the marked wildcards |
| PendingCommands.Table.Execute | apps/silcd/command.c:333-370 | check, calls and deletion together, for replies and timeouts |
| BackupTables.Backups.Add | apps/silcd/server_backup.c:90-141 | as on a plain map: refused if present, else added, reusing holes |
| BackupTables.Backups.Get | apps/silcd/server_backup.c:146-169 | found exactly when a live server has that address and port |
| BackupTables.Backups.Delete | apps/silcd/server_backup.c:173-190 | as on a plain map |
| BackupTables.Backups.Send | apps/silcd/server_backup.c:347-377 | exactly one copy to each live, and if asked local, backup other than the sender and ourselves |
| BackupTables.ReplacedTable.Add | apps/silcd/server_backup.c:219-257 | one more record, by address |
| BackupTables.ReplacedTable.Get | apps/silcd/server_backup.c:264-292 | holds exactly when a record for the address is live |
| BackupTables.ReplacedTable.Delete | apps/silcd/server_backup.c:296-313 | all records of that server go, the others stay |
| AnnounceCodec.IdsRoundTrip | apps/silcd/packet_receive.c:2883-2897 | announced IDs decode to the same list and every byte is consumed |
| AnnounceCodec.ChannelsRoundTrip | apps/silcd/packet_receive.c:3223-3242 | so do announced channels |
| AnnounceCodec.UsersRoundTrip | apps/silcd/server.c:5033-5046 | so do users with their modes, kept in parallel lists |
| AnnounceCodec.IdBytes | apps/silcd/server.c:4286-4300 | the ID payload position by position, most significant byte first |
| AnnounceCodec.ChannelBytes | apps/silcd/server.c:4637-4659 | the channel payload, likewise |
| AnnounceCodec.ModeBytes | apps/silcd/server.c:4974-5009 | the mode list, likewise, four bytes a user |
| AnnounceCodec.AnnounceIds | apps/silcd/server.c:4286-4300 | the growing buffer is the concatenation of the payloads |
| AnnounceCodec.AnnounceChannels | apps/silcd/server.c:4637-4659 | likewise for channels |
| AnnounceCodec.ReceiveIds | apps/silcd/packet_receive.c:2883-2897 | the decoder loop ends with every ID processed in order |
| AnnounceCodec.ReceiveChannels | apps/silcd/packet_receive.c:3223-3242 | likewise for channels |
| AnnounceCodec.GetUsers | apps/silcd/server.c:4974-5009 | the two lists of the encoder loop |
| AnnounceCodec.SaveUsers | apps/silcd/server.c:5014-5104 | reads both lists in step and leaves on the channel every welcome client of the list but `noadd`, with its last mode, and everybody else as before; unknown clients are added on a normal server and refused on a router |
| AnnounceCodec.SavedMeans | apps/silcd/server.c:5053-5104 | what saving a list does to each client it names, written out |
| AnnounceCodec.OthersNotSaved | apps/silcd/server.c:5053-5104 | and that it touches nobody else |
| IdSearch.CreateClientId | apps/silcd/serverid.c:57-106 | a free ID with the given address and hash after at most 257 probes, failing exactly when all 256 are taken |
| IdSearch.CreateChannelId | apps/silcd/serverid.c:110-146 | the least free suffix from the start upwards, failing exactly when there is none |
| Backoff.ClosedForm | apps/silcd/server.c:1882-1892 | the timeout lies between the clamped power of two and that plus all extensions |
| Backoff.Settles | apps/silcd/server.c:1882-1892 | once the power of two reaches the maximum it stays within a second of it |
| Backoff.NeverWrapsIff | apps/silcd/server.h:81-86 | no retry ever wraps in 32 bits if and only if twice the greatest timeout fits |
| Backoff.FitsMeansEqual | apps/silcd/server.c:1882-1892 | where nothing wraps, 32-bit arithmetic computes the same timeout |
| Backoff.Retry.Next | apps/silcd/server.c:1882-1892 | every retry of a connection, in 32 bits: where twice the greatest timeout fits, the timeout is the first one or the doubled and clamped last one, plus the random extension, and keeps to the closed form |
| Getopt.Scanner.Next | lib/contrib/getopti.c:23-68 | one call returns the first item of what is left to parse and leaves the rest; it ends exactly at a word that is no option, leaving optind at it, or after "--"; what an illegal option, a missing argument, an argument and a plain option return, and where each leaves the scan |
| Getopt.Scan | lib/contrib/getopti.c:23-68 | repeated calls end, having returned what the recursive parser yields, with optind at the operands |
| Getopt.RoundTripIff | lib/contrib/getopti.c:29-36 | a rendered option list followed by "--" and operands scans back to itself if and only if no rendered word is "--" |
| Getopt.LineRoundTrip | lib/contrib/getopti.c:46-66 | clusters, attached and separate arguments scan back, whatever follows |
| Getopt.StopsAtOperand | lib/contrib/getopti.c:29-31 | options followed by a word that is none: the scan stops at that word |
| Getopt.StopsIff | lib/contrib/getopti.c:28-36 | nothing is returned of a line exactly when it is empty or its first word is no option or is "--" |
| Getopt.IllegalRefused | lib/contrib/getopti.c:39-46 | a colon or a character outside the option string is refused, and the scan goes on after it |
| Getopt.LegalTaken | lib/contrib/getopti.c:48-66 | an option with an argument takes the rest of its word or else the next word, and is refused when there is none |

## Left out

- Sockets, the packet engine, key exchange, ciphers, HMACs and the scheduler: signatures, matches of invite and ban lists and cipher lookups are inputs, keys are numbers, scheduled callbacks are later steps.
- Failing allocations: every allocation succeeds.
- Server shutdown, configuration, statistics pages, string preparation and logging.
- Clearing a freed protocol context: following a pointer to a freed or missing context has no effect in `ResumeResponder`.
- A second stream to the returning primary, and streams to third parties, in `ResumeResponder`: it has the two links of the protocol.
- The returning primary's own update of client and server entries after ENDING, and the announcements that follow a completed protocol.
- ResumeNetwork.ResumeIsSafe: restarts open the same sessions again; a peer that appears between two attempts is not modelled.
- A START received by the acting backup itself, which would make it a responder as well, and REPLACED over its own primary route, which only disables that link.
- `server->backup_router` in `ResumeResponder`: its servers are not acting backups themselves.
- Feeding broadcasts to backup routers in `RouterRing`, and a router whose primary route is itself.
- A router that has a primary route in `ChannelFounder`: there the CUMODE_CHANGE guard does not apply to packets from that route.
- USERS, JOIN and WHOIS replies in `Channel`: on any server with a route to another they write members and modes as they come, founder mode included, so `SingleFounderIff` speaks of the modelled events only.
- A client that resumes itself, and in `Channel` the change of server of a session resumed from elsewhere.
- The CMODE_CHANGE notify in `Channel`: it generates keys while the old private-key flag is still set.
- A JOIN on a normal server that has a router, which is forwarded there first.
- Message re-encryption and the sibling loop for packets other than channel messages (packet_send.c:255-395): the same deduplication with a `route` flag.
- The order in which one key packet reaches the members: it is one entry of the history.
- Channel topics, invite and ban list contents and public key lists.
- `channel->user_count`, which replies overwrite and one path does not maintain.
- Malformed announcement packets: the decoders are stated for what the encoders write.
- MOTD and USERS reply handlers, which register themselves again.
- A change of the reconnect parameters between two retries, and giving up after the configured number of them.
- The route cache, ASN.1 allocation and watch lists.
- Diagnostics that getopt writes to standard error, and calls after it has returned the end of options.
