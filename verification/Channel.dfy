/** One channel of a silcd server: its modes, its members with their rights, its
    key, and the commands and notifies that change them (apps/silcd/command.c,
    packet_receive.c, server.c, server_util.c).

    `Channel` is the value of the channel entry; `ChannelEntry` is the entry the
    handlers update in place, proved to follow the value functions.  Checks on
    data outside the channel (signatures, invite and ban lists, ciphers) arrive
    as their outcomes. */
module Channel {
  import opened Wire

  /** `chl->mode`, one field per bit. */
  datatype UMode = UMode(fo: bool, op: bool, block: bool, blockUsers: bool, blockRobots: bool, quiet: bool)

  const ORDINARY := UMode(false, false, false, false, false, false)
  const FOUNDER := UMode(true, true, false, false, false, false)

  /** `channel->mode`; `rest` stands for the bits with no effect here. */
  datatype Modes = Modes(
    privkey: bool, limited: bool, passphrase: bool, cipher: bool, hmac: bool, founderAuth: bool,
    channelAuth: bool, silenceUsers: bool, silenceOpers: bool, invite: bool, rest: nat)

  const NO_MODES := Modes(false, false, false, false, false, false, false, false, false, false, 0)

  /** What the server did about keys, in order.  Keys are numbered as they are
      generated; one packet to the whole channel is one entry. */
  datatype Act = Admitted(who: nat) | Generated(key: nat) | KeySent(to: set<nat>, key: nat)

  /** The number of the current key and the history so far. */
  datatype Keys = Keys(current: nat, log: seq<Act>)

  datatype Channel = Channel(
    router: bool,                 // server->server_type == SILC_ROUTER
    there: bool,                  // the channel entry exists
    disabled: bool,
    globalUsers: bool,
    mode: Modes,
    founderKey: Option<nat>,
    pass: Option<nat>,
    limit: nat,
    users: map<nat, UMode>,       // channel->user_list
    remote: set<nat>,             // clients whose entry has a `router`: not ours
    offline: set<nat>,            // our clients without a connection
    keys: Keys)

  // --------------------------------------------------------------------- keys

  /** silc_server_create_channel_key: does nothing in private-key mode. */
  function Renewed(k: Keys, privkey: bool): Keys {
    if privkey then k else Keys(k.current + 1, k.log + [Generated(k.current + 1)])
  }

  function SentTo(k: Keys, to: set<nat>): Keys {
    k.(log := k.log + [KeySent(to, k.current)])
  }

  /** Members that a packet to the channel reaches from here. */
  function Reached(ch: Channel): set<nat> {
    ch.users.Keys - ch.remote - ch.offline
  }

  /** A new key, unless in private-key mode, and the key packet to the channel. */
  function Issue(ch: Channel): (r: Channel)
    ensures r == ch.(keys := r.keys)
  {
    ch.(keys := SentTo(Renewed(ch.keys, ch.mode.privkey), Reached(ch)))
  }

  // --------------------------------------------------------- founder stripping

  predicate FounderAt(users: map<nat, UMode>, order: seq<nat>, i: nat) {
    i < |order| && order[i] in users && users[order[i]].fo
  }

  /** Index of the first founder in iteration order, or `|order|`. */
  function FirstFounder(users: map<nat, UMode>, order: seq<nat>): (k: nat)
    ensures k <= |order|
    ensures k < |order| ==> FounderAt(users, order, k)
    ensures forall j: nat :: j < k ==> !FounderAt(users, order, j)
  {
    if order == [] then 0
    else if FounderAt(users, order, 0) then 0
    else
      var k := FirstFounder(users, order[1..]);
      assert forall j: nat :: 1 <= j <= k ==>
        (FounderAt(users, order, j) <==> FounderAt(users, order[1..], j - 1));
      k + 1
  }

  function Without(users: map<nat, UMode>, c: nat): map<nat, UMode> {
    map d | d in users && d != c :: users[d]
  }

  /** The loop that takes the founder mode from the first founder it meets. */
  function Stripped(users: map<nat, UMode>, order: seq<nat>): map<nat, UMode> {
    var k := FirstFounder(users, order);
    if k < |order| then users[order[k] := users[order[k]].(fo := false)] else users
  }

  /** A hash table iteration visits every member. */
  predicate Enumerates(order: seq<nat>, users: map<nat, UMode>) {
    forall c :: c in users ==> c in order
  }

  // --------------------------------------------------------------------- JOIN

  /** What a JOIN carries and what the checks outside the channel say of it. */
  datatype JoinArgs = JoinArgs(
    resolved: bool,           // the client entry and its public key are at hand
    auth: bool,               // a founder authentication payload is present
    ownKey: Option<nat>,      // the client's public key
    proof: bool,              // the payload verifies with the founder key
    invited: bool,
    banned: bool,
    pass: Option<nat>,
    channelAuthOk: bool,
    order: seq<nat>)          // iteration order of the user list

  predicate Claims(ch: Channel, a: JoinArgs) {
    ch.there && a.auth && ch.mode.founderAuth && ch.founderKey.Some? && a.ownKey == ch.founderKey && a.proof
  }

  /** An enabled channel without users makes whoever comes first its founder. */
  predicate First(ch: Channel) {
    !ch.there || (!ch.disabled && !ch.globalUsers && ch.users == map[])
  }

  predicate Admits(ch: Channel, c: nat, a: JoinArgs) {
    && a.resolved
    && (ch.there ==>
          && (Claims(ch, a) || First(ch)
              || ((ch.mode.invite ==> a.invited) && !a.banned
                  && (ch.mode.limited ==> |ch.users| + 1 <= ch.limit)))
          && (ch.mode.passphrase ==> a.pass.Some? && a.pass == ch.pass)
          && (ch.mode.channelAuth ==> a.channelAuthOk)
          && c !in ch.users)
  }

  /** silc_server_create_new_channel. */
  function Created(ch: Channel): Channel {
    ch.(there := true, disabled := false, globalUsers := false, mode := NO_MODES,
        founderKey := None, pass := None, limit := 0, users := map[], keys := Renewed(ch.keys, false))
  }

  function JoinerMode(ch: Channel, a: JoinArgs): UMode {
    if Claims(ch, a) || First(ch) then FOUNDER else ORDINARY
  }

  /** The part of the command that leaves its mark even when it fails later. */
  function Prepared(ch: Channel, a: JoinArgs): Channel {
    if !ch.there then Created(ch)
    else if a.resolved && Claims(ch, a) then ch.(users := Stripped(ch.users, a.order))
    else ch
  }

  /** A new key for those already there, and the key to the joiner in the reply. */
  function JoinKeys(k: Keys, privkey: bool, isNew: bool, to: set<nat>, c: nat): Keys {
    if privkey then k else SentTo(if isNew then k else SentTo(Renewed(k, false), to), {c})
  }

  /** silc_server_command_join and _join_channel. */
  function Join(ch: Channel, c: nat, a: JoinArgs): Channel {
    if !Admits(ch, c, a) then Prepared(ch, a)
    else
      var ch1 := Prepared(ch.(keys := ch.keys.(log := ch.keys.log + [Admitted(c)])), a);
      ch1.(users := ch1.users[c := JoinerMode(ch, a)],
           disabled := false,
           keys := JoinKeys(ch1.keys, ch1.mode.privkey, !ch.there, Reached(ch1), c))
  }

  // ------------------------------------------------------------------ leaving

  /** silc_server_channel_delete: a founder-auth channel is only emptied. */
  function Deleted(ch: Channel): Channel {
    ch.(there := ch.mode.founderAuth, users := map[], disabled := true)
  }

  /** The last member leaves a router, or the last local one a normal server. */
  predicate Empties(ch: Channel, c: nat) {
    if ch.router then ch.users.Keys == {c} else ch.users.Keys - {c} <= ch.remote
  }

  function Left(ch: Channel, c: nat): Channel {
    var users := Without(ch.users, c);
    ch.(users := users,
        globalUsers := ch.globalUsers && (ch.router || c !in ch.remote || !(users.Keys !! ch.remote)))
  }

  /** Removal of a member, shared by LEAVE, KICK, QUIT, KILL, signoff and the
      detach timeout; `keygen` is off when a resuming client's old entry goes. */
  function Removed(ch: Channel, c: nat, keygen: bool): Channel {
    if c !in ch.users then ch
    else if Empties(ch, c) then Deleted(Left(ch, c))
    else if keygen && !ch.mode.privkey then Issue(Left(ch, c)) else Left(ch, c)
  }

  function Kick(ch: Channel, actor: nat, target: nat): Channel {
    if actor in ch.users && (ch.users[actor].op || ch.users[actor].fo) && target in ch.users && !ch.users[target].fo
    then Removed(ch, target, true)
    else ch
  }

  // -------------------------------------------------------- detach and resume

  function Detach(ch: Channel, c: nat): Channel {
    ch.(offline := ch.offline + {c})
  }

  /** Whether the client `cur` may take over the session `d`.  The packet comes
      over the connection of `cur`, so `cur` is not detached; only a normal server
      insists that `d` is. */
  predicate MayResume(ch: Channel, d: nat, cur: nat) {
    d != cur && cur !in ch.offline && (d in ch.offline || ch.router)
  }

  /** silc_server_resume_client: the entry `cur` of the new connection goes away
      and the entry `d` takes the connection over. */
  function Resume(ch: Channel, d: nat, cur: nat): Channel {
    if !MayResume(ch, d, cur) then ch
    else
      var ch1 := Removed(ch.(offline := ch.offline - {d}), cur, false);
      if d in ch1.users && !ch1.mode.privkey then ch1.(keys := SentTo(ch1.keys, {d})) else ch1
  }

  /** silc_server_channel_key_rekey: armed on routers only. */
  function Rekey(ch: Channel): Channel {
    if ch.there && ch.router then Issue(ch) else ch
  }

  // -------------------------------------------------------------------- CMODE

  datatype FounderArg = NoKeyArg | BadKeyArg | KeyArg(key: nat)

  datatype CmodeArgs = CmodeArgs(
    mask: Option<Modes>,      // absent: only a query
    limit: Option<nat>,
    pass: Option<nat>,
    cipherOk: bool,           // the cipher argument, or the default, can be had
    hmacOk: bool,
    founder: FounderArg,      // argument 8
    ownKey: nat,
    authSent: bool,           // argument 7
    authOk: bool,             // it verifies
    keyListSent: bool,        // argument 9
    keyListOk: bool)

  /** silc_server_check_cmode_rights. */
  predicate MayChange(now: Modes, u: UMode, mask: Modes) {
    u.fo || (u.op
      && !mask.privkey && !now.privkey
      && mask.passphrase == now.passphrase && mask.cipher == now.cipher
      && mask.founderAuth == now.founderAuth && mask.silenceUsers == now.silenceUsers
      && mask.silenceOpers == now.silenceOpers && mask.channelAuth == now.channelAuth)
  }

  /** A command in progress: goes on, or has jumped to its exit. */
  datatype Progress = Going(ch: Channel) | Stopped(ch: Channel)

  function PrivkeyStage(ch: Channel, mask: Modes): (r: Channel)
    ensures r == ch.(mode := r.mode, keys := r.keys)
    ensures r.mode == ch.mode.(privkey := ch.mode.privkey && mask.privkey)
  {
    if ch.mode.privkey && !mask.privkey then Issue(ch.(mode := ch.mode.(privkey := false))) else ch
  }

  function LimitStage(ch: Channel, mask: Modes, a: CmodeArgs): (p: Progress)
    ensures p.ch == ch.(limit := p.ch.limit)
  {
    if mask.limited then
      if a.limit.Some? then Going(ch.(limit := a.limit.value))
      else if ch.mode.limited then Going(ch) else Stopped(ch)
    else Going(if ch.mode.limited then ch.(limit := 0) else ch)
  }

  function PassStage(ch: Channel, mask: Modes, a: CmodeArgs): (p: Progress)
    ensures p.ch == ch.(pass := p.ch.pass)
  {
    if mask.passphrase == ch.mode.passphrase then Going(ch)
    else if !mask.passphrase then Going(ch.(pass := None))
    else if a.pass.Some? then Going(ch.(pass := a.pass)) else Stopped(ch)
  }

  /** Both directions of the cipher mode renew the key the same way. */
  function CipherStage(ch: Channel, mask: Modes, a: CmodeArgs): (p: Progress)
    ensures p.ch == ch.(keys := p.ch.keys)
  {
    if mask.cipher == ch.mode.cipher then Going(ch)
    else if a.cipherOk then Going(Issue(ch)) else Stopped(ch)
  }

  function HmacStage(ch: Channel, mask: Modes, a: CmodeArgs): (p: Progress)
    ensures p.ch == ch
  {
    if mask.hmac == ch.mode.hmac || a.hmacOk then Going(ch) else Stopped(ch)
  }

  /** Only a founder changes the founder key. */
  function FounderStage(ch: Channel, u: UMode, mask: Modes, a: CmodeArgs): (p: Progress)
    ensures p.ch == ch.(founderKey := p.ch.founderKey)
  {
    if !u.fo then Going(ch)
    else if !mask.founderAuth then Going(if ch.mode.founderAuth then ch.(founderKey := None) else ch)
    else if a.founder == BadKeyArg then Stopped(ch)
    else if a.founder == NoKeyArg && ch.mode.founderAuth then Going(ch)
    else if !a.authSent || !a.authOk then Stopped(ch)
    else Going(ch.(founderKey := Some(if a.founder.KeyArg? then a.founder.key else a.ownKey)))
  }

  function ChannelAuthStage(ch: Channel, u: UMode, mask: Modes, a: CmodeArgs): (p: Progress)
    ensures p.ch == ch
  {
    if u.fo && mask.channelAuth && (a.keyListSent || !ch.mode.channelAuth) && !a.keyListOk then Stopped(ch)
    else Going(ch)
  }

  datatype Stage = PrivkeyBit | LimitBit | PassBit | CipherBit | HmacBit | FounderBit | ChannelAuthBit

  function RunStage(ch: Channel, u: UMode, mask: Modes, a: CmodeArgs, s: Stage): Progress {
    match s
    case PrivkeyBit => Going(PrivkeyStage(ch, mask))
    case LimitBit => LimitStage(ch, mask, a)
    case PassBit => PassStage(ch, mask, a)
    case CipherBit => CipherStage(ch, mask, a)
    case HmacBit => HmacStage(ch, mask, a)
    case FounderBit => FounderStage(ch, u, mask, a)
    case ChannelAuthBit => ChannelAuthStage(ch, u, mask, a)
  }

  /** The first stage to fail ends the command. */
  function RunStages(ch: Channel, u: UMode, mask: Modes, a: CmodeArgs, todo: seq<Stage>): Progress
    decreases |todo|
  {
    if todo == [] then Going(ch)
    else
      var p := RunStage(ch, u, mask, a, todo[0]);
      if p.Stopped? then p else RunStages(p.ch, u, mask, a, todo[1..])
  }

  function AllStages(): seq<Stage> {
    [PrivkeyBit, LimitBit, PassBit, CipherBit, HmacBit, FounderBit, ChannelAuthBit]
  }

  /** The stage list, spelled out. */
  lemma StagesUnrolled(ch: Channel, u: UMode, mask: Modes, a: CmodeArgs)
    ensures var p1 := LimitStage(PrivkeyStage(ch, mask), mask, a);
            var p2 := if p1.Stopped? then p1 else PassStage(p1.ch, mask, a);
            var p3 := if p2.Stopped? then p2 else CipherStage(p2.ch, mask, a);
            var p4 := if p3.Stopped? then p3 else HmacStage(p3.ch, mask, a);
            var p5 := if p4.Stopped? then p4 else FounderStage(p4.ch, u, mask, a);
            var p6 := if p5.Stopped? then p5 else ChannelAuthStage(p5.ch, u, mask, a);
            RunStages(ch, u, mask, a, AllStages()) == p6
  {
    hide PrivkeyStage, LimitStage, PassStage, CipherStage, HmacStage, FounderStage, ChannelAuthStage;
  }

  /** silc_server_command_cmode: on every exit the mode is the old mask or, on
      success, the new one; what the stages did is not rolled back. */
  function Cmode(ch: Channel, actor: nat, a: CmodeArgs): Channel {
    if actor !in ch.users || a.mask.None? || !MayChange(ch.mode, ch.users[actor], a.mask.value) then ch
    else
      var p := RunStages(ch, ch.users[actor], a.mask.value, a, AllStages());
      p.ch.(mode := if p.Going? then a.mask.value else ch.mode)
  }

  // ------------------------------------------------------------------- CUMODE

  datatype CumodeArgs = CumodeArgs(mask: UMode, authOk: bool, order: seq<nat>)

  /** A claim to founder rights that is proved with the channel's founder key. */
  predicate ProvedClaim(ch: Channel, u: UMode, self: bool, a: CumodeArgs) {
    a.mask.fo && self && !u.fo && ch.mode.founderAuth && ch.founderKey.Some? && a.authOk
  }

  /** The target's mode after the rights bits: operator and founder. */
  datatype Bits = More(u: UMode) | Done(u: UMode)

  function OpBit(u: UMode, sender: UMode, mask: UMode): Bits {
    if u.op == mask.op then More(u)
    else if !sender.op && !sender.fo then Done(u)
    else More(u.(op := mask.op))
  }

  function OwnBits(u: UMode, self: bool, mask: UMode): Bits {
    if !self && (mask.block || u.block) then Done(u)
    else
      var u := u.(block := mask.block);
      if !self && (mask.blockUsers || u.blockUsers) then Done(u)
      else
        var u := u.(blockUsers := mask.blockUsers);
        if !self && (mask.blockRobots || u.blockRobots) then Done(u)
        else More(u.(blockRobots := mask.blockRobots))
  }

  function QuietBit(u: UMode, self: bool, mask: UMode): Bits {
    if u.quiet == mask.quiet then More(u)
    else if self then Done(u) else More(u.(quiet := mask.quiet))
  }

  /** The bits after the founder bit, each with its own early exit. */
  function OtherBits(u: UMode, sender: UMode, self: bool, mask: UMode): UMode {
    var b := OpBit(u, sender, mask);
    if b.Done? then b.u else
    var b := OwnBits(b.u, self, mask);
    if b.Done? then b.u else
    QuietBit(b.u, self, mask).u
  }

  predicate MayCumode(ch: Channel, actor: nat, target: nat) {
    && actor in ch.users
    && (target != actor ==>
          && (ch.users[actor].fo || ch.users[actor].op)
          && target in ch.users && !ch.users[target].fo)
  }

  /** silc_server_command_cumode. */
  function Cumode(ch: Channel, actor: nat, target: nat, a: CumodeArgs): Channel {
    if !MayCumode(ch, actor, target) then ch
    else
      var self := actor == target;
      var u := ch.users[target];
      if a.mask.fo && !u.fo && !ProvedClaim(ch, u, self, a) then ch
      else
        var claimed := a.mask.fo && !u.fo;
        var users := if claimed && ch.router then Stripped(ch.users, a.order) else ch.users;
        var u1 := u.(fo := a.mask.fo);
        var sender := if claimed then u1 else ch.users[actor];
        ch.(users := users[target := OtherBits(u1, sender, self, a.mask)])
  }

  // ------------------------------------------------- notifies from the network

  /** JOIN notify for a registered client. */
  function JoinNotify(ch: Channel, c: nat, fromRouter: bool): Channel {
    if !ch.there || c in ch.users then ch
    else
      var first := (!ch.router || fromRouter) && !ch.mode.founderAuth && ch.users == map[];
      ch.(users := ch.users[c := if first then FOUNDER else ORDINARY], disabled := false,
          globalUsers := ch.globalUsers || (!ch.router && fromRouter))
  }

  /** LEAVE, SIGNOFF and KICKED notifies remove without a new key. */
  function LeaveNotify(ch: Channel, c: nat): Channel {
    Removed(ch, c, false)
  }

  predicate Senior(u: UMode) {
    u.op || u.fo
  }

  /** Whether a CUMODE_CHANGE notify is accepted; `sender` is absent when a
      server enforces the change. */
  predicate Heeded(ch: Channel, sender: Option<nat>, target: nat) {
    && target in ch.users
    && (sender.Some? ==>
          && sender.value in ch.users
          && (sender.value != target && ch.router ==> Senior(ch.users[sender.value]) && !ch.users[target].fo))
  }

  predicate HasFounder(users: map<nat, UMode>) {
    exists c :: c in users && users[c].fo
  }

  /** Whether a router with no primary route lets the notify give founder rights. */
  predicate Grants(ch: Channel, sender: Option<nat>, keySent: Option<nat>) {
    && (sender.Some? ==> ch.mode.founderAuth)
    && !HasFounder(ch.users)
    && (ch.founderKey.Some? ==> keySent == ch.founderKey)
  }

  function CumodeNotify(ch: Channel, sender: Option<nat>, target: nat, mode: UMode, keySent: Option<nat>): Channel {
    if !Heeded(ch, sender, target) then ch
    else
      var refused := ch.router && mode.fo && !ch.users[target].fo && !Grants(ch, sender, keySent);
      ch.(users := ch.users[target := if refused then mode.(fo := false) else mode])
  }

  // ------------------------------------------------------------------- events

  datatype Event =
    | JoinCommand(who: nat, join: JoinArgs)
    | LeaveCommand(who: nat)
    | KickCommand(actor: nat, target: nat)
    | QuitCommand(who: nat)
    | DetachCommand(who: nat)
    | DetachTimeout(who: nat)
    | ResumeClient(detached: nat, current: nat)
    | CmodeCommand(actor: nat, cmode: CmodeArgs)
    | CumodeCommand(actor: nat, target: nat, cumode: CumodeArgs)
    | TimedRekey
    | JoinNotified(who: nat, fromRouter: bool)
    | LeaveNotified(who: nat)
    | CumodeNotified(sender: Option<nat>, target: nat, umode: UMode, keySent: Option<nat>)

  /** An iteration order that misses a member is no event at all. */
  predicate Orderly(ch: Channel, e: Event) {
    match e
    case JoinCommand(_, a) => Enumerates(a.order, ch.users)
    case CumodeCommand(_, _, a) => Enumerates(a.order, ch.users)
    case _ => true
  }

  function Step(ch: Channel, e: Event): Channel {
    if !Orderly(ch, e) then ch
    else
      match e
      case JoinCommand(c, a) => Join(ch, c, a)
      case LeaveCommand(c) => Removed(ch, c, true)
      case KickCommand(actor, t) => Kick(ch, actor, t)
      case QuitCommand(c) => Removed(ch, c, true)
      case DetachCommand(c) => Detach(ch, c)
      case DetachTimeout(c) => if c in ch.offline then Removed(ch, c, true) else ch
      case ResumeClient(d, cur) => Resume(ch, d, cur)
      case CmodeCommand(actor, a) => Cmode(ch, actor, a)
      case CumodeCommand(actor, t, a) => Cumode(ch, actor, t, a)
      case TimedRekey => Rekey(ch)
      case JoinNotified(c, r) => JoinNotify(ch, c, r)
      case LeaveNotified(c) => LeaveNotify(ch, c)
      case CumodeNotified(s, t, m, k) => CumodeNotify(ch, s, t, m, k)
  }

  /** A server that has not seen the channel. */
  function Absent(router: bool, remote: set<nat>): Channel {
    Channel(router, false, false, false, NO_MODES, None, None, 0, map[], remote, {}, Keys(0, []))
  }

  function After(ch: Channel, evs: seq<Event>): Channel {
    if evs == [] then ch else Step(After(ch, evs[..|evs| - 1]), evs[|evs| - 1])
  }

  lemma AfterNothing(ch: Channel)
    ensures After(ch, []) == ch
  {
  }

  lemma AfterSnoc(ch: Channel, evs: seq<Event>, e: Event)
    ensures After(ch, evs + [e]) == Step(After(ch, evs), e)
  {
    assert (evs + [e])[..|evs|] == evs;
  }

  lemma ThreeSteps(ch: Channel, a: Event, b: Event, c: Event)
    ensures After(ch, [a, b, c]) == Step(Step(Step(ch, a), b), c)
  {
    hide *;
    AfterNothing(ch);
    AfterSnoc(ch, [], a);
    AfterSnoc(ch, [a], b);
    AfterSnoc(ch, [a, b], c);
    assert [] + [a] == [a] && [a] + [b] == [a, b] && [a, b] + [c] == [a, b, c];
  }
}
