/** Who may do what on a channel, and what it comes to: each command and notify in
    terms of the channel's modes, members and rights alone. */
module ChannelRules {
  import opened Wire
  import opened Channel
  import F = ChannelFounder

  // ------------------------------------------------------ which handler runs

  lemma CmodeStep(ch: Channel, actor: nat, a: CmodeArgs)
    ensures Step(ch, CmodeCommand(actor, a)) == Cmode(ch, actor, a)
  {
    hide Cmode;
  }

  lemma CumodeStep(ch: Channel, actor: nat, target: nat, a: CumodeArgs)
    requires Enumerates(a.order, ch.users)
    ensures Step(ch, CumodeCommand(actor, target, a)) == Cumode(ch, actor, target, a)
  {
    hide Cumode;
  }

  lemma RemovalSteps(ch: Channel, c: nat)
    ensures Step(ch, LeaveCommand(c)) == Step(ch, QuitCommand(c)) == Removed(ch, c, true)
    ensures Step(ch, DetachTimeout(c)) == if c in ch.offline then Removed(ch, c, true) else ch
    ensures Step(ch, LeaveNotified(c)) == Removed(ch, c, false)
  {
    hide Removed;
  }

  // --------------------------------------------------------------------- JOIN

  lemma PreparedMembers(ch: Channel, a: JoinArgs)
    ensures ch.there ==> Prepared(ch, a).users.Keys == ch.users.Keys
    ensures !ch.there ==> Prepared(ch, a).users == map[]
  {
  }

  /** Whom JOIN lets onto a channel that exists: a resolved client that is not on it
      yet, comes first or proves the founder key or is invited where needed, not
      banned and within the limit, and that meets the passphrase and the channel
      authentication where those are asked for. */
  lemma JoinAdmitsIff(ch: Channel, c: nat, a: JoinArgs)
    requires ch.there && c !in ch.users && Enumerates(a.order, ch.users)
    ensures c in Step(ch, JoinCommand(c, a)).users
            <==> && a.resolved
                 && (|| (!ch.disabled && !ch.globalUsers && ch.users == map[])
                     || (a.auth && ch.mode.founderAuth && ch.founderKey.Some? && a.ownKey == ch.founderKey && a.proof)
                     || ((ch.mode.invite ==> a.invited) && !a.banned
                         && (ch.mode.limited ==> |ch.users| < ch.limit)))
                 && (ch.mode.passphrase ==> a.pass.Some? && a.pass == ch.pass)
                 && (ch.mode.channelAuth ==> a.channelAuthOk)
  {
    F.JoinUsers(ch, c, a);
    PreparedMembers(ch, a);
    hide Join, Prepared, JoinerMode;
  }

  /** With which rights: as founder for coming first or for the proof, else as an
      ordinary member. */
  lemma JoinerRights(ch: Channel, c: nat, a: JoinArgs)
    requires c !in ch.users && Enumerates(a.order, ch.users) && c in Step(ch, JoinCommand(c, a)).users
    ensures var first := !ch.there || (!ch.disabled && !ch.globalUsers && ch.users == map[]);
            var proved := && ch.there && a.auth && ch.mode.founderAuth && ch.founderKey.Some?
                          && a.ownKey == ch.founderKey && a.proof;
            Step(ch, JoinCommand(c, a)).users[c] == if first || proved then FOUNDER else ORDINARY
  {
    F.JoinUsers(ch, c, a);
    PreparedMembers(ch, a);
    hide Join, Prepared, Admits;
  }

  lemma StrippedKeeps(users: map<nat, UMode>, order: seq<nat>, d: nat)
    requires d in users
    ensures d in Stripped(users, order)
    ensures Stripped(users, order)[d].(fo := false) == users[d].(fo := false)
    ensures !users[d].fo ==> Stripped(users, order)[d] == users[d]
  {
  }

  lemma PreparedModes(ch: Channel, a: JoinArgs, d: nat)
    requires ch.there && F.OneFounder(ch.users) && Enumerates(a.order, ch.users) && d in ch.users
    ensures d in Prepared(ch, a).users
    ensures Prepared(ch, a).users[d] == ch.users[d].(fo := ch.users[d].fo && !(a.resolved && Claims(ch, a)))
  {
    if a.resolved && Claims(ch, a) {
      F.StrippedOfFounder(ch.users, a.order);
      StrippedKeeps(ch.users, a.order, d);
    }
  }

  /** The others keep their modes, but a proof of the founder key deposes the old
      founder even if the JOIN then fails. */
  lemma JoinOthers(ch: Channel, c: nat, a: JoinArgs, d: nat)
    requires ch.there && F.OneFounder(ch.users) && Enumerates(a.order, ch.users) && d in ch.users && d != c
    ensures var t := Step(ch, JoinCommand(c, a));
            var proved := && a.resolved && a.auth && ch.mode.founderAuth && ch.founderKey.Some?
                          && a.ownKey == ch.founderKey && a.proof;
            d in t.users && t.users[d] == ch.users[d].(fo := ch.users[d].fo && !proved)
  {
    F.JoinUsers(ch, c, a);
    PreparedModes(ch, a, d);
    hide Join, Prepared, Admits, JoinerMode;
  }

  /** A channel nobody has yet is made, whoever asks; only a resolved client gets
      onto it. */
  lemma JoinCreates(ch: Channel, c: nat, a: JoinArgs)
    requires !ch.there && Enumerates(a.order, ch.users)
    ensures var t := Step(ch, JoinCommand(c, a));
      && t.there && t.mode == NO_MODES && t.founderKey == None && t.pass == None && t.limit == 0
      && t.users == (if a.resolved then map[c := FOUNDER] else map[])
      && !t.disabled && !t.globalUsers
      && t.keys.current == ch.keys.current + 1
  {
  }

  // ------------------------------------------------------------------ leaving

  lemma EmptiesMeans(ch: Channel, c: nat)
    requires c in ch.users
    ensures Empties(ch, c)
            <==> if ch.router then forall d :: d in ch.users ==> d == c
                 else forall d :: d in ch.users && d != c ==> d in ch.remote
  {
    if ch.router && forall d :: d in ch.users ==> d == c { assert ch.users.Keys == {c}; }
  }

  /** A member leaves.  On a router the channel goes with its last member, on a
      normal server with its last local one: with founder authentication it only
      loses its members.  The others get a new key, except in private-key mode. */
  lemma LeaveMeans(ch: Channel, c: nat)
    requires c in ch.users
    ensures var t := Step(ch, LeaveCommand(c));
            var last := if ch.router then forall d :: d in ch.users ==> d == c
                        else forall d :: d in ch.users && d != c ==> d in ch.remote;
      && (forall d :: d in t.users <==> !last && d in ch.users && d != c)
      && (forall d :: d in t.users ==> t.users[d] == ch.users[d])
      && (last ==> t.disabled && (t.there <==> ch.mode.founderAuth))
      && (!last ==> t.there == ch.there && t.disabled == ch.disabled)
      && t.keys.current == (if last || ch.mode.privkey then ch.keys.current else ch.keys.current + 1)
      && t.mode == ch.mode && t.founderKey == ch.founderKey
  {
    EmptiesMeans(ch, c);
    RemovalSteps(ch, c);
    hide Empties, Step;
  }

  /** A normal server forgets that the channel is on other servers when the last
      remote member goes. */
  lemma LeaveGlobal(ch: Channel, c: nat)
    requires c in ch.users
    ensures var t := Step(ch, LeaveCommand(c));
            t.globalUsers <==> && ch.globalUsers
                               && (!ch.router && c in ch.remote ==>
                                     exists d :: d in ch.users && d != c && d in ch.remote)
  {
    var users := Without(ch.users, c);
    if d :| d in ch.users && d != c && d in ch.remote { assert d in users; }
    if !(users.Keys !! ch.remote) {
      var d :| d in users.Keys && d in ch.remote;
      assert d in ch.users && d != c;
    }
    RemovalSteps(ch, c);
    hide Empties, Issue, Step;
  }

  /** Where the other removals come down to. */
  lemma RemovalsMean(ch: Channel, c: nat)
    ensures Step(ch, QuitCommand(c)) == Step(ch, LeaveCommand(c))
    ensures Step(ch, DetachTimeout(c)) == if c in ch.offline then Step(ch, LeaveCommand(c)) else ch
    ensures c !in ch.users ==> Step(ch, LeaveCommand(c)) == Step(ch, LeaveNotified(c)) == ch
    ensures var t, u := Step(ch, LeaveNotified(c)), Step(ch, LeaveCommand(c));
            t == u.(keys := ch.keys)
  {
    RemovalSteps(ch, c);
    hide Step, Empties;
  }

  /** KICK takes away anyone but a founder, and only operators and founders kick. */
  lemma KickIff(ch: Channel, actor: nat, target: nat)
    requires target in ch.users
    ensures Step(ch, KickCommand(actor, target))
            == if actor in ch.users && (ch.users[actor].op || ch.users[actor].fo) && !ch.users[target].fo
               then Step(ch, LeaveCommand(target)) else ch
  {
  }

  // ------------------------------------------------ detach, resume and rekey

  /** RESUME_CLIENT: the client of the connection leaves like everybody whose entry
      goes, without a new key; the session that it takes over is connected and, if
      on the channel outside private-key mode, sent the key there is. */
  lemma ResumeMeans(ch: Channel, d: nat, cur: nat)
    ensures var may := d != cur && cur !in ch.offline && (d in ch.offline || ch.router);
            var left := Step(ch.(offline := ch.offline - {d}), LeaveNotified(cur));
            Step(ch, ResumeClient(d, cur))
            == if !may then ch
               else if d in left.users && !left.mode.privkey
               then left.(keys := left.keys.(log := left.keys.log + [KeySent({d}, left.keys.current)]))
               else left
  {
  }

  /** The timed rekey makes a key on a router, outside private-key mode, and sends
      the current one to the connected members. */
  lemma RekeyMeans(ch: Channel)
    ensures var t, fires := Step(ch, TimedRekey), ch.there && ch.router;
      && t.keys.current == (if fires && !ch.mode.privkey then ch.keys.current + 1 else ch.keys.current)
      && (fires ==> t.keys.log != [] && t.keys.log[|t.keys.log| - 1]
                                       == KeySent(ch.users.Keys - ch.remote - ch.offline, t.keys.current))
      && (!fires ==> t == ch) && t == ch.(keys := t.keys)
  {
  }

  // -------------------------------------------------------------------- CMODE

  lemma LimitMeans(ch: Channel, m: Modes, a: CmodeArgs)
    ensures var p := LimitStage(ch, m, a);
      && (p.Going? <==> (m.limited ==> a.limit.Some? || ch.mode.limited))
      && (p.Going? ==> p.ch.limit == if m.limited then if a.limit.Some? then a.limit.value else ch.limit
                                     else if ch.mode.limited then 0 else ch.limit)
  {
  }

  lemma PassMeans(ch: Channel, m: Modes, a: CmodeArgs)
    ensures var p := PassStage(ch, m, a);
      && (p.Going? <==> (m.passphrase && !ch.mode.passphrase ==> a.pass.Some?))
      && (p.Going? ==> p.ch.pass == if m.passphrase == ch.mode.passphrase then ch.pass
                                    else if m.passphrase then a.pass else None)
  {
  }

  lemma CryptoMeans(ch: Channel, m: Modes, a: CmodeArgs)
    ensures var p := CipherStage(ch, m, a);
      && (p.Going? <==> (m.cipher != ch.mode.cipher ==> a.cipherOk))
      && (p.Going? ==> p.ch.keys.current == if m.cipher != ch.mode.cipher && !ch.mode.privkey
                                            then ch.keys.current + 1 else ch.keys.current)
    ensures HmacStage(ch, m, a).Going? <==> (m.hmac != ch.mode.hmac ==> a.hmacOk)
  {
  }

  lemma FounderKeyMeans(ch: Channel, u: UMode, m: Modes, a: CmodeArgs)
    ensures var p := FounderStage(ch, u, m, a);
      && (p.Going? <==> (u.fo && m.founderAuth ==>
                           && a.founder != BadKeyArg
                           && ((a.founder == NoKeyArg && ch.mode.founderAuth) || (a.authSent && a.authOk))))
      && (p.Going? ==> p.ch.founderKey == if !u.fo || (m.founderAuth && ch.mode.founderAuth && a.founder == NoKeyArg)
                                             || (!m.founderAuth && !ch.mode.founderAuth) then ch.founderKey
                                          else if !m.founderAuth then None
                                          else Some(if a.founder.KeyArg? then a.founder.key else a.ownKey))
    ensures ChannelAuthStage(ch, u, m, a).Going?
            <==> (u.fo && m.channelAuth && (a.keyListSent || !ch.mode.channelAuth) ==> a.keyListOk)
  {
  }

  lemma PrivkeyMeans(ch: Channel, m: Modes)
    ensures var n := PrivkeyStage(ch, m);
      && n.keys.current == (if ch.mode.privkey && !m.privkey then ch.keys.current + 1 else ch.keys.current)
      && n == ch.(mode := ch.mode.(privkey := ch.mode.privkey && m.privkey), keys := n.keys)
  {
  }

  /** The stages, one after the other. */
  function Chain(ch: Channel, u: UMode, m: Modes, a: CmodeArgs): Progress {
    var p1 := LimitStage(PrivkeyStage(ch, m), m, a);
    var p2 := if p1.Stopped? then p1 else PassStage(p1.ch, m, a);
    var p3 := if p2.Stopped? then p2 else CipherStage(p2.ch, m, a);
    var p4 := if p3.Stopped? then p3 else HmacStage(p3.ch, m, a);
    var p5 := if p4.Stopped? then p4 else FounderStage(p4.ch, u, m, a);
    if p5.Stopped? then p5 else ChannelAuthStage(p5.ch, u, m, a)
  }

  /** What the stages come to: every one must pass, and each has its effect. */
  lemma ChainMeans(ch: Channel, u: UMode, m: Modes, a: CmodeArgs)
    ensures var now, p := ch.mode, Chain(ch, u, m, a);
      && (p.Going? <==>
            && (m.limited ==> a.limit.Some? || now.limited)
            && (m.passphrase && !now.passphrase ==> a.pass.Some?)
            && (m.cipher != now.cipher ==> a.cipherOk) && (m.hmac != now.hmac ==> a.hmacOk)
            && (u.fo && m.founderAuth ==>
                  && a.founder != BadKeyArg
                  && ((a.founder == NoKeyArg && now.founderAuth) || (a.authSent && a.authOk)))
            && (u.fo && m.channelAuth && (a.keyListSent || !now.channelAuth) ==> a.keyListOk))
      && p.ch.users == ch.users
  {
    hide Issue, PrivkeyStage, LimitStage, PassStage, CipherStage, HmacStage, FounderStage, ChannelAuthStage;
    PrivkeyMeans(ch, m);
    var n0 := PrivkeyStage(ch, m);
    LimitMeans(n0, m, a);
    var n1 := LimitStage(n0, m, a).ch;
    PassMeans(n1, m, a);
    var n2 := PassStage(n1, m, a).ch;
    CryptoMeans(n2, m, a);
    var n3 := CipherStage(n2, m, a).ch;
    CryptoMeans(n3, m, a);
    FounderKeyMeans(n3, u, m, a);
    FounderKeyMeans(FounderStage(n3, u, m, a).ch, u, m, a);
  }

  lemma ChainSets(ch: Channel, u: UMode, m: Modes, a: CmodeArgs)
    requires Chain(ch, u, m, a).Going?
    ensures var now, n := ch.mode, Chain(ch, u, m, a).ch;
      && n.limit == (if m.limited then if a.limit.Some? then a.limit.value else ch.limit
                     else if now.limited then 0 else ch.limit)
      && n.pass == (if m.passphrase == now.passphrase then ch.pass else if m.passphrase then a.pass else None)
      && n.founderKey == (if !u.fo || (m.founderAuth && now.founderAuth && a.founder == NoKeyArg)
                             || (!m.founderAuth && !now.founderAuth) then ch.founderKey
                          else if !m.founderAuth then None
                          else Some(if a.founder.KeyArg? then a.founder.key else a.ownKey))
      && n.keys.current == ch.keys.current
                           + (if now.privkey && !m.privkey then 1 else 0)
                           + (if m.cipher != now.cipher && !(now.privkey && m.privkey) then 1 else 0)
  {
    hide Issue, PrivkeyStage, LimitStage, PassStage, CipherStage, HmacStage, FounderStage, ChannelAuthStage;
    PrivkeyMeans(ch, m);
    var n0 := PrivkeyStage(ch, m);
    LimitMeans(n0, m, a);
    var n1 := LimitStage(n0, m, a).ch;
    PassMeans(n1, m, a);
    var n2 := PassStage(n1, m, a).ch;
    CryptoMeans(n2, m, a);
    FounderKeyMeans(CipherStage(n2, m, a).ch, u, m, a);
  }

  lemma CmodeRuns(ch: Channel, actor: nat, a: CmodeArgs)
    requires actor in ch.users && a.mask.Some? && MayChange(ch.mode, ch.users[actor], a.mask.value)
    ensures var p := Chain(ch, ch.users[actor], a.mask.value, a);
            Cmode(ch, actor, a) == p.ch.(mode := if p.Going? then a.mask.value else ch.mode)
  {
    StagesUnrolled(ch, ch.users[actor], a.mask.value, a);
    hide RunStages, MayChange, PrivkeyStage, LimitStage, PassStage, CipherStage, HmacStage, FounderStage,
         ChannelAuthStage;
  }

  /** Who may use CMODE: a founder may change any mode; an operator only while neither
      the old nor the new mask has a private key, and without touching the
      passphrase, the cipher, the silencing and the authentication bits; for nobody
      else does it do anything. */
  lemma CmodeRights(ch: Channel, actor: nat, a: CmodeArgs)
    requires actor in ch.users && a.mask.Some?
    ensures var u, m, now := ch.users[actor], a.mask.value, ch.mode;
            (u.fo || (u.op && !m.privkey && !now.privkey
                      && m.passphrase == now.passphrase && m.cipher == now.cipher
                      && m.founderAuth == now.founderAuth && m.silenceUsers == now.silenceUsers
                      && m.silenceOpers == now.silenceOpers && m.channelAuth == now.channelAuth))
            <==> MayChange(now, u, m)
    ensures !MayChange(ch.mode, ch.users[actor], a.mask.value) ==> Step(ch, CmodeCommand(actor, a)) == ch
  {
    CmodeStep(ch, actor, a);
    hide Step, RunStages;
  }

  /** For who may, the new mask holds afterwards exactly when every stage allows it,
      and else the old one; the members stay as they are. */
  lemma CmodeIff(ch: Channel, actor: nat, a: CmodeArgs)
    requires actor in ch.users && a.mask.Some? && a.mask.value != ch.mode
    requires MayChange(ch.mode, ch.users[actor], a.mask.value)
    ensures var u, m, now, t := ch.users[actor], a.mask.value, ch.mode, Step(ch, CmodeCommand(actor, a));
      && (t.mode == m <==>
            && (m.limited ==> a.limit.Some? || now.limited)
            && (m.passphrase && !now.passphrase ==> a.pass.Some?)
            && (m.cipher != now.cipher ==> a.cipherOk) && (m.hmac != now.hmac ==> a.hmacOk)
            && (u.fo && m.founderAuth ==>
                  && a.founder != BadKeyArg
                  && ((a.founder == NoKeyArg && now.founderAuth) || (a.authSent && a.authOk)))
            && (u.fo && m.channelAuth && (a.keyListSent || !now.channelAuth) ==> a.keyListOk))
      && t.mode in {m, now} && t.users == ch.users
  {
    var u, m := ch.users[actor], a.mask.value;
    CmodeStep(ch, actor, a);
    CmodeRuns(ch, actor, a);
    hide RunStages, Chain, AllStages, Step, MayChange, Cmode;
    ChainMeans(ch, u, m, a);
  }

  /** Without being on the channel, or without a mask, nothing happens. */
  lemma CmodeNeedsMember(ch: Channel, actor: nat, a: CmodeArgs)
    requires actor !in ch.users || a.mask == None
    ensures Step(ch, CmodeCommand(actor, a)) == ch
  {
  }

  /** And what a successful CMODE leaves behind besides the mask. */
  lemma CmodeSets(ch: Channel, actor: nat, a: CmodeArgs)
    requires actor in ch.users && a.mask.Some? && a.mask.value != ch.mode
    requires Step(ch, CmodeCommand(actor, a)).mode == a.mask.value
    ensures var u, m, now, t := ch.users[actor], a.mask.value, ch.mode, Step(ch, CmodeCommand(actor, a));
      && t.limit == (if m.limited then if a.limit.Some? then a.limit.value else ch.limit
                     else if now.limited then 0 else ch.limit)
      && t.pass == (if m.passphrase == now.passphrase then ch.pass else if m.passphrase then a.pass else None)
      && t.founderKey == (if !u.fo || (m.founderAuth && now.founderAuth && a.founder == NoKeyArg)
                             || (!m.founderAuth && !now.founderAuth) then ch.founderKey
                          else if !m.founderAuth then None
                          else Some(if a.founder.KeyArg? then a.founder.key else a.ownKey))
      && t.keys.current == ch.keys.current
                           + (if now.privkey && !m.privkey then 1 else 0)
                           + (if m.cipher != now.cipher && !(now.privkey && m.privkey) then 1 else 0)
  {
    CmodeStep(ch, actor, a);
    hide RunStages, Chain, AllStages, Step;
    CmodeRuns(ch, actor, a);
    ChainSets(ch, ch.users[actor], a.mask.value, a);
  }

  // ------------------------------------------------------------------- CUMODE

  lemma OpBitMeans(u: UMode, sender: UMode, mask: UMode)
    ensures var b, stops := OpBit(u, sender, mask), mask.op != u.op && !sender.op && !sender.fo;
            b == if stops then Done(u) else More(u.(op := mask.op))
  {
  }

  lemma OwnBitsMean(u: UMode, self: bool, mask: UMode)
    ensures self ==> OwnBits(u, self, mask)
                     == More(u.(block := mask.block, blockUsers := mask.blockUsers, blockRobots := mask.blockRobots))
    ensures !self ==> OwnBits(u, self, mask)
                      == if mask.block || u.block || mask.blockUsers || u.blockUsers
                            || mask.blockRobots || u.blockRobots
                         then Done(u) else More(u)
  {
  }

  /** The bits after the founder bit, at once: without rights a change of the
      operator bit ends the command, one's own blocking bits are one's own business,
      and quieting is for others; a touch of another's blocking bits ends it too. */
  lemma OtherBitsMean(u: UMode, sender: UMode, self: bool, mask: UMode)
    ensures var stops := mask.op != u.op && !sender.op && !sender.fo;
            var foreign := && !self
                           && (mask.block || u.block || mask.blockUsers || u.blockUsers
                               || mask.blockRobots || u.blockRobots);
            OtherBits(u, sender, self, mask)
            == if stops then u
               else if self then u.(op := mask.op, block := mask.block, blockUsers := mask.blockUsers,
                                    blockRobots := mask.blockRobots)
               else u.(op := mask.op, quiet := if foreign then u.quiet else mask.quiet)
  {
    OpBitMeans(u, sender, mask);
    OwnBitsMean(u.(op := mask.op), self, mask);
    hide OpBit, OwnBits;
  }

  /** Who may use CUMODE: anybody on themselves, operators and founders on anyone but a
      founder; and founder mode is only for oneself, and for a proof of the channel's
      founder key.  Else nothing happens. */
  lemma CumodeRights(ch: Channel, actor: nat, target: nat, a: CumodeArgs)
    requires actor in ch.users && target in ch.users && Enumerates(a.order, ch.users)
    requires || (actor != target && !ch.users[actor].fo && !ch.users[actor].op)
             || (actor != target && ch.users[target].fo)
             || (a.mask.fo && !ch.users[target].fo
                 && !(actor == target && ch.mode.founderAuth && ch.founderKey.Some? && a.authOk))
    ensures Step(ch, CumodeCommand(actor, target, a)) == ch
  {
    CumodeStep(ch, actor, target, a);
    hide OtherBits, Stripped, Step;
  }

  /** An accepted CUMODE writes one member's mode. */
  lemma CumodeWrites(ch: Channel, actor: nat, target: nat, a: CumodeArgs)
    requires actor in ch.users && target in ch.users
    requires actor == target || ((ch.users[actor].fo || ch.users[actor].op) && !ch.users[target].fo)
    requires a.mask.fo && !ch.users[target].fo ==>
               actor == target && ch.mode.founderAuth && ch.founderKey.Some? && a.authOk
    ensures var claims, u1 := a.mask.fo && !ch.users[target].fo, ch.users[target].(fo := a.mask.fo);
            var users := if claims && ch.router then Stripped(ch.users, a.order) else ch.users;
            Cumode(ch, actor, target, a)
            == ch.(users := users[target := OtherBits(u1, if claims then u1 else ch.users[actor], actor == target,
                                                      a.mask)])
  {
    hide OtherBits, Stripped;
  }

  /** And what it then does: the founder bit as asked; without rights, which a claim
      gives at once, a change of the operator bit ends the command; the blocking bits
      are their owner's, and quieting is for others. */
  lemma CumodeSets(ch: Channel, actor: nat, target: nat, a: CumodeArgs)
    requires actor in ch.users && target in ch.users && Enumerates(a.order, ch.users)
    requires actor == target || ((ch.users[actor].fo || ch.users[actor].op) && !ch.users[target].fo)
    requires a.mask.fo && !ch.users[target].fo ==>
               actor == target && ch.mode.founderAuth && ch.founderKey.Some? && a.authOk
    ensures var t, m, u := Step(ch, CumodeCommand(actor, target, a)), a.mask, ch.users[target];
            var stops := m.op != u.op && !(m.fo && !u.fo) && !ch.users[actor].op && !ch.users[actor].fo;
            var foreign := m.block || u.block || m.blockUsers || u.blockUsers || m.blockRobots || u.blockRobots;
      && target in t.users
      && t.users[target]
         == if stops then u.(fo := m.fo)
            else if actor == target then u.(fo := m.fo, op := m.op, block := m.block, blockUsers := m.blockUsers,
                                            blockRobots := m.blockRobots)
            else u.(fo := m.fo, op := m.op, quiet := if foreign then u.quiet else m.quiet)
  {
    var u1 := ch.users[target].(fo := a.mask.fo);
    CumodeStep(ch, actor, target, a);
    CumodeWrites(ch, actor, target, a);
    hide OtherBits, Stripped, Step, Cumode;
    OtherBitsMean(u1, if a.mask.fo && !ch.users[target].fo then u1 else ch.users[actor], actor == target, a.mask);
  }

  lemma StrippedOther(users: map<nat, UMode>, order: seq<nat>, d: nat)
    requires F.OneFounder(users) && Enumerates(order, users) && d in users
    ensures d in Stripped(users, order) && Stripped(users, order)[d] == users[d].(fo := false)
  {
    F.StrippedOfFounder(users, order);
    StrippedKeeps(users, order, d);
    hide Stripped, F.OneFounder, Enumerates;
  }

  /** The other members keep their modes, but a claim on a router deposes the founder
      there was. */
  lemma CumodeOthers(ch: Channel, actor: nat, target: nat, a: CumodeArgs, d: nat)
    requires actor in ch.users && target in ch.users && Enumerates(a.order, ch.users) && F.OneFounder(ch.users)
    requires actor == target || ((ch.users[actor].fo || ch.users[actor].op) && !ch.users[target].fo)
    requires a.mask.fo && !ch.users[target].fo ==>
               actor == target && ch.mode.founderAuth && ch.founderKey.Some? && a.authOk
    requires d in ch.users && d != target
    ensures var t, deposes := Step(ch, CumodeCommand(actor, target, a)),
                              a.mask.fo && !ch.users[target].fo && ch.router;
            d in t.users && t.users[d] == if deposes then ch.users[d].(fo := false) else ch.users[d]
  {
    StrippedOther(ch.users, a.order, d);
    CumodeStep(ch, actor, target, a);
    CumodeWrites(ch, actor, target, a);
    hide *;
  }

  /** Who is not on the channel changes nobody, and changes nothing for others. */
  lemma CumodeNeedsMembers(ch: Channel, actor: nat, target: nat, a: CumodeArgs)
    requires actor !in ch.users || target !in ch.users
    ensures Step(ch, CumodeCommand(actor, target, a)) == ch
  {
  }

  // ------------------------------------------------- notifies from the network

  /** JOIN notify: the client is on the channel, as founder if it is the first there
      as far as this server can tell. */
  lemma JoinNotifiedMeans(ch: Channel, c: nat, fromRouter: bool)
    ensures var t := Step(ch, JoinNotified(c, fromRouter));
      && (!ch.there || c in ch.users ==> t == ch)
      && (ch.there && c !in ch.users ==>
            && t.users == ch.users[c := if (!ch.router || fromRouter) && !ch.mode.founderAuth && ch.users == map[]
                                        then FOUNDER else ORDINARY]
            && !t.disabled && (t.globalUsers <==> ch.globalUsers || (!ch.router && fromRouter))
            && t.mode == ch.mode && t.keys == ch.keys && t.there)
  {
  }

  /** CUMODE_CHANGE notify: heeded when its sender is a member, or a server, and on a
      router only from operators and founders about members who are not founder,
      unless about oneself.  The mode is taken as it comes, but a router without a
      primary route lets nobody become founder while there is one, against the
      founder key, or by a client's word on a channel without founder
      authentication. */
  lemma CumodeNotifiedMeans(ch: Channel, sender: Option<nat>, target: nat, mode: UMode, keySent: Option<nat>)
    requires target in ch.users
    ensures var t, u := Step(ch, CumodeNotified(sender, target, mode, keySent)), ch.users[target];
            var heeded := sender.Some? ==>
                            && sender.value in ch.users
                            && (sender.value != target && ch.router ==>
                                  (ch.users[sender.value].op || ch.users[sender.value].fo) && !u.fo);
            var refused := && ch.router && mode.fo && !u.fo
                           && !(&& (sender.Some? ==> ch.mode.founderAuth)
                                && (forall d :: d in ch.users ==> !ch.users[d].fo)
                                && (ch.founderKey.Some? ==> keySent == ch.founderKey));
            t == if !heeded then ch
                 else ch.(users := ch.users[target := if refused then mode.(fo := false) else mode])
  {
  }
}
