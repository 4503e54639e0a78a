/** At most one member of a channel has founder mode: always on a router without
    a primary route, and on a normal server exactly until a claim or a notify
    brings in a second founder. */
module ChannelFounder {
  import opened Wire
  import opened Channel

  ghost predicate OneFounder(users: map<nat, UMode>) {
    forall c, d :: c in users && d in users && users[c].fo && users[d].fo ==> c == d
  }

  predicate IsFounder(ch: Channel, c: nat) {
    c in ch.users && ch.users[c].fo
  }

  predicate NoFounder(users: map<nat, UMode>) {
    forall c :: c in users ==> !users[c].fo
  }

  // -------------------------------------------------------- user list changes

  lemma StrippedOfFounder(users: map<nat, UMode>, order: seq<nat>)
    requires OneFounder(users) && Enumerates(order, users)
    ensures NoFounder(Stripped(users, order))
    ensures Stripped(users, order).Keys == users.Keys
  {
    var k := FirstFounder(users, order);
    forall c | c in users && users[c].fo ensures k < |order| && order[k] == c {
      assert c in order;
      var i: nat :| i < |order| && order[i] == c;
      assert FounderAt(users, order, i);
    }
  }

  /** One member's mode is replaced. */
  lemma PutKeepsOne(users: map<nat, UMode>, c: nat, u: UMode)
    requires OneFounder(users)
    requires u.fo ==> NoFounder(users) || (c in users && users[c].fo)
    ensures OneFounder(users[c := u])
  {
  }

  lemma WithoutKeepsOne(users: map<nat, UMode>, c: nat)
    requires OneFounder(users)
    ensures OneFounder(Without(users, c))
  {
  }

  lemma OtherBitsKeepFounder(u: UMode, sender: UMode, self: bool, mask: UMode)
    ensures OtherBits(u, sender, self, mask).fo == u.fo
  {
  }

  // ------------------------------------------------------------ per operation

  /** The user list after a JOIN: prepared, and perhaps with the joiner in it. */
  lemma JoinUsers(ch: Channel, c: nat, a: JoinArgs)
    ensures Join(ch, c, a).users
            == if Admits(ch, c, a) then Prepared(ch, a).users[c := JoinerMode(ch, a)] else Prepared(ch, a).users
    ensures Join(ch, c, a).router == ch.router && Join(ch, c, a).remote == ch.remote
  {
    hide Admits, Stripped, JoinKeys, JoinerMode, Reached;
  }

  lemma JoinKeepsOne(ch: Channel, c: nat, a: JoinArgs)
    requires OneFounder(ch.users) && Enumerates(a.order, ch.users)
    ensures OneFounder(Join(ch, c, a).users) && Join(ch, c, a).router == ch.router
  {
    hide Join, Stripped;
    JoinUsers(ch, c, a);
    if Claims(ch, a) { StrippedOfFounder(ch.users, a.order); }
  }

  lemma RemovalKeepsOne(ch: Channel, c: nat, keygen: bool)
    requires OneFounder(ch.users)
    ensures OneFounder(Removed(ch, c, keygen).users) && Removed(ch, c, keygen).router == ch.router
  {
    WithoutKeepsOne(ch.users, c);
  }

  lemma StageKeepsUsers(ch: Channel, u: UMode, mask: Modes, a: CmodeArgs, s: Stage)
    ensures RunStage(ch, u, mask, a, s).ch.users == ch.users
    ensures RunStage(ch, u, mask, a, s).ch.router == ch.router
    ensures RunStage(ch, u, mask, a, s).ch.remote == ch.remote
  {
    hide Issue, PrivkeyStage, LimitStage, PassStage, CipherStage, HmacStage, FounderStage, ChannelAuthStage;
  }

  lemma {:induction false} StagesKeepUsers(ch: Channel, u: UMode, mask: Modes, a: CmodeArgs, todo: seq<Stage>)
    ensures RunStages(ch, u, mask, a, todo).ch.users == ch.users
    ensures RunStages(ch, u, mask, a, todo).ch.router == ch.router
    ensures RunStages(ch, u, mask, a, todo).ch.remote == ch.remote
    decreases |todo|
  {
    if todo != [] {
      StageKeepsUsers(ch, u, mask, a, todo[0]);
      StagesKeepUsers(RunStage(ch, u, mask, a, todo[0]).ch, u, mask, a, todo[1..]);
    }
  }

  lemma CmodeKeepsUsers(ch: Channel, actor: nat, a: CmodeArgs)
    ensures Cmode(ch, actor, a).users == ch.users && Cmode(ch, actor, a).router == ch.router
    ensures Cmode(ch, actor, a).remote == ch.remote
  {
    if actor in ch.users && a.mask.Some? {
      StagesKeepUsers(ch, ch.users[actor], a.mask.value, a, AllStages());
    }
  }

  lemma CumodeKeepsOneIff(ch: Channel, actor: nat, target: nat, a: CumodeArgs)
    requires OneFounder(ch.users) && Enumerates(a.order, ch.users)
    ensures OneFounder(Cumode(ch, actor, target, a).users)
            <==> !(!ch.router && HasFounder(ch.users) && MayCumode(ch, actor, target)
                   && ProvedClaim(ch, ch.users[target], actor == target, a))
    ensures Cumode(ch, actor, target, a).router == ch.router
  {
    if MayCumode(ch, actor, target) {
      var self := actor == target;
      var u := ch.users[target];
      if !(a.mask.fo && !u.fo && !ProvedClaim(ch, u, self, a)) {
        var claimed := a.mask.fo && !u.fo;
        var sender := if claimed then u.(fo := true) else ch.users[actor];
        OtherBitsKeepFounder(u.(fo := a.mask.fo), sender, self, a.mask);
        var v := OtherBits(u.(fo := a.mask.fo), sender, self, a.mask);
        if claimed && ch.router {
          StrippedOfFounder(ch.users, a.order);
          PutKeepsOne(Stripped(ch.users, a.order), target, v);
        } else if claimed && HasFounder(ch.users) {
          var d :| d in ch.users && ch.users[d].fo;
          var users := ch.users[target := v];
          assert users[d].fo && users[target].fo && d != target;
        } else {
          PutKeepsOne(ch.users, target, v);
        }
      }
    }
  }

  lemma NotifyKeepsOneIff(ch: Channel, sender: Option<nat>, target: nat, mode: UMode, keySent: Option<nat>)
    requires OneFounder(ch.users)
    ensures OneFounder(CumodeNotify(ch, sender, target, mode, keySent).users)
            <==> !(!ch.router && HasFounder(ch.users) && Heeded(ch, sender, target)
                   && mode.fo && !ch.users[target].fo)
    ensures CumodeNotify(ch, sender, target, mode, keySent).router == ch.router
  {
    if Heeded(ch, sender, target) {
      var n := CumodeNotify(ch, sender, target, mode, keySent);
      if !ch.router && mode.fo && !ch.users[target].fo && HasFounder(ch.users) {
        var d :| d in ch.users && ch.users[d].fo;
        assert n.users[d].fo && n.users[target].fo && d != target;
      } else {
        PutKeepsOne(ch.users, target, n.users[target]);
      }
    }
  }

  lemma JoinNotifyKeepsOne(ch: Channel, c: nat, fromRouter: bool)
    requires OneFounder(ch.users)
    ensures OneFounder(JoinNotify(ch, c, fromRouter).users)
    ensures JoinNotify(ch, c, fromRouter).router == ch.router
  {
  }

  lemma RemovalKeepsRouter(ch: Channel, c: nat, keygen: bool)
    ensures var n := Removed(ch, c, keygen); n.router == ch.router && n.remote == ch.remote
  {
    hide Issue;
  }

  lemma CumodeKeepsRouter(ch: Channel, actor: nat, target: nat, a: CumodeArgs)
    ensures var n := Cumode(ch, actor, target, a); n.router == ch.router && n.remote == ch.remote
  {
    hide OtherBits, Stripped, ProvedClaim;
  }

  lemma NotifyKeepsRouter(ch: Channel, sender: Option<nat>, target: nat, mode: UMode, keySent: Option<nat>)
    ensures var n := CumodeNotify(ch, sender, target, mode, keySent); n.router == ch.router && n.remote == ch.remote
  {
  }

  /** The events that give a normal server's channel a second founder: a claim
      it accepts without deposing anyone, or a notify it does not question. */
  predicate Rivals(ch: Channel, e: Event) {
    && !ch.router && HasFounder(ch.users) && Orderly(ch, e)
    && match e
       case CumodeCommand(actor, t, a) => MayCumode(ch, actor, t) && ProvedClaim(ch, ch.users[t], actor == t, a)
       case CumodeNotified(s, t, m, _) => Heeded(ch, s, t) && m.fo && !ch.users[t].fo
       case _ => false
  }

  lemma StepKeepsRouter(ch: Channel, e: Event)
    ensures Step(ch, e).router == ch.router && Step(ch, e).remote == ch.remote
  {
    hide Join, Removed, Cmode, Cumode, CumodeNotify, Issue, SentTo;
    match e
    case JoinCommand(c, a) => JoinUsers(ch, c, a);
    case LeaveCommand(c) => RemovalKeepsRouter(ch, c, true);
    case KickCommand(_, t) => RemovalKeepsRouter(ch, t, true);
    case QuitCommand(c) => RemovalKeepsRouter(ch, c, true);
    case DetachTimeout(c) => RemovalKeepsRouter(ch, c, true);
    case ResumeClient(d, cur) => RemovalKeepsRouter(ch.(offline := ch.offline - {d}), cur, false);
    case LeaveNotified(c) => RemovalKeepsRouter(ch, c, false);
    case CmodeCommand(actor, a) => CmodeKeepsUsers(ch, actor, a);
    case CumodeCommand(actor, t, a) => CumodeKeepsRouter(ch, actor, t, a);
    case CumodeNotified(s, t, m, k) => NotifyKeepsRouter(ch, s, t, m, k);
    case _ =>
  }

  /** One step, exactly: only a rival event breaks the single founder. */
  lemma StepKeepsOneIff(ch: Channel, e: Event)
    requires OneFounder(ch.users)
    ensures OneFounder(Step(ch, e).users) <==> !Rivals(ch, e)
    ensures Step(ch, e).router == ch.router
  {
    hide Join, Removed, Cmode, Cumode, CumodeNotify, OneFounder;
    if Orderly(ch, e) {
      match e
      case JoinCommand(c, a) => JoinKeepsOne(ch, c, a);
      case LeaveCommand(c) => RemovalKeepsOne(ch, c, true);
      case KickCommand(_, t) => RemovalKeepsOne(ch, t, true);
      case QuitCommand(c) => RemovalKeepsOne(ch, c, true);
      case DetachTimeout(c) => RemovalKeepsOne(ch, c, true);
      case ResumeClient(d, cur) => RemovalKeepsOne(ch.(offline := ch.offline - {d}), cur, false);
      case CmodeCommand(actor, a) => CmodeKeepsUsers(ch, actor, a);
      case CumodeCommand(actor, t, a) => CumodeKeepsOneIff(ch, actor, t, a);
      case JoinNotified(c, r) => JoinNotifyKeepsOne(ch, c, r);
      case LeaveNotified(c) => RemovalKeepsOne(ch, c, false);
      case CumodeNotified(s, t, m, k) => NotifyKeepsOneIff(ch, s, t, m, k);
      case _ =>
    }
  }

  // ------------------------------------------------------------- main results

  /** Every channel state of the run has at most one founder. */
  ghost predicate AlwaysOne(ch: Channel, evs: seq<Event>) {
    OneFounder(After(ch, evs).users) && (evs != [] ==> AlwaysOne(ch, evs[..|evs| - 1]))
  }

  /** No event of the run was a rival event when it happened. */
  predicate NeverRivals(ch: Channel, evs: seq<Event>) {
    evs != [] ==>
      && NeverRivals(ch, evs[..|evs| - 1])
      && !Rivals(After(ch, evs[..|evs| - 1]), evs[|evs| - 1])
  }

  lemma NobodyYet(router: bool, remote: set<nat>)
    ensures OneFounder(Absent(router, remote).users)
  {
  }

  /** Over every run, on routers and normal servers alike: one founder at most
      at every point exactly when no step of the run was a rival event. */
  lemma {:induction false} SingleFounderIff(router: bool, remote: set<nat>, evs: seq<Event>)
    ensures AlwaysOne(Absent(router, remote), evs) <==> NeverRivals(Absent(router, remote), evs)
    ensures AlwaysOne(Absent(router, remote), evs) ==> After(Absent(router, remote), evs).router == router
  {
    hide Step, Rivals, OneFounder;
    NobodyYet(router, remote);
    if evs != [] {
      var pre := evs[..|evs| - 1];
      SingleFounderIff(router, remote, pre);
      if AlwaysOne(Absent(router, remote), pre) {
        StepKeepsOneIff(After(Absent(router, remote), pre), evs[|evs| - 1]);
      }
    }
  }

  /** On a router without a primary route a channel never has two founders,
      whatever is joined, claimed, granted by notify or left half done. */
  lemma {:induction false} SingleFounder(remote: set<nat>, evs: seq<Event>)
    ensures NeverRivals(Absent(true, remote), evs)
    ensures OneFounder(After(Absent(true, remote), evs).users)
  {
    hide Step, OneFounder;
    if evs != [] {
      var pre := evs[..|evs| - 1];
      SingleFounder(remote, pre);
      SingleFounderIff(true, remote, pre);
    }
    SingleFounderIff(true, remote, evs);
  }

  /** The exception is real on a normal server: it believes the network when that
      announces a second founder. */
  lemma NotifiedRival() returns (evs: seq<Event>)
    ensures var ch := Absent(false, {2});
            !NeverRivals(ch, evs) && IsFounder(After(ch, evs), 1) && IsFounder(After(ch, evs), 2)
  {
    var ch := Absent(false, {2});
    var args := JoinArgs(true, false, None, false, true, false, None, true, []);
    var e1, e2, e3 := JoinCommand(1, args), JoinNotified(2, true), CumodeNotified(None, 2, FOUNDER, None);
    evs := [e1, e2, e3];
    var s1 := Step(ch, e1);
    assert s1.there && s1.users == map[1 := FOUNDER] && !s1.router && s1.mode == NO_MODES;
    assert Step(s1, e2).users == map[1 := FOUNDER, 2 := ORDINARY];
    ThreeSteps(ch, e1, e2, e3);
    hide Step;
    SingleFounderIff(false, {2}, evs);
  }

  // ------------------------------------------------- how founders come about

  lemma JoinEarns(ch: Channel, d: nat, a: JoinArgs, c: nat)
    requires IsFounder(Join(ch, d, a), c) && !IsFounder(ch, c)
    ensures c == d && (First(ch) || Claims(ch, a))
  {
    hide Join, Admits;
    JoinUsers(ch, d, a);
  }

  lemma RemovalEarns(ch: Channel, d: nat, keygen: bool, c: nat)
    requires IsFounder(Removed(ch, d, keygen), c)
    ensures IsFounder(ch, c)
  {
  }

  lemma CumodeEarns(ch: Channel, actor: nat, target: nat, a: CumodeArgs, c: nat)
    requires IsFounder(Cumode(ch, actor, target, a), c) && !IsFounder(ch, c)
    ensures c == actor == target && c in ch.users && ProvedClaim(ch, ch.users[c], true, a)
  {
    hide OtherBits;
    if MayCumode(ch, actor, target) {
      var u1 := ch.users[target].(fo := a.mask.fo);
      OtherBitsKeepFounder(u1, u1, actor == target, a.mask);
      OtherBitsKeepFounder(u1, ch.users[actor], actor == target, a.mask);
    }
  }

  lemma NotifyEarns(ch: Channel, sender: Option<nat>, target: nat, mode: UMode, keySent: Option<nat>, c: nat)
    requires IsFounder(CumodeNotify(ch, sender, target, mode, keySent), c) && !IsFounder(ch, c)
    ensures c == target && mode.fo && (ch.router ==> Grants(ch, sender, keySent))
  {
  }

  /** Founder mode is never handed out: who has it after a step either had it,
      came first to an ownerless channel, proved the channel's founder key, or
      was announced by the network. */
  lemma FounderIsEarned(ch: Channel, e: Event, c: nat)
    requires IsFounder(Step(ch, e), c) && !IsFounder(ch, c)
    ensures match e
      case JoinCommand(d, a) =>
        && c == d
        && (|| !ch.there || (!ch.disabled && !ch.globalUsers && ch.users == map[])
            || (a.auth && ch.mode.founderAuth && ch.founderKey.Some? && a.ownKey == ch.founderKey && a.proof))
      case CumodeCommand(actor, t, a) =>
        c == actor == t && c in ch.users && a.mask.fo && ch.mode.founderAuth && ch.founderKey.Some? && a.authOk
      case JoinNotified(d, fromRouter) =>
        c == d && ch.users == map[] && !ch.mode.founderAuth && (ch.router ==> fromRouter)
      case CumodeNotified(s, t, m, k) =>
        && c == t && m.fo
        && (ch.router ==>
              && (s.Some? ==> ch.mode.founderAuth) && (forall d :: d in ch.users ==> !ch.users[d].fo)
              && (ch.founderKey.Some? ==> k == ch.founderKey))
      case _ => false
  {
    hide Join, Removed, Cmode, Cumode, CumodeNotify;
    match e
    case JoinCommand(d, a) => JoinEarns(ch, d, a, c);
    case LeaveCommand(d) => RemovalEarns(ch, d, true, c);
    case KickCommand(_, t) => RemovalEarns(ch, t, true, c);
    case QuitCommand(d) => RemovalEarns(ch, d, true, c);
    case DetachTimeout(d) => RemovalEarns(ch, d, true, c);
    case ResumeClient(d, cur) => RemovalEarns(ch.(offline := ch.offline - {d}), cur, false, c);
    case CmodeCommand(actor, a) => CmodeKeepsUsers(ch, actor, a);
    case CumodeCommand(actor, t, a) => CumodeEarns(ch, actor, t, a, c);
    case LeaveNotified(d) => RemovalEarns(ch, d, false, c);
    case CumodeNotified(s, t, m, k) => NotifyEarns(ch, s, t, m, k, c);
    case _ =>
  }

  lemma OperatorStage(ch: Channel, u: UMode, mask: Modes, a: CmodeArgs, s: Stage)
    requires !u.fo && MayChange(ch.mode, u, mask)
    ensures var n := RunStage(ch, u, mask, a, s).ch;
            n.mode == ch.mode && n.founderKey == ch.founderKey && n.keys == ch.keys
  {
    hide LimitStage, PassStage, HmacStage, ChannelAuthStage, Issue;
  }

  lemma {:induction false} OperatorStages(ch: Channel, u: UMode, mask: Modes, a: CmodeArgs, todo: seq<Stage>)
    requires !u.fo && MayChange(ch.mode, u, mask)
    ensures var p := RunStages(ch, u, mask, a, todo).ch;
            p.mode == ch.mode && p.founderKey == ch.founderKey && p.keys == ch.keys
    decreases |todo|
  {
    hide RunStage, MayChange;
    if todo != [] {
      OperatorStage(ch, u, mask, a, todo[0]);
      OperatorStages(RunStage(ch, u, mask, a, todo[0]).ch, u, mask, a, todo[1..]);
    }
  }

  /** An operator who is not the founder can change only the ordinary modes. */
  lemma OperatorChangesOrdinaryModes(ch: Channel, actor: nat, a: CmodeArgs)
    requires actor in ch.users && !ch.users[actor].fo
    ensures var m := Cmode(ch, actor, a).mode;
      && m.privkey == ch.mode.privkey && m.passphrase == ch.mode.passphrase && m.cipher == ch.mode.cipher
      && m.founderAuth == ch.mode.founderAuth && m.channelAuth == ch.mode.channelAuth
      && m.silenceUsers == ch.mode.silenceUsers && m.silenceOpers == ch.mode.silenceOpers
    ensures Cmode(ch, actor, a).founderKey == ch.founderKey && Cmode(ch, actor, a).keys == ch.keys
  {
    if a.mask.Some? && MayChange(ch.mode, ch.users[actor], a.mask.value) {
      OperatorStages(ch, ch.users[actor], a.mask.value, a, AllStages());
    }
  }
}
