/** The channel entry as the command and notify handlers update it in place,
    step by step and with their early exits.  `Valid` carries what is proved of
    founders and keys; every handler keeps it and leaves the entry as the value
    function of the same operation says. */
module ChannelEntry {
  import opened Wire
  import opened Channel
  import F = ChannelFounder
  import K = ChannelKeys

  /** What has happened so far: a second founder was let in; a notify came from the
      network; the current key was left with a former member; an old key was sent
      to a later joiner; and who was let in since the key was last changed. */
  datatype History = History(rivalled: bool, networked: bool, stranded: bool, leaked: bool, late: set<nat>)

  ghost function Next(h: History, ch: Channel, e: Event): History {
    History(h.rivalled || F.Rivals(ch, e), h.networked || !K.Local(e), h.stranded || K.Strands(ch, e),
            h.leaked || (Orderly(ch, e) && K.Leaks(ch, h.late, e)), K.LateNext(h.late, ch, e))
  }

  /** Unless a rival was let in, which a router never does: one founder. */
  ghost predicate FounderOk(ch: Channel, h: History) {
    (ch.router ==> !h.rivalled) && (!h.rivalled ==> F.OneFounder(ch.users))
  }

  /** On a channel of our own clients, with nothing from the network: the current
      key is with the members, with nobody else unless it was stranded, and no old
      key was sent to a later joiner unless it leaked. */
  ghost predicate KeysOk(ch: Channel, h: History) {
    ch.remote == {} && !h.networked ==>
      && K.Sane(ch, h.late) && (!h.stranded ==> K.Held(ch)) && (!h.leaked ==> K.NoStale(ch.keys.log))
  }

  lemma StepKeepsFounderOk(ch: Channel, h: History, e: Event)
    requires FounderOk(ch, h)
    ensures FounderOk(Step(ch, e), Next(h, ch, e))
  {
    assert F.Rivals(ch, e) ==> !ch.router;
    hide Step, Orderly, F.OneFounder, F.Rivals, K.Local, K.Strands, K.Leaks, K.LateNext;
    F.StepKeepsRouter(ch, e);
    if !h.rivalled { F.StepKeepsOneIff(ch, e); }
  }

  lemma StepKeepsKeysOk(ch: Channel, h: History, e: Event)
    requires KeysOk(ch, h)
    ensures KeysOk(Step(ch, e), Next(h, ch, e))
  {
    hide Step, Orderly, F.Rivals, K.Sane, K.Held, K.NoStale, K.Local, K.Strands, K.Leaks, K.LateNext;
    F.StepKeepsRouter(ch, e);
    if ch.remote == {} && !h.networked && K.Local(e) { K.StepIff(ch, h.late, e); }
  }

  /** The blocking bits, which only their owner may touch. */
  method ChangeOwnBits(before: UMode, self: bool, mask: UMode) returns (more: bool, u: UMode)
    ensures OwnBits(before, self, mask) == if more then More(u) else Done(u)
  {
    more, u := false, before;
    if mask.block || u.block {
      if !self {
        return;
      }
      u := u.(block := mask.block);
    }
    if mask.blockUsers || u.blockUsers {
      if !self {
        return;
      }
      u := u.(blockUsers := mask.blockUsers);
    }
    if mask.blockRobots || u.blockRobots {
      if !self {
        return;
      }
      u := u.(blockRobots := mask.blockRobots);
    }
    more := true;
  }

  /** The bits after the founder bit, changed one at a time until a check fails. */
  method ChangeBits(before: UMode, sender: UMode, self: bool, mask: UMode) returns (u: UMode)
    ensures u == OtherBits(before, sender, self, mask)
  {
    hide OwnBits;
    u := before;
    if mask.op != u.op {
      if !sender.op && !sender.fo {
        return;
      }
      u := u.(op := mask.op);
    }
    var more;
    more, u := ChangeOwnBits(u, self, mask);
    if more && mask.quiet != u.quiet && !self {
      u := u.(quiet := mask.quiet);
    }
  }

  lemma SameSize(a: map<nat, UMode>, b: map<nat, UMode>)
    requires a.Keys == b.Keys
    ensures |a| == |b|
  {
    assert |a| == |a.Keys| && |b| == |b.Keys|;
  }

  /** JOIN on a channel that exists, in the order the handler works. */
  lemma JoinOfExisting(ch: Channel, c: nat, a: JoinArgs)
    requires ch.there && a.resolved
    ensures var ch1 := Prepared(ch, a);
            Join(ch, c, a)
            == if !Admits(ch, c, a) then ch1
               else ch1.(users := ch1.users[c := JoinerMode(ch, a)], disabled := false,
                         keys := JoinKeys(ch.keys.(log := ch.keys.log + [Admitted(c)]), ch.mode.privkey, false,
                                          Reached(ch1), c))
  {
    hide Admits, Stripped, JoinKeys, JoinerMode;
  }

  class Entry {
    const router: bool
    const remote: set<nat>
    var there: bool
    var disabled: bool
    var globalUsers: bool
    var mode: Modes
    var founderKey: Option<nat>
    var pass: Option<nat>
    var limit: nat
    var users: map<nat, UMode>
    var offline: set<nat>
    var keys: Keys
    ghost var history: History

    ghost function View(): Channel
      reads this
    {
      Channel(router, there, disabled, globalUsers, mode, founderKey, pass, limit, users, remote, offline, keys)
    }

    /** What is proved of founders and of keys. */
    ghost predicate Valid()
      reads this
    {
      FounderOk(View(), history) && KeysOk(View(), history)
    }

    constructor (router: bool, remote: set<nat>)
      ensures View() == Absent(router, remote) && Valid()
      ensures history == History(false, false, false, false, {})
    {
      this.router, this.remote := router, remote;
      there, disabled, globalUsers, mode := false, false, false, NO_MODES;
      founderKey, pass, limit, users, offline, keys := None, None, 0, map[], {}, Keys(0, []);
      history := History(false, false, false, false, {});
      new;
      if remote == {} { K.AbsentSane(router); }
    }

    // ------------------------------------------------------------------- keys

    method CreateKey()
      modifies this`keys
      ensures keys == Renewed(old(keys), mode.privkey)
    {
      if mode.privkey {
        return;
      }
      keys := Keys(keys.current + 1, keys.log + [Generated(keys.current + 1)]);
    }

    method SendKey(to: set<nat>)
      modifies this`keys
      ensures keys == SentTo(old(keys), to)
    {
      keys := keys.(log := keys.log + [KeySent(to, keys.current)]);
    }

    method Distribute()
      modifies this`keys
      ensures View() == Issue(old(View()))
    {
      CreateKey();
      SendKey(users.Keys - remote - offline);
    }

    // ------------------------------------------------------------------- JOIN

    /** Iterates over the user list and stops at the first founder. */
    method StripFounder(order: seq<nat>)
      modifies this`users
      ensures users == Stripped(old(users), order)
    {
      var i := 0;
      while i < |order|
        invariant 0 <= i <= |order| && users == old(users)
        invariant forall j: nat :: j < i ==> !FounderAt(users, order, j)
      {
        if order[i] in users && users[order[i]].fo {
          assert FounderAt(users, order, i);
          users := users[order[i] := users[order[i]].(fo := false)];
          assert FirstFounder(old(users), order) == i;
          return;
        }
        i := i + 1;
      }
    }

    method Create()
      modifies this`there, this`disabled, this`globalUsers, this`mode, this`founderKey, this`pass, this`limit,
               this`users, this`keys
      ensures View() == Created(old(View()))
    {
      there, disabled, globalUsers, mode := true, false, false, NO_MODES;
      founderKey, pass, limit, users := None, None, 0, map[];
      CreateKey();
    }

    /** The checks after the founder authentication, in order. */
    method Check(c: nat, a: JoinArgs, privileged: bool) returns (ok: bool)
      ensures ok <==>
                && (privileged || ((mode.invite ==> a.invited) && !a.banned
                                   && (mode.limited ==> |users| + 1 <= limit)))
                && (mode.passphrase ==> a.pass.Some? && a.pass == pass)
                && (mode.channelAuth ==> a.channelAuthOk)
                && c !in users
    {
      if !privileged {
        if mode.invite && !a.invited {
          return false;
        }
        if a.banned {
          return false;
        }
        if mode.limited && |users| + 1 > limit {
          return false;
        }
      }
      if mode.passphrase && (a.pass.None? || a.pass != pass) {
        return false;
      }
      if mode.channelAuth && !a.channelAuthOk {
        return false;
      }
      return c !in users;
    }

    /** Adds the client and sends it the key in the reply. */
    method Enter(c: nat, u: UMode)
      modifies this`users, this`disabled, this`keys
      ensures users == old(users)[c := u] && !disabled
      ensures keys == if mode.privkey then old(keys) else SentTo(old(keys), {c})
    {
      users, disabled := users[c := u], false;
      if !mode.privkey {
        SendKey({c});
      }
    }

    /** Founder rights by coming first or by proof, before any other check. */
    method Authenticate(a: JoinArgs) returns (umode: UMode)
      requires there && a.resolved
      modifies this`users
      ensures View() == Prepared(old(View()), a) && umode == JoinerMode(old(View()), a)
      ensures users.Keys == old(users).Keys
    {
      umode := ORDINARY;
      if !disabled && !globalUsers && users == map[] {
        umode := FOUNDER;
      }
      if a.auth && mode.founderAuth && founderKey.Some? && a.ownKey == founderKey && a.proof {
        StripFounder(a.order);
        umode := FOUNDER;
      }
    }

    /** The key is renewed for those present, then the client goes in. */
    method Admit(c: nat, umode: UMode)
      requires there
      modifies this`users, this`disabled, this`keys
      ensures users == old(users)[c := umode] && !disabled
      ensures keys == JoinKeys(old(keys).(log := old(keys).log + [Admitted(c)]), mode.privkey, false,
                               old(users).Keys - remote - old(offline), c)
    {
      keys := keys.(log := keys.log + [Admitted(c)]);
      CreateKey();
      if !mode.privkey {
        SendKey(users.Keys - remote - offline);
      }
      Enter(c, umode);
    }

    method JoinNew(c: nat, a: JoinArgs)
      requires !there
      modifies this`there, this`disabled, this`globalUsers, this`mode, this`founderKey, this`pass, this`limit,
               this`users, this`keys
      ensures View() == Join(old(View()), c, a)
    {
      if a.resolved {
        keys := keys.(log := keys.log + [Admitted(c)]);
      }
      Create();
      if a.resolved {
        Enter(c, FOUNDER);
      }
    }

    method JoinCommand(c: nat, a: JoinArgs)
      modifies this`there, this`disabled, this`globalUsers, this`mode, this`founderKey, this`pass, this`limit,
               this`users, this`keys
      ensures View() == Join(old(View()), c, a)
    {
      if !there {
        JoinNew(c, a);
        return;
      }
      if !a.resolved {
        return;
      }
      ghost var ch := View();
      var umode := Authenticate(a);
      SameSize(users, ch.users);
      var ok := Check(c, a, umode == FOUNDER);
      assert ok == Admits(ch, c, a);
      if ok {
        Admit(c, umode);
      }
      JoinOfExisting(ch, c, a);
    }

    // ---------------------------------------------------------------- leaving

    method Delete()
      modifies this`there, this`users, this`disabled
      ensures View() == Deleted(old(View()))
    {
      there, users, disabled := mode.founderAuth, map[], true;
    }

    method Remove(c: nat, keygen: bool)
      modifies this`there, this`disabled, this`globalUsers, this`users, this`keys
      ensures View() == Removed(old(View()), c, keygen)
    {
      if c !in users {
        return;
      }
      var last := if router then users.Keys == {c} else users.Keys - {c} <= remote;
      users := map d | d in users && d != c :: users[d];
      if !router && globalUsers && c in remote && users.Keys !! remote {
        globalUsers := false;
      }
      if last {
        Delete();
      } else if keygen && !mode.privkey {
        Distribute();
      }
    }

    method KickCommand(actor: nat, target: nat)
      modifies this`there, this`disabled, this`globalUsers, this`users, this`keys
      ensures View() == Kick(old(View()), actor, target)
    {
      if actor !in users || (!users[actor].op && !users[actor].fo) {
        return;
      }
      if target !in users || users[target].fo {
        return;
      }
      Remove(target, true);
    }

    method ResumeClient(d: nat, cur: nat)
      modifies this`there, this`disabled, this`globalUsers, this`users, this`offline, this`keys
      ensures View() == Resume(old(View()), d, cur)
    {
      if d == cur || cur in offline || (d !in offline && !router) {
        return;
      }
      offline := offline - {d};
      Remove(cur, false);
      if d in users && !mode.privkey {
        SendKey({d});
      }
    }

    // ------------------------------------------------------------------ CMODE

    method PrivkeyBits(mask: Modes)
      modifies this`mode, this`keys
      ensures View() == PrivkeyStage(old(View()), mask)
    {
      if !mask.privkey && mode.privkey {
        mode := mode.(privkey := false);
        Distribute();
      }
    }

    method LimitBits(mask: Modes, a: CmodeArgs) returns (ok: bool)
      modifies this`limit
      ensures var p := LimitStage(old(View()), mask, a); View() == p.ch && ok == p.Going?
    {
      if mask.limited {
        if a.limit.None? {
          return mode.limited;
        }
        limit := a.limit.value;
      } else if mode.limited {
        limit := 0;
      }
      return true;
    }

    method PassBits(mask: Modes, a: CmodeArgs) returns (ok: bool)
      modifies this`pass
      ensures var p := PassStage(old(View()), mask, a); View() == p.ch && ok == p.Going?
    {
      if mask.passphrase {
        if !mode.passphrase {
          if a.pass.None? {
            return false;
          }
          pass := a.pass;
        }
      } else if mode.passphrase {
        pass := None;
      }
      return true;
    }

    /** The cipher and HMAC bits. */
    method CryptoBits(mask: Modes, a: CmodeArgs) returns (ok: bool)
      modifies this`keys
      ensures var p := CipherStage(old(View()), mask, a);
              var q := if p.Stopped? then p else HmacStage(p.ch, mask, a);
              View() == q.ch && ok == q.Going?
    {
      if mask.cipher != mode.cipher {
        if !a.cipherOk {
          return false;
        }
        Distribute();
      }
      return mask.hmac == mode.hmac || a.hmacOk;
    }

    /** The founder and channel authentication bits. */
    method AuthBits(u: UMode, mask: Modes, a: CmodeArgs) returns (ok: bool)
      modifies this`founderKey
      ensures var p := FounderStage(old(View()), u, mask, a);
              var q := if p.Stopped? then p else ChannelAuthStage(p.ch, u, mask, a);
              View() == q.ch && ok == q.Going?
    {
      if mask.founderAuth {
        if u.fo {
          if a.founder == BadKeyArg {
            return false;
          }
          if a.founder != NoKeyArg || !mode.founderAuth {
            if !a.authSent || !a.authOk {
              return false;
            }
            founderKey := Some(if a.founder.KeyArg? then a.founder.key else a.ownKey);
          }
        }
      } else if u.fo && mode.founderAuth {
        founderKey := None;
      }
      return !(u.fo && mask.channelAuth && (a.keyListSent || !mode.channelAuth) && !a.keyListOk);
    }

    /** Everything up to the common exit. */
    method CmodeStages(u: UMode, mask: Modes, a: CmodeArgs) returns (ok: bool)
      modifies this`mode, this`limit, this`pass, this`founderKey, this`keys
      ensures var p := RunStages(old(View()), u, mask, a, AllStages()); View() == p.ch && ok == p.Going?
    {
      hide PrivkeyStage, LimitStage, PassStage, CipherStage, HmacStage, FounderStage, ChannelAuthStage, RunStages;
      ghost var ch := View();
      StagesUnrolled(ch, u, mask, a);
      PrivkeyBits(mask);
      ok := LimitBits(mask, a);
      if !ok {
        return;
      }
      ok := PassBits(mask, a);
      if !ok {
        return;
      }
      ok := CryptoBits(mask, a);
      if !ok {
        return;
      }
      ok := AuthBits(u, mask, a);
    }

    method CmodeCommand(actor: nat, a: CmodeArgs)
      modifies this`mode, this`limit, this`pass, this`founderKey, this`keys
      ensures View() == Cmode(old(View()), actor, a)
    {
      hide RunStages, MayChange;
      if actor !in users || a.mask.None? {
        return;
      }
      var mask, oldMask, u := a.mask.value, mode, users[actor];
      if MayChange(mode, u, mask) {
        var ok := CmodeStages(u, mask, a);
        mode := if ok then mask else oldMask;
      }
    }

    // ----------------------------------------------------------------- CUMODE

    method CumodeCommand(actor: nat, target: nat, a: CumodeArgs)
      modifies this`users
      ensures View() == Cumode(old(View()), actor, target, a)
    {
      hide OtherBits, Stripped;
      if actor !in users {
        return;
      }
      var sender := users[actor];
      if target != actor {
        if !sender.fo && !sender.op {
          return;
        }
        if target !in users || users[target].fo {
          return;
        }
      }
      var u := users[target];
      if a.mask.fo {
        if target != actor {
          return;
        }
        if !u.fo {
          if !mode.founderAuth || founderKey.None? || !a.authOk {
            return;
          }
          if router {
            StripFounder(a.order);
          }
          u := u.(fo := true);
          sender := u;
        }
      } else {
        u := u.(fo := false);
      }
      u := ChangeBits(u, sender, target == actor, a.mask);
      users := users[target := u];
    }

    // --------------------------------------------------------------- notifies

    method JoinNotified(c: nat, fromRouter: bool)
      modifies this`users, this`disabled, this`globalUsers
      ensures View() == JoinNotify(old(View()), c, fromRouter)
    {
      if !there || c in users {
        return;
      }
      if !router && fromRouter {
        globalUsers := true;
      }
      var umode := ORDINARY;
      if !router || fromRouter {
        if !mode.founderAuth {
          if users == map[] {
            umode := FOUNDER;
          }
        }
      }
      users, disabled := users[c := umode], false;
    }

    /** Whether somebody on the user list is founder. */
    method FindFounder(order: seq<nat>) returns (found: bool)
      requires Enumerates(order, users)
      ensures found == HasFounder(users)
    {
      var i := 0;
      while i < |order|
        invariant 0 <= i <= |order|
        invariant forall j: nat :: j < i ==> !FounderAt(users, order, j)
      {
        if order[i] in users && users[order[i]].fo {
          return true;
        }
        i := i + 1;
      }
      if c :| c in users && users[c].fo {
        var j: nat :| j < |order| && order[j] == c;
        assert FounderAt(users, order, j);
      }
      return false;
    }

    /** The members in some order, as the hash table hands them out. */
    method Iterate() returns (order: seq<nat>)
      ensures Enumerates(order, users)
    {
      order := [];
      var todo := users.Keys;
      while todo != {}
        invariant forall c :: c in users ==> c in todo || c in order
        decreases |todo|
      {
        var c :| c in todo;
        order, todo := order + [c], todo - {c};
      }
    }

    method CumodeNotified(sender: Option<nat>, target: nat, umode: UMode, keySent: Option<nat>)
      modifies this`users
      ensures View() == CumodeNotify(old(View()), sender, target, umode, keySent)
    {
      if sender.Some? {
        if sender.value !in users {
          return;
        }
        if sender.value != target && router {
          var chl := users[sender.value];
          if !chl.op && !chl.fo {
            return;
          }
          if target !in users || users[target].fo {
            return;
          }
        }
      }
      if target !in users {
        return;
      }
      var mode2 := umode;
      if umode.fo && !users[target].fo && router {
        var order := Iterate();
        var found := FindFounder(order);
        if sender.Some? && !mode.founderAuth {
          mode2 := mode2.(fo := false);
        } else if found {
          mode2 := mode2.(fo := false);
        } else if founderKey.Some? && keySent != founderKey {
          mode2 := mode2.(fo := false);
        }
      }
      users := users[target := mode2];
    }

    method DetachCommand(c: nat)
      modifies this`offline
      ensures View() == Detach(old(View()), c)
    {
      offline := offline + {c};
    }

    /** The timed task; it is armed on routers only. */
    method TimedRekey()
      modifies this`keys
      ensures View() == Rekey(old(View()))
    {
      if there && router {
        Distribute();
      }
    }

    method DetachTimeout(c: nat)
      modifies this`there, this`disabled, this`globalUsers, this`users, this`keys
      ensures View() == if c in old(offline) then Removed(old(View()), c, true) else old(View())
    {
      if c in offline {
        Remove(c, true);
      }
    }

    // ----------------------------------------------------------- any event

    method Command(e: Event)
      requires Orderly(View(), e) && K.Local(e)
      modifies this`there, this`disabled, this`globalUsers, this`mode, this`founderKey, this`pass, this`limit,
               this`users, this`offline, this`keys
      ensures View() == Step(old(View()), e)
    {
      hide Join, Removed, Kick, Cmode, Cumode, Resume, Rekey;
      match e
      case JoinCommand(c, a) => JoinCommand(c, a);
      case LeaveCommand(c) => Remove(c, true);
      case KickCommand(actor, t) => KickCommand(actor, t);
      case QuitCommand(c) => Remove(c, true);
      case DetachCommand(c) => DetachCommand(c);
      case DetachTimeout(c) => DetachTimeout(c);
      case ResumeClient(d, cur) => ResumeClient(d, cur);
      case CmodeCommand(actor, a) => CmodeCommand(actor, a);
      case CumodeCommand(actor, t, a) => CumodeCommand(actor, t, a);
      case TimedRekey => TimedRekey();
    }

    method Dispatch(e: Event)
      modifies this`there, this`disabled, this`globalUsers, this`mode, this`founderKey, this`pass, this`limit,
               this`users, this`offline, this`keys
      ensures View() == Step(old(View()), e)
    {
      hide Removed, JoinNotify, CumodeNotify;
      if e.JoinNotified? {
        JoinNotified(e.who, e.fromRouter);
      } else if e.LeaveNotified? {
        Remove(e.who, false);
      } else if e.CumodeNotified? {
        CumodeNotified(e.sender, e.target, e.umode, e.keySent);
      } else if (e.JoinCommand? ==> Enumerates(e.join.order, users))
                && (e.CumodeCommand? ==> Enumerates(e.cumode.order, users)) {
        Command(e);
      }
    }

    /** Every event, in any state: the entry changes as modelled, a second founder
        comes by a rival event only, the current key leaves the channel by a
        stranding event only, and an old one reaches a joiner by a leaking one. */
    method Handle(e: Event)
      requires Valid()
      modifies this
      ensures Valid()
      ensures View() == Step(old(View()), e)
      ensures history == Next(old(history), old(View()), e)
    {
      hide Step, Next, FounderOk, KeysOk;
      ghost var was, h := View(), history;
      StepKeepsFounderOk(was, h, e);
      StepKeepsKeysOk(was, h, e);
      Dispatch(e);
      history := Next(h, was, e);
      assert View() == Step(was, e);
    }

    /** A whole run, from any state. */
    method Execute(evs: seq<Event>)
      requires Valid()
      modifies this
      ensures Valid()
      ensures View() == After(old(View()), evs)
      ensures K.AllLocal(evs) && !old(history.networked) ==> !history.networked
    {
      hide Step, F.Rivals, K.Strands, K.Leaks, K.LateNext;
      ghost var was := View();
      for i := 0 to |evs|
        invariant Valid() && View() == After(was, evs[..i])
        invariant K.AllLocal(evs) && !old(history.networked) ==> !history.networked
      {
        assert evs[..i + 1][..i] == evs[..i];
        hide Valid;
        Handle(evs[i]);
      }
      assert evs[..|evs|] == evs;
    }
  }
}
