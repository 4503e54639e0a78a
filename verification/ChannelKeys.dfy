/** Who has been sent the channel key, on a standalone server whose members are
    all its own clients: exactly when the current key stays within the channel,
    and exactly when a joiner is sent a key older than its JOIN. */
module ChannelKeys {
  import opened Wire
  import opened Channel

  // ------------------------------------------------------------ the history

  /** No key beyond number `n` has been made or sent. */
  predicate UpTo(log: seq<Act>, n: nat) {
    forall i :: 0 <= i < |log| ==>
      match log[i]
      case Admitted(_) => true
      case Generated(k) => k <= n
      case KeySent(_, k) => k <= n
  }

  /** Everyone ever sent key `k` is among `members`. */
  predicate HeldWithin(log: seq<Act>, k: nat, members: set<nat>) {
    forall i :: 0 <= i < |log| && log[i].KeySent? && log[i].key == k ==> log[i].to <= members
  }

  /** Client `c` was not admitted after key `k` was generated. */
  predicate Entitled(log: seq<Act>, c: nat, k: nat) {
    forall g, j :: 0 <= g < j < |log| && log[g] == Generated(k) ==> log[j] != Admitted(c)
  }

  predicate AllEntitled(log: seq<Act>, to: set<nat>, k: nat) {
    forall c :: c in to ==> Entitled(log, c, k)
  }

  /** A key went to a client admitted after the key was generated. */
  predicate StaleAt(log: seq<Act>, i: nat) {
    i < |log| && log[i].KeySent? && !AllEntitled(log[..i], log[i].to, log[i].key)
  }

  ghost predicate NoStale(log: seq<Act>) {
    forall i: nat :: !StaleAt(log, i)
  }

  // ---------------------------------------------------------- growing history

  lemma AppendEntitled(log: seq<Act>, a: Act, c: nat, k: nat)
    requires Entitled(log, c, k) && a != Admitted(c)
    ensures Entitled(log + [a], c, k)
  {
  }

  lemma NewKeyEntitled(log: seq<Act>, c: nat, k: nat)
    requires forall i :: 0 <= i < |log| ==> log[i] != Generated(k)
    ensures Entitled(log + [Generated(k)], c, k)
  {
  }

  lemma AppendStale(log: seq<Act>, a: Act)
    ensures NoStale(log + [a]) <==>
              NoStale(log) && (a.KeySent? ==> AllEntitled(log, a.to, a.key))
  {
    var long := log + [a];
    assert long[..|log|] == log;
    assert StaleAt(long, |log|) <==> a.KeySent? && !AllEntitled(log, a.to, a.key);
    forall i: nat | i < |log| ensures StaleAt(long, i) <==> StaleAt(log, i) {
      assert long[..i] == log[..i];
    }
  }

  // -------------------------------------------------- keys and their holders

  /** What stays true of the keys whatever happens. */
  predicate Sound(k: Keys, members: set<nat>) {
    UpTo(k.log, k.current) && AllEntitled(k.log, members, k.current)
  }

  /** A new key: everyone is entitled to it and nobody has it yet. */
  lemma RenewedSound(k: Keys, members: set<nat>)
    requires UpTo(k.log, k.current)
    ensures Sound(Renewed(k, false), members)
    ensures HeldWithin(Renewed(k, false).log, k.current + 1, members)
    ensures NoStale(Renewed(k, false).log) <==> NoStale(k.log)
  {
    AppendStale(k.log, Generated(k.current + 1));
    forall c | c in members ensures Entitled(Renewed(k, false).log, c, k.current + 1) {
      NewKeyEntitled(k.log, c, k.current + 1);
    }
  }

  lemma SentSound(k: Keys, to: set<nat>, members: set<nat>)
    requires Sound(k, members)
    ensures Sound(SentTo(k, to), members)
    ensures HeldWithin(SentTo(k, to).log, k.current, members)
            <==> HeldWithin(k.log, k.current, members) && to <= members
    ensures NoStale(SentTo(k, to).log) <==> NoStale(k.log) && AllEntitled(k.log, to, k.current)
  {
    var a := KeySent(to, k.current);
    AppendStale(k.log, a);
    assert (k.log + [a])[|k.log|] == a;
    assert forall i :: 0 <= i < |k.log| ==> (k.log + [a])[i] == k.log[i];
    forall c | c in members ensures Entitled(k.log + [a], c, k.current) {
      AppendEntitled(k.log, a, c, k.current);
    }
  }

  /** Key generation and distribution to (some of) the members, whoever held
      the old key: the new one stays within. */
  lemma IssueSound(k: Keys, to: set<nat>, members: set<nat>)
    requires UpTo(k.log, k.current) && to <= members
    ensures var n := SentTo(Renewed(k, false), to);
      && Sound(n, members) && HeldWithin(n.log, n.current, members)
      && (NoStale(n.log) <==> NoStale(k.log))
  {
    RenewedSound(k, members);
    SentSound(Renewed(k, false), to, members);
  }

  // ---------------------------------------------------------------- invariant

  predicate Direct(ch: Channel) {
    ch.remote == {}
  }

  /** Kept by every event. */
  predicate Base(ch: Channel) {
    && Direct(ch)
    && UpTo(ch.keys.log, ch.keys.current)
    && (!ch.there ==> ch.users == map[])
    && (!ch.mode.privkey ==> AllEntitled(ch.keys.log, ch.users.Keys, ch.keys.current))
  }

  /** The claim: outside private-key mode the current key is held by members
      only.  An emptied permanent channel keeps its key until the next JOIN. */
  predicate Held(ch: Channel) {
    !ch.mode.privkey && ch.users != map[] ==> HeldWithin(ch.keys.log, ch.keys.current, ch.users.Keys)
  }

  /** What an event keeps when it neither strands nor leaks a key. */
  ghost predicate Kept(ch: Channel, n: Channel) {
    && Base(n)
    && (Held(ch) ==> Held(n))
    && (NoStale(n.keys.log) <==> NoStale(ch.keys.log))
  }

  lemma IssueKept(ch: Channel)
    requires Direct(ch) && UpTo(ch.keys.log, ch.keys.current) && !ch.mode.privkey
    requires !ch.there ==> ch.users == map[]
    ensures Kept(ch, Issue(ch)) && Held(Issue(ch))
  {
    IssueSound(ch.keys, Reached(ch), ch.users.Keys);
  }

  // ------------------------------------------------------------ per operation

  lemma PreparedKept(ch: Channel, a: JoinArgs)
    requires Base(ch)
    ensures Kept(ch, Prepared(ch, a))
    ensures ch.there ==> Prepared(ch, a) == ch.(users := Prepared(ch, a).users)
    ensures ch.there ==> Prepared(ch, a).users.Keys == ch.users.Keys
  {
    if !ch.there {
      RenewedSound(ch.keys, {});
    } else {
      assert Stripped(ch.users, a.order).Keys == ch.users.Keys;
    }
  }

  /** A JOIN's key traffic: a key made after the admission, sent to those
      already there and then to the joiner. */
  lemma JoinKeysSound(k: Keys, c: nat, to: set<nat>, members: set<nat>)
    requires UpTo(k.log, k.current) && c in members && to <= members
    ensures var k0 := k.(log := k.log + [Admitted(c)]);
            var n := JoinKeys(k0, false, false, to, c);
      && Sound(n, members) && HeldWithin(n.log, n.current, members)
      && (NoStale(n.log) <==> NoStale(k.log))
    ensures var k0 := k.(log := k.log + [Admitted(c)]);
            var n := JoinKeys(Renewed(k0, false), false, true, to, c);
      && Sound(n, members) && HeldWithin(n.log, n.current, members)
      && (NoStale(n.log) <==> NoStale(k.log))
  {
    var k0 := k.(log := k.log + [Admitted(c)]);
    AppendStale(k.log, Admitted(c));
    IssueSound(k0, to, members);
    hide UpTo, AllEntitled, HeldWithin, NoStale;
    SentSound(SentTo(Renewed(k0, false), to), {c}, members);
    IssueSound(k0, {c}, members);
  }

  lemma PreparedKeys(ch: Channel, k: Keys, a: JoinArgs)
    ensures var n := Prepared(ch.(keys := k), a);
      && n.users == Prepared(ch, a).users && n.mode == Prepared(ch, a).mode
      && n.remote == ch.remote && n.there
      && n.keys == if ch.there then k else Renewed(k, false)
  {
  }

  lemma KeyedJoinKept(ch: Channel, c: nat, a: JoinArgs)
    requires Base(ch) && Admits(ch, c, a) && !(ch.there && ch.mode.privkey)
    ensures Kept(ch, Join(ch, c, a))
  {
    var k0 := ch.keys.(log := ch.keys.log + [Admitted(c)]);
    PreparedKept(ch, a);
    PreparedKeys(ch, k0, a);
    var ch1 := Prepared(ch.(keys := k0), a);
    var members := ch1.users.Keys + {c};
    JoinKeysSound(ch.keys, c, Reached(ch1), members);
    hide UpTo, AllEntitled, HeldWithin, NoStale, Admits, Prepared, JoinerMode, JoinKeys;
    assert Join(ch, c, a).users.Keys == members;
  }

  /** The joiner's key is generated after its admission, or not sent at all. */
  lemma JoinKept(ch: Channel, c: nat, a: JoinArgs)
    requires Base(ch)
    ensures Kept(ch, Join(ch, c, a))
  {
    PreparedKept(ch, a);
    PreparedKeys(ch, ch.keys.(log := ch.keys.log + [Admitted(c)]), a);
    if Admits(ch, c, a) && ch.mode.privkey && ch.there {
      AppendStale(ch.keys.log, Admitted(c));
    } else if Admits(ch, c, a) {
      KeyedJoinKept(ch, c, a);
    }
  }

  lemma RemovedKept(ch: Channel, c: nat)
    requires Base(ch)
    ensures Kept(ch, Removed(ch, c, true))
  {
    hide UpTo, HeldWithin, NoStale;
    if c in ch.users && !Empties(ch, c) && !ch.mode.privkey {
      IssueKept(Left(ch, c));
    }
  }

  // -------------------------------------------------------------------- CMODE

  /** Stages that touch neither the key nor the mode. */
  predicate QuietStage(s: Stage) {
    s != PrivkeyBit && s != CipherBit
  }

  /** Same channel as far as keys go. */
  predicate SameKeys(ch: Channel, n: Channel) {
    && n.keys == ch.keys && n.users == ch.users && n.mode == ch.mode && n.there == ch.there
    && n.remote == ch.remote && n.offline == ch.offline && n.router == ch.router
  }

  lemma QuietStageSame(ch: Channel, u: UMode, mask: Modes, a: CmodeArgs, s: Stage)
    requires QuietStage(s)
    ensures SameKeys(ch, RunStage(ch, u, mask, a, s).ch)
  {
    hide Issue, PrivkeyStage, LimitStage, PassStage, CipherStage, HmacStage, FounderStage, ChannelAuthStage;
  }

  lemma {:induction false} QuietStages(ch: Channel, u: UMode, mask: Modes, a: CmodeArgs, todo: seq<Stage>)
    requires forall s :: s in todo ==> QuietStage(s)
    ensures SameKeys(ch, RunStages(ch, u, mask, a, todo).ch)
    decreases |todo|
  {
    hide RunStage;
    if todo != [] {
      var p := RunStage(ch, u, mask, a, todo[0]);
      QuietStageSame(ch, u, mask, a, todo[0]);
      QuietStages(p.ch, u, mask, a, todo[1..]);
    }
  }

  lemma {:induction false} StagesSplit(ch: Channel, u: UMode, mask: Modes, a: CmodeArgs, t1: seq<Stage>, t2: seq<Stage>)
    ensures var p := RunStages(ch, u, mask, a, t1);
            RunStages(ch, u, mask, a, t1 + t2)
            == if p.Stopped? then p else RunStages(p.ch, u, mask, a, t2)
    decreases |t1|
  {
    hide RunStage;
    if t1 == [] {
      assert t1 + t2 == t2;
    } else {
      assert (t1 + t2)[1..] == t1[1..] + t2;
      var p := RunStage(ch, u, mask, a, t1[0]);
      StagesSplit(p.ch, u, mask, a, t1[1..], t2);
    }
  }

  /** The command gets as far as changing the cipher. */
  predicate ReachesCipher(ch: Channel, mask: Modes, a: CmodeArgs) {
    && (mask.limited ==> a.limit.Some? || ch.mode.limited)
    && (mask.passphrase && !ch.mode.passphrase ==> a.pass.Some?)
    && mask.cipher != ch.mode.cipher && a.cipherOk
  }

  lemma OneStage(ch: Channel, u: UMode, mask: Modes, a: CmodeArgs, s: Stage)
    ensures RunStages(ch, u, mask, a, [s]) == RunStage(ch, u, mask, a, s)
  {
    hide RunStage;
    var p := RunStage(ch, u, mask, a, s);
    assert [s][1..] == [];
    assert RunStages(p.ch, u, mask, a, []) == Going(p.ch);
  }

  lemma EarlyStages(ch: Channel, u: UMode, mask: Modes, a: CmodeArgs)
    ensures var p := RunStages(ch, u, mask, a, [LimitBit] + [PassBit]);
      && SameKeys(ch, p.ch)
      && (p.Going? <==> (mask.limited ==> a.limit.Some? || ch.mode.limited)
                        && (mask.passphrase && !ch.mode.passphrase ==> a.pass.Some?))
  {
    QuietStages(ch, u, mask, a, [LimitBit] + [PassBit]);
    StagesSplit(ch, u, mask, a, [LimitBit], [PassBit]);
    OneStage(ch, u, mask, a, LimitBit);
    var q := RunStage(ch, u, mask, a, LimitBit);
    OneStage(q.ch, u, mask, a, PassBit);
  }

  /** The keys after the stages that follow the private-key bit. */
  lemma LaterStages(ch: Channel, u: UMode, mask: Modes, a: CmodeArgs)
    ensures var n := RunStages(ch, u, mask, a, [LimitBit, PassBit, CipherBit, HmacBit, FounderBit, ChannelAuthBit]).ch;
            SameKeys(if ReachesCipher(ch, mask, a) then Issue(ch) else ch, n)
  {
    var early, rest := [LimitBit] + [PassBit], [HmacBit, FounderBit, ChannelAuthBit];
    assert [LimitBit, PassBit, CipherBit, HmacBit, FounderBit, ChannelAuthBit] == early + ([CipherBit] + rest);
    StagesSplit(ch, u, mask, a, early, [CipherBit] + rest);
    EarlyStages(ch, u, mask, a);
    var p := RunStages(ch, u, mask, a, early);
    StagesSplit(p.ch, u, mask, a, [CipherBit], rest);
    OneStage(p.ch, u, mask, a, CipherBit);
    var q := RunStage(p.ch, u, mask, a, CipherBit);
    QuietStages(q.ch, u, mask, a, rest);
  }

  predicate Allowed(ch: Channel, actor: nat, a: CmodeArgs) {
    actor in ch.users && a.mask.Some? && MayChange(ch.mode, ch.users[actor], a.mask.value)
  }

  /** The private-key bit comes first. */
  lemma StagesInTwo(ch: Channel, u: UMode, mask: Modes, a: CmodeArgs)
    ensures RunStages(ch, u, mask, a, AllStages())
            == RunStages(PrivkeyStage(ch, mask), u, mask, a,
                         [LimitBit, PassBit, CipherBit, HmacBit, FounderBit, ChannelAuthBit])
  {
    hide PrivkeyStage;
    var later := [LimitBit, PassBit, CipherBit, HmacBit, FounderBit, ChannelAuthBit];
    assert AllStages() == [PrivkeyBit] + later;
    OneStage(ch, u, mask, a, PrivkeyBit);
    StagesSplit(ch, u, mask, a, [PrivkeyBit], later);
  }

  /** A CMODE that runs, seen from the keys. */
  lemma CmodeEffect(ch: Channel, actor: nat, a: CmodeArgs)
    requires Allowed(ch, actor, a)
    ensures var mask := a.mask.value;
            var ch1 := PrivkeyStage(ch, mask);
            var ch2 := if ReachesCipher(ch, mask, a) then Issue(ch1) else ch1;
            var n := Cmode(ch, actor, a);
      && (n.mode == ch.mode || n.mode == mask)
      && SameKeys(ch2.(mode := n.mode), n)
  {
    var mask, u := a.mask.value, ch.users[actor];
    var ch1 := PrivkeyStage(ch, mask);
    StagesInTwo(ch, u, mask, a);
    LaterStages(ch1, u, mask, a);
    hide RunStages, Issue, MayChange, PrivkeyStage;
  }

  // ------------------------------------------------- the key reaches everyone

  /** Events of a server on its own: nothing arrives from the network. */
  predicate Local(e: Event) {
    !e.JoinNotified? && !e.LeaveNotified? && !e.CumodeNotified?
  }

  predicate AllLocal(evs: seq<Event>) {
    forall i :: 0 <= i < |evs| ==> Local(evs[i])
  }

  predicate HasKey(log: seq<Act>, c: nat, k: nat) {
    exists i :: 0 <= i < |log| && log[i].KeySent? && log[i].key == k && c in log[i].to
  }

  predicate AllHave(log: seq<Act>, who: set<nat>, k: nat) {
    forall c :: c in who ==> HasKey(log, c, k)
  }

  /** Outside private-key mode every connected member was sent the current key. */
  predicate Reaching(ch: Channel) {
    && Direct(ch)
    && (!ch.there ==> ch.users == map[])
    && (!ch.mode.privkey ==> AllHave(ch.keys.log, Reached(ch), ch.keys.current))
  }

  lemma SentReaches(k: Keys, to: set<nat>, who: set<nat>)
    requires AllHave(k.log, who, k.current)
    ensures AllHave(SentTo(k, to).log, who + to, k.current)
  {
    var n := SentTo(k, to).log;
    assert n[|k.log|] == KeySent(to, k.current);
    forall c | c in who ensures HasKey(n, c, k.current) {
      var i :| 0 <= i < |k.log| && k.log[i].KeySent? && k.log[i].key == k.current && c in k.log[i].to;
      assert n[i] == k.log[i];
    }
  }

  lemma FewerHave(log: seq<Act>, who: set<nat>, fewer: set<nat>, k: nat)
    requires AllHave(log, who, k) && fewer <= who
    ensures AllHave(log, fewer, k)
  {
  }

  lemma IssueReaches(ch: Channel)
    requires Direct(ch) && !ch.mode.privkey && (!ch.there ==> ch.users == map[])
    ensures Reaching(Issue(ch))
  {
    SentReaches(Renewed(ch.keys, false), Reached(ch), {});
    assert {} + Reached(ch) == Reached(ch);
  }

  lemma NobodyHas(log: seq<Act>, k: nat)
    ensures AllHave(log, {}, k)
  {
  }

  lemma PreparedUsers(ch: Channel, a: JoinArgs)
    ensures var n := Prepared(ch, a);
      && n.users.Keys == (if ch.there then ch.users.Keys else {}) && n.there && n.remote == ch.remote
      && n.offline == ch.offline && n.mode == (if ch.there then ch.mode else NO_MODES)
      && (ch.there ==> n.keys == ch.keys)
  {
  }

  lemma JoinReaches(ch: Channel, c: nat, a: JoinArgs)
    requires Reaching(ch)
    ensures Reaching(Join(ch, c, a))
  {
    var k0 := ch.keys.(log := ch.keys.log + [Admitted(c)]);
    PreparedKeys(ch, k0, a);
    PreparedUsers(ch, a);
    var ch1 := Prepared(ch.(keys := k0), a);
    var k1 := if ch.there then SentTo(Renewed(k0, false), Reached(ch1)) else Renewed(k0, false);
    SentReaches(Renewed(k0, false), Reached(ch1), {});
    assert {} + Reached(ch1) == Reached(ch1);
    hide AllHave, Admits, Prepared, JoinerMode;
    if Admits(ch, c, a) && !ch1.mode.privkey {
      if !ch.there { NobodyHas(k1.log, k1.current); }
      SentReaches(k1, {c}, Reached(ch1));
      FewerHave(SentTo(k1, {c}).log, Reached(ch1) + {c}, Reached(Join(ch, c, a)), k1.current);
    } else if !ch.there {
      NobodyHas(Join(ch, c, a).keys.log, Join(ch, c, a).keys.current);
    }
  }

  lemma FewerReached(ch: Channel, c: nat)
    ensures Reached(Left(ch, c)) <= Reached(ch)
  {
  }

  lemma NoneReached(ch: Channel)
    requires ch.users == map[]
    ensures Reached(ch) == {}
  {
  }

  lemma RemovedReaches(ch: Channel, c: nat, keygen: bool)
    requires Reaching(ch)
    ensures Reaching(Removed(ch, c, keygen))
  {
    if c in ch.users {
      FewerReached(ch, c);
      hide AllHave, HasKey, Reached;
      if Empties(ch, c) {
        NobodyHas(ch.keys.log, ch.keys.current);
        NoneReached(Removed(ch, c, keygen));
      } else if !ch.mode.privkey && keygen {
        IssueReaches(Left(ch, c));
      } else if !ch.mode.privkey {
        FewerHave(ch.keys.log, Reached(ch), Reached(Left(ch, c)), ch.keys.current);
      }
    }
  }

  lemma ResumeReaches(ch: Channel, d: nat, cur: nat)
    requires Reaching(ch)
    ensures Reaching(Resume(ch, d, cur))
  {
    if MayResume(ch, d, cur) {
      RemovedReaches(ch, cur, false);
      var before := Removed(ch, cur, false);
      var ch1 := Removed(ch.(offline := ch.offline - {d}), cur, false);
      assert ch1 == before.(offline := ch.offline - {d});
      if d in ch1.users && !ch1.mode.privkey {
        SentReaches(ch1.keys, {d}, Reached(before));
        hide AllHave, Removed;
        FewerHave(SentTo(ch1.keys, {d}).log, Reached(before) + {d}, Reached(ch1), ch1.keys.current);
      } else if !ch1.mode.privkey {
        hide AllHave, Removed;
        FewerHave(ch1.keys.log, Reached(before), Reached(ch1), ch1.keys.current);
      }
    }
  }

  lemma CmodeReaches(ch: Channel, actor: nat, a: CmodeArgs)
    requires Reaching(ch)
    ensures Reaching(Cmode(ch, actor, a))
  {
    if Allowed(ch, actor, a) {
      CmodeEffect(ch, actor, a);
      var mask := a.mask.value;
      var ch1 := PrivkeyStage(ch, mask);
      if ch.mode.privkey && !mask.privkey { IssueReaches(ch.(mode := ch1.mode)); }
      hide AllHave, Cmode, PrivkeyStage, MayChange, ReachesCipher, Issue;
      if ReachesCipher(ch, mask, a) && !ch1.mode.privkey { IssueReaches(ch1); }
    }
  }

  lemma CumodeReaches(ch: Channel, actor: nat, target: nat, a: CumodeArgs)
    requires Reaching(ch)
    ensures Reaching(Cumode(ch, actor, target, a))
  {
    hide OtherBits, ProvedClaim, AllHave;
    assert Cumode(ch, actor, target, a).users.Keys == ch.users.Keys;
  }

  lemma StepReaches(ch: Channel, e: Event)
    requires Reaching(ch) && Local(e)
    ensures Reaching(Step(ch, e))
  {
    hide Join, Removed, Cmode, Cumode, Resume, AllHave;
    if Orderly(ch, e) {
      match e
      case JoinCommand(c, a) => JoinReaches(ch, c, a);
      case LeaveCommand(c) => RemovedReaches(ch, c, true);
      case KickCommand(_, t) => RemovedReaches(ch, t, true);
      case QuitCommand(c) => RemovedReaches(ch, c, true);
      case DetachCommand(c) =>
        if !ch.mode.privkey {
          FewerHave(ch.keys.log, Reached(ch), Reached(Detach(ch, c)), ch.keys.current);
        }
      case DetachTimeout(c) => RemovedReaches(ch, c, true);
      case ResumeClient(d, cur) => ResumeReaches(ch, d, cur);
      case CmodeCommand(actor, a) => CmodeReaches(ch, actor, a);
      case CumodeCommand(actor, t, a) => CumodeReaches(ch, actor, t, a);
      case TimedRekey => if !ch.mode.privkey { IssueReaches(ch); }
    }
  }

  // --------------------------------------------------------------- the culprits

  /** The channel's key was generated at some point. */
  predicate Made(k: Keys) {
    exists i :: 0 <= i < |k.log| && k.log[i] == Generated(k.current)
  }

  /** Exactly the clients `late` were admitted after the current key was made. */
  ghost predicate Exactly(k: Keys, late: set<nat>) {
    forall c :: Entitled(k.log, c, k.current) <==> c !in late
  }

  ghost predicate Tracks(ch: Channel, late: set<nat>) {
    (ch.there ==> Made(ch.keys)) && Exactly(ch.keys, late)
  }

  /** A JOIN lets the client in. */
  predicate Enters(ch: Channel, e: Event) {
    e.JoinCommand? && e.who !in ch.users && e.who in Step(ch, e).users
  }

  /** The clients let in since the channel last changed its key, after one more
      event. */
  function LateNext(late: set<nat>, ch: Channel, e: Event): set<nat> {
    if Step(ch, e).keys.current != ch.keys.current then {}
    else if Enters(ch, e) then late + {e.who}
    else late
  }

  function Late(ch: Channel, evs: seq<Event>): set<nat> {
    if evs == [] then {}
    else
      var pre := evs[..|evs| - 1];
      LateNext(Late(ch, pre), After(ch, pre), evs[|pre|])
  }

  /** From `k` to `n` nobody is admitted. */
  ghost predicate Follows(k: Keys, n: Keys, late: set<nat>) {
    && k.current <= n.current
    && (Made(k) || k.current < n.current ==> Made(n))
    && Exactly(n, if n.current == k.current then late else {})
  }

  lemma RenewedExactly(k: Keys)
    requires UpTo(k.log, k.current)
    ensures Exactly(Renewed(k, false), {}) && Made(Renewed(k, false))
  {
    var n := Renewed(k, false);
    assert n.log[|k.log|] == Generated(n.current);
    forall c ensures Entitled(n.log, c, n.current) { NewKeyEntitled(k.log, c, n.current); }
  }

  lemma SameEntitled(log: seq<Act>, a: Act, c: nat, k: nat)
    requires a != Admitted(c)
    ensures Entitled(log + [a], c, k) <==> Entitled(log, c, k)
  {
    var n := log + [a];
    if !Entitled(log, c, k) {
      var g, j :| 0 <= g < j < |log| && log[g] == Generated(k) && log[j] == Admitted(c);
      assert n[g] == log[g] && n[j] == log[j];
    }
  }

  lemma SentFollows(k: Keys, to: set<nat>, late: set<nat>)
    requires Exactly(k, late)
    ensures Follows(k, SentTo(k, to), late)
  {
    var n := SentTo(k, to);
    forall c ensures Entitled(n.log, c, k.current) <==> Entitled(k.log, c, k.current) {
      SameEntitled(k.log, KeySent(to, k.current), c, k.current);
    }
    if Made(k) {
      var i :| 0 <= i < |k.log| && k.log[i] == Generated(k.current);
      assert n.log[i] == k.log[i];
    }
  }

  lemma AdmittedExactly(k: Keys, c: nat, late: set<nat>)
    requires Made(k) && Exactly(k, late)
    ensures var n := k.(log := k.log + [Admitted(c)]); Made(n) && Exactly(n, late + {c})
  {
    var n := k.(log := k.log + [Admitted(c)]);
    var i :| 0 <= i < |k.log| && k.log[i] == Generated(k.current);
    assert n.log[i] == Generated(n.current) && n.log[|k.log|] == Admitted(c);
    forall d | d != c ensures Entitled(n.log, d, k.current) <==> Entitled(k.log, d, k.current) {
      SameEntitled(k.log, Admitted(c), d, k.current);
    }
  }

  lemma IssueFollows(ch: Channel, late: set<nat>)
    requires UpTo(ch.keys.log, ch.keys.current) && Exactly(ch.keys, late)
    ensures Follows(ch.keys, Issue(ch).keys, late)
  {
    RenewedExactly(ch.keys);
    hide Exactly, Made, UpTo;
    SentFollows(Renewed(ch.keys, ch.mode.privkey), Reached(ch), if ch.mode.privkey then late else {});
  }

  /** Without an admission the late clients stay, or a new key clears them. */
  lemma FollowsTracks(ch: Channel, late: set<nat>, e: Event)
    requires Tracks(ch, late) && !e.JoinCommand?
    requires Follows(ch.keys, Step(ch, e).keys, late) && (Step(ch, e).there ==> ch.there)
    ensures Tracks(Step(ch, e), LateNext(late, ch, e))
  {
    hide Step, Made, Exactly;
  }

  lemma UnchangedFollows(k: Keys, late: set<nat>)
    requires Exactly(k, late)
    ensures Follows(k, k, late)
  {
  }

  lemma RemovedFollows(ch: Channel, c: nat, keygen: bool, late: set<nat>)
    requires Base(ch) && Tracks(ch, late)
    ensures Follows(ch.keys, Removed(ch, c, keygen).keys, late) && (Removed(ch, c, keygen).there ==> ch.there)
  {
    UnchangedFollows(ch.keys, late);
    IssueFollows(Left(ch, c), late);
    hide Issue, UpTo, AllEntitled, Exactly, Made, Empties;
  }

  lemma ResumeFollows(ch: Channel, d: nat, cur: nat, late: set<nat>)
    requires Base(ch) && Tracks(ch, late)
    ensures Follows(ch.keys, Resume(ch, d, cur).keys, late) && (Resume(ch, d, cur).there ==> ch.there)
  {
    UnchangedFollows(ch.keys, late);
    SentFollows(ch.keys, {d}, late);
    hide UpTo, AllEntitled, Exactly, Made, Empties;
    assert Removed(ch.(offline := ch.offline - {d}), cur, false).keys == ch.keys;
  }

  lemma PrivkeyKept(ch: Channel, mask: Modes)
    requires Base(ch)
    ensures var n := PrivkeyStage(ch, mask);
      && Kept(ch, n) && n.mode.privkey == (ch.mode.privkey && mask.privkey)
      && (n.mode.privkey ==> n == ch)
      && n.there == ch.there && n.users == ch.users && n.remote == ch.remote && n.offline == ch.offline
  {
    if ch.mode.privkey && !mask.privkey {
      IssueKept(ch.(mode := ch.mode.(privkey := false)));
    }
  }

  lemma CmodeFollows(ch: Channel, actor: nat, a: CmodeArgs, late: set<nat>)
    requires Base(ch) && Tracks(ch, late)
    ensures Follows(ch.keys, Cmode(ch, actor, a).keys, late) && (Cmode(ch, actor, a).there ==> ch.there)
  {
    UnchangedFollows(ch.keys, late);
    if Allowed(ch, actor, a) {
      CmodeEffect(ch, actor, a);
      PrivkeyKept(ch, a.mask.value);
      IssueFollows(ch.(mode := ch.mode.(privkey := false)), late);
      var ch1 := PrivkeyStage(ch, a.mask.value);
      assert ch1.keys == ch.keys || ch1.keys == Issue(ch.(mode := ch.mode.(privkey := false))).keys;
      hide Issue, UpTo, AllEntitled, Exactly, Made, Cmode, PrivkeyStage, ReachesCipher, MayChange;
      IssueFollows(ch1, if ch1.keys.current == ch.keys.current then late else {});
    }
  }

  lemma AdmitsNew(ch: Channel, c: nat, a: JoinArgs)
    ensures Admits(ch, c, a) && ch.there ==> c !in ch.users
  {
  }

  /** A JOIN that makes a new key: everybody came before it. */
  lemma KeyedJoinExactly(ch: Channel, c: nat, a: JoinArgs)
    requires Base(ch) && Admits(ch, c, a) && !(ch.there && ch.mode.privkey)
    ensures var k := Join(ch, c, a).keys; Made(k) && Exactly(k, {}) && k.current > ch.keys.current
  {
    var k0 := ch.keys.(log := ch.keys.log + [Admitted(c)]);
    PreparedKeys(ch, k0, a);
    var ch1 := Prepared(ch.(keys := k0), a);
    RenewedExactly(k0);
    hide Prepared, Exactly, Made, UpTo, AllEntitled, Admits, JoinerMode, Reached;
    var k1 := Renewed(k0, false);
    SentFollows(k1, Reached(ch1), {});
    SentFollows(SentTo(k1, Reached(ch1)), {c}, {});
    SentFollows(k1, {c}, {});
  }

  /** A JOIN in private-key mode: the joiner is late. */
  lemma PrivateJoin(ch: Channel, c: nat, a: JoinArgs)
    requires Admits(ch, c, a) && ch.there && ch.mode.privkey
    ensures var n := Join(ch, c, a);
      && n.there && n.keys == ch.keys.(log := ch.keys.log + [Admitted(c)]) && c !in ch.users && c in n.users
  {
    PreparedKeys(ch, ch.keys.(log := ch.keys.log + [Admitted(c)]), a);
    PreparedUsers(ch, a);
    AdmitsNew(ch, c, a);
    hide Prepared, Admits, JoinerMode, Reached;
  }

  /** A JOIN that is refused at most creates the channel. */
  lemma RefusedJoin(ch: Channel, c: nat, a: JoinArgs)
    requires Base(ch) && !Admits(ch, c, a)
    ensures var n := Join(ch, c, a);
      && n.there && n.keys == (if ch.there then ch.keys else Renewed(ch.keys, false)) && n.users.Keys == ch.users.Keys
  {
    PreparedKeys(ch, ch.keys, a);
    PreparedUsers(ch, a);
    hide Prepared, Admits, UpTo, AllEntitled;
  }

  lemma JoinTracks(ch: Channel, c: nat, a: JoinArgs, late: set<nat>)
    requires Base(ch) && Tracks(ch, late) && Orderly(ch, JoinCommand(c, a))
    ensures Tracks(Join(ch, c, a), LateNext(late, ch, JoinCommand(c, a)))
  {
    var e := JoinCommand(c, a);
    assert Step(ch, e) == Join(ch, c, a);
    hide Join, Step, Exactly, Made, UpTo, AllEntitled, Admits;
    if Admits(ch, c, a) && !(ch.there && ch.mode.privkey) {
      KeyedJoinExactly(ch, c, a);
      assert LateNext(late, ch, e) == {};
    } else if Admits(ch, c, a) {
      AdmittedExactly(ch.keys, c, late);
      PrivateJoin(ch, c, a);
      assert LateNext(late, ch, e) == late + {c};
    } else {
      RenewedExactly(ch.keys);
      RefusedJoin(ch, c, a);
      assert c in ch.users.Keys <==> c in Join(ch, c, a).users.Keys;
      assert LateNext(late, ch, e) == if ch.there then late else {};
    }
  }

  lemma CumodeKeepsKeys(ch: Channel, actor: nat, target: nat, a: CumodeArgs)
    ensures var n := Cumode(ch, actor, target, a); n.keys == ch.keys && n.there == ch.there
  {
    hide OtherBits, ProvedClaim, Stripped;
  }

  lemma RekeyFollows(ch: Channel, late: set<nat>)
    requires Base(ch) && Tracks(ch, late)
    ensures Follows(ch.keys, Rekey(ch).keys, late) && Rekey(ch).there == ch.there
  {
    UnchangedFollows(ch.keys, late);
    IssueFollows(ch, late);
  }

  lemma NoEventTracks(ch: Channel, late: set<nat>, e: Event)
    requires Tracks(ch, late) && !Orderly(ch, e)
    ensures Tracks(Step(ch, e), LateNext(late, ch, e))
  {
  }

  lemma StepTracks(ch: Channel, late: set<nat>, e: Event)
    requires Base(ch) && Tracks(ch, late) && Local(e)
    ensures Tracks(Step(ch, e), LateNext(late, ch, e))
  {
    UnchangedFollows(ch.keys, late);
    hide Join, Removed, Cmode, Cumode, Resume, Base, Tracks, LateNext, Follows;
    if !Orderly(ch, e) {
      if e.JoinCommand? { NoEventTracks(ch, late, e); } else { FollowsTracks(ch, late, e); }
    } else if e.JoinCommand? {
      JoinTracks(ch, e.who, e.join, late);
    } else {
      match e {
        case LeaveCommand(c) => RemovedFollows(ch, c, true, late);
        case KickCommand(_, t) => RemovedFollows(ch, t, true, late);
        case QuitCommand(c) => RemovedFollows(ch, c, true, late);
        case DetachCommand(c) =>
        case DetachTimeout(c) => RemovedFollows(ch, c, true, late);
        case ResumeClient(d, cur) => ResumeFollows(ch, d, cur, late);
        case CmodeCommand(actor, a) => CmodeFollows(ch, actor, a, late);
        case CumodeCommand(actor, t, a) => CumodeKeepsKeys(ch, actor, t, a);
        case TimedRekey => RekeyFollows(ch, late);
      }
      FollowsTracks(ch, late, e);
    }
  }

  /** In private-key mode, with a connected member who joined after the key was
      last changed. */
  predicate Lagging(ch: Channel, late: set<nat>) {
    ch.mode.privkey && !(Reached(ch) !! late)
  }

  lemma LaggingIff(ch: Channel, late: set<nat>)
    requires Tracks(ch, late) && ch.mode.privkey
    ensures AllEntitled(ch.keys.log, Reached(ch), ch.keys.current) <==> !Lagging(ch, late)
  {
  }

  /** Events that send an old key to a member who joined after it was made: in
      private-key mode no key is generated, yet the timed rekey and a change of
      cipher send the key there is. */
  predicate Leaks(ch: Channel, late: set<nat>, e: Event) {
    match e
    case TimedRekey => ch.there && ch.router && Lagging(ch, late)
    case CmodeCommand(actor, a) =>
      Allowed(ch, actor, a) && a.mask.value.privkey && ReachesCipher(ch, a.mask.value, a) && Lagging(ch, late)
    case _ => false
  }

  /** The event that leaves the current key with a former member: a client that
      is on the channel resumes another one's session. */
  predicate Strands(ch: Channel, e: Event) {
    match e
    case ResumeClient(d, cur) =>
      MayResume(ch, d, cur) && cur in ch.users && !Empties(ch, cur) && !ch.mode.privkey
    case _ => false
  }

  /** In private-key mode a distribution repeats the old key. */
  lemma PrivateIssue(ch: Channel, late: set<nat>)
    requires Base(ch) && ch.mode.privkey && Tracks(ch, late)
    ensures Base(Issue(ch)) && Held(Issue(ch))
    ensures NoStale(Issue(ch).keys.log) <==> NoStale(ch.keys.log) && !Lagging(ch, late)
  {
    LaggingIff(ch, late);
    SentSound(ch.keys, Reached(ch), {});
  }

  lemma CmodeKept(ch: Channel, late: set<nat>, actor: nat, a: CmodeArgs)
    requires Base(ch) && Tracks(ch, late)
    ensures Base(Cmode(ch, actor, a))
    ensures Held(ch) ==> Held(Cmode(ch, actor, a))
    ensures NoStale(Cmode(ch, actor, a).keys.log)
            <==> NoStale(ch.keys.log) && !Leaks(ch, late, CmodeCommand(actor, a))
  {
    if Allowed(ch, actor, a) {
      CmodeEffect(ch, actor, a);
      var mask := a.mask.value;
      var ch1 := PrivkeyStage(ch, mask);
      PrivkeyKept(ch, mask);
      hide UpTo, HeldWithin, AllEntitled, NoStale, Tracks, Cmode, PrivkeyStage, MayChange, ReachesCipher;
      if ReachesCipher(ch, mask, a) {
        if ch1.mode.privkey {
          PrivateIssue(ch1, late);
        } else {
          IssueKept(ch1);
        }
      }
    }
  }

  lemma RekeyKept(ch: Channel, late: set<nat>)
    requires Base(ch) && Tracks(ch, late)
    ensures Base(Rekey(ch)) && (Held(ch) ==> Held(Rekey(ch)))
    ensures NoStale(Rekey(ch).keys.log) <==> NoStale(ch.keys.log) && !Leaks(ch, late, TimedRekey)
  {
    if ch.mode.privkey {
      PrivateIssue(ch, late);
    } else {
      IssueKept(ch);
    }
  }

  // ------------------------------------------------------------------- resume

  lemma HeldWithout(log: seq<Act>, k: nat, members: set<nat>, c: nat)
    requires HeldWithin(log, k, members)
    ensures HeldWithin(log, k, members - {c}) <==> !HasKey(log, c, k)
  {
  }

  lemma EntitledFewer(log: seq<Act>, a: set<nat>, b: set<nat>, k: nat)
    requires AllEntitled(log, a, k) && b <= a
    ensures AllEntitled(log, b, k)
  {
  }

  lemma ResumeKept(ch: Channel, d: nat, cur: nat)
    requires Base(ch) && Reaching(ch)
    ensures Base(Resume(ch, d, cur))
    ensures Held(ch) ==> (Held(Resume(ch, d, cur)) <==> !Strands(ch, ResumeClient(d, cur)))
    ensures NoStale(Resume(ch, d, cur).keys.log) <==> NoStale(ch.keys.log)
  {
    if MayResume(ch, d, cur) {
      var ch1 := Removed(ch.(offline := ch.offline - {d}), cur, false);
      if !ch.mode.privkey {
        if Held(ch) && ch.users != map[] { HeldWithout(ch.keys.log, ch.keys.current, ch.users.Keys, cur); }
        assert ch1.users.Keys == if cur in ch.users && Empties(ch, cur) then {} else ch.users.Keys - {cur};
        hide UpTo, HeldWithin, AllEntitled, NoStale, HasKey, Removed;
        assert cur in ch.users && !Empties(ch, cur) ==> ch.users.Keys - {cur} != {};
        EntitledFewer(ch.keys.log, ch.users.Keys, ch1.users.Keys, ch.keys.current);
        if d in ch1.users {
          EntitledFewer(ch.keys.log, ch.users.Keys, {d}, ch.keys.current);
          SentSound(ch1.keys, {d}, ch1.users.Keys);
        }
      }
    }
  }

  // -------------------------------------------------------------- the theorems

  lemma CumodeKept(ch: Channel, actor: nat, target: nat, a: CumodeArgs)
    requires Base(ch)
    ensures Kept(ch, Cumode(ch, actor, target, a))
  {
    hide OtherBits, ProvedClaim, AllEntitled, UpTo, HeldWithin, NoStale;
    assert Cumode(ch, actor, target, a).users.Keys == ch.users.Keys;
  }

  /** What every event keeps; `late` are the clients let in since the channel last
      changed its key. */
  ghost predicate Sane(ch: Channel, late: set<nat>) {
    Base(ch) && Reaching(ch) && Tracks(ch, late)
  }

  /** One event, exactly. */
  lemma StepIff(ch: Channel, late: set<nat>, e: Event)
    requires Sane(ch, late) && Local(e)
    ensures Sane(Step(ch, e), LateNext(late, ch, e))
    ensures NoStale(Step(ch, e).keys.log) <==> NoStale(ch.keys.log) && !(Orderly(ch, e) && Leaks(ch, late, e))
    ensures Held(ch) ==> (Held(Step(ch, e)) <==> !Strands(ch, e))
  {
    hide Join, Removed, Cmode, Cumode, Resume, Rekey, AllEntitled, UpTo, HeldWithin, NoStale, Reaching, Tracks;
    StepReaches(ch, e);
    StepTracks(ch, late, e);
    hide LateNext;
    if Orderly(ch, e) {
      match e
      case JoinCommand(c, a) => JoinKept(ch, c, a);
      case LeaveCommand(c) => RemovedKept(ch, c);
      case KickCommand(_, t) => RemovedKept(ch, t);
      case QuitCommand(c) => RemovedKept(ch, c);
      case DetachCommand(c) =>
      case DetachTimeout(c) => RemovedKept(ch, c);
      case ResumeClient(d, cur) => ResumeKept(ch, d, cur);
      case CmodeCommand(actor, a) => CmodeKept(ch, late, actor, a);
      case CumodeCommand(actor, t, a) => CumodeKept(ch, actor, t, a);
      case TimedRekey => RekeyKept(ch, late);
    }
  }

  predicate NeverLeaks(ch: Channel, evs: seq<Event>) {
    evs != [] ==>
      var pre := evs[..|evs| - 1];
      && NeverLeaks(ch, pre)
      && !(Orderly(After(ch, pre), evs[|pre|]) && Leaks(After(ch, pre), Late(ch, pre), evs[|pre|]))
  }

  predicate NeverStrands(ch: Channel, evs: seq<Event>) {
    evs != [] ==>
      var pre := evs[..|evs| - 1];
      NeverStrands(ch, pre) && !Strands(After(ch, pre), evs[|pre|])
  }

  /** In every state of the run the current key is held by members only. */
  predicate AlwaysHeld(ch: Channel, evs: seq<Event>) {
    Held(After(ch, evs)) && (evs != [] ==> AlwaysHeld(ch, evs[..|evs| - 1]))
  }

  lemma AbsentSane(router: bool)
    ensures Sane(Absent(router, {}), {}) && Held(Absent(router, {})) && NoStale(Absent(router, {}).keys.log)
  {
  }

  lemma {:induction false} RunsKeepSane(router: bool, evs: seq<Event>)
    requires AllLocal(evs)
    ensures Sane(After(Absent(router, {}), evs), Late(Absent(router, {}), evs))
  {
    hide Step, Sane, LateNext;
    AbsentSane(router);
    if evs != [] {
      var pre := evs[..|evs| - 1];
      RunsKeepSane(router, pre);
      StepIff(After(Absent(router, {}), pre), Late(Absent(router, {}), pre), evs[|pre|]);
    }
  }

  /** In every state of every run: the clients let in since the channel last
      changed its key are exactly those admitted after the current key was made. */
  lemma LateIsExact(router: bool, evs: seq<Event>, c: nat)
    requires AllLocal(evs)
    ensures var ch := After(Absent(router, {}), evs);
            c in Late(Absent(router, {}), evs) <==> !Entitled(ch.keys.log, c, ch.keys.current)
  {
    RunsKeepSane(router, evs);
    hide Step, Base, Reaching, Made, LateNext, Entitled;
  }

  /** The other half: in every state of every run, outside private-key mode,
      every connected member has been sent the current key. */
  lemma CurrentKeyReachesMembers(router: bool, evs: seq<Event>)
    requires AllLocal(evs)
    ensures var ch := After(Absent(router, {}), evs);
            !ch.mode.privkey ==> AllHave(ch.keys.log, ch.users.Keys - ch.offline, ch.keys.current)
  {
    RunsKeepSane(router, evs);
    var ch := After(Absent(router, {}), evs);
    assert Reached(ch) == ch.users.Keys - ch.offline;
    hide Step, Tracks, AllHave, Late, After;
  }

  /** Key epochs.  Whenever the channel is not in private-key mode and has
      members, everyone ever sent the current key is a member, in every state of
      a run exactly when no joined client resumed another session in it. */
  lemma {:induction false} CurrentKeyStaysInside(router: bool, evs: seq<Event>)
    requires AllLocal(evs)
    ensures AlwaysHeld(Absent(router, {}), evs) <==> NeverStrands(Absent(router, {}), evs)
  {
    hide Step, Sane, Held, Strands, LateNext;
    AbsentSane(router);
    if evs != [] {
      var pre := evs[..|evs| - 1];
      CurrentKeyStaysInside(router, pre);
      RunsKeepSane(router, pre);
      StepIff(After(Absent(router, {}), pre), Late(Absent(router, {}), pre), evs[|pre|]);
    }
  }

  /** No joiner is ever sent a key generated before its JOIN, exactly when no
      leaking event happened: no distribution in private-key mode while somebody
      is on the channel who came since its key was last changed. */
  lemma {:induction false} JoinersGetNewKeysIff(router: bool, evs: seq<Event>)
    requires AllLocal(evs)
    ensures NoStale(After(Absent(router, {}), evs).keys.log) <==> NeverLeaks(Absent(router, {}), evs)
  {
    hide Step, Sane, Leaks, NoStale, LateNext;
    AbsentSane(router);
    if evs != [] {
      var pre := evs[..|evs| - 1];
      JoinersGetNewKeysIff(router, pre);
      RunsKeepSane(router, pre);
      StepIff(After(Absent(router, {}), pre), Late(Absent(router, {}), pre), evs[|pre|]);
    }
  }

  // ----------------------------------------------------------------- witnesses

  function PlainJoin(c: nat, order: seq<nat>): Event {
    JoinCommand(c, JoinArgs(true, false, None, false, true, false, None, true, order))
  }

  function SetModes(c: nat, mask: Modes): Event {
    CmodeCommand(c, CmodeArgs(Some(mask), None, None, true, true, NoKeyArg, 0, false, false, false, false))
  }

  lemma FirstJoin(router: bool)
    ensures var s := Step(Absent(router, {}), PlainJoin(1, []));
      && s.there && !s.disabled && s.users == map[1 := FOUNDER] && s.mode == NO_MODES
      && s.keys == Keys(1, [Admitted(1), Generated(1), KeySent({1}, 1)])
      && s.offline == {} && s.remote == {} && s.router == router
  {
  }

  /** Both parties are in, and each has the key that its admission brought. */
  lemma TwoJoins(router: bool)
    ensures var s := Step(Step(Absent(router, {}), PlainJoin(1, [])), PlainJoin(2, [1]));
      && s.there && s.users == map[1 := FOUNDER, 2 := ORDINARY] && s.mode == NO_MODES
      && s.keys == Keys(2, [Admitted(1), Generated(1), KeySent({1}, 1),
                            Admitted(2), Generated(2), KeySent({1}, 2), KeySent({2}, 2)])
      && s.offline == {} && s.remote == {} && s.router == router
  {
    FirstJoin(router);
    assert Reached(Step(Absent(router, {}), PlainJoin(1, []))) == {1};
  }

  lemma StrandState(router: bool)
    ensures Strands(Step(Step(Step(Absent(router, {}), PlainJoin(1, [])), PlainJoin(2, [1])), DetachCommand(3)),
                    ResumeClient(3, 2))
  {
    TwoJoins(router);
    hide Join;
    var s2 := Step(Step(Absent(router, {}), PlainJoin(1, [])), PlainJoin(2, [1]));
    assert 1 in s2.users.Keys - {2};
  }

  /** A joined client resumes a detached session: it keeps the current key of a
      channel it is no longer on. */
  lemma ResumeStrandsKey(router: bool) returns (evs: seq<Event>)
    ensures AllLocal(evs) && !AlwaysHeld(Absent(router, {}), evs)
  {
    hide Step, After, Held, Strands;
    var pre := [PlainJoin(1, []), PlainJoin(2, [1]), DetachCommand(3)];
    evs := pre + [ResumeClient(3, 2)];
    StrandState(router);
    ThreeSteps(Absent(router, {}), pre[0], pre[1], pre[2]);
    assert evs[..3] == pre;
    CurrentKeyStaysInside(router, evs);
  }

  /** A router does not even insist that the resumed session is detached. */
  lemma RouterTakeoverStrandsKey() returns (evs: seq<Event>)
    ensures AllLocal(evs) && (forall e :: e in evs ==> !e.DetachCommand?)
    ensures !AlwaysHeld(Absent(true, {}), evs)
  {
    TwoJoins(true);
    var e1, e2 := PlainJoin(1, []), PlainJoin(2, [1]);
    var pre := [e1] + [e2];
    evs := pre + [ResumeClient(3, 2)];
    assert 1 in Step(Step(Absent(true, {}), e1), e2).users.Keys - {2};
    assert Strands(Step(Step(Absent(true, {}), e1), e2), ResumeClient(3, 2));
    hide Step, After, Held, Strands;
    AfterSnoc(Absent(true, {}), [], e1);
    AfterSnoc(Absent(true, {}), [e1], e2);
    assert [] + [e1] == [e1] && evs[..2] == pre;
    AfterNothing(Absent(true, {}));
    CurrentKeyStaysInside(true, evs);
  }

  lemma StageKeepsPass(ch: Channel, u: UMode, mask: Modes, a: CmodeArgs, s: Stage)
    ensures RunStage(ch, u, mask, a, s).ch.mode.passphrase == ch.mode.passphrase
  {
    hide Issue, PrivkeyStage, LimitStage, PassStage, CipherStage, HmacStage, FounderStage, ChannelAuthStage;
  }

  /** A mask that asks for nothing needing arguments goes through. */
  lemma {:induction false} PlainStages(ch: Channel, u: UMode, mask: Modes, a: CmodeArgs, todo: seq<Stage>)
    requires !mask.limited && mask.passphrase == ch.mode.passphrase && a.cipherOk && a.hmacOk
    requires !mask.founderAuth && !mask.channelAuth
    ensures RunStages(ch, u, mask, a, todo).Going?
    decreases |todo|
  {
    hide Issue;
    if todo != [] {
      var p := RunStage(ch, u, mask, a, todo[0]);
      assert p.ch.mode.passphrase == ch.mode.passphrase by { StageKeepsPass(ch, u, mask, a, todo[0]); }
      PlainStages(p.ch, u, mask, a, todo[1..]);
    }
  }

  lemma PrivateModeSet(s: Channel, mask: Modes)
    requires 1 in s.users && s.users[1].fo && s.mode == NO_MODES && mask == NO_MODES.(privkey := true)
    ensures SameKeys(s.(mode := mask), Step(s, SetModes(1, mask)))
  {
    CmodeEffect(s, 1, SetModes(1, mask).cmode);
    PlainStages(s, s.users[1], mask, SetModes(1, mask).cmode, AllStages());
    hide RunStages, ReachesCipher, Issue;
  }

  /** The second client joins without a key of its own. */
  lemma KeylessJoin(s: Channel)
    requires s.there && s.users == map[1 := FOUNDER] && s.mode == NO_MODES.(privkey := true)
    requires s.keys.current == 1 && s.offline == {} && s.remote == {}
    ensures var n := Step(s, PlainJoin(2, [1]));
      && n.there && n.mode == s.mode && 1 in n.users && n.users[1].fo
      && LateNext({}, s, PlainJoin(2, [1])) == {2} && Lagging(n, {2})
  {
    var n := Step(s, PlainJoin(2, [1]));
    assert n.users.Keys == {1, 2} && 2 in Reached(n);
  }

  lemma LateSnoc(ch: Channel, evs: seq<Event>, e: Event)
    ensures Late(ch, evs + [e]) == LateNext(Late(ch, evs), After(ch, evs), e)
  {
    assert (evs + [e])[..|evs|] == evs;
  }

  lemma LateNothing(ch: Channel)
    ensures Late(ch, []) == {}
  {
  }

  lemma LateThree(ch: Channel, a: Event, b: Event, c: Event)
    ensures Late(ch, [a, b, c])
            == LateNext(LateNext(LateNext({}, ch, a), Step(ch, a), b), Step(Step(ch, a), b), c)
  {
    hide *;
    LateNothing(ch);
    AfterNothing(ch);
    LateSnoc(ch, [], a);
    LateSnoc(ch, [a], b);
    LateSnoc(ch, [a, b], c);
    AfterSnoc(ch, [], a);
    AfterSnoc(ch, [a], b);
    assert [] + [a] == [a] && [a] + [b] == [a, b] && [a, b] + [c] == [a, b, c];
  }

  lemma LeakState(router: bool, m: Modes)
    requires m == NO_MODES.(privkey := true)
    ensures var a := Absent(router, {});
            var s1 := Step(a, PlainJoin(1, []));
            var s2 := Step(s1, SetModes(1, m));
            var s := Step(s2, PlainJoin(2, [1]));
      && LateNext({}, a, PlainJoin(1, [])) == {} && LateNext({}, s1, SetModes(1, m)) == {}
      && LateNext({}, s2, PlainJoin(2, [1])) == {2}
      && Orderly(s, SetModes(1, m.(cipher := true))) && Leaks(s, {2}, SetModes(1, m.(cipher := true)))
  {
    FirstJoin(router);
    hide Step, Lagging;
    PrivateModeSet(Step(Absent(router, {}), PlainJoin(1, [])), m);
    KeylessJoin(Step(Step(Absent(router, {}), PlainJoin(1, [])), SetModes(1, m)));
  }

  /** On a private-key channel a change of cipher sends the old key to a member
      who joined after it was made. */
  lemma CipherChangeLeaksKey(router: bool) returns (evs: seq<Event>)
    ensures AllLocal(evs) && !NoStale(After(Absent(router, {}), evs).keys.log)
  {
    hide Step, After, Late, LateNext, NoStale, Leaks, Orderly;
    var m := NO_MODES.(privkey := true);
    var e1, e2, e3 := PlainJoin(1, []), SetModes(1, m), PlainJoin(2, [1]);
    var ch := Absent(router, {});
    var pre := [e1, e2, e3];
    evs := pre + [SetModes(1, m.(cipher := true))];
    LeakState(router, m);
    ThreeSteps(ch, e1, e2, e3);
    LateThree(ch, e1, e2, e3);
    assert evs[..3] == pre;
    JoinersGetNewKeysIff(router, evs);
  }
}
