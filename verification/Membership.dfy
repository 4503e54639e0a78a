/** Which client is on which channel, which entries are registered and which
    wait on the expired list (apps/silcd/server.c, idlist.c, packet_receive.c,
    command_reply.c, server_util.c), at the level of sets.  The two
    cross-referencing tables behind it are in `MembershipTables`. */
module Membership {

  datatype State = State(
    router: bool,                  // server_type != SILC_SERVER
    clients: set<nat>,             // entries in the local and global client lists
    registered: set<nat>,
    expired: set<nat>,             // server->expired_clients
    remote: set<nat>,              // entries with a router
    chans: set<nat>,
    permanent: set<nat>,           // channels with founder authentication
    on: set<(nat, nat)>)           // (client, channel)

  // ----------------------------------------------------------------- relation

  function UsersOf(on: set<(nat, nat)>, ch: nat): set<nat> {
    set p | p in on && p.1 == ch :: p.0
  }

  function ChannelsOf(on: set<(nat, nat)>, c: nat): set<nat> {
    set p | p in on && p.0 == c :: p.1
  }

  function With(c: nat, chans: set<nat>): set<(nat, nat)> {
    set ch | ch in chans :: (c, ch)
  }

  /** Every pair joins known entries; the lists hold known clients. */
  predicate WellFormed(s: State) {
    && (forall p :: p in s.on ==> p.0 in s.clients && p.1 in s.chans)
    && s.registered <= s.clients && s.expired <= s.clients
  }

  // -------------------------------------------------------------- operations

  /** silc_server_channel_delete. */
  function Deleted(s: State, ch: nat): State {
    s.(on := (set p | p in s.on && p.1 != ch),
       chans := if ch in s.permanent then s.chans else s.chans - {ch})
  }

  /** Removing `c` takes its channel down: it was the last one there, or the last
      local one on a normal server. */
  predicate Dooms(s: State, c: nat, ch: nat) {
    if s.router then UsersOf(s.on, ch) == {c} else UsersOf(s.on, ch) - {c} <= s.remote
  }

  /** silc_server_remove_from_one_channel. */
  function RemovedOne(s: State, c: nat, ch: nat): State {
    if (c, ch) !in s.on then s
    else if Dooms(s, c, ch) then Deleted(s, ch)
    else s.(on := s.on - {(c, ch)})
  }

  function Doomed(s: State, c: nat): set<nat> {
    set p | p in s.on && p.0 == c && Dooms(s, c, p.1) :: p.1
  }

  /** silc_server_remove_from_channels, whatever order it visits them in. */
  function RemovedAll(s: State, c: nat): State {
    s.(on := (set p | p in s.on && p.0 != c && p.1 !in Doomed(s, c)),
       chans := s.chans - (Doomed(s, c) - s.permanent))
  }

  /** The same after visiting only the channels in `done`. */
  function RemovedSome(s: State, c: nat, done: set<nat>): State {
    s.(on := (set p | p in s.on && !(p.1 in done && (p.0 == c || p.1 in Doomed(s, c)))),
       chans := s.chans - ((Doomed(s, c) * done) - s.permanent))
  }

  /** Into the history: SIGNOFF and KILLED notifies, a closed connection. */
  function SignedOff(s: State, c: nat): State {
    if c !in s.clients then s
    else
      var t := RemovedAll(s, c);
      t.(registered := t.registered - {c}, remote := t.remote - {c}, expired := t.expired + {c})
  }

  /** Out of every list: an ID found invalid, a server gone, a kill. */
  function Forgotten(s: State, c: nat): State {
    if c !in s.clients then s
    else
      var t := RemovedAll(s, c);
      t.(clients := t.clients - {c}, registered := t.registered - {c}, expired := t.expired - {c},
         remote := t.remote - {c})
  }

  function Joined(s: State, c: nat, ch: nat): State {
    if c in s.registered && c in s.clients && ch in s.chans then s.(on := s.on + {(c, ch)}) else s
  }

  function Added(s: State, c: nat, isRemote: bool, isRegistered: bool): State {
    if c in s.clients then s
    else s.(clients := s.clients + {c},
            remote := if isRemote then s.remote + {c} else s.remote - {c},
            registered := if isRegistered then s.registered + {c} else s.registered - {c})
  }

  /** One line of a USERS reply: unknown clients are added on a normal server. */
  function SavedUser(s: State, c: nat, ch: nat): State {
    Joined(if s.router then s else Added(s, c, true, true), c, ch)
  }

  /** silc_server_save_user_channels with the channels the server knows: the
      client ends up on exactly the listed ones, on none when unregistered. */
  function SavedChannels(s: State, c: nat, listed: set<nat>): State {
    if c !in s.clients then s
    else
      var chans := if s.router then s.chans else s.chans + (if c in s.registered then listed else {});
      var kept := if c in s.registered then listed * chans else {};
      s.(chans := chans,
         on := (set p | p in s.on && p.0 != c) + With(c, kept))
  }

  /** A WHOWAS reply unregisters; only idle global entries expire. */
  function Whowas(s: State, c: nat, global: bool): State {
    var t := if s.router then s else Added(s, c, true, false);
    if c !in t.clients then t
    else
      var u := t.(registered := t.registered - {c});
      if global && ChannelsOf(u.on, c) == {} then u.(expired := u.expired + {c}) else u
  }

  /** The entries old enough go; nothing is removed from channels. */
  function Purged(s: State, aged: set<nat>): State {
    var gone := s.expired * aged;
    s.(clients := s.clients - gone, registered := s.registered - gone, expired := s.expired - gone,
       remote := s.remote - gone)
  }

  /** The detached entry takes over, the connection's own entry is deleted. */
  function Resumed(s: State, d: nat, cur: nat): State {
    if d !in s.registered || d == cur || cur !in s.clients then s
    else Forgotten(s.(expired := s.expired - {d}, remote := s.remote - {d}), cur)
  }

  // ------------------------------------------- the removal loop, step by step

  lemma SameUsers(on: set<(nat, nat)>, now: set<(nat, nat)>, ch: nat)
    requires forall d :: (d, ch) in on <==> (d, ch) in now
    ensures UsersOf(on, ch) == UsersOf(now, ch)
  {
  }

  /** Visiting one more channel. */
  lemma RemovedNext(s: State, c: nat, done: set<nat>, ch: nat)
    requires (c, ch) in s.on && ch !in done
    ensures RemovedOne(RemovedSome(s, c, done), c, ch) == RemovedSome(s, c, done + {ch})
  {
    var t := RemovedSome(s, c, done);
    SameUsers(s.on, t.on, ch);
    assert Dooms(t, c, ch) <==> ch in Doomed(s, c) by {
      assert ch in Doomed(s, c) <==> Dooms(s, c, ch);
    }
    var n := RemovedSome(s, c, done + {ch});
    if Dooms(t, c, ch) {
      assert Deleted(t, ch).on == n.on;
      assert Doomed(s, c) * (done + {ch}) == Doomed(s, c) * done + {ch};
      assert Deleted(t, ch).chans == n.chans;
    } else {
      assert t.on - {(c, ch)} == n.on;
      assert Doomed(s, c) * (done + {ch}) == Doomed(s, c) * done;
    }
  }

  lemma RemovedEvery(s: State, c: nat)
    ensures RemovedSome(s, c, ChannelsOf(s.on, c)) == RemovedAll(s, c)
    ensures RemovedSome(s, c, {}) == s
  {
    var all := ChannelsOf(s.on, c);
    assert Doomed(s, c) <= all;
    assert Doomed(s, c) * all == Doomed(s, c);
    forall p | p in s.on
      ensures !(p.1 in all && (p.0 == c || p.1 in Doomed(s, c))) <==> p.0 != c && p.1 !in Doomed(s, c)
    {
      if p.0 == c { assert p.1 in all; }
    }
    assert RemovedSome(s, c, all).on == RemovedAll(s, c).on;
    assert RemovedSome(s, c, {}).on == s.on;
  }

  // ------------------------------------------------------------------- events

  datatype Event =
    | AddClient(c: nat, isRemote: bool, isRegistered: bool)
    | Register(c: nat)
    | AddChannel(ch: nat)
    | SetPermanent(ch: nat, value: bool)
    | Join(c: nat, ch: nat)
    | Leave(c: nat, ch: nat)
    | DeleteChannel(ch: nat)
    | SignOff(c: nat)
    | Forget(c: nat)
    | SaveUser(c: nat, ch: nat)
    | SaveChannels(c: nat, listed: set<nat>)
    | WhowasReply(c: nat, global: bool)
    | Purge(aged: set<nat>)
    | Resume(d: nat, cur: nat)

  function Step(s: State, e: Event): State {
    match e
    case AddClient(c, far, reg) => Added(s, c, far, reg)
    case Register(c) => if c in s.clients then s.(registered := s.registered + {c}) else s
    case AddChannel(ch) => s.(chans := s.chans + {ch})
    case SetPermanent(ch, v) => s.(permanent := if v then s.permanent + {ch} else s.permanent - {ch})
    case Join(c, ch) => Joined(s, c, ch)
    case Leave(c, ch) => RemovedOne(s, c, ch)
    case DeleteChannel(ch) => Deleted(s, ch)
    case SignOff(c) => SignedOff(s, c)
    case Forget(c) => Forgotten(s, c)
    case SaveUser(c, ch) => SavedUser(s, c, ch)
    case SaveChannels(c, l) => SavedChannels(s, c, l)
    case WhowasReply(c, g) => Whowas(s, c, g)
    case Purge(aged) => Purged(s, aged)
    case Resume(d, cur) => Resumed(s, d, cur)
  }

  function Empty(router: bool): State {
    State(router, {}, {}, {}, {}, {}, {}, {})
  }

  function After(s: State, evs: seq<Event>): State {
    if evs == [] then s else Step(After(s, evs[..|evs| - 1]), evs[|evs| - 1])
  }

  // ------------------------------------------------------------- invariants

  /** Expired entries are unregistered and on no channel: what the client
      destructor asserts of every entry that is purged. */
  predicate ExpiredIdle(s: State) {
    forall c :: c in s.expired ==> c !in s.registered && ChannelsOf(s.on, c) == {}
  }

  /** A registration that reaches an entry already on the expired list. */
  predicate Revives(s: State, e: Event) {
    e.Register? && e.c in s.expired && e.c in s.clients
  }

  lemma FewerChannels(on: set<(nat, nat)>, fewer: set<(nat, nat)>, c: nat)
    requires fewer <= on
    ensures ChannelsOf(fewer, c) <= ChannelsOf(on, c)
  {
  }

  lemma RemovedAllShrinks(s: State, c: nat)
    ensures RemovedAll(s, c).on <= s.on
    ensures ChannelsOf(RemovedAll(s, c).on, c) == {}
    ensures WellFormed(s) ==> WellFormed(RemovedAll(s, c))
    ensures ExpiredIdle(s) ==> ExpiredIdle(RemovedAll(s, c))
  {
    forall d | ChannelsOf(s.on, d) == {} ensures ChannelsOf(RemovedAll(s, c).on, d) == {} {
      FewerChannels(s.on, RemovedAll(s, c).on, d);
    }
  }

  lemma PairIsOn(on: set<(nat, nat)>, p: (nat, nat))
    requires p in on
    ensures ChannelsOf(on, p.0) != {}
  {
    assert p.1 in ChannelsOf(on, p.0);
  }

  /** Pairs of other clients do not matter to a client's channels. */
  lemma SameChannels(on: set<(nat, nat)>, now: set<(nat, nat)>, c: nat)
    requires forall ch :: (c, ch) in on <==> (c, ch) in now
    ensures ChannelsOf(now, c) == ChannelsOf(on, c)
  {
  }

  lemma JoinedKeeps(s: State, c: nat, ch: nat)
    requires WellFormed(s) && ExpiredIdle(s)
    ensures WellFormed(Joined(s, c, ch)) && ExpiredIdle(Joined(s, c, ch))
  {
    var t := Joined(s, c, ch);
    forall d | d in t.expired ensures d !in t.registered && ChannelsOf(t.on, d) == {} {
      assert d !in s.registered;
      SameChannels(s.on, t.on, d);
    }
  }

  lemma AddedKeeps(s: State, c: nat, isRemote: bool, isRegistered: bool)
    requires WellFormed(s) && ExpiredIdle(s)
    ensures WellFormed(Added(s, c, isRemote, isRegistered)) && ExpiredIdle(Added(s, c, isRemote, isRegistered))
  {
  }

  lemma SavedChannelsKeeps(s: State, c: nat, listed: set<nat>)
    requires WellFormed(s) && ExpiredIdle(s)
    ensures WellFormed(SavedChannels(s, c, listed)) && ExpiredIdle(SavedChannels(s, c, listed))
  {
    var t := SavedChannels(s, c, listed);
    forall d | d in t.expired ensures ChannelsOf(t.on, d) == {} {
      if d != c || c !in s.clients {
        SameChannels(s.on, t.on, d);
      } else {
        assert c !in s.registered;
      }
    }
  }

  lemma RemovedOneKeeps(s: State, c: nat, ch: nat)
    requires WellFormed(s) && ExpiredIdle(s)
    ensures WellFormed(RemovedOne(s, c, ch)) && ExpiredIdle(RemovedOne(s, c, ch))
    ensures WellFormed(Deleted(s, ch)) && ExpiredIdle(Deleted(s, ch))
  {
    forall d | d in s.expired
      ensures ChannelsOf(RemovedOne(s, c, ch).on, d) == {} && ChannelsOf(Deleted(s, ch).on, d) == {}
    {
      FewerChannels(s.on, RemovedOne(s, c, ch).on, d);
      FewerChannels(s.on, Deleted(s, ch).on, d);
    }
  }

  lemma WhowasKeeps(s: State, c: nat, global: bool)
    requires WellFormed(s) && ExpiredIdle(s)
    ensures WellFormed(Whowas(s, c, global)) && ExpiredIdle(Whowas(s, c, global))
  {
    if !s.router { AddedKeeps(s, c, true, false); }
  }

  /** Purging needs the invariant: a purged entry on a channel would leave a
      pair without its client. */
  lemma PurgedKeeps(s: State, aged: set<nat>)
    requires WellFormed(s) && ExpiredIdle(s)
    ensures WellFormed(Purged(s, aged)) && ExpiredIdle(Purged(s, aged))
  {
    forall p | p in s.on ensures p.0 !in s.expired {
      PairIsOn(s.on, p);
    }
  }

  lemma ForgottenKeeps(s: State, c: nat)
    requires WellFormed(s) && ExpiredIdle(s)
    ensures WellFormed(Forgotten(s, c)) && ExpiredIdle(Forgotten(s, c))
  {
    RemovedAllShrinks(s, c);
    forall p | p in RemovedAll(s, c).on ensures p.0 != c {
      PairIsOn(RemovedAll(s, c).on, p);
    }
  }

  lemma ListsStay(s: State, c: nat)
    ensures RemovedAll(s, c) == s.(on := RemovedAll(s, c).on, chans := RemovedAll(s, c).chans)
  {
  }

  lemma SignedOffKeeps(s: State, c: nat)
    requires WellFormed(s) && ExpiredIdle(s)
    ensures WellFormed(SignedOff(s, c)) && ExpiredIdle(SignedOff(s, c))
  {
    hide RemovedAll;
    RemovedAllShrinks(s, c);
    assert RemovedAll(s, c).clients == s.clients by { ListsStay(s, c); }
  }

  /** One step, exactly. */
  lemma StepKeepsIff(s: State, e: Event)
    requires WellFormed(s) && ExpiredIdle(s)
    ensures WellFormed(Step(s, e))
    ensures ExpiredIdle(Step(s, e)) <==> !Revives(s, e)
  {
    hide RemovedAll, RemovedOne, Deleted, Joined, Added, SavedChannels, Whowas, Purged, Forgotten;
    match e
    case AddClient(c, far, reg) => AddedKeeps(s, c, far, reg);
    case Register(c) =>
    case AddChannel(ch) =>
    case SetPermanent(ch, v) =>
    case Join(c, ch) => JoinedKeeps(s, c, ch);
    case Leave(c, ch) => RemovedOneKeeps(s, c, ch);
    case DeleteChannel(ch) => RemovedOneKeeps(s, 0, ch);
    case SignOff(c) => SignedOffKeeps(s, c);
    case Forget(c) => ForgottenKeeps(s, c);
    case SaveUser(c, ch) =>
      if s.router { JoinedKeeps(s, c, ch); }
      else { AddedKeeps(s, c, true, true); JoinedKeeps(Added(s, c, true, true), c, ch); }
    case SaveChannels(c, l) => SavedChannelsKeeps(s, c, l);
    case WhowasReply(c, g) => WhowasKeeps(s, c, g);
    case Purge(aged) => PurgedKeeps(s, aged);
    case Resume(d, cur) => ForgottenKeeps(s.(expired := s.expired - {d}, remote := s.remote - {d}), cur);
  }

  // ------------------------------------------------------------- main results

  predicate AlwaysIdle(s: State, evs: seq<Event>) {
    ExpiredIdle(After(s, evs)) && (evs != [] ==> AlwaysIdle(s, evs[..|evs| - 1]))
  }

  predicate NeverRevives(s: State, evs: seq<Event>) {
    evs != [] ==>
      && NeverRevives(s, evs[..|evs| - 1])
      && !Revives(After(s, evs[..|evs| - 1]), evs[|evs| - 1])
  }

  lemma EmptyIsFine(router: bool)
    ensures ExpiredIdle(Empty(router)) && WellFormed(Empty(router))
  {
  }

  /** Over every run: expired entries stay unregistered and off every channel in
      all states, and every pair joins known entries, exactly as long as no
      expired entry is registered again. */
  lemma {:induction false} ExpiredIdleIff(router: bool, evs: seq<Event>)
    ensures AlwaysIdle(Empty(router), evs) <==> NeverRevives(Empty(router), evs)
    ensures AlwaysIdle(Empty(router), evs) ==> WellFormed(After(Empty(router), evs))
  {
    hide Step, ExpiredIdle, Revives, WellFormed;
    assert ExpiredIdle(Empty(router)) && WellFormed(Empty(router)) by { EmptyIsFine(router); }
    if evs != [] {
      var pre := evs[..|evs| - 1];
      ExpiredIdleIff(router, pre);
      if AlwaysIdle(Empty(router), pre) { StepKeepsIff(After(Empty(router), pre), evs[|evs| - 1]); }
    }
  }

  /** The destructor's assertion: whatever the purge frees is on no channel. */
  lemma PurgeFindsNoChannels(router: bool, evs: seq<Event>, aged: set<nat>, c: nat)
    requires NeverRevives(Empty(router), evs)
    requires c in After(Empty(router), evs).expired * aged
    ensures ChannelsOf(After(Empty(router), evs).on, c) == {}
    ensures forall p :: p in Purged(After(Empty(router), evs), aged).on ==> p.0 != c
  {
    ExpiredIdleIff(router, evs);
    var s := After(Empty(router), evs);
    assert ExpiredIdle(s);
    forall p | p in s.on ensures p.0 != c {
      PairIsOn(s.on, p);
    }
  }

  /** The exception is real: after a KILLED notify the entry of a connection that
      stays open is expired but can register and join again, and the purge then
      frees an entry that is on a channel. */
  lemma RevivedClientBreaksPurge(router: bool) returns (evs: seq<Event>)
    ensures var s := After(Empty(router), evs);
      1 in s.expired && ChannelsOf(s.on, 1) != {} && !WellFormed(Purged(s, {1}))
  {
    var e1, e2, e3, e4, e5 := AddClient(1, false, true), AddChannel(7), SignOff(1), Register(1), Join(1, 7);
    evs := [e1, e2, e3, e4, e5];
    var s0 := Empty(router);
    assert evs[..4] == [e1, e2, e3, e4] && evs[..4][..3] == [e1, e2, e3];
    assert evs[..4][..3][..2] == [e1, e2] && evs[..4][..3][..2][..1] == [e1];
    assert [e1][..0] == [];
    assert After(s0, []) == s0;
    var s1 := After(s0, [e1]);
    assert s1 == Step(s0, e1);
    var s2 := After(s0, [e1, e2]);
    assert s2 == Step(s1, e2);
    var s3 := After(s0, [e1, e2, e3]);
    assert s3 == Step(s2, e3);
    assert s3.chans == {7} && s3.clients == {1} && s3.expired == {1};
    var s4 := After(s0, [e1, e2, e3, e4]);
    assert s4 == Step(s3, e4);
    var s := After(s0, evs);
    assert s == Step(s4, e5) && (1, 7) in s.on;
    assert 7 in ChannelsOf(s.on, 1);
  }

  // ------------------------------------------- what the events do, one by one

  lemma DoomsMeans(s: State, c: nat, ch: nat)
    ensures (c, ch) in s.on ==>
              (Dooms(s, c, ch)
               <==> if s.router then forall p :: p in s.on && p.1 == ch ==> p.0 == c
                    else forall p :: p in s.on && p.1 == ch && p.0 != c ==> p.0 in s.remote)
  {
    forall p | p in s.on && p.1 == ch ensures p.0 in UsersOf(s.on, ch) {
    }
    forall d | d in UsersOf(s.on, ch) ensures (d, ch) in s.on {
    }
    if (c, ch) in s.on { assert c in UsersOf(s.on, ch); }
  }

  /** LEAVE.  On a router the channel goes with its last user, on a normal server
      with its last local one; a permanent channel stays, without users. */
  lemma LeaveMeans(s: State, c: nat, ch: nat)
    requires WellFormed(s)
    ensures var t := Step(s, Leave(c, ch));
            var last := if s.router then forall p :: p in s.on && p.1 == ch ==> p.0 == c
                        else forall p :: p in s.on && p.1 == ch && p.0 != c ==> p.0 in s.remote;
      && t == s.(on := t.on, chans := t.chans)
      && if (c, ch) !in s.on then t == s
         else
           && (ch in t.chans <==> ch in s.permanent || !last)
           && (forall x :: x != ch ==> (x in t.chans <==> x in s.chans))
           && (forall p :: p in t.on <==> p in s.on && p != (c, ch) && !(last && p.1 == ch))
  {
    DoomsMeans(s, c, ch);
    hide Dooms;
  }

  lemma InDoomed(s: State, c: nat, x: nat)
    ensures x in Doomed(s, c) <==> (c, x) in s.on && Dooms(s, c, x)
  {
    if (c, x) in s.on && Dooms(s, c, x) { assert (c, x).0 == c && (c, x).1 == x; }
  }

  lemma RemovedAllMeans(s: State, c: nat)
    requires WellFormed(s)
    ensures var t := RemovedAll(s, c);
      && (forall p :: p in t.on <==>
            && p in s.on && p.0 != c
            && ((c, p.1) in s.on ==>
                  if s.router then exists q :: q in s.on && q.1 == p.1 && q.0 != c
                  else exists q :: q in s.on && q.1 == p.1 && q.0 != c && q.0 !in s.remote))
      && (forall x :: x in t.chans <==>
            && x in s.chans
            && ((c, x) in s.on && x !in s.permanent ==>
                  if s.router then exists q :: q in s.on && q.1 == x && q.0 != c
                  else exists q :: q in s.on && q.1 == x && q.0 != c && q.0 !in s.remote))
  {
    forall x
      ensures x in Doomed(s, c)
              <==> (c, x) in s.on && !(if s.router then exists q :: q in s.on && q.1 == x && q.0 != c
                                       else exists q :: q in s.on && q.1 == x && q.0 != c && q.0 !in s.remote)
    {
      DoomsMeans(s, c, x);
      InDoomed(s, c, x);
    }
    hide Doomed;
  }

  /** Off all channels, each as in `LeaveMeans`, and the entry into the history. */
  lemma SignOffMeans(s: State, c: nat)
    requires WellFormed(s) && c in s.clients
    ensures var t := Step(s, SignOff(c));
      && t == s.(on := t.on, chans := t.chans, registered := s.registered - {c}, remote := s.remote - {c},
                 expired := s.expired + {c})
      && (forall p :: p in t.on <==>
            && p in s.on && p.0 != c
            && ((c, p.1) in s.on ==>
                  if s.router then exists q :: q in s.on && q.1 == p.1 && q.0 != c
                  else exists q :: q in s.on && q.1 == p.1 && q.0 != c && q.0 !in s.remote))
      && (forall x :: x in t.chans <==>
            && x in s.chans
            && ((c, x) in s.on && x !in s.permanent ==>
                  if s.router then exists q :: q in s.on && q.1 == x && q.0 != c
                  else exists q :: q in s.on && q.1 == x && q.0 != c && q.0 !in s.remote))
  {
    RemovedAllMeans(s, c);
    hide RemovedAll, Doomed, WellFormed;
  }

  /** The same, and out of every list. */
  lemma ForgetMeans(s: State, c: nat)
    requires WellFormed(s) && c in s.clients
    ensures var t, u := Step(s, Forget(c)), Step(s, SignOff(c));
      && t.on == u.on && t.chans == u.chans && t.permanent == s.permanent && t.router == s.router
      && t.clients == s.clients - {c} && t.registered == s.registered - {c}
      && t.expired == s.expired - {c} && t.remote == s.remote - {c}
  {
    hide RemovedAll;
    ListsStay(s, c);
  }

  lemma StepKeepsRouter(s: State, e: Event)
    ensures Step(s, e).router == s.router
  {
  }

  lemma {:induction false} RunKeepsRouter(s: State, evs: seq<Event>)
    ensures After(s, evs).router == s.router
  {
    if evs != [] {
      var pre := evs[..|evs| - 1];
      RunKeepsRouter(s, pre);
      StepKeepsRouter(After(s, pre), evs[|pre|]);
    }
  }

  /** A channel deletion takes everybody off, and a permanent channel stays. */
  lemma DeleteMeans(s: State, ch: nat)
    ensures var t := Step(s, DeleteChannel(ch));
      && (forall p :: p in t.on <==> p in s.on && p.1 != ch)
      && (forall x :: x in t.chans <==> x in s.chans && (x == ch ==> ch in s.permanent))
      && t == s.(on := t.on, chans := t.chans)
  {
  }

  /** Only registered clients join, and only channels that exist; a USERS reply
      makes an unknown client known and registered on a normal server, and changes
      nothing for it on a router. */
  lemma JoinMeans(s: State, c: nat, ch: nat)
    requires WellFormed(s)
    ensures var t, u := Step(s, Join(c, ch)), Step(s, SaveUser(c, ch));
            var unknown := c !in s.clients && !s.router;
      && (forall p :: p in t.on <==> p in s.on || (p == (c, ch) && c in s.registered && ch in s.chans))
      && t == s.(on := t.on)
      && (forall p :: p in u.on <==> p in s.on || (p == (c, ch) && (c in s.registered || unknown) && ch in s.chans))
      && u == s.(on := u.on, clients := if unknown then s.clients + {c} else s.clients,
                 registered := if unknown then s.registered + {c} else s.registered,
                 remote := if unknown then s.remote + {c} else s.remote)
  {
  }

  /** A client's channel list: it ends on exactly the listed channels, on none if it
      is not registered; a router knows the channels already, others are made. */
  lemma SaveChannelsMeans(s: State, c: nat, listed: set<nat>)
    requires c in s.clients
    ensures var t := Step(s, SaveChannels(c, listed));
      && (forall p :: p in t.on <==>
            if p.0 == c then c in s.registered && p.1 in listed && (s.router ==> p.1 in s.chans) else p in s.on)
      && (forall x :: x in t.chans <==> x in s.chans || (!s.router && c in s.registered && x in listed))
      && t == s.(on := t.on, chans := t.chans)
  {
  }

  /** A WHOWAS reply says that the client is gone: it is unregistered, and expires if
      it is not ours and on no channel. */
  lemma WhowasMeans(s: State, c: nat, global: bool)
    requires c in s.clients
    ensures var t := Step(s, WhowasReply(c, global));
            t == s.(registered := s.registered - {c},
                    expired := if global && (forall p :: p in s.on ==> p.0 != c) then s.expired + {c} else s.expired)
  {
    if p :| p in s.on && p.0 == c { PairIsOn(s.on, p); }
    if x :| x in ChannelsOf(s.on, c) { assert (c, x) in s.on; }
  }

  /** An entry that is known is not added again; of an unknown client a WHOWAS reply
      makes an unregistered, expired entry on a normal server and nothing on a
      router. */
  lemma AddMeans(s: State, c: nat, far: bool, reg: bool)
    requires WellFormed(s)
    ensures var t, u := Step(s, AddClient(c, far, reg)), Step(s, WhowasReply(c, true));
      && (c in s.clients ==> t == s)
      && (c !in s.clients ==>
            && c in t.clients && (c in t.remote <==> far) && (c in t.registered <==> reg)
            && (if s.router then u == s else c in u.clients && c in u.remote && c !in u.registered && c in u.expired))
      && t.on == u.on == s.on && t.chans == u.chans == s.chans
  {
    if c !in s.clients {
      forall p | p in s.on ensures p.0 != c {
      }
      assert ChannelsOf(s.on, c) == {};
    }
  }

  /** CMODE makes a channel permanent or not, and nothing else. */
  lemma PermanentMeans(s: State, ch: nat, v: bool)
    ensures var t := Step(s, SetPermanent(ch, v));
      && t == s.(permanent := t.permanent)
      && forall x :: x in t.permanent <==> if x == ch then v else x in s.permanent
  {
  }

  /** Events about a client without an entry change nothing, and nobody resumes
      itself. */
  lemma UnknownChangesNothing(s: State, c: nat, d: nat, listed: set<nat>)
    requires c !in s.clients
    ensures Step(s, SignOff(c)) == Step(s, Forget(c)) == Step(s, SaveChannels(c, listed)) == Step(s, Resume(d, c)) == s
    ensures Step(s, Resume(d, d)) == s
  {
  }

  /** The purge takes exactly the expired entries that are old enough. */
  lemma PurgeMeans(s: State, aged: set<nat>, c: nat)
    ensures var t, goes := Step(s, Purge(aged)), c in s.expired && c in aged;
      && (c in t.clients <==> c in s.clients && !goes) && (c in t.expired <==> c in s.expired && !goes)
      && (c in t.registered <==> c in s.registered && !goes) && (c in t.remote <==> c in s.remote && !goes)
      && t.on == s.on && t.chans == s.chans
  {
  }

  /** Resuming deletes the connection's own entry, and makes the other a local one
      that does not expire. */
  lemma ResumeMeans(s: State, d: nat, cur: nat)
    requires d != cur && cur in s.clients
    ensures Step(s, Resume(d, cur))
            == if d in s.registered then Step(s.(expired := s.expired - {d}, remote := s.remote - {d}), Forget(cur))
               else s
  {
    hide RemovedAll;
  }

  /** Afterwards, on a router, no channel the client was on is left without users
      unless it is permanent. */
  lemma NoEmptyChannelLeft(evs: seq<Event>, e: Event, c: nat, x: nat)
    requires NeverRevives(Empty(true), evs)
    requires e == Leave(c, x) || e == SignOff(c) || e == Forget(c)
    requires (c, x) in After(Empty(true), evs).on
    ensures var t := Step(After(Empty(true), evs), e);
            x in t.chans && x !in t.permanent ==> exists d :: (d, x) in t.on
  {
    var s := After(Empty(true), evs);
    ExpiredIdleIff(true, evs);
    RunKeepsRouter(Empty(true), evs);
    assert (c, x).0 in s.clients;
    LeaveMeans(s, c, x);
    SignOffMeans(s, c);
    ForgetMeans(s, c);
    hide Step, After;
    var t := Step(s, e);
    if x in t.chans && x !in t.permanent {
      var q :| q in s.on && q.1 == x && q.0 != c;
      assert q == (q.0, x) && (q.0, x) in t.on;
    }
  }
}
