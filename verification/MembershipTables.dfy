/** The two cross-referencing tables: `channel->user_list` and
    `client->channels` share one record per membership, and the handlers below
    keep both in step while they iterate over one of them. */
module MembershipTables {
  import opened Wire
  import opened Membership

  /** SilcChannelClientEntry. */
  class Record {
    const client: nat
    const channel: nat
    var mode: nat

    constructor (client: nat, channel: nat, mode: nat)
      ensures this.client == client && this.channel == channel && this.mode == mode
    {
      this.client, this.channel, this.mode := client, channel, mode;
    }
  }

  /** One hash table per entry, from key to the shared record. */
  type Table = map<nat, map<nat, Record>>

  predicate In(t: Table, a: nat, b: nat) {
    a in t && b in t[a]
  }

  function Put(t: Table, a: nat, b: nat, r: Record): Table
    requires a in t
  {
    var row: map<nat, Record> := t[a][b := r];
    t[a := row]
  }

  function Del(t: Table, a: nat, b: nat): Table
    requires a in t
  {
    var row: map<nat, Record> := t[a] - {b};
    t[a := row]
  }

  /** The memberships that the user lists describe. */
  function Pairs(users: Table): set<(nat, nat)> {
    set ch, c | ch in users && c in users[ch] :: (c, ch)
  }

  /** A record sits in `user_list` under its client exactly when it sits in
      `channels` under its channel, and it is the same record. */
  ghost predicate Agree(users: Table, channels: Table) {
    forall ch: nat, c: nat ::
      && (In(users, ch, c) <==> In(channels, c, ch))
      && (In(users, ch, c) ==>
            users[ch][c] == channels[c][ch] && users[ch][c].client == c && users[ch][c].channel == ch)
  }

  lemma PutAgrees(users: Table, channels: Table, c: nat, ch: nat, r: Record)
    requires Agree(users, channels) && ch in users && c in channels && !In(users, ch, c)
    requires r.client == c && r.channel == ch
    ensures Agree(Put(users, ch, c, r), Put(channels, c, ch, r))
    ensures Pairs(Put(users, ch, c, r)) == Pairs(users) + {(c, ch)}
  {
    var u, k := Put(users, ch, c, r), Put(channels, c, ch, r);
    forall x: nat, y: nat
      ensures In(u, x, y) <==> In(users, x, y) || (x == ch && y == c)
      ensures In(k, y, x) <==> In(channels, y, x) || (x == ch && y == c)
    {
    }
  }

  lemma DelAgrees(users: Table, channels: Table, c: nat, ch: nat)
    requires Agree(users, channels) && ch in users && c in channels
    ensures Agree(Del(users, ch, c), Del(channels, c, ch))
    ensures Pairs(Del(users, ch, c)) == Pairs(users) - {(c, ch)}
  {
    var u, k := Del(users, ch, c), Del(channels, c, ch);
    forall x: nat, y: nat
      ensures In(u, x, y) <==> In(users, x, y) && !(x == ch && y == c)
      ensures In(k, y, x) <==> In(channels, y, x) && !(x == ch && y == c)
    {
    }
  }

  lemma PairsHas(users: Table, c: nat, ch: nat)
    ensures (c, ch) in Pairs(users) <==> In(users, ch, c)
    ensures ch in users ==> UsersOf(Pairs(users), ch) == users[ch].Keys
  {
    if ch in users {
      forall d | d in users[ch] ensures d in UsersOf(Pairs(users), ch) {
        assert (d, ch) in Pairs(users);
      }
    }
  }

  lemma ChannelsOfPairs(users: Table, channels: Table, c: nat)
    requires Agree(users, channels) && c in channels
    ensures ChannelsOf(Pairs(users), c) == channels[c].Keys
  {
    forall ch: nat ensures ch in ChannelsOf(Pairs(users), c) <==> ch in channels[c] {
      PairsHas(users, c, ch);
      if ch in channels[c] { assert In(channels, c, ch) && (c, ch) in Pairs(users); }
    }
  }

  /** The order in which a hash table iteration visits its keys. */
  ghost predicate Visits(order: seq<nat>, keys: set<nat>) {
    && (forall x :: x in keys <==> x in order)
    && NoRepeats(order)
  }

  /** What deleting `ch` from the tables of `gone` leaves. */
  ghost predicate Unlinked(before: Table, now: Table, gone: set<nat>, ch: nat) {
    && now.Keys == before.Keys
    && forall c: nat, x: nat ::
         && (In(now, c, x) <==> In(before, c, x) && !(x == ch && c in gone))
         && (In(now, c, x) ==> now[c][x] == before[c][x])
  }

  lemma UnlinkedNext(before: Table, now: Table, gone: set<nat>, ch: nat, c: nat)
    requires Unlinked(before, now, gone, ch) && c in now
    ensures Unlinked(before, Del(now, c, ch), gone + {c}, ch)
  {
    forall d: nat, x: nat
      ensures In(Del(now, c, ch), d, x) <==> In(now, d, x) && !(d == c && x == ch)
    {
    }
  }

  /** With every reference gone, the user list itself can go. */
  lemma DropAgrees(users: Table, before: Table, channels: Table, ch: nat)
    requires Agree(users, before) && ch in users
    requires Unlinked(before, channels, users[ch].Keys, ch)
    ensures Agree(users - {ch}, channels)
    ensures Pairs(users - {ch}) == set p | p in Pairs(users) && p.1 != ch
  {
    forall x: nat, y: nat
      ensures In(users - {ch}, x, y) <==> In(users, x, y) && x != ch
      ensures In(channels, y, x) <==> In(before, y, x) && x != ch
    {
      assert In(users, x, y) <==> In(before, y, x);
      assert x == ch && In(before, y, x) ==> y in users[ch];
    }
  }

  lemma ElemsNext(s: seq<nat>, i: nat)
    requires i < |s|
    ensures Elems(s[..i + 1]) == Elems(s[..i]) + {s[i]}
    ensures s[..|s|] == s
  {
    assert s[..i + 1] == s[..i] + [s[i]];
  }

  /** Any iteration order of a hash table. */
  method List(keys: set<nat>) returns (order: seq<nat>)
    ensures Visits(order, keys)
  {
    order := [];
    var left := keys;
    while left != {}
      invariant left <= keys && (forall x :: x in order <==> x in keys - left)
      invariant NoRepeats(order)
      decreases left
    {
      var x :| x in left;
      assert x !in order;
      order, left := order + [x], left - {x};
    }
  }

  lemma NothingYet(c: nat, s: seq<nat>)
    ensures Elems(s[..0]) == {} && With(c, {}) == {}
  {
  }

  lemma UserListed(users: Table, channels: Table, c: nat, ch: nat)
    requires Agree(users, channels) && In(channels, c, ch)
    ensures ch in users
  {
    assert In(users, ch, c);
  }

  /** Adding the listed and dropping the unlisted leaves exactly the listed. */
  lemma SavedPairs(on: set<(nat, nat)>, mid: set<(nat, nat)>, c: nat, ht: set<nat>)
    requires mid == on + With(c, ht)
    ensures mid - With(c, ChannelsOf(mid, c) - ht) == (set p | p in on && p.0 != c) + With(c, ht)
  {
    forall p | p in mid && p.0 == c ensures p.1 in ChannelsOf(mid, c) {
    }
  }

  lemma WithOneMore(c: nat, chans: set<nat>, ch: nat)
    ensures With(c, chans + {ch}) == With(c, chans) + {(c, ch)}
  {
  }

  lemma NewChannelAgrees(users: Table, channels: Table, ch: nat)
    requires Agree(users, channels) && ch !in users
    ensures Agree(users[ch := map[]], channels)
    ensures Pairs(users[ch := map[]]) == Pairs(users)
  {
    var u: Table := users[ch := map[]];
    forall x: nat, y: nat ensures In(u, x, y) <==> In(users, x, y) {
    }
  }

  lemma NewClientAgrees(users: Table, channels: Table, c: nat)
    requires Agree(users, channels) && c !in channels
    ensures Agree(users, channels[c := map[]])
  {
    var k: Table := channels[c := map[]];
    forall x: nat, y: nat ensures In(k, x, y) <==> In(channels, x, y) {
    }
  }

  /** Nothing is known of such a client or channel. */
  lemma Unknown(s: State, c: nat, ch: nat)
    requires WellFormed(s)
    ensures c !in s.clients ==> RemovedOne(s, c, ch) == s
    ensures ch !in s.chans ==> Deleted(s, ch) == s
  {
    if ch !in s.chans {
      assert forall p :: p in s.on ==> p.1 != ch;
      assert Deleted(s, ch).on == s.on;
    }
  }

  lemma {:induction false} PrefixNeverRevives(s: State, evs: seq<Event>, i: nat)
    requires NeverRevives(s, evs) && i <= |evs|
    ensures NeverRevives(s, evs[..i])
    decreases |evs|
  {
    if i < |evs| {
      PrefixNeverRevives(s, evs[..|evs| - 1], i);
      assert evs[..|evs| - 1][..i] == evs[..i];
    } else {
      assert evs[..i] == evs;
    }
  }

  class Tables {
    const router: bool
    var users: Table                // channel -> user_list
    var channels: Table             // client -> channels
    var registered: set<nat>
    var expired: set<nat>
    var remote: set<nat>
    var permanent: set<nat>

    ghost predicate Valid()
      reads this
    {
      Agree(users, channels)
    }

    ghost function View(): State
      reads this
    {
      State(router, channels.Keys, registered, expired, remote, users.Keys, permanent, Pairs(users))
    }

    constructor (router: bool)
      ensures Valid() && View() == Empty(router)
    {
      this.router := router;
      users, channels := map[], map[];
      registered, expired, remote, permanent := {}, {}, {}, {};
    }

    /** silc_server_client_on_channel looks in the client's own table. */
    method OnChannel(c: nat, ch: nat) returns (r: bool)
      requires Valid() && c in channels
      ensures r <==> (c, ch) in View().on
    {
      PairsHas(users, c, ch);
      assert In(users, ch, c) <==> In(channels, c, ch);
      r := ch in channels[c];
    }

    /** Adds the record to both tables unless the client is there already. */
    method AddUser(c: nat, ch: nat, mode: nat)
      requires Valid() && c in channels && ch in users
      modifies this`users, this`channels
      ensures Valid() && View() == old(View()).(on := old(View()).on + {(c, ch)})
    {
      PairsHas(users, c, ch);
      var on := OnChannel(c, ch);
      if on {
        return;
      }
      var chl := new Record(c, ch, mode);
      PutAgrees(users, channels, c, ch, chl);
      users := Put(users, ch, c, chl);
      channels := Put(channels, c, ch, chl);
    }

    /** An update through one table is seen through the other. */
    method SetMode(c: nat, ch: nat, mode: nat)
      requires Valid() && In(channels, c, ch)
      modifies channels[c][ch]
      ensures Valid() && In(users, ch, c) && users[ch][c].mode == channels[c][ch].mode == mode
      ensures View() == old(View())
    {
      channels[c][ch].mode := mode;
      assert In(users, ch, c);
    }

    /** Takes the shared record out of both tables. */
    method Unlink(c: nat, ch: nat)
      requires Valid() && c in channels && ch in users
      modifies this`users, this`channels
      ensures Valid() && View() == old(View()).(on := old(View()).on - {(c, ch)})
      ensures users.Keys == old(users).Keys && channels.Keys == old(channels).Keys
    {
      DelAgrees(users, channels, c, ch);
      channels := Del(channels, c, ch);
      users := Del(users, ch, c);
    }

    /** silc_server_channel_delete: a permanent channel loses its users one by
        one, any other goes after the references to it have been dropped. */
    method DeleteChannel(ch: nat)
      requires Valid() && ch in users
      modifies this`users, this`channels
      ensures Valid() && View() == Deleted(old(View()), ch)
      ensures channels.Keys == old(channels).Keys
    {
      var order := List(users[ch].Keys);
      if ch in permanent {
        EmptyChannel(ch, order);
      } else {
        DropReferences(ch, order);
        DropAgrees(users, old(channels), channels, ch);
        users := users - {ch};
      }
    }

    method EmptyChannel(ch: nat, order: seq<nat>)
      requires Valid() && ch in users && Visits(order, users[ch].Keys)
      modifies this`users, this`channels
      ensures Valid() && channels.Keys == old(channels).Keys && users.Keys == old(users).Keys
      ensures Pairs(users) == set p | p in Pairs(old(users)) && p.1 != ch
    {
      var i := 0;
      while i < |order|
        invariant 0 <= i <= |order| && Valid()
        invariant channels.Keys == old(channels).Keys && users.Keys == old(users).Keys
        invariant Pairs(users) == set p | p in Pairs(old(users)) && !(p.1 == ch && p.0 in order[..i])
      {
        assert order[..i + 1] == order[..i] + [order[i]];
        assert order[i] in old(users)[ch] && In(old(users), ch, order[i]);
        assert In(old(channels), order[i], ch);
        Unlink(order[i], ch);
        i := i + 1;
      }
      assert order[..i] == order;
      forall p | p in Pairs(old(users)) ensures p.1 == ch ==> p.0 in order {
        PairsHas(old(users), p.0, p.1);
      }
    }

    /** silc_idlist_del_channel's foreach over the user list. */
    method DropReferences(ch: nat, order: seq<nat>)
      requires Valid() && ch in users && Visits(order, users[ch].Keys)
      modifies this`channels
      ensures Unlinked(old(channels), channels, users[ch].Keys, ch)
    {
      ghost var gone: set<nat> := {};
      var i := 0;
      while i < |order|
        invariant 0 <= i <= |order|
        invariant gone == set x | x in order[..i]
        invariant Unlinked(old(channels), channels, gone, ch)
      {
        assert order[..i + 1] == order[..i] + [order[i]];
        assert In(users, ch, order[i]) && In(old(channels), order[i], ch);
        UnlinkedNext(old(channels), channels, gone, ch, order[i]);
        channels := Del(channels, order[i], ch);
        gone := gone + {order[i]};
        i := i + 1;
      }
      assert order[..i] == order;
      assert gone == users[ch].Keys;
    }

    /** silc_server_remove_from_one_channel. */
    method RemoveOne(c: nat, ch: nat)
      requires Valid() && c in channels
      modifies this`users, this`channels
      ensures Valid() && View() == RemovedOne(old(View()), c, ch)
      ensures channels.Keys == old(channels).Keys
      ensures In(old(channels), c, ch) && ch !in permanent && In(old(users), ch, c) ==>
                (ch !in users <==> if router then old(users)[ch].Keys == {c} else old(users)[ch].Keys <= remote + {c})
    {
      PairsHas(users, c, ch);
      assert In(users, ch, c) <==> In(channels, c, ch);
      if ch !in channels[c] {
        return;
      }
      if router && users[ch].Keys == {c} {
        DeleteChannel(ch);
        return;
      }
      Unlink(c, ch);
      PairsHas(users, c, ch);
      assert UsersOf(Pairs(users), ch) == UsersOf(Pairs(old(users)), ch) - {c};
      if !router && users[ch].Keys <= remote {
        DeleteChannel(ch);
        assert View().on == Deleted(old(View()), ch).on;
      }
    }

    /** silc_server_remove_from_channels: iterates over the client's table while
        taking entries out of it. */
    method RemoveAll(c: nat)
      requires Valid() && c in channels
      modifies this`users, this`channels
      ensures Valid() && View() == RemovedAll(old(View()), c)
      ensures channels.Keys == old(channels).Keys && channels[c] == map[]
    {
      ghost var s := View();
      ghost var done: set<nat> := {};
      RemovedEvery(s, c);
      ChannelsOfPairs(users, channels, c);
      var order := List(channels[c].Keys);
      var i := 0;
      while i < |order|
        invariant 0 <= i <= |order| && Valid() && channels.Keys == old(channels).Keys
        invariant done == set x | x in order[..i]
        invariant View() == RemovedSome(s, c, done)
      {
        assert order[..i + 1] == order[..i] + [order[i]];
        var ch := order[i];
        assert ch in ChannelsOf(s.on, c) && (c, ch) in s.on;
        RemovedNext(s, c, done, ch);
        RemoveOne(c, ch);
        done := done + {ch};
        i := i + 1;
      }
      assert order[..i] == order;
      assert done == ChannelsOf(s.on, c);
      ChannelsOfPairs(users, channels, c);
      RemovedAllShrinks(s, c);
      assert channels[c].Keys == {};
    }

    /** silc_server_free_client_data and the SIGNOFF and KILLED notifies. */
    method SignOff(c: nat)
      requires Valid() && c in channels
      modifies this
      ensures Valid() && View() == SignedOff(old(View()), c)
    {
      RemoveAll(c);
      registered, remote, expired := registered - {c}, remote - {c}, expired + {c};
    }

    /** Removal followed by silc_idlist_del_client; the destructor's assertion is
        the assertion here. */
    method Forget(c: nat)
      requires Valid() && c in channels
      modifies this
      ensures Valid() && View() == Forgotten(old(View()), c)
    {
      RemoveAll(c);
      expired := expired - {c};
      DeleteEntry(c);
    }

    method DeleteEntry(c: nat)
      requires Valid() && c in channels && channels[c] == map[]
      modifies this`channels, this`registered, this`remote
      ensures Valid() && channels == old(channels) - {c}
      ensures registered == old(registered) - {c} && remote == old(remote) - {c}
    {
      forall x: nat, y: nat ensures In(channels - {c}, x, y) <==> In(channels, x, y) {
      }
      channels := channels - {c};
      registered, remote := registered - {c}, remote - {c};
    }

    /** silc_server_purge_expired_clients over the entries old enough.  It may
        only be run when expired entries are idle: `ExpiredIdleIff` says when. */
    method PurgeExpired(aged: set<nat>)
      requires Valid() && WellFormed(View()) && ExpiredIdle(View())
      modifies this`channels, this`registered, this`remote, this`expired
      ensures Valid() && View() == Purged(old(View()), aged)
    {
      ghost var s := View();
      ghost var gone: set<nat> := {};
      var order := List(expired);
      var i := 0;
      while i < |order|
        invariant 0 <= i <= |order| && Valid() && users == old(users)
        invariant gone == set x | x in order[..i] && x in aged
        invariant expired == s.expired - gone && channels == old(channels) - gone
        invariant registered == s.registered - gone && remote == s.remote - gone
      {
        assert order[..i + 1] == order[..i] + [order[i]];
        var c := order[i];
        if c in aged {
          assert c in s.expired && c in s.clients;
          ChannelsOfPairs(old(users), old(channels), c);
          assert old(channels)[c].Keys == {};
          DeleteEntry(c);
          expired := expired - {c};
          gone := gone + {c};
        }
        i := i + 1;
      }
      assert order[..i] == order;
      assert gone == s.expired * aged;
      assert View().clients == s.clients - gone;
    }

    /** The list half of silc_server_save_user_channels: known or new channels are
        joined, then every other membership of the client goes. */
    method SaveChannels(c: nat, listed: seq<nat>)
      requires Valid() && c in channels
      modifies this
      ensures Valid() && View() == SavedChannels(old(View()), c, Elems(listed))
    {
      var ht: set<nat> := {};
      if c in registered {
        ht := AddListed(c, listed);
      }
      ghost var mid := Pairs(users);
      DropUnlisted(c, ht);
      SavedPairs(old(Pairs(users)), mid, c, ht);
    }

    method AddListed(c: nat, listed: seq<nat>) returns (ht: set<nat>)
      requires Valid() && c in channels
      modifies this`users, this`channels
      ensures Valid() && channels.Keys == old(channels).Keys
      ensures users.Keys == old(users).Keys + if router then {} else Elems(listed)
      ensures ht == Elems(listed) * users.Keys
      ensures Pairs(users) == Pairs(old(users)) + With(c, ht)
    {
      hide Pairs, Agree, With, Elems;
      ht := {};
      var i := 0;
      NothingYet(c, listed);
      while i < |listed|
        invariant 0 <= i <= |listed| && Valid() && channels.Keys == old(channels).Keys
        invariant users.Keys == old(users).Keys + if router then {} else Elems(listed[..i])
        invariant ht == Elems(listed[..i]) * users.Keys
        invariant Pairs(users) == Pairs(old(users)) + With(c, ht)
      {
        ElemsNext(listed, i);
        WithOneMore(c, ht, listed[i]);
        var known := AddToChannel(c, listed[i]);
        if known {
          ht := ht + {listed[i]};
        }
        i := i + 1;
      }
      assert listed[..i] == listed;
    }

    /** A channel the server does not know is created, except on a router. */
    method AddToChannel(c: nat, ch: nat) returns (known: bool)
      requires Valid() && c in channels
      modifies this`users, this`channels
      ensures Valid() && channels.Keys == old(channels).Keys
      ensures known <==> ch in old(users) || !router
      ensures users.Keys == old(users).Keys + if known then {ch} else {}
      ensures Pairs(users) == Pairs(old(users)) + if known then {(c, ch)} else {}
    {
      if ch !in users {
        if router {
          return false;
        }
        NewChannelAgrees(users, channels, ch);
        users := users[ch := map[]];
      }
      AddUser(c, ch, 0);
      known := true;
    }

    method DropUnlisted(c: nat, ht: set<nat>)
      requires Valid() && c in channels
      modifies this`users, this`channels
      ensures Valid() && channels.Keys == old(channels).Keys && users.Keys == old(users).Keys
      ensures Pairs(users) == Pairs(old(users)) - With(c, ChannelsOf(Pairs(old(users)), c) - ht)
    {
      ghost var s, was := Pairs(users), channels;
      ghost var gone: set<nat> := {};
      ChannelsOfPairs(users, channels, c);
      var order := List(channels[c].Keys);
      NothingYet(c, order);
      var i := 0;
      while i < |order|
        invariant 0 <= i <= |order| && Valid()
        invariant channels.Keys == was.Keys && users.Keys == old(users).Keys
        invariant gone == Elems(order[..i]) - ht
        invariant Pairs(users) == s - With(c, gone)
      {
        ElemsNext(order, i);
        WithOneMore(c, gone, order[i]);
        if order[i] !in ht {
          UserListed(old(users), was, c, order[i]);
          hide Pairs, Agree, With, Elems;
          Unlink(c, order[i]);
          gone := gone + {order[i]};
        }
        i := i + 1;
      }
      assert order[..i] == order;
      assert Elems(order) == ChannelsOf(s, c);
    }

    // ------------------------------------------------------------ any event

    method AddClient(c: nat, isRemote: bool, isRegistered: bool)
      requires Valid()
      modifies this`channels, this`registered, this`remote
      ensures Valid() && View() == Added(old(View()), c, isRemote, isRegistered)
    {
      if c in channels {
        return;
      }
      NewClientAgrees(users, channels, c);
      channels := channels[c := map[]];
      remote := if isRemote then remote + {c} else remote - {c};
      registered := if isRegistered then registered + {c} else registered - {c};
    }

    method AddChannel(ch: nat)
      requires Valid()
      modifies this`users
      ensures Valid() && View() == old(View()).(chans := old(View()).chans + {ch})
    {
      if ch !in users {
        NewChannelAgrees(users, channels, ch);
        users := users[ch := map[]];
      }
    }

    method Join(c: nat, ch: nat)
      requires Valid()
      modifies this`users, this`channels
      ensures Valid() && View() == Joined(old(View()), c, ch)
    {
      if c in registered && c in channels && ch in users {
        AddUser(c, ch, 0);
      }
    }

    /** One line of a USERS reply. */
    method SaveUser(c: nat, ch: nat)
      requires Valid()
      modifies this`users, this`channels, this`registered, this`remote
      ensures Valid() && View() == SavedUser(old(View()), c, ch)
    {
      hide Agree, Joined, Added;
      if !router {
        AddClient(c, true, true);
      }
      Join(c, ch);
    }

    method WhowasReply(c: nat, global: bool)
      requires Valid()
      modifies this`channels, this`registered, this`remote, this`expired
      ensures Valid() && View() == Whowas(old(View()), c, global)
    {
      hide Agree, Added, ChannelsOf;
      if !router {
        AddClient(c, true, false);
      }
      if c !in channels {
        return;
      }
      registered := registered - {c};
      ChannelsOfPairs(users, channels, c);
      if global && channels[c] == map[] {
        expired := expired + {c};
      }
    }

    /** silc_server_resume_client: the connection's own entry goes. */
    method Resume(d: nat, cur: nat)
      requires Valid()
      modifies this
      ensures Valid() && View() == Membership.Resumed(old(View()), d, cur)
    {
      if d !in registered || d == cur || cur !in channels {
        return;
      }
      expired, remote := expired - {d}, remote - {d};
      Forget(cur);
    }

    method Remove(e: Event)
      requires Valid() && WellFormed(View())
      requires e.Leave? || e.DeleteChannel? || e.SignOff? || e.Forget? || e.Resume?
      modifies this
      ensures Valid() && View() == Step(old(View()), e)
    {
      hide Agree, RemovedOne, Deleted, RemovedAll, WellFormed;
      match e
      case Leave(c, ch) =>
        Unknown(View(), c, ch);
        if c in channels { RemoveOne(c, ch); }
      case DeleteChannel(ch) =>
        Unknown(View(), 0, ch);
        if ch in users { DeleteChannel(ch); }
      case SignOff(c) => if c in channels { SignOff(c); }
      case Forget(c) => if c in channels { Forget(c); }
      case Resume(d, cur) => Resume(d, cur);
    }

    method Save(e: Event)
      requires Valid()
      requires e.Join? || e.SaveUser? || e.SaveChannels? || e.WhowasReply?
      modifies this
      ensures Valid() && View() == Step(old(View()), e)
    {
      hide Agree, Joined, SavedUser, Whowas;
      match e
      case Join(c, ch) => Join(c, ch);
      case SaveUser(c, ch) => SaveUser(c, ch);
      case SaveChannels(c, listed) =>
        if c in channels {
          var order := List(listed);
          assert Elems(order) == listed;
          SaveChannels(c, order);
        }
      case WhowasReply(c, global) => WhowasReply(c, global);
    }

    /** Everything that is proved of the two tables together. */
    ghost predicate Consistent()
      reads this
    {
      Valid() && WellFormed(View()) && ExpiredIdle(View())
    }

    /** Every event, in any state: the two tables stay in agreement and describe
        the memberships that the event leaves; expired entries stay idle unless the
        event revives one. */
    method Handle(e: Event)
      requires Consistent()
      modifies this
      ensures Valid() && WellFormed(View())
      ensures View() == Step(old(View()), e)
      ensures ExpiredIdle(View()) <==> !Revives(old(View()), e)
    {
      hide Agree, Added, WellFormed, ExpiredIdle, Revives, Purged;
      ghost var was := View();
      StepKeepsIff(was, e);
      match e {
        case AddClient(c, isRemote, isRegistered) => AddClient(c, isRemote, isRegistered);
        case Register(c) => if c in channels { registered := registered + {c}; }
        case AddChannel(ch) => AddChannel(ch);
        case SetPermanent(ch, value) => permanent := if value then permanent + {ch} else permanent - {ch};
        case Purge(aged) => PurgeExpired(aged);
        case Join(_, _) => Save(e);
        case SaveUser(_, _) => Save(e);
        case SaveChannels(_, _) => Save(e);
        case WhowasReply(_, _) => Save(e);
        case _ => Remove(e);
      }
      assert View() == Step(was, e);
    }

    /** From the empty tables, any run in which no expired entry is revived. */
    method Execute(evs: seq<Event>)
      requires Valid() && View() == Empty(router) && NeverRevives(Empty(router), evs)
      modifies this
      ensures Consistent() && View() == After(Empty(router), evs)
    {
      hide Agree, Step, WellFormed, ExpiredIdle, Revives;
      EmptyIsFine(router);
      for i := 0 to |evs|
        invariant Consistent() && View() == After(Empty(router), evs[..i])
        invariant NeverRevives(Empty(router), evs[..i])
      {
        assert evs[..i + 1][..i] == evs[..i];
        PrefixNeverRevives(Empty(router), evs, i + 1);
        Handle(evs[i]);
      }
      assert evs[..|evs|] == evs;
    }
  }
}
