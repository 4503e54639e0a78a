/** Relaying a channel message (apps/silcd/packet_send.c,
    silc_server_packet_relay_to_channel): the loop over the user list with its
    `routed` array delivers exactly the copies that a set-level specification
    asks for.  Re-encryption of the copies is left out. */
module Relay {
  import opened Wire

  /** A member as the loop sees it: the client entry and its channel mode. */
  datatype Member = Member(
    id: nat, router: Option<nat>, conn: Option<nat>,
    op: bool, fo: bool, block: bool, blockUsers: bool, blockRobots: bool)

  /** A server entry: its connection and whether it is a router. */
  datatype Peer = Peer(sock: nat, isRouter: bool)

  /** Everything the relay reads besides the user list. */
  datatype Env = Env(
    router: bool,                  // server_type == SILC_ROUTER
    upstream: Option<nat>,         // our router's connection, unless standalone
    globalUsers: bool,             // channel->global_users
    peers: nat -> Peer,            // server entries by number
    senderSock: Option<nat>,       // the connection the message came from
    robot: bool)                   // the sender is a robot

  datatype Copy = Upstream | ToClient(id: nat) | ToServer(entry: nat)

  // ------------------------------------------------------------ specification

  predicate Blocks(e: Env, sender: Member, m: Member) {
    m.block || (m.blockUsers && !sender.op && !sender.fo) || (m.blockRobots && e.robot)
  }

  /** A member that may get the message: not its sender, not blocking. */
  predicate Hears(e: Env, sender: Member, m: Member) {
    m.id != sender.id && !Blocks(e, sender, m)
  }

  /** Directly connected, and not where the message came from. */
  predicate DueClient(e: Env, sender: Member, m: Member) {
    Hears(e, sender, m) && m.router.None? && m.conn.Some? && m.conn != e.senderSock
  }

  /** Behind a server other than the sender's own and the incoming one. */
  predicate DueServer(e: Env, sender: Member, m: Member) {
    && e.router && Hears(e, sender, m) && m.router.Some? && m.router != sender.router
    && Some(e.peers(m.router.value).sock) != e.senderSock
  }

  function DueClients(e: Env, sender: Member, ms: seq<Member>): set<nat> {
    set m | m in ms && DueClient(e, sender, m) :: m.id
  }

  function DueServers(e: Env, sender: Member, ms: seq<Member>): set<nat> {
    set m | m in ms && DueServer(e, sender, m) :: m.router.value
  }

  function Routers(e: Env, entries: set<nat>): set<nat> {
    set r | r in entries && e.peers(r).isRouter
  }

  predicate DueUpstream(e: Env) {
    !e.router && e.globalUsers && e.upstream.Some? && e.upstream != e.senderSock
  }

  function ClientCopies(sent: seq<Copy>): set<nat> {
    set c | c in sent && c.ToClient? :: c.id
  }

  function ServerCopies(sent: seq<Copy>): set<nat> {
    set c | c in sent && c.ToServer? :: c.entry
  }

  /** Who gets a copy: every due client and every due normal server one, all due
      routers together one, nobody else any. */
  ghost predicate Delivers(e: Env, sender: Member, ms: seq<Member>, sent: seq<Copy>) {
    && NoRepeats(sent)
    && ClientCopies(sent) == DueClients(e, sender, ms)
    && ServerCopies(sent) <= DueServers(e, sender, ms)
    && DueServers(e, sender, ms) - Routers(e, DueServers(e, sender, ms)) <= ServerCopies(sent)
    && (Routers(e, DueServers(e, sender, ms)) != {} ==>
          exists r :: Routers(e, ServerCopies(sent)) == {r})
    && (Upstream in sent <==> DueUpstream(e))
  }

  // -------------------------------------------------- growing the prefix

  lemma DueNext(e: Env, sender: Member, ms: seq<Member>, i: nat)
    requires i < |ms|
    ensures var m := ms[i];
      && DueClients(e, sender, ms[..i + 1])
         == DueClients(e, sender, ms[..i]) + (if DueClient(e, sender, m) then {m.id} else {})
      && DueServers(e, sender, ms[..i + 1])
         == DueServers(e, sender, ms[..i]) + (if DueServer(e, sender, m) then {m.router.value} else {})
  {
    assert ms[..i + 1] == ms[..i] + [ms[i]];
  }

  lemma CopyCounted(sent: seq<Copy>, n: nat)
    ensures ToClient(n) in sent <==> n in ClientCopies(sent)
    ensures ToServer(n) in sent <==> n in ServerCopies(sent)
  {
  }

  lemma SentNext(sent: seq<Copy>, c: Copy)
    ensures ClientCopies(sent + [c]) == ClientCopies(sent) + (if c.ToClient? then {c.id} else {})
    ensures ServerCopies(sent + [c]) == ServerCopies(sent) + (if c.ToServer? then {c.entry} else {})
    ensures NoRepeats(sent) && c !in sent ==> NoRepeats(sent + [c])
  {
  }

  lemma RoutersNext(e: Env, entries: set<nat>, r: nat)
    ensures Routers(e, entries + {r}) == Routers(e, entries) + (if e.peers(r).isRouter then {r} else {})
  {
  }

  /** The ids on a user list are distinct: it is keyed by client. */
  predicate DistinctIds(ms: seq<Member>) {
    forall i, j :: 0 <= i < j < |ms| ==> ms[i].id != ms[j].id
  }

  lemma NewClient(e: Env, sender: Member, ms: seq<Member>, i: nat)
    requires i < |ms| && DistinctIds(ms)
    ensures ms[i].id !in DueClients(e, sender, ms[..i])
  {
  }

  // ---------------------------------------------------------------- the array

  /** The `for` loop over `routed`. */
  method Find(routed: array<nat>, count: nat, r: nat) returns (found: bool)
    requires count <= routed.Length
    ensures found <==> r in routed[..count]
  {
    var k := 0;
    while k < count
      invariant k <= count && r !in routed[..k]
    {
      if routed[k] == r {
        return true;
      }
      k := k + 1;
    }
    return false;
  }

  function Slots(routed: seq<nat>): set<nat> {
    set r | r in routed
  }

  function SenderSlot(sender: Member): set<nat> {
    if sender.router.Some? then {sender.router.value} else {}
  }

  /** What the sent copies say after a part of the list. */
  ghost predicate Progress(e: Env, sender: Member, done: seq<Member>, sent: seq<Copy>, gone: bool) {
    && NoRepeats(sent)
    && ClientCopies(sent) == DueClients(e, sender, done)
    && ServerCopies(sent) <= DueServers(e, sender, done)
    && DueServers(e, sender, done) - Routers(e, DueServers(e, sender, done)) <= ServerCopies(sent)
    && (gone <==> Routers(e, DueServers(e, sender, done)) != {})
    && (!gone ==> Routers(e, ServerCopies(sent)) == {})
    && (gone ==> exists r :: Routers(e, ServerCopies(sent)) == {r})
    && (Upstream in sent <==> DueUpstream(e))
  }

  /** A member nothing is sent for, or whose server has been served. */
  lemma Skipped(e: Env, sender: Member, ms: seq<Member>, i: nat, sent: seq<Copy>, gone: bool)
    requires i < |ms| && Progress(e, sender, ms[..i], sent, gone)
    requires !DueClient(e, sender, ms[i])
    requires DueServer(e, sender, ms[i]) ==> ms[i].router.value in DueServers(e, sender, ms[..i])
    ensures Progress(e, sender, ms[..i + 1], sent, gone)
    ensures DueServers(e, sender, ms[..i + 1]) == DueServers(e, sender, ms[..i])
  {
    DueNext(e, sender, ms, i);
    assert DueServers(e, sender, ms[..i + 1]) == DueServers(e, sender, ms[..i]);
    assert DueClients(e, sender, ms[..i + 1]) == DueClients(e, sender, ms[..i]);
  }

  lemma SentToClient(e: Env, sender: Member, ms: seq<Member>, i: nat, sent: seq<Copy>, gone: bool)
    requires i < |ms| && DistinctIds(ms) && Progress(e, sender, ms[..i], sent, gone)
    requires DueClient(e, sender, ms[i])
    ensures Progress(e, sender, ms[..i + 1], sent + [ToClient(ms[i].id)], gone)
    ensures DueServers(e, sender, ms[..i + 1]) == DueServers(e, sender, ms[..i])
  {
    DueNext(e, sender, ms, i);
    NewClient(e, sender, ms, i);
    CopyCounted(sent, ms[i].id);
    SentNext(sent, ToClient(ms[i].id));
    assert DueServers(e, sender, ms[..i + 1]) == DueServers(e, sender, ms[..i]);
  }

  lemma SentToServer(e: Env, sender: Member, ms: seq<Member>, i: nat, sent: seq<Copy>, gone: bool)
    requires i < |ms| && Progress(e, sender, ms[..i], sent, gone)
    requires DueServer(e, sender, ms[i]) && ms[i].router.value !in DueServers(e, sender, ms[..i])
    requires e.peers(ms[i].router.value).isRouter ==> !gone
    ensures Progress(e, sender, ms[..i + 1], sent + [ToServer(ms[i].router.value)],
                     gone || e.peers(ms[i].router.value).isRouter)
    ensures DueServers(e, sender, ms[..i + 1]) == DueServers(e, sender, ms[..i]) + {ms[i].router.value}
  {
    var r := ms[i].router.value;
    DueNext(e, sender, ms, i);
    CopyCounted(sent, r);
    SentNext(sent, ToServer(r));
    RoutersNext(e, DueServers(e, sender, ms[..i]), r);
    RoutersNext(e, ServerCopies(sent), r);
    if e.peers(r).isRouter {
      assert Routers(e, ServerCopies(sent) + {r}) == {r};
      assert r in Routers(e, DueServers(e, sender, ms[..i + 1]));
    }
  }

  /** A second router is marked but gets nothing. */
  lemma PassedOver(e: Env, sender: Member, ms: seq<Member>, i: nat, sent: seq<Copy>)
    requires i < |ms| && Progress(e, sender, ms[..i], sent, true)
    requires DueServer(e, sender, ms[i]) && e.peers(ms[i].router.value).isRouter
    ensures Progress(e, sender, ms[..i + 1], sent, true)
    ensures DueServers(e, sender, ms[..i + 1]) == DueServers(e, sender, ms[..i]) + {ms[i].router.value}
  {
    DueNext(e, sender, ms, i);
    RoutersNext(e, DueServers(e, sender, ms[..i]), ms[i].router.value);
  }

  /** One more slot of the array is filled. */
  lemma Filled(before: seq<nat>, now: seq<nat>, r: nat)
    requires now == before + [r]
    ensures Slots(now) == Slots(before) + {r}
  {
  }

  lemma Started(e: Env, sender: Member, sent: seq<Copy>)
    requires sent == if DueUpstream(e) then [Upstream] else []
    ensures Progress(e, sender, [], sent, false)
  {
  }

  lemma InSlots(routed: seq<nat>, r: nat)
    ensures r in Slots(routed) <==> r in routed
  {
  }

  lemma NothingFilled(e: Env, sender: Member, ms: seq<Member>, routed: seq<nat>)
    requires routed == if sender.router.Some? then [sender.router.value] else []
    ensures Slots(routed) == SenderSlot(sender) + DueServers(e, sender, ms[..0])
  {
  }

  lemma Finished(e: Env, sender: Member, ms: seq<Member>, sent: seq<Copy>, gone: bool)
    requires Progress(e, sender, ms, sent, gone)
    ensures Delivers(e, sender, ms, sent)
  {
  }

  /** The loop never runs out of its |user_list| slots, because the sender has
      put its router there and is itself on the list, and what it sends is what
      the specification asks for, in whatever order the list is visited. */
  method RelayToChannel(e: Env, ms: seq<Member>, s: nat) returns (sent: seq<Copy>)
    requires DistinctIds(ms) && s < |ms|
    ensures Delivers(e, ms[s], ms, sent)
  {
    hide Progress, DueServers, Slots, DistinctIds, Delivers, Routers;
    var sender := ms[s];
    sent := [];
    if !e.router && e.upstream.Some? && e.globalUsers {
      if e.senderSock != e.upstream {
        sent := [Upstream];
      }
    }
    var routed := new nat[|ms|];
    var count := 0;
    if sender.router.Some? {
      routed[count] := sender.router.value;
      count := count + 1;
    }
    assert Slots(routed[..count]) == SenderSlot(sender) + DueServers(e, sender, ms[..0]) by {
      NothingFilled(e, sender, ms, routed[..count]);
    }
    Started(e, sender, sent);
    assert ms[..0] == [];
    var gone := false;
    var i := 0;
    while i < |ms|
      invariant i <= |ms| && count <= routed.Length
      invariant count <= i + (if s < i then 0 else 1)
      invariant Slots(routed[..count]) == SenderSlot(sender) + DueServers(e, sender, ms[..i])
      invariant Progress(e, sender, ms[..i], sent, gone)
    {
      var m := ms[i];
      i := i + 1;
      if m.id == sender.id || m.block || (m.blockUsers && !sender.op && !sender.fo)
         || (m.blockRobots && e.robot)
      {
        Skipped(e, sender, ms, i - 1, sent, gone);
        continue;
      }
      if e.router && m.router.Some? {
        var r := m.router.value;
        var found := Find(routed, count, r);
        InSlots(routed[..count], r);
        if found || (e.senderSock.Some? && e.peers(r).sock == e.senderSock.value) {
          Skipped(e, sender, ms, i - 1, sent, gone);
          continue;
        }
        ghost var before := routed[..count];
        routed[count] := r;
        count := count + 1;
        Filled(before, routed[..count], r);
        if e.peers(r).isRouter && gone {
          PassedOver(e, sender, ms, i - 1, sent);
          continue;
        }
        SentToServer(e, sender, ms, i - 1, sent, gone);
        gone := gone || e.peers(r).isRouter;
        sent := sent + [ToServer(r)];
        continue;
      }
      if m.router.Some? || m.conn.None? || (e.senderSock.Some? && m.conn == e.senderSock) {
        Skipped(e, sender, ms, i - 1, sent, gone);
        continue;
      }
      SentToClient(e, sender, ms, i - 1, sent, gone);
      sent := sent + [ToClient(m.id)];
    }
    assert ms[..i] == ms;
    Finished(e, sender, ms, sent, gone);
  }

  /** The delivery in terms of the user list: a client gets its copy exactly when
      some entry of it is not the sender, does not block the message, is ours,
      connected, and not where the message came from. */
  lemma ClientCopyIff(e: Env, sender: Member, ms: seq<Member>, sent: seq<Copy>, n: nat)
    requires Delivers(e, sender, ms, sent)
    ensures ToClient(n) in sent
            <==> exists i :: 0 <= i < |ms|
                   && ms[i].id == n && n != sender.id
                   && !ms[i].block && (ms[i].blockUsers ==> sender.op || sender.fo) && !(ms[i].blockRobots && e.robot)
                   && ms[i].router == None && ms[i].conn.Some? && ms[i].conn != e.senderSock
  {
    CopyCounted(sent, n);
    if n in DueClients(e, sender, ms) {
      var m :| m in ms && DueClient(e, sender, m) && m.id == n;
      var i :| 0 <= i < |ms| && ms[i] == m;
    }
    if i :| 0 <= i < |ms| && ms[i].id == n && DueClient(e, sender, ms[i]) { assert ms[i] in ms; }
  }

  /** A router sends to exactly the normal servers that such a member is behind,
      except the sender's own and the one the message came from; to other routers
      it sends one copy if there is one to send to, and none otherwise.  A normal
      server sends to no server but its router. */
  lemma ServerCopyIff(e: Env, sender: Member, ms: seq<Member>, sent: seq<Copy>, r: nat)
    requires Delivers(e, sender, ms, sent)
    ensures var due := exists i :: 0 <= i < |ms|
                         && ms[i].id != sender.id && ms[i].router == Some(r)
                         && !ms[i].block && (ms[i].blockUsers ==> sender.op || sender.fo)
                         && !(ms[i].blockRobots && e.robot)
                         && e.router && sender.router != Some(r) && e.senderSock != Some(e.peers(r).sock);
      && (ToServer(r) in sent ==> due)
      && (due && !e.peers(r).isRouter ==> ToServer(r) in sent)
      && (due && e.peers(r).isRouter ==> exists q :: ToServer(q) in sent && e.peers(q).isRouter)
      && (forall q ::
            ToServer(r) in sent && ToServer(q) in sent && e.peers(r).isRouter && e.peers(q).isRouter ==> q == r)
    ensures Upstream in sent <==> !e.router && e.globalUsers && e.upstream.Some? && e.upstream != e.senderSock
  {
    forall q ensures ToServer(q) in sent <==> q in ServerCopies(sent) { CopyCounted(sent, q); }
    if r in DueServers(e, sender, ms) {
      var m :| m in ms && DueServer(e, sender, m) && m.router.value == r;
      var i :| 0 <= i < |ms| && ms[i] == m;
    }
    if i :| 0 <= i < |ms| && ms[i].router == Some(r) && DueServer(e, sender, ms[i]) {
      assert ms[i] in ms && r in DueServers(e, sender, ms);
    }
    if Routers(e, DueServers(e, sender, ms)) != {} {
      var only :| Routers(e, ServerCopies(sent)) == {only};
      assert only in Routers(e, ServerCopies(sent));
      forall q | q in ServerCopies(sent) && e.peers(q).isRouter ensures q == only {
        assert q in Routers(e, ServerCopies(sent));
      }
    }
    if r in DueServers(e, sender, ms) && e.peers(r).isRouter { assert r in Routers(e, DueServers(e, sender, ms)); }
  }

  // --------------------------------------------------------- order of delivery

  lemma SameDue(e: Env, sender: Member, ms: seq<Member>, ns: seq<Member>)
    requires forall m :: m in ms <==> m in ns
    ensures DueClients(e, sender, ms) == DueClients(e, sender, ns)
    ensures DueServers(e, sender, ms) == DueServers(e, sender, ns)
  {
  }

  lemma SizeOfUnion(a: set<nat>, b: set<nat>)
    requires a !! b
    ensures |a + b| == |a| + |b|
  {
  }

  lemma RouterCopies(e: Env, due: set<nat>, copies: set<nat>)
    requires copies <= due && due - Routers(e, due) <= copies
    requires Routers(e, due) != {} ==> exists r :: Routers(e, copies) == {r}
    ensures copies - Routers(e, copies) == due - Routers(e, due)
    ensures Routers(e, copies) == {} <==> Routers(e, due) == {}
    ensures |copies| == |due - Routers(e, due)| + (if Routers(e, due) == {} then 0 else 1)
  {
    var rc, rd := Routers(e, copies), Routers(e, due);
    assert rc <= rd;
    assert copies - rc == due - rd;
    if rd != {} {
      var r :| Routers(e, copies) == {r};
      assert r in Routers(e, copies);
    }
    assert copies == (copies - rc) + rc && (copies - rc) !! rc;
    SizeOfUnion(copies - rc, rc);
  }

  /** Without repeats, the copies are as many as their addressees. */
  lemma {:induction false} Counted(sent: seq<Copy>)
    requires NoRepeats(sent)
    ensures |sent| == |ClientCopies(sent)| + |ServerCopies(sent)| + (if Upstream in sent then 1 else 0)
  {
    if sent == [] {
    } else {
      var pre, c := sent[..|sent| - 1], sent[|sent| - 1];
      Counted(pre);
      assert sent == pre + [c];
      SentNext(pre, c);
      assert c !in pre;
      assert c.ToClient? ==> c.id !in ClientCopies(pre);
      assert c.ToServer? ==> c.entry !in ServerCopies(pre);
    }
  }

  /** Two visits of the same user list deliver to the same clients and normal
      servers, and both or neither pass the message on to a router. */
  lemma OrderDoesNotMatter(e: Env, sender: Member, ms: seq<Member>, ns: seq<Member>,
                           sent: seq<Copy>, other: seq<Copy>)
    requires forall m :: m in ms <==> m in ns
    requires Delivers(e, sender, ms, sent) && Delivers(e, sender, ns, other)
    ensures ClientCopies(sent) == ClientCopies(other)
    ensures ServerCopies(sent) - Routers(e, ServerCopies(sent))
            == ServerCopies(other) - Routers(e, ServerCopies(other))
    ensures Routers(e, ServerCopies(sent)) != {} <==> Routers(e, ServerCopies(other)) != {}
    ensures |sent| == |other|
  {
    SameDue(e, sender, ms, ns);
    RouterCopies(e, DueServers(e, sender, ms), ServerCopies(sent));
    RouterCopies(e, DueServers(e, sender, ns), ServerCopies(other));
    Counted(sent);
    Counted(other);
    hide DueServers, DueClients, ServerCopies, ClientCopies, Routers, NoRepeats;
  }
}
