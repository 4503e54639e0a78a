/** Notifying everyone who shares a channel with a client
    (apps/silcd/packet_send.c, silc_server_send_notify_on_channels): the nested
    loop over channels and users sends one copy to each addressee, however many
    channels they share and in whatever order the tables are visited. */
module NotifyChannels {
  import opened Wire

  /** A client entry: remote ones have the server entry they are behind. */
  datatype Client = Client(id: nat, router: Option<nat>, conn: Option<nat>)

  datatype Copy = ToClient(id: nat) | ToServer(entry: nat)

  // ------------------------------------------------------------ specification

  /** Everybody on some of the channels. */
  function Everyone(channels: seq<seq<Client>>): set<Client> {
    set us, c | us in channels && c in us :: c
  }

  /** Connected to us directly; `sender` is left out altogether. */
  predicate Local(sender: Option<nat>, c: Client) {
    Some(c.id) != sender && c.router.None? && c.conn.Some?
  }

  predicate Remote(sender: Option<nat>, c: Client) {
    Some(c.id) != sender && c.router.Some?
  }

  function LocalIds(sender: Option<nat>, cs: set<Client>): set<nat> {
    set c | c in cs && Local(sender, c) :: c.id
  }

  /** Only a router passes notifies on to other servers. */
  function Servers(router: bool, sender: Option<nat>, cs: set<Client>): set<nat> {
    set c | c in cs && router && Remote(sender, c) :: c.router.value
  }

  function Copies(router: bool, sender: Option<nat>, cs: set<Client>): set<Copy> {
    (set n | n in LocalIds(sender, cs) :: ToClient(n)) + (set n | n in Servers(router, sender, cs) :: ToServer(n))
  }

  /** Entries are shared: a client is the same entry on every channel. */
  predicate OneEntryEach(cs: set<Client>) {
    forall c, d :: c in cs && d in cs && c.id == d.id ==> c == d
  }

  // ------------------------------------------------------------------- growth

  lemma EveryoneNext(channels: seq<seq<Client>>, i: nat)
    requires i < |channels|
    ensures Everyone(channels[..i + 1]) == Everyone(channels[..i]) + Elems(channels[i])
  {
    assert channels[..i + 1] == channels[..i] + [channels[i]];
  }

  lemma CopiesNext(router: bool, sender: Option<nat>, cs: set<Client>, c: Client)
    ensures LocalIds(sender, cs + {c}) == LocalIds(sender, cs) + (if Local(sender, c) then {c.id} else {})
    ensures Servers(router, sender, cs + {c})
            == Servers(router, sender, cs) + (if router && Remote(sender, c) then {c.router.value} else {})
    ensures Copies(router, sender, cs + {c}) == Copies(router, sender, cs)
              + (if Local(sender, c) then {ToClient(c.id)} else {})
              + (if router && Remote(sender, c) then {ToServer(c.router.value)} else {})
  {
  }

  lemma ElemsNext<T>(s: seq<T>, x: T)
    ensures Elems(s + [x]) == Elems(s) + {x}
    ensures x in Elems(s) <==> x in s
    ensures NoRepeats(s) && x !in s ==> NoRepeats(s + [x])
  {
  }

  lemma CopyIn(router: bool, sender: Option<nat>, cs: set<Client>, n: nat)
    ensures ToClient(n) in Copies(router, sender, cs) <==> n in LocalIds(sender, cs)
    ensures ToServer(n) in Copies(router, sender, cs) <==> n in Servers(router, sender, cs)
  {
  }

  // ----------------------------------------------------------------- the loops

  /** What the two tables and the copies sent say after visiting `cs`. */
  ghost predicate Progress(router: bool, sender: Option<nat>, cs: set<Client>,
                           sentClients: seq<nat>, routed: seq<nat>, sent: seq<Copy>) {
    && Elems(sentClients) == LocalIds(sender, cs)
    && Elems(routed) == Servers(router, sender, cs)
    && Elems(sent) == Copies(router, sender, cs) && NoRepeats(sent)
  }

  lemma SeenBefore(sender: Option<nat>, cs: set<Client>, c: Client)
    requires c.id in LocalIds(sender, cs) && OneEntryEach(cs + {c})
    ensures c in cs && cs + {c} == cs
  {
    var d :| d in cs && Local(sender, d) && d.id == c.id;
    assert d == c;
  }

  class Notifier {
    const router: bool
    const sender: Option<nat>
    var sentClients: seq<nat>
    var routed: seq<nat>
    var sent: seq<Copy>

    ghost predicate Visited(cs: set<Client>)
      reads this
    {
      Progress(router, sender, cs, sentClients, routed, sent)
    }

    constructor (router: bool, sender: Option<nat>)
      ensures Visited({}) && this.router == router && this.sender == sender
    {
      this.router, this.sender := router, sender;
      sentClients, routed, sent := [], [], [];
    }

    /** One turn of the inner loop. */
    method Visit(c: Client, ghost before: set<Client>)
      requires Visited(before) && OneEntryEach(before + {c})
      modifies this
      ensures Visited(before + {c})
    {
      CopiesNext(router, sender, before, c);
      ElemsNext(sentClients, c.id);
      CopyIn(router, sender, before, c.id);
      hide Copies, Elems, NoRepeats;
      if Some(c.id) == sender {
        return;
      }
      if c.id in sentClients {
        SeenBefore(sender, before, c);
        return;
      }
      if c.router.Some? && router {
        var r := c.router.value;
        ElemsNext(routed, r);
        CopyIn(router, sender, before, r);
        ElemsNext(sent, ToServer(r));
        if r in routed {
          return;
        }
        sent := sent + [ToServer(r)];
        routed := routed + [r];
        return;
      }
      if c.router.Some? {
        return;
      }
      if c.conn.None? {
        return;
      }
      ElemsNext(sent, ToClient(c.id));
      sent := sent + [ToClient(c.id)];
      sentClients := sentClients + [c.id];
    }

    method VisitChannel(us: seq<Client>, ghost before: set<Client>)
      requires Visited(before) && OneEntryEach(before + Elems(us))
      modifies this
      ensures Visited(before + Elems(us))
    {
      var j := 0;
      assert before + Elems([]) == before;
      assert us[..0] == [];
      while j < |us|
        invariant j <= |us| && Visited(before + Elems(us[..j]))
      {
        assert us[..j + 1] == us[..j] + [us[j]];
        ElemsNext(us[..j], us[j]);
        assert before + Elems(us[..j]) + {us[j]} == before + Elems(us[..j + 1]);
        assert us[j] in Elems(us);
        Visit(us[j], before + Elems(us[..j]));
        j := j + 1;
      }
      assert us[..j] == us;
    }
  }

  lemma SomeOfAll(channels: seq<seq<Client>>, i: nat)
    requires i <= |channels|
    ensures Everyone(channels[..i]) <= Everyone(channels)
  {
    forall us, c | us in channels[..i] && c in us ensures c in Everyone(channels) {
      assert us in channels;
    }
  }

  lemma SenderExcluded(router: bool, sender: Option<nat>, cs: set<Client>, sent: seq<Copy>)
    requires Elems(sent) == Copies(router, sender, cs)
    ensures sender.Some? ==> ToClient(sender.value) !in sent
  {
    if sender.Some? {
      CopyIn(router, sender, cs, sender.value);
      assert sender.value !in LocalIds(sender, cs);
      ElemsNext(sent, ToClient(sender.value));
    }
  }

  /** Every local client that shares a channel with the subject gets the packet
      exactly once, every remote server entry at most once and exactly when a
      member is behind it, the excluded sender never. */
  method SendNotifyOnChannels(router: bool, sender: Option<nat>, channels: seq<seq<Client>>)
    returns (sent: seq<Copy>)
    requires OneEntryEach(Everyone(channels))
    ensures NoRepeats(sent) && Elems(sent) == Copies(router, sender, Everyone(channels))
    ensures sender.Some? ==> ToClient(sender.value) !in sent
  {
    var n := new Notifier(router, sender);
    var i := 0;
    assert Everyone(channels[..0]) == {};
    while i < |channels|
      invariant i <= |channels| && fresh(n) && n.router == router && n.sender == sender
      invariant n.Visited(Everyone(channels[..i]))
    {
      EveryoneNext(channels, i);
      SomeOfAll(channels, i + 1);
      n.VisitChannel(channels[i], Everyone(channels[..i]));
      i := i + 1;
    }
    assert channels[..i] == channels;
    sent := n.sent;
    SenderExcluded(router, sender, Everyone(channels), sent);
  }

  lemma WhereIs(channels: seq<seq<Client>>, c: Client) returns (i: nat, j: nat)
    requires c in Everyone(channels)
    ensures i < |channels| && j < |channels[i]| && channels[i][j] == c
  {
    var us :| us in channels && c in us;
    i :| i < |channels| && channels[i] == us;
    j :| j < |us| && us[j] == c;
  }

  /** What was sent, in terms of the user lists: a copy to each client of ours that
      is connected and on one of the channels, and one to each server that a member
      is behind if we are a router; members are passed over if they are the
      excluded sender, and nobody else gets one. */
  lemma NotifiedIff(router: bool, sender: Option<nat>, channels: seq<seq<Client>>, sent: seq<Copy>, n: nat)
    requires NoRepeats(sent) && Elems(sent) == Copies(router, sender, Everyone(channels))
    ensures ToClient(n) in sent
            <==> exists i, j :: 0 <= i < |channels| && 0 <= j < |channels[i]|
                   && channels[i][j].id == n && sender != Some(n)
                   && channels[i][j].router == None && channels[i][j].conn.Some?
    ensures ToServer(n) in sent
            <==> exists i, j :: 0 <= i < |channels| && 0 <= j < |channels[i]|
                   && channels[i][j].router == Some(n) && router && sender != Some(channels[i][j].id)
  {
    var all := Everyone(channels);
    CopyIn(router, sender, all, n);
    assert ToClient(n) in sent <==> ToClient(n) in Elems(sent);
    assert ToServer(n) in sent <==> ToServer(n) in Elems(sent);
    forall i, j | 0 <= i < |channels| && 0 <= j < |channels[i]| ensures channels[i][j] in all {
      assert channels[i] in channels && channels[i][j] in channels[i];
    }
    if n in LocalIds(sender, all) {
      var c :| c in all && Local(sender, c) && c.id == n;
      var i, j := WhereIs(channels, c);
      assert channels[i][j].id == n;
    }
    if n in Servers(router, sender, all) {
      var c :| c in all && router && Remote(sender, c) && c.router.value == n;
      var i, j := WhereIs(channels, c);
      assert channels[i][j].router == Some(n);
    }
    hide Copies, Everyone;
  }

  lemma {:induction false} OnceEach(s: seq<Copy>, c: Copy)
    requires NoRepeats(s)
    ensures multiset(s)[c] == if c in s then 1 else 0
  {
    if s != [] {
      var pre := s[..|s| - 1];
      OnceEach(pre, c);
      assert s == pre + [s[|s| - 1]];
      assert s[|s| - 1] !in pre;
    }
  }

  /** Two visits of the same channels, in any orders, send the same copies. */
  lemma SameCopies(router: bool, sender: Option<nat>, a: seq<seq<Client>>, b: seq<seq<Client>>,
                   sent: seq<Copy>, other: seq<Copy>)
    requires Everyone(a) == Everyone(b)
    requires NoRepeats(sent) && Elems(sent) == Copies(router, sender, Everyone(a))
    requires NoRepeats(other) && Elems(other) == Copies(router, sender, Everyone(b))
    ensures multiset(sent) == multiset(other)
  {
    forall c: Copy ensures multiset(sent)[c] == multiset(other)[c] {
      OnceEach(sent, c);
      OnceEach(other, c);
      ElemsNext(sent, c);
      ElemsNext(other, c);
    }
  }
}
