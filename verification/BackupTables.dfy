/** The tables of backup routers and of replaced routers
    (apps/silcd/server_backup.c): arrays whose slots are emptied and reused, and
    the plain collections they stand for. */
module BackupTables {
  import opened Wire

  /** A slot; `server` is absent when the slot is free. */
  datatype Slot = Slot(server: Option<nat>, ip: nat, port: nat, local: bool)

  /** What a live backup router is registered for. */
  datatype Post = Post(ip: nat, port: nat, local: bool)

  // ------------------------------------------------------------ the collection

  function Live(t: seq<Slot>): map<nat, Post> {
    if t == [] then map[]
    else
      var rest := Live(t[..|t| - 1]);
      var s := t[|t| - 1];
      if s.server.Some? then rest[s.server.value := Post(s.ip, s.port, s.local)] else rest
  }

  /** No server occupies two slots. */
  predicate Distinct(t: seq<Slot>) {
    forall i, j :: 0 <= i < j < |t| && t[i].server.Some? ==> t[i].server != t[j].server
  }

  lemma {:induction false} LiveHas(t: seq<Slot>, s: nat)
    requires Distinct(t)
    ensures s in Live(t) <==> exists i :: 0 <= i < |t| && t[i].server == Some(s)
    ensures forall i :: 0 <= i < |t| && t[i].server == Some(s) ==>
              s in Live(t) && Live(t)[s] == Post(t[i].ip, t[i].port, t[i].local)
  {
    if t != [] {
      LiveHas(t[..|t| - 1], s);
    }
  }

  lemma {:induction false} LiveExt(t: seq<Slot>, m: map<nat, Post>)
    requires Distinct(t)
    requires forall s :: s in m <==> exists i :: 0 <= i < |t| && t[i].server == Some(s)
    requires forall i :: 0 <= i < |t| && t[i].server.Some? ==>
               t[i].server.value in m && m[t[i].server.value] == Post(t[i].ip, t[i].port, t[i].local)
    ensures Live(t) == m
  {
    forall s: nat ensures s in Live(t) <==> s in m {
      LiveHas(t, s);
    }
    forall s | s in m ensures Live(t)[s] == m[s] {
      LiveHas(t, s);
      var i :| 0 <= i < |t| && t[i].server == Some(s);
    }
  }

  predicate Chosen(slot: Slot, s: nat, sender: Option<nat>, self: nat, local: bool) {
    slot.server == Some(s) && Some(s) != sender && s != self && (local ==> slot.local)
  }

  lemma Trailing(t: seq<Slot>)
    ensures Live(t + [Slot(None, 0, 0, false)]) == Live(t)
  {
    assert (t + [Slot(None, 0, 0, false)])[..|t|] == t;
  }

  /** Filling a hole adds one server and disturbs nothing. */
  lemma Filled(t: seq<Slot>, i: nat, server: nat, ip: nat, port: nat, local: bool)
    requires Distinct(t) && i < |t| && t[i].server.None?
    requires forall j :: 0 <= j < |t| ==> t[j].server != Some(server)
    ensures Distinct(t[i := Slot(Some(server), ip, port, local)])
    ensures Live(t[i := Slot(Some(server), ip, port, local)]) == Live(t)[server := Post(ip, port, local)]
  {
    var u := t[i := Slot(Some(server), ip, port, local)];
    var m := Live(t)[server := Post(ip, port, local)];
    forall s: nat ensures s in m <==> exists j :: 0 <= j < |u| && u[j].server == Some(s) {
      LiveHas(t, s);
      if s == server {
        assert u[i].server == Some(s);
      } else if j :| 0 <= j < |t| && t[j].server == Some(s) {
        assert u[j].server == Some(s);
      }
    }
    forall j | 0 <= j < |u| && u[j].server.Some?
      ensures u[j].server.value in m && m[u[j].server.value] == Post(u[j].ip, u[j].port, u[j].local)
    {
      if j != i { LiveHas(t, u[j].server.value); }
    }
    LiveExt(u, m);
  }

  lemma Cleared(t: seq<Slot>, u: seq<Slot>, server: nat)
    requires Distinct(t) && |u| == |t|
    requires forall j :: 0 <= j < |t| ==>
               u[j] == if t[j].server == Some(server) then t[j].(server := None, ip := 0) else t[j]
    ensures Distinct(u) && Live(u) == Live(t) - {server}
  {
    var m := Live(t) - {server};
    forall s: nat ensures s in m <==> exists j :: 0 <= j < |u| && u[j].server == Some(s) {
      LiveHas(t, s);
      if s != server {
        if j :| 0 <= j < |t| && t[j].server == Some(s) {
          assert u[j].server == Some(s);
        }
      }
    }
    forall j | 0 <= j < |u| && u[j].server.Some?
      ensures u[j].server.value in m && m[u[j].server.value] == Post(u[j].ip, u[j].port, u[j].local)
    {
      LiveHas(t, u[j].server.value);
    }
    LiveExt(u, m);
  }

  class Backups {
    var servers: seq<Slot>

    ghost predicate Valid()
      reads this
    {
      Distinct(servers)
    }

    ghost function View(): map<nat, Post>
      reads this
    {
      Live(servers)
    }

    constructor ()
      ensures Valid() && View() == map[]
    {
      servers := [];
    }

    /** silc_server_backup_add: refuses a server that is there, fills the first
        hole, or grows the table. */
    method Add(server: nat, ip: nat, port: nat, local: bool)
      requires Valid()
      modifies this
      ensures Valid()
      ensures View() == if server in old(View()) then old(View())
                        else old(View())[server := Post(ip, port, local)]
    {
      LiveHas(servers, server);
      var i := 0;
      while i < |servers|
        invariant 0 <= i <= |servers| && forall j :: 0 <= j < i ==> servers[j].server != Some(server)
      {
        if servers[i].server == Some(server) {
          return;
        }
        i := i + 1;
      }
      i := 0;
      while i < |servers|
        invariant 0 <= i <= |servers| && servers == old(servers)
      {
        if servers[i].server.None? {
          Filled(servers, i, server, ip, port, local);
          servers := servers[i := Slot(Some(server), ip, port, local)];
          return;
        }
        i := i + 1;
      }
      Filled(servers + [Slot(None, 0, 0, false)], |servers|, server, ip, port, local);
      Trailing(servers);
      assert (servers + [Slot(None, 0, 0, false)])[|servers| := Slot(Some(server), ip, port, local)]
          == servers + [Slot(Some(server), ip, port, local)];
      servers := servers + [Slot(Some(server), ip, port, local)];
    }

    /** silc_server_backup_get: the first slot with this address and port. */
    method Get(ip: nat, port: nat) returns (r: Option<nat>)
      requires Valid()
      ensures r.Some? ==> r.value in View() && View()[r.value].ip == ip && View()[r.value].port == port
      ensures r.None? ==> forall s :: s in View() ==> !(View()[s].ip == ip && View()[s].port == port)
    {
      var i := 0;
      while i < |servers|
        invariant 0 <= i <= |servers|
        invariant forall j :: 0 <= j < i ==>
                    !(servers[j].server.Some? && servers[j].port == port && servers[j].ip == ip)
      {
        if servers[i].server.Some? && servers[i].port == port && servers[i].ip == ip {
          LiveHas(servers, servers[i].server.value);
          return servers[i].server;
        }
        i := i + 1;
      }
      forall s | s in View() ensures !(View()[s].ip == ip && View()[s].port == port) {
        LiveHas(servers, s);
        var k :| 0 <= k < |servers| && servers[k].server == Some(s);
      }
      return None;
    }

    /** silc_server_backup_del: the slot stays, as a hole. */
    method Delete(server: nat)
      requires Valid()
      modifies this
      ensures Valid() && View() == old(View()) - {server}
    {
      var i := 0;
      while i < |servers|
        invariant 0 <= i <= |servers| == |old(servers)|
        invariant forall j :: i <= j < |servers| ==> servers[j] == old(servers)[j]
        invariant forall j :: 0 <= j < i ==>
                    servers[j] == if old(servers)[j].server == Some(server)
                                  then old(servers)[j].(server := None, ip := 0) else old(servers)[j]
      {
        if servers[i].server == Some(server) {
          servers := servers[i := servers[i].(server := None, ip := 0)];
        }
        i := i + 1;
      }
      Cleared(old(servers), servers, server);
    }

    /** silc_server_backup_send: who gets a copy, in slot order. */
    method Send(sender: Option<nat>, self: nat, local: bool) returns (sent: seq<nat>)
      requires Valid()
      ensures forall s :: s in sent <==>
                s in View() && Some(s) != sender && s != self && (local ==> View()[s].local)
      ensures NoRepeats(sent)
    {
      sent := [];
      var i := 0;
      while i < |servers|
        invariant 0 <= i <= |servers|
        invariant forall s :: s in sent <==> exists j :: 0 <= j < i && Chosen(servers[j], s, sender, self, local)
        invariant NoRepeats(sent)
      {
        var slot := servers[i];
        i := i + 1;
        if slot.server.None? || sender == slot.server {
          continue;
        }
        if local && !slot.local {
          continue;
        }
        if slot.server.value == self {
          continue;
        }
        assert Chosen(servers[i - 1], slot.server.value, sender, self, local);
        assert slot.server.value !in sent;
        sent := sent + [slot.server.value];
      }
      forall s
        ensures s in sent <==> s in View() && Some(s) != sender && s != self && (local ==> View()[s].local)
      {
        LiveHas(servers, s);
        if s in View() && Some(s) != sender && s != self && (local ==> View()[s].local) {
          var j :| 0 <= j < |servers| && servers[j].server == Some(s);
          assert Chosen(servers[j], s, sender, self, local);
        }
      }
    }
  }

  // ----------------------------------------------------------- replaced routers

  /** A replaced router: only its address is kept, never its port. */
  datatype Heir = Heir(ip: nat, backup: nat)

  /** The live records. */
  function Records(t: seq<Option<Heir>>): multiset<Heir> {
    if t == [] then multiset{}
    else Records(t[..|t| - 1]) + (if t[|t| - 1].Some? then multiset{t[|t| - 1].value} else multiset{})
  }

  lemma {:induction false} RecordsHas(t: seq<Option<Heir>>, r: Heir)
    ensures r in Records(t) <==> Some(r) in t
  {
    if t != [] {
      RecordsHas(t[..|t| - 1], r);
      assert t == t[..|t| - 1] + [t[|t| - 1]];
    }
  }

  lemma {:induction false} RecordsPut(t: seq<Option<Heir>>, i: nat, r: Heir)
    requires i < |t| && t[i].None?
    ensures Records(t[i := Some(r)]) == Records(t) + multiset{r}
  {
    var n := |t| - 1;
    if i < n {
      RecordsPut(t[..n], i, r);
      assert t[i := Some(r)][..n] == t[..n][i := Some(r)];
    } else {
      assert t[i := Some(r)][..n] == t[..n];
    }
  }

  function Swept(t: seq<Option<Heir>>, backup: nat): (r: seq<Option<Heir>>)
    ensures |r| == |t|
  {
    seq(|t|, i requires 0 <= i < |t| => if t[i].Some? && t[i].value.backup == backup then None else t[i])
  }

  lemma SweptSnoc(t: seq<Option<Heir>>, x: Option<Heir>, backup: nat)
    ensures Swept(t + [x], backup) == Swept(t, backup) + [if x.Some? && x.value.backup == backup then None else x]
  {
  }

  lemma {:induction false} SweptRecords(t: seq<Option<Heir>>, backup: nat)
    ensures forall r :: Records(Swept(t, backup))[r] == if r.backup == backup then 0 else Records(t)[r]
  {
    if t != [] {
      var pre := t[..|t| - 1];
      SweptRecords(pre, backup);
      assert t == pre + [t[|t| - 1]];
      SweptSnoc(pre, t[|t| - 1], backup);
      assert Swept(t, backup)[..|pre|] == Swept(pre, backup);
    }
  }

  class ReplacedTable {
    var replaced: seq<Option<Heir>>

    ghost function View(): multiset<Heir>
      reads this
    {
      Records(replaced)
    }

    constructor ()
      ensures View() == multiset{}
    {
      replaced := [];
    }

    /** silc_server_backup_replaced_add. */
    method Add(ip: nat, port: nat, backup: nat)
      modifies this
      ensures View() == old(View()) + multiset{Heir(ip, backup)}
    {
      if |replaced| == 0 {
        replaced := [None];
        assert replaced[..0] == old(replaced);
      }
      ghost var was := replaced;
      var i := 0;
      while i < |replaced|
        invariant 0 <= i <= |replaced| && replaced == was
      {
        if replaced[i].None? {
          RecordsPut(replaced, i, Heir(ip, backup));
          replaced := replaced[i := Some(Heir(ip, backup))];
          return;
        }
        i := i + 1;
      }
      replaced := replaced + [Some(Heir(ip, backup))];
      assert replaced[..|was|] == was;
      assert Records(replaced) == Records(was) + multiset{Heir(ip, backup)};
    }

    /** silc_server_backup_replaced_get: the port in the ID is not looked at. */
    method Get(ip: nat, port: nat) returns (backup: Option<nat>)
      ensures backup.Some? <==> exists b :: Heir(ip, b) in View()
      ensures backup.Some? ==> Heir(ip, backup.value) in View()
    {
      var i := 0;
      while i < |replaced|
        invariant 0 <= i <= |replaced|
        invariant forall j :: 0 <= j < i && replaced[j].Some? ==> replaced[j].value.ip != ip
      {
        if replaced[i].Some? && replaced[i].value.ip == ip {
          RecordsHas(replaced, replaced[i].value);
          return Some(replaced[i].value.backup);
        }
        i := i + 1;
      }
      forall b ensures Heir(ip, b) !in View() {
        RecordsHas(replaced, Heir(ip, b));
      }
      return None;
    }

    /** silc_server_backup_replaced_del: every record of that server goes. */
    method Delete(backup: nat)
      modifies this
      ensures forall r :: View()[r] == if r.backup == backup then 0 else old(View())[r]
    {
      var i := 0;
      while i < |replaced|
        invariant 0 <= i <= |replaced| == |old(replaced)|
        invariant forall j :: 0 <= j < i ==> replaced[j] == Swept(old(replaced), backup)[j]
        invariant forall j :: i <= j < |replaced| ==> replaced[j] == old(replaced)[j]
      {
        if replaced[i].Some? && replaced[i].value.backup == backup {
          replaced := replaced[i := None];
        }
        i := i + 1;
      }
      assert replaced == Swept(old(replaced), backup);
      SweptRecords(old(replaced), backup);
    }
  }
}
