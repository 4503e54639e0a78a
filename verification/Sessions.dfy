/** Client sessions and the counters that follow them on a standalone normal
    server (apps/silcd/server.c, command.c, packet_receive.c): accept, register,
    DETACH with its delayed callback, detach timeout, resume, QUIT and loss of
    the connection. */
module Sessions {
  import opened Wire

  datatype Stat = Stat(mine: int, all: int, cell: int)   // my_clients, clients, cell_clients

  datatype State = State(
    live: set<nat>,              // sessions whose entry has not been freed
    conn: map<nat, nat>,         // client->connection
    context: map<nat, nat>,      // the client a packet stream refers to
    open: set<nat>,              // streams not closed
    localDetached: set<nat>,     // client->local_detached
    registered: set<nat>,
    detachedMode: set<nat>,      // SILC_UMODE_DETACHED
    resumedOnce: set<nat>,       // SILC_IDLIST_STATUS_RESUMED
    detachTasks: seq<nat>,       // scheduled detach callbacks, by stream
    quitTasks: seq<nat>,         // scheduled quit callbacks, by stream
    timeoutTasks: seq<nat>,      // scheduled detach timeouts, by client
    clients: set<nat>,           // entries ever made
    streams: set<nat>,           // streams ever made
    stat: Stat)

  // -------------------------------------------------------------- operations

  function Accepted(s: State, c: nat, k: nat): State {
    if c in s.clients || k in s.streams then s
    else s.(live := s.live + {c}, conn := s.conn[c := k], context := s.context[k := c], open := s.open + {k},
            clients := s.clients + {c}, streams := s.streams + {k},
            stat := Stat(s.stat.mine + 1, s.stat.all + 1, s.stat.cell + 1))
  }

  /** silc_server_free_client_data. */
  function Freed(s: State, c: nat): State {
    s.(live := s.live - {c}, conn := s.conn - {c}, registered := s.registered - {c},
       detachedMode := s.detachedMode - {c},
       stat := Stat(if c in s.localDetached then s.stat.mine else s.stat.mine - 1, s.stat.all - 1,
                    if s.stat.cell != 0 then s.stat.cell - 1 else 0))
  }

  /** The stream goes: silc_server_free_sock_user_data and the close. */
  function Dropped(s: State, k: nat): State {
    var t := if k in s.context then Freed(s, s.context[k]) else s;
    t.(context := t.context - {k}, open := t.open - {k})
  }

  /** DETACH: the mode now, the rest in a callback and a timeout. */
  function DetachAsked(s: State, k: nat): State {
    if k !in s.open || k !in s.context || s.context[k] !in s.registered then s
    else
      var c := s.context[k];
      s.(detachedMode := s.detachedMode + {c}, resumedOnce := s.resumedOnce - {c},
         detachTasks := s.detachTasks + [k], timeoutTasks := s.timeoutTasks + [c])
  }

  /** silc_server_command_detach_cb: whatever client the stream refers to. */
  function DetachRan(s: State, i: nat): State {
    if i >= |s.detachTasks| then s
    else
      var k := s.detachTasks[i];
      var t := s.(detachTasks := WithoutAt(s.detachTasks, i));
      if k !in s.context then t
      else
        var c := s.context[k];
        t.(conn := s.conn - {c}, open := s.open - {k}, localDetached := s.localDetached + {c},
           stat := s.stat.(mine := s.stat.mine - 1))
  }

  function QuitAsked(s: State, k: nat): State {
    if k !in s.open || k !in s.context || s.context[k] !in s.registered then s
    else s.(quitTasks := s.quitTasks + [k])
  }

  function QuitRan(s: State, i: nat): State {
    if i >= |s.quitTasks| then s
    else
      var k := s.quitTasks[i];
      var t := s.(quitTasks := WithoutAt(s.quitTasks, i));
      if k in s.context then Dropped(t, k) else t
  }

  function TimedOut(s: State, i: nat): State {
    if i >= |s.timeoutTasks| then s
    else
      var c := s.timeoutTasks[i];
      var t := s.(timeoutTasks := WithoutAt(s.timeoutTasks, i));
      if c in s.registered && c in s.detachedMode then Freed(t, c) else t
  }

  /** The entry `d` can be taken over from stream `k`. */
  predicate Resumable(s: State, k: nat, d: nat) {
    && k in s.open && k in s.context && s.context[k] != d
    && d in s.registered && d in s.detachedMode && d !in s.resumedOnce
  }

  /** silc_server_resume_client with everything verified. */
  function ResumeDone(s: State, k: nat, d: nat): State {
    if !Resumable(s, k, d) then s
    else
      var cur := s.context[k];
      s.(live := s.live - {cur}, conn := (s.conn - {cur})[d := k], context := s.context[k := d],
         registered := s.registered - {cur}, detachedMode := s.detachedMode - {d, cur},
         resumedOnce := s.resumedOnce + {d}, localDetached := s.localDetached - {d},
         stat := Stat(s.stat.mine, s.stat.all - 1, if s.stat.cell != 0 then s.stat.cell - 1 else 0))
  }

  datatype Event =
    | Accept(c: nat, k: nat)
    | Register(c: nat)
    | Detach(k: nat)
    | DetachCallback(i: nat)
    | DetachTimeout(i: nat)
    | Quit(k: nat)
    | QuitCallback(i: nat)
    | Close(k: nat)
    | Resume(k: nat, d: nat)

  function Step(s: State, e: Event): State {
    match e
    case Accept(c, k) => Accepted(s, c, k)
    case Register(c) => if c in s.conn then s.(registered := s.registered + {c}) else s
    case Detach(k) => DetachAsked(s, k)
    case DetachCallback(i) => DetachRan(s, i)
    case DetachTimeout(i) => TimedOut(s, i)
    case Quit(k) => QuitAsked(s, k)
    case QuitCallback(i) => QuitRan(s, i)
    case Close(k) => if k in s.open then Dropped(s, k) else s
    case Resume(k, d) => ResumeDone(s, k, d)
  }

  const START := State({}, map[], map[], {}, {}, {}, {}, {}, [], [], [], {}, {}, Stat(0, 0, 0))

  function After(evs: seq<Event>): State {
    if evs == [] then START else Step(After(evs[..|evs| - 1]), evs[|evs| - 1])
  }

  // --------------------------------------------------------------- invariants

  /** Counters equal what they count; being set sizes they are not negative. */
  predicate Counted(s: State) {
    s.stat.mine == |s.conn.Keys| && s.stat.all == |s.live| && s.stat.cell == |s.live|
  }

  predicate Mutual(conn: map<nat, nat>, context: map<nat, nat>, open: set<nat>) {
    && (forall c :: c in conn ==> conn[c] in open && conn[c] in context && context[conn[c]] == c)
    && (forall k :: k in open && k in context ==> context[k] in conn && conn[context[k]] == k)
  }

  /** Sessions and open streams refer to each other. */
  predicate Linked(s: State) {
    && s.conn.Keys <= s.live && s.registered <= s.live
    && (forall c :: c in s.live ==> (c in s.localDetached <==> c !in s.conn))
    && Mutual(s.conn, s.context, s.open)
  }

  /** Entries and streams are made once. */
  predicate Fresh(s: State) {
    && s.live <= s.clients && s.localDetached <= s.clients && s.open <= s.streams
    && (forall k :: k in s.context ==> k in s.streams && s.context[k] in s.clients)
  }

  predicate Good(s: State) {
    Counted(s) && Linked(s) && Fresh(s)
  }

  /** The events that break the account: a callback that finds another session's
      state behind its stream, or a timeout or resume that comes before the
      detach callback has run. */
  predicate Misfires(s: State, e: Event) {
    match e
    case DetachCallback(i) =>
      && i < |s.detachTasks| && s.detachTasks[i] in s.context
      && var c := s.context[s.detachTasks[i]]; !(c in s.conn && s.conn[c] == s.detachTasks[i])
    case QuitCallback(i) =>
      && i < |s.quitTasks| && s.quitTasks[i] in s.context
      && var c := s.context[s.quitTasks[i]]; c !in s.live || (c in s.conn && s.conn[c] != s.quitTasks[i])
    case DetachTimeout(i) =>
      && i < |s.timeoutTasks| && s.timeoutTasks[i] in s.registered && s.timeoutTasks[i] in s.detachedMode
      && s.timeoutTasks[i] in s.conn
    case Resume(k, d) => Resumable(s, k, d) && d in s.conn
    case _ => false
  }

  /** A client that loses its entry's connection while its stream stays open. */
  lemma Torn(conn: map<nat, nat>, context: map<nat, nat>, open: set<nat>, k: nat)
    requires k in open && k in context && (context[k] in conn ==> conn[context[k]] != k)
    ensures !Mutual(conn, context, open)
  {
  }

  lemma SizeWithout(a: set<nat>, c: nat)
    ensures c in a ==> |a - {c}| == |a| - 1
    ensures c !in a ==> a - {c} == a
  {
  }

  /** Freeing a live session whose stream, if any, goes with it. */
  lemma FreedCounts(s: State, c: nat)
    requires Good(s) && c in s.live
    ensures Counted(Freed(s, c)) && Fresh(Freed(s, c))
  {
    SizeWithout(s.live, c);
    SizeWithout(s.conn.Keys, c);
    assert (s.conn - {c}).Keys == s.conn.Keys - {c};
  }

  lemma DroppedGood(s: State, k: nat)
    requires Good(s) && k in s.context && s.context[k] in s.live
    requires var c := s.context[k]; c in s.conn ==> s.conn[c] == k
    ensures Good(Dropped(s, k))
  {
    FreedCounts(s, s.context[k]);
  }

  lemma OneMore(live: set<nat>, conn: map<nat, nat>, c: nat, k: nat)
    requires c !in live && c !in conn
    ensures |live + {c}| == |live| + 1 && |conn[c := k].Keys| == |conn.Keys| + 1
  {
    assert conn[c := k].Keys == conn.Keys + {c};
  }

  lemma AcceptFresh(s: State, c: nat, k: nat)
    requires Fresh(s)
    ensures Fresh(Accepted(s, c, k))
  {
  }

  lemma MutualWith(conn: map<nat, nat>, context: map<nat, nat>, open: set<nat>, c: nat, k: nat)
    requires Mutual(conn, context, open) && c !in conn && k !in open
    ensures Mutual(conn[c := k], context[k := c], open + {k})
  {
  }

  lemma AcceptLinked(s: State, c: nat, k: nat)
    requires Linked(s) && c !in s.conn && c !in s.localDetached && k !in s.open
    requires c !in s.clients && k !in s.streams
    ensures Linked(Accepted(s, c, k))
  {
    hide Mutual;
    MutualWith(s.conn, s.context, s.open, c, k);
  }

  lemma AcceptGood(s: State, c: nat, k: nat)
    requires Good(s)
    ensures Good(Accepted(s, c, k))
  {
    if c !in s.clients && k !in s.streams {
      assert c !in s.live && c !in s.conn && k !in s.open && c !in s.localDetached;
      OneMore(s.live, s.conn, c, k);
      AcceptFresh(s, c, k);
      AcceptLinked(s, c, k);
      hide Linked, Fresh;
    }
  }

  lemma MutualWithout(conn: map<nat, nat>, context: map<nat, nat>, open: set<nat>, c: nat, k: nat)
    requires Mutual(conn, context, open) && c in conn && conn[c] == k
    ensures Mutual(conn - {c}, context, open - {k})
  {
  }

  /** The stream `k` of `cur` becomes the connection of `d`. */
  lemma MutualTakeover(conn: map<nat, nat>, context: map<nat, nat>, open: set<nat>, cur: nat, k: nat, d: nat)
    requires Mutual(conn, context, open) && k in open && k in context && context[k] == cur
    requires d !in conn && d != cur
    ensures Mutual((conn - {cur})[d := k], context[k := d], open)
  {
  }

  /** Nothing that the account depends on has changed. */
  lemma SameAccount(s: State, t: State)
    requires Good(s) && t.registered <= t.live
    requires t.live == s.live && t.conn == s.conn && t.context == s.context && t.open == s.open
    requires t.localDetached == s.localDetached && t.stat == s.stat
    requires t.clients == s.clients && t.streams == s.streams
    ensures Good(t)
  {
  }

  lemma DetachCounted(s: State, i: nat)
    requires Good(s) && i < |s.detachTasks| && s.detachTasks[i] in s.context
    ensures var t := DetachRan(s, i);
      && (Counted(t) <==> s.context[s.detachTasks[i]] in s.conn) && Fresh(t)
  {
    var c := s.context[s.detachTasks[i]];
    SizeWithout(s.conn.Keys, c);
    assert DetachRan(s, i).conn.Keys == s.conn.Keys - {c};
  }

  lemma DetachRanIff(s: State, i: nat)
    requires Good(s)
    ensures Good(DetachRan(s, i)) <==> !Misfires(s, DetachCallback(i))
  {
    if i < |s.detachTasks| && s.detachTasks[i] in s.context {
      var k := s.detachTasks[i];
      var c := s.context[k];
      var t := DetachRan(s, i);
      DetachCounted(s, i);
      hide Counted;
      if c in s.conn && s.conn[c] == k {
        MutualWithout(s.conn, s.context, s.open, c, k);
      } else if c in s.conn {
        Torn(t.conn, t.context, t.open, s.conn[c]);
      }
    } else if i < |s.detachTasks| {
      SameAccount(s, DetachRan(s, i));
    }
  }

  lemma QuitRanIff(s: State, i: nat)
    requires Good(s)
    ensures Good(QuitRan(s, i)) <==> !Misfires(s, QuitCallback(i))
  {
    if i < |s.quitTasks| && s.quitTasks[i] in s.context {
      var k := s.quitTasks[i];
      var c := s.context[k];
      var u := s.(quitTasks := WithoutAt(s.quitTasks, i));
      var t := Dropped(u, k);
      if c !in s.live {
        SizeWithout(s.live, c);
        assert t.stat.all != |t.live|;
      } else if c in s.conn && s.conn[c] != k {
        Torn(t.conn, t.context, t.open, s.conn[c]);
      } else {
        DroppedGood(u, k);
      }
    }
  }

  lemma FreedLinked(s: State, c: nat)
    requires Linked(s) && c !in s.conn
    ensures Linked(Freed(s, c))
  {
    hide Mutual;
    assert s.conn - {c} == s.conn;
  }

  lemma FreedTears(s: State, c: nat)
    requires Linked(s) && c in s.conn
    ensures !Linked(Freed(s, c))
  {
    Torn(Freed(s, c).conn, s.context, s.open, s.conn[c]);
  }

  /** A session can be freed behind its stream's back only when it has none. */
  lemma FreedIff(s: State, c: nat)
    requires Good(s) && c in s.live
    ensures Good(Freed(s, c)) <==> c !in s.conn
  {
    FreedCounts(s, c);
    if c in s.conn {
      FreedTears(s, c);
    } else {
      FreedLinked(s, c);
    }
    hide Counted, Linked, Fresh;
  }

  lemma TimedOutIff(s: State, i: nat)
    requires Good(s)
    ensures Good(TimedOut(s, i)) <==> !Misfires(s, DetachTimeout(i))
  {
    if i < |s.timeoutTasks| {
      var c := s.timeoutTasks[i];
      var u := s.(timeoutTasks := WithoutAt(s.timeoutTasks, i));
      SameAccount(s, u);
      if c in s.registered && c in s.detachedMode { FreedIff(u, c); }
    }
  }

  lemma OneLess(live: set<nat>, conn: map<nat, nat>, cur: nat, k: nat, d: nat)
    requires cur in live && cur in conn && d !in conn
    ensures |live - {cur}| == |live| - 1 && |(conn - {cur})[d := k].Keys| == |conn.Keys|
  {
    SizeWithout(live, cur);
    SizeWithout(conn.Keys, cur);
    assert (conn - {cur})[d := k].Keys == conn.Keys - {cur} + {d};
  }

  lemma ResumeLinked(s: State, k: nat, d: nat)
    requires Linked(s) && Resumable(s, k, d) && d !in s.conn
    ensures Linked(ResumeDone(s, k, d))
  {
    assert s.context[k] in s.conn;
    MutualTakeover(s.conn, s.context, s.open, s.context[k], k, d);
    hide Mutual;
  }

  lemma ResumeFresh(s: State, k: nat, d: nat)
    requires Fresh(s) && Linked(s)
    ensures Fresh(ResumeDone(s, k, d))
  {
    hide Mutual;
  }

  lemma ResumeIff(s: State, k: nat, d: nat)
    requires Good(s)
    ensures Good(ResumeDone(s, k, d)) <==> !Misfires(s, Resume(k, d))
  {
    if Resumable(s, k, d) {
      var t := ResumeDone(s, k, d);
      if d in s.conn {
        Torn(t.conn, t.context, t.open, s.conn[d]);
      } else {
        OneLess(s.live, s.conn, s.context[k], k, d);
        ResumeLinked(s, k, d);
        ResumeFresh(s, k, d);
        hide Linked, Fresh;
      }
    }
  }

  lemma CloseGood(s: State, k: nat)
    requires Good(s)
    ensures Good(Step(s, Close(k)))
  {
    if k in s.open && k in s.context { DroppedGood(s, k); }
  }

  /** One step, exactly. */
  lemma StepGoodIff(s: State, e: Event)
    requires Good(s)
    ensures Good(Step(s, e)) <==> !Misfires(s, e)
  {
    hide Counted, Fresh, Mutual, Accepted, DetachRan, QuitRan, TimedOut, ResumeDone, Dropped;
    match e
    case Accept(c, k) => AcceptGood(s, c, k);
    case DetachCallback(i) => DetachRanIff(s, i);
    case DetachTimeout(i) => TimedOutIff(s, i);
    case QuitCallback(i) => QuitRanIff(s, i);
    case Close(k) => CloseGood(s, k);
    case Resume(k, d) => ResumeIff(s, k, d);
    case Register(c) => SameAccount(s, Step(s, e));
    case Detach(k) => SameAccount(s, Step(s, e));
    case Quit(k) => SameAccount(s, Step(s, e));
  }

  // ------------------------------------------------------------- main results

  predicate AlwaysGood(evs: seq<Event>) {
    Good(After(evs)) && (evs != [] ==> AlwaysGood(evs[..|evs| - 1]))
  }

  predicate NeverMisfires(evs: seq<Event>) {
    evs != [] ==> NeverMisfires(evs[..|evs| - 1]) && !Misfires(After(evs[..|evs| - 1]), evs[|evs| - 1])
  }

  lemma StartGood()
    ensures Good(START)
  {
  }

  /** Session conservation over every run: in all states `clients` and
      `cell_clients` are the live sessions, `my_clients` those with a connection,
      and every open stream is the connection of its session, exactly when no
      event of the run misfires. */
  lemma {:induction false} ConservedIff(evs: seq<Event>)
    ensures AlwaysGood(evs) <==> NeverMisfires(evs)
  {
    hide Step, Good, Misfires;
    StartGood();
    if evs != [] {
      var pre := evs[..|evs| - 1];
      ConservedIff(pre);
      if AlwaysGood(pre) { StepGoodIff(After(pre), evs[|evs| - 1]); }
    }
  }

  lemma AfterSnoc(evs: seq<Event>, e: Event)
    ensures After(evs + [e]) == Step(After(evs), e)
  {
    assert (evs + [e])[..|evs|] == evs;
  }

  /** Two DETACH commands before the first callback: `my_clients` is decremented
      twice for one client. */
  lemma DoubleDetachMisfires() returns (evs: seq<Event>)
    ensures !NeverMisfires(evs) && !Good(After(evs))
    ensures After(evs).stat.mine == -1 && After(evs).conn == map[]
  {
    var two := [Accept(1, 1)] + [Register(1)];
    var four := two + [Detach(1)] + [Detach(1)];
    evs := four + [DetachCallback(0)] + [DetachCallback(0)];
    AfterSnoc([], Accept(1, 1));
    AfterSnoc([Accept(1, 1)], Register(1));
    assert [] + [Accept(1, 1)] == [Accept(1, 1)];
    AfterSnoc(two, Detach(1));
    AfterSnoc(two + [Detach(1)], Detach(1));
    AfterSnoc(four, DetachCallback(0));
    AfterSnoc(four + [DetachCallback(0)], DetachCallback(0));
    var s := After(two);
    assert s.conn == map[1 := 1] && s.context == map[1 := 1] && s.registered == {1} && s.stat.mine == 1;
    var t := After(four);
    assert t.detachTasks == [1, 1] && t.conn == s.conn && t.context == s.context && t.stat == s.stat;
    var u := After(four + [DetachCallback(0)]);
    assert u.detachTasks == [1] && u.conn == map[] && u.context == s.context && u.stat.mine == 0;
    ConservedIff(evs);
  }

  // --------------------------------------------------- a discipline of events

  /** What callers can check beforehand: one delayed command at a time on a
      stream, and timeouts and resumes only once the detach callback has run. */
  predicate Orderly(s: State, e: Event) {
    match e
    case Detach(k) => k !in s.detachTasks && k !in s.quitTasks
    case Quit(k) => k !in s.detachTasks && k !in s.quitTasks
    case DetachTimeout(i) => i < |s.timeoutTasks| ==> s.timeoutTasks[i] !in s.conn
    case Resume(k, d) => d !in s.conn
    case _ => true
  }

  predicate AllOrderly(evs: seq<Event>) {
    evs != [] ==> AllOrderly(evs[..|evs| - 1]) && Orderly(After(evs[..|evs| - 1]), evs[|evs| - 1])
  }

  /** A stream with a delayed command waiting is open, or refers to nobody. */
  predicate Settled(s: State) {
    && (forall k :: k in s.detachTasks + s.quitTasks && k in s.context ==> k in s.open)
    && NoRepeats(s.detachTasks + s.quitTasks)
  }

  lemma SettledNeverMisfires(s: State, e: Event)
    requires Good(s) && Settled(s) && Orderly(s, e)
    ensures !Misfires(s, e)
  {
    match e
    case DetachCallback(i) =>
      if i < |s.detachTasks| { assert (s.detachTasks + s.quitTasks)[i] == s.detachTasks[i]; }
    case QuitCallback(i) =>
      if i < |s.quitTasks| { assert (s.detachTasks + s.quitTasks)[|s.detachTasks| + i] == s.quitTasks[i]; }
    case _ =>
  }

  lemma WithoutOne(a: seq<nat>, i: nat)
    requires NoRepeats(a) && i < |a|
    ensures NoRepeats(WithoutAt(a, i)) && a[i] !in WithoutAt(a, i)
    ensures forall k :: k in WithoutAt(a, i) ==> k in a
  {
  }

  lemma WithOne(d: seq<nat>, q: seq<nat>, k: nat)
    requires NoRepeats(d + q) && k !in d && k !in q
    ensures NoRepeats(d + [k] + q) && NoRepeats(d + (q + [k]))
  {
    var a, b := d + [k] + q, d + (q + [k]);
    assert forall i :: 0 <= i < |d| ==> (d + q)[i] == a[i] == d[i];
    assert forall i :: |d| < i < |a| ==> a[i] == (d + q)[i - 1] == q[i - |d| - 1];
    assert forall i :: 0 <= i < |d + q| ==> b[i] == (d + q)[i];
    assert forall i :: 0 <= i < |d + q| ==> (d + q)[i] in d || (d + q)[i] in q;
  }

  lemma DetachSettled(s: State, i: nat)
    requires Settled(s)
    ensures Settled(DetachRan(s, i))
  {
    var d, q := s.detachTasks, s.quitTasks;
    if i < |d| {
      WithoutOne(d + q, i);
      assert WithoutAt(d + q, i) == WithoutAt(d, i) + q;
      hide NoRepeats, WithoutAt;
    }
  }

  lemma QuitSettled(s: State, i: nat)
    requires Settled(s)
    ensures Settled(QuitRan(s, i))
  {
    var d, q := s.detachTasks, s.quitTasks;
    if i < |q| {
      WithoutOne(d + q, |d| + i);
      assert WithoutAt(d + q, |d| + i) == d + WithoutAt(q, i);
      hide NoRepeats, WithoutAt;
    }
  }

  lemma StepSettled(s: State, e: Event)
    requires Good(s) && Settled(s) && Orderly(s, e)
    ensures Settled(Step(s, e))
  {
    hide Good, NoRepeats;
    match e
    case Detach(k) => if Step(s, e) != s { WithOne(s.detachTasks, s.quitTasks, k); }
    case Quit(k) => if Step(s, e) != s { WithOne(s.detachTasks, s.quitTasks, k); }
    case DetachCallback(i) => DetachSettled(s, i);
    case QuitCallback(i) => QuitSettled(s, i);
    case _ =>
  }

  lemma StartSettled()
    ensures Settled(START)
  {
  }

  lemma {:induction false} Smaller(a: set<nat>, b: set<nat>)
    requires a <= b
    ensures |a| <= |b|
  {
    if a != {} {
      var x :| x in a;
      Smaller(a - {x}, b - {x});
    }
  }

  lemma GoodCounts(s: State)
    requires Good(s)
    ensures s.stat.all == s.stat.cell == |s.live| && s.stat.mine == |s.conn.Keys|
    ensures 0 <= s.stat.mine <= s.stat.all
  {
    Smaller(s.conn.Keys, s.live);
  }

  /** With one delayed command at a time, and resumes and timeouts after the
      detach callback, the counters are exact in every state of every run. */
  lemma {:induction false} OrderlySessionsAreConserved(evs: seq<Event>)
    requires AllOrderly(evs)
    ensures Good(After(evs)) && Settled(After(evs)) && NeverMisfires(evs)
    ensures var s := After(evs);
      && s.stat.all == s.stat.cell == |s.live| && s.stat.mine == |s.conn.Keys|
      && 0 <= s.stat.mine <= s.stat.all
  {
    hide Step, Good, Settled, Orderly, Misfires;
    StartGood();
    if evs == [] {
      StartSettled();
    } else {
      var pre, e := evs[..|evs| - 1], evs[|evs| - 1];
      OrderlySessionsAreConserved(pre);
      SettledNeverMisfires(After(pre), e);
      StepGoodIff(After(pre), e);
      StepSettled(After(pre), e);
    }
    GoodCounts(After(evs));
  }

  // ------------------------------------------------- what becomes of a session

  /** The event is about client `c`, or about a stream that refers to it. */
  predicate Touches(s: State, e: Event, c: nat) {
    match e
    case Accept(d, _) => d == c
    case Register(d) => d == c
    case Detach(k) => k in s.context && s.context[k] == c
    case Quit(k) => k in s.context && s.context[k] == c
    case Close(k) => k in s.context && s.context[k] == c
    case DetachCallback(i) => i < |s.detachTasks| && s.detachTasks[i] in s.context && s.context[s.detachTasks[i]] == c
    case QuitCallback(i) => i < |s.quitTasks| && s.quitTasks[i] in s.context && s.context[s.quitTasks[i]] == c
    case DetachTimeout(i) => i < |s.timeoutTasks| && s.timeoutTasks[i] == c
    case Resume(k, d) => d == c || (k in s.context && s.context[k] == c)
  }

  /** None of the events `evs` after `pre` is about `c`. */
  predicate LeftAlone(pre: seq<Event>, evs: seq<Event>, c: nat) {
    forall i :: 0 <= i < |evs| ==> !Touches(After(pre + evs[..i]), evs[i], c)
  }

  /** Streams that refer to `c` still do, and are as open as they were. */
  predicate SameStreams(s: State, t: State, c: nat) {
    forall k :: k in s.context && s.context[k] == c ==>
      && k in t.context && t.context[k] == c
      && (k in s.open ==> k in t.open) && (k in s.detachTasks ==> k in t.detachTasks)
      && (k in s.quitTasks ==> k in t.quitTasks)
  }

  /** The entry of `c` is what it was. */
  predicate SameEntry(s: State, t: State, c: nat) {
    && (c in t.live <==> c in s.live) && (c in t.registered <==> c in s.registered)
    && (c in t.detachedMode <==> c in s.detachedMode) && (c in t.resumedOnce <==> c in s.resumedOnce)
    && (c in t.conn <==> c in s.conn) && (c in s.conn ==> t.conn[c] == s.conn[c])
    && (c in s.timeoutTasks ==> c in t.timeoutTasks)
  }

  lemma KeptTask(tasks: seq<nat>, i: nat, x: nat)
    requires i < |tasks| && x in tasks && tasks[i] != x
    ensures x in WithoutAt(tasks, i)
  {
    var j :| 0 <= j < |tasks| && tasks[j] == x;
    var rest := WithoutAt(tasks, i);
    assert rest[if j < i then j else j - 1] == x;
  }

  lemma StepSameEntry(s: State, e: Event, c: nat)
    requires !Touches(s, e, c)
    ensures SameEntry(s, Step(s, e), c)
  {
    if e.DetachTimeout? && e.i < |s.timeoutTasks| && c in s.timeoutTasks { KeptTask(s.timeoutTasks, e.i, c); }
    hide WithoutAt;
  }

  lemma StepSameStreams(s: State, e: Event, c: nat)
    requires Fresh(s) && !Touches(s, e, c)
    ensures SameStreams(s, Step(s, e), c)
  {
    forall k | k in s.context && s.context[k] == c && k in s.detachTasks ensures k in Step(s, e).detachTasks {
      if e.DetachCallback? && e.i < |s.detachTasks| { KeptTask(s.detachTasks, e.i, k); }
    }
    forall k | k in s.context && s.context[k] == c && k in s.quitTasks ensures k in Step(s, e).quitTasks {
      if e.QuitCallback? && e.i < |s.quitTasks| { KeptTask(s.quitTasks, e.i, k); }
    }
    hide WithoutAt;
  }

  /** Whatever happens, ids are taken from entries and streams that were made. */
  predicate Made(s: State) {
    Fresh(s) && s.registered <= s.clients && s.conn.Keys <= s.clients
  }

  lemma StepMade(s: State, e: Event)
    requires Made(s)
    ensures Made(Step(s, e))
  {
    hide WithoutAt;
  }

  lemma {:induction false} RunsKeepMade(evs: seq<Event>)
    ensures Made(After(evs))
  {
    if evs == [] {
      StartGood();
    } else {
      hide Step, Made;
      RunsKeepMade(evs[..|evs| - 1]);
      StepMade(After(evs[..|evs| - 1]), evs[|evs| - 1]);
    }
  }

  lemma SameTwice(s: State, t: State, u: State, c: nat)
    requires SameEntry(s, t, c) && SameStreams(s, t, c)
    requires SameEntry(t, u, c) && SameStreams(t, u, c)
    ensures SameEntry(s, u, c) && SameStreams(s, u, c)
  {
  }

  lemma LeftAlonePrefix(pre: seq<Event>, evs: seq<Event>, c: nat)
    requires LeftAlone(pre, evs, c) && evs != []
    ensures LeftAlone(pre, evs[..|evs| - 1], c)
    ensures !Touches(After(pre + evs[..|evs| - 1]), evs[|evs| - 1], c)
  {
    var before := evs[..|evs| - 1];
    assert forall i :: 0 <= i < |before| ==> before[..i] == evs[..i];
    hide After, Touches;
  }

  lemma MadeIsFresh(evs: seq<Event>)
    ensures Fresh(After(evs))
  {
    RunsKeepMade(evs);
    hide After, Fresh;
  }

  lemma SameSelf(s: State, c: nat)
    ensures SameEntry(s, s, c) && SameStreams(s, s, c)
  {
  }

  lemma LastSplit(pre: seq<Event>, evs: seq<Event>)
    requires evs != []
    ensures pre + evs[..|evs| - 1] + [evs[|evs| - 1]] == pre + evs
  {
  }

  lemma {:induction false} LeftAloneSame(pre: seq<Event>, evs: seq<Event>, c: nat)
    requires LeftAlone(pre, evs, c)
    ensures SameEntry(After(pre), After(pre + evs), c) && SameStreams(After(pre), After(pre + evs), c)
  {
    hide *;
    SameSelf(After(pre), c);
    if evs == [] {
      assert pre + evs == pre;
    } else {
      var before, e := evs[..|evs| - 1], evs[|evs| - 1];
      LastSplit(pre, evs);
      LeftAlonePrefix(pre, evs, c);
      LeftAloneSame(pre, before, c);
      var t := After(pre + before);
      AfterSnoc(pre + before, e);
      MadeIsFresh(pre + before);
      StepSameEntry(t, e, c);
      StepSameStreams(t, e, c);
      SameTwice(After(pre), t, Step(t, e), c);
    }
  }

  // ------------------------------------------------- the life of a session

  /** DETACH is accepted on an open stream of a registered client. */
  lemma DetachAccepted(s: State, k: nat, c: nat)
    requires k in s.open && k in s.context && s.context[k] == c && c in s.registered
    ensures var t := Step(s, Detach(k));
      && SameStreams(s, t, c) && k in t.detachTasks && c in t.timeoutTasks
      && c in t.registered && c in t.detachedMode && c !in t.resumedOnce
      && t.live == s.live && t.conn == s.conn && t.open == s.open
  {
  }

  lemma CallbackDetaches(s: State, i: nat, k: nat, c: nat)
    requires i < |s.detachTasks| && s.detachTasks[i] == k && k in s.context && s.context[k] == c
    ensures var t := Step(s, DetachCallback(i));
      && c !in t.conn && k !in t.open && t.live == s.live && t.registered == s.registered
      && t.detachedMode == s.detachedMode && t.resumedOnce == s.resumedOnce && t.timeoutTasks == s.timeoutTasks
  {
    hide WithoutAt;
  }

  /** A run in which client `c` detaches from stream `k`: the command, its callback,
      and between and after them nothing about `c`. */
  ghost predicate DetachRun(pre: seq<Event>, k: nat, c: nat, mid: seq<Event>, i: nat, rest: seq<Event>) {
    var s0 := After(pre);
    var first := pre + [Detach(k)];
    var s1 := After(first + mid);
    && k in s0.open && k in s0.context && s0.context[k] == c && c in s0.registered && c in s0.live
    && LeftAlone(first, mid, c)
    && i < |s1.detachTasks| && s1.detachTasks[i] == k
    && LeftAlone(first + mid + [DetachCallback(i)], rest, c)
  }

  function DetachEvents(pre: seq<Event>, k: nat, mid: seq<Event>, i: nat, rest: seq<Event>): seq<Event> {
    pre + [Detach(k)] + mid + [DetachCallback(i)] + rest
  }

  /** Detached: without a connection, and with a timeout waiting. */
  lemma DetachRunEnds(pre: seq<Event>, k: nat, c: nat, mid: seq<Event>, i: nat, rest: seq<Event>)
    requires DetachRun(pre, k, c, mid, i, rest)
    ensures var t := After(DetachEvents(pre, k, mid, i, rest));
      && c in t.live && c !in t.conn && c in t.registered && c in t.timeoutTasks
      && c in t.detachedMode && c !in t.resumedOnce
  {
    var first := pre + [Detach(k)];
    var upTo := first + mid;
    var back := upTo + [DetachCallback(i)];
    DetachAccepted(After(pre), k, c);
    AfterSnoc(pre, Detach(k));
    LeftAloneSame(first, mid, c);
    assert k in After(upTo).context && After(upTo).context[k] == c;
    CallbackDetaches(After(upTo), i, k, c);
    AfterSnoc(upTo, DetachCallback(i));
    LeftAloneSame(back, rest, c);
    assert DetachEvents(pre, k, mid, i, rest) == back + rest;
    hide Step, After, LeftAlone;
  }

  /** A detached session is taken over by a RESUME from another client's open
      stream: the stream is its connection, and the entry of the stream's own client
      is gone. */
  lemma DetachedIsResumed(pre: seq<Event>, k: nat, c: nat, mid: seq<Event>, i: nat, rest: seq<Event>, q: nat)
    requires DetachRun(pre, k, c, mid, i, rest)
    requires var t := After(DetachEvents(pre, k, mid, i, rest)); q in t.open && q in t.context && t.context[q] != c
    ensures var t := After(DetachEvents(pre, k, mid, i, rest));
            var u := After(DetachEvents(pre, k, mid, i, rest) + [Resume(q, c)]);
      && c in u.live && c in u.conn && u.conn[c] == q && u.context[q] == c && u.open == t.open
      && u.live == t.live - {t.context[q]} && t.context[q] !in u.conn
  {
    DetachRunEnds(pre, k, c, mid, i, rest);
    AfterSnoc(DetachEvents(pre, k, mid, i, rest), Resume(q, c));
    hide After, DetachRun, DetachEvents;
  }

  /** Otherwise its timeout frees it. */
  lemma DetachedTimesOut(pre: seq<Event>, k: nat, c: nat, mid: seq<Event>, i: nat, rest: seq<Event>)
    returns (j: nat)
    requires DetachRun(pre, k, c, mid, i, rest)
    ensures var t := After(DetachEvents(pre, k, mid, i, rest));
            var u := After(DetachEvents(pre, k, mid, i, rest) + [DetachTimeout(j)]);
      && j < |t.timeoutTasks| && t.timeoutTasks[j] == c
      && u.live == t.live - {c} && u.conn == t.conn && u.context == t.context && u.open == t.open
      && c in t.live
  {
    DetachRunEnds(pre, k, c, mid, i, rest);
    var t := After(DetachEvents(pre, k, mid, i, rest));
    j :| j < |t.timeoutTasks| && t.timeoutTasks[j] == c;
    AfterSnoc(DetachEvents(pre, k, mid, i, rest), DetachTimeout(j));
    hide After, DetachRun, DetachEvents, WithoutAt;
    assert t.conn - {c} == t.conn;
  }

  /** A session that was resumed is left alone by the timeouts of its DETACH. */
  lemma ResumedIsLeftAlone(pre: seq<Event>, q: nat, c: nat, rest: seq<Event>, j: nat)
    requires c in After(pre + [Resume(q, c)]).conn && c !in After(pre).conn
    requires LeftAlone(pre + [Resume(q, c)], rest, c)
    requires var t := After(pre + [Resume(q, c)] + rest); j < |t.timeoutTasks| && t.timeoutTasks[j] == c
    ensures var t := After(pre + [Resume(q, c)] + rest);
            var u := After(pre + [Resume(q, c)] + rest + [DetachTimeout(j)]);
      && c in u.conn && u.conn[c] == q && u.live == t.live && u.conn == t.conn && u.context == t.context
      && u.open == t.open
  {
    var first := pre + [Resume(q, c)];
    AfterSnoc(pre, Resume(q, c));
    LeftAloneSame(first, rest, c);
    AfterSnoc(first + rest, DetachTimeout(j));
    hide After, LeftAlone, WithoutAt;
  }

  /** The same from an empty server, step by step: one client detaches, another
      connects, and then either resumes the first session or sees it time out. */
  lemma DetachAndAfter() returns (evs: seq<Event>)
    ensures var s := After(evs);
      && s.live == {1, 2} && s.conn == map[2 := 2] && s.open == {2}
    ensures var t, u := After(evs + [Resume(2, 1)]), After(evs + [DetachTimeout(0)]);
      && t.live == {1} && t.conn == map[1 := 2] && t.context[2] == 1
      && u.live == {2} && u.conn == map[2 := 2]
  {
    var two := [Accept(1, 1)] + [Register(1)];
    evs := two + [Detach(1)] + [DetachCallback(0)] + [Accept(2, 2)];
    AfterSnoc([], Accept(1, 1));
    AfterSnoc([Accept(1, 1)], Register(1));
    assert [] + [Accept(1, 1)] == [Accept(1, 1)];
    AfterSnoc(two, Detach(1));
    AfterSnoc(two + [Detach(1)], DetachCallback(0));
    AfterSnoc(two + [Detach(1)] + [DetachCallback(0)], Accept(2, 2));
    AfterSnoc(evs, Resume(2, 1));
    AfterSnoc(evs, DetachTimeout(0));
    var s2 := After(two);
    assert s2.conn == map[1 := 1] && s2.context == map[1 := 1] && s2.registered == {1} && s2.live == {1};
    var s4 := After(two + [Detach(1)] + [DetachCallback(0)]);
    assert s4.conn == map[] && s4.open == {} && s4.live == {1} && s4.timeoutTasks == [1];
    var s5 := After(evs);
    assert s5.context == map[1 := 1, 2 := 2] && s5.clients == {1, 2};
    hide After;
  }

  /** A session whose client never asked for it is neither resumed nor timed out. */
  predicate NeverDetaches(evs: seq<Event>, c: nat) {
    evs != [] ==>
      var pre, e := evs[..|evs| - 1], evs[|evs| - 1];
      NeverDetaches(pre, c) && (e.Detach? ==> !Touches(After(pre), e, c))
  }

  lemma StepNotDetached(s: State, e: Event, c: nat)
    requires c !in s.detachedMode && c !in s.timeoutTasks && (e.Detach? ==> !Touches(s, e, c))
    ensures c !in Step(s, e).detachedMode && c !in Step(s, e).timeoutTasks
  {
  }

  lemma {:induction false} NotDetachedStays(evs: seq<Event>, c: nat, q: nat)
    requires NeverDetaches(evs, c)
    ensures var t := After(evs);
      && Step(t, Resume(q, c)) == t && c !in t.timeoutTasks
      && c !in t.detachedMode
  {
    if evs != [] {
      var pre, e := evs[..|evs| - 1], evs[|evs| - 1];
      NotDetachedStays(pre, c, q);
      hide Touches;
      StepNotDetached(After(pre), e, c);
    }
  }

  /** Accepting, registering and losing a connection. */
  lemma ConnectionMeans(s: State, c: nat, k: nat)
    ensures var t := Step(s, Accept(c, k));
            c !in s.clients && k !in s.streams ==>
              && t.live == s.live + {c} && t.conn == s.conn[c := k] && t.context == s.context[k := c]
              && t.open == s.open + {k} && t.registered == s.registered
    ensures c in s.clients || k in s.streams ==> Step(s, Accept(c, k)) == s
    ensures Step(s, Register(c)).registered == if c in s.conn then s.registered + {c} else s.registered
    ensures var t := Step(s, Close(k));
            k in s.open ==>
              && k !in t.open && k !in t.context
              && (k in s.context ==> t.live == s.live - {s.context[k]} && s.context[k] !in t.conn)
              && (k !in s.context ==> t.live == s.live && t.conn == s.conn)
    ensures k !in s.open ==> Step(s, Close(k)) == s
  {
  }

  /** The end of a connection with a session: its entry is out of every table, and
      the counters go down, the one of the cell not below zero. */
  lemma CloseMeans(s: State, k: nat)
    requires k in s.open && k in s.context
    ensures var c := s.context[k];
            Step(s, Close(k))
            == s.(live := s.live - {c}, conn := s.conn - {c}, registered := s.registered - {c},
                  detachedMode := s.detachedMode - {c}, context := s.context - {k}, open := s.open - {k},
                  stat := Stat(if c in s.localDetached then s.stat.mine else s.stat.mine - 1, s.stat.all - 1,
                               if s.stat.cell == 0 then 0 else s.stat.cell - 1))
  {
  }

  /** Callbacks run once, and without a session on their stream do nothing else; that
      of QUIT closes the stream. */
  lemma TasksRunOnce(s: State, i: nat)
    ensures i < |s.detachTasks| ==>
              var t := Step(s, DetachCallback(i));
              && t.detachTasks == s.detachTasks[..i] + s.detachTasks[i + 1..]
              && (s.detachTasks[i] !in s.context ==> t == s.(detachTasks := t.detachTasks))
    ensures i < |s.quitTasks| ==>
              var k, u := s.quitTasks[i], s.(quitTasks := s.quitTasks[..i] + s.quitTasks[i + 1..]);
              && (k !in s.context ==> Step(s, QuitCallback(i)) == u)
              && (k in s.context && k in s.open ==> Step(s, QuitCallback(i)) == Step(u, Close(k)))
    ensures i < |s.timeoutTasks| ==>
              Step(s, DetachTimeout(i)).timeoutTasks == s.timeoutTasks[..i] + s.timeoutTasks[i + 1..]
  {
  }

  /** A resume ends one entry, and the counters know; the session is neither detached
      nor, until the next DETACH, to be resumed again. */
  lemma ResumeCounts(s: State, k: nat, d: nat, q: nat)
    requires Step(s, Resume(k, d)) != s
    ensures var t := Step(s, Resume(k, d));
      && t.stat == Stat(s.stat.mine, s.stat.all - 1, if s.stat.cell == 0 then 0 else s.stat.cell - 1)
      && d !in t.detachedMode && d in t.resumedOnce && d !in t.localDetached
      && Step(t, Resume(q, d)) == t
  {
  }

  lemma QuitAccepted(s: State, k: nat, c: nat)
    requires k in s.open && k in s.context && s.context[k] == c && c in s.registered
    ensures var t := Step(s, Quit(k)); t.context == s.context && k in t.quitTasks
  {
  }

  /** QUIT of a registered client is delayed like DETACH; its callback ends the
      session. */
  lemma QuitEndsSession(pre: seq<Event>, k: nat, c: nat, mid: seq<Event>) returns (i: nat)
    requires var s := After(pre); k in s.open && k in s.context && s.context[k] == c && c in s.registered
    requires LeftAlone(pre + [Quit(k)], mid, c)
    ensures var t := After(pre + [Quit(k)] + mid);
            var u := After(pre + [Quit(k)] + mid + [QuitCallback(i)]);
      && i < |t.quitTasks| && t.quitTasks[i] == k
      && c !in u.live && c !in u.conn && k !in u.open && k !in u.context && u.live == t.live - {c}
  {
    AfterSnoc(pre, Quit(k));
    LeftAloneSame(pre + [Quit(k)], mid, c);
    var t := After(pre + [Quit(k)] + mid);
    QuitAccepted(After(pre), k, c);
    assert k in t.context && t.context[k] == c && k in t.quitTasks;
    i :| i < |t.quitTasks| && t.quitTasks[i] == k;
    AfterSnoc(pre + [Quit(k)] + mid, QuitCallback(i));
    hide After, LeftAlone, WithoutAt;
  }

  // --------------------------------------------- the entries, as updated

  lemma Commutes(conn: map<nat, nat>, mode: set<nat>, cur: nat, k: nat, d: nat)
    requires cur != d
    ensures conn[d := k] - {cur} == (conn - {cur})[d := k] && mode - {d} - {cur} == mode - {d, cur}
  {
  }

  class Server {
    var live: set<nat>
    var conn: map<nat, nat>
    var context: map<nat, nat>
    var open: set<nat>
    var localDetached: set<nat>
    var registered: set<nat>
    var detachedMode: set<nat>
    var resumedOnce: set<nat>
    var detachTasks: seq<nat>
    var quitTasks: seq<nat>
    var timeoutTasks: seq<nat>
    var clients: set<nat>
    var streams: set<nat>
    var mine: int
    var all: int
    var cell: int
    ghost var misfired: bool      // some event has broken the account

    ghost function View(): State
      reads this
    {
      State(live, conn, context, open, localDetached, registered, detachedMode, resumedOnce,
            detachTasks, quitTasks, timeoutTasks, clients, streams, Stat(mine, all, cell))
    }

    /** The account of sessions and counters. */
    ghost predicate Valid()
      reads this
    {
      !misfired ==> Good(View())
    }

    constructor ()
      ensures Valid() && !misfired && View() == START
    {
      live, conn, context, open, localDetached := {}, map[], map[], {}, {};
      registered, detachedMode, resumedOnce := {}, {}, {};
      detachTasks, quitTasks, timeoutTasks, clients, streams := [], [], [], {}, {};
      mine, all, cell, misfired := 0, 0, 0, false;
      new;
      StartGood();
    }

    method Accept(c: nat, k: nat)
      modifies this`clients, this`streams, this`live, this`conn, this`context, this`open, this`mine, this`all,
               this`cell
      ensures View() == Accepted(old(View()), c, k)
    {
      if c in clients || k in streams {
        return;
      }
      clients, streams := clients + {c}, streams + {k};
      live, conn, context, open := live + {c}, conn[c := k], context[k := c], open + {k};
      mine := mine + 1;
      all := all + 1;
      cell := cell + 1;
    }

    /** A client less in the network and in the cell. */
    method CountOut()
      modifies this`all, this`cell
      ensures all == old(all) - 1 && cell == if old(cell) != 0 then old(cell) - 1 else 0
    {
      all := all - 1;
      if cell != 0 {
        cell := cell - 1;
      }
    }

    /** The entry of `c` is no session any more. */
    method DeleteEntry(c: nat)
      modifies this`live, this`conn, this`registered, this`detachedMode
      ensures live == old(live) - {c} && conn == old(conn) - {c}
      ensures registered == old(registered) - {c} && detachedMode == old(detachedMode) - {c}
    {
      registered := registered - {c};
      detachedMode := detachedMode - {c};
      conn := conn - {c};
      live := live - {c};
    }

    /** silc_server_free_client_data: local detached clients are not counted as
        ours any more. */
    method FreeClientData(c: nat)
      modifies this`live, this`conn, this`registered, this`detachedMode, this`mine, this`all, this`cell
      ensures View() == Freed(old(View()), c)
    {
      if c !in localDetached {
        mine := mine - 1;
      }
      CountOut();
      DeleteEntry(c);
    }

    method DropStream(k: nat)
      modifies this`live, this`conn, this`registered, this`detachedMode, this`mine, this`all, this`cell,
               this`context, this`open
      ensures View() == Dropped(old(View()), k)
    {
      if k in context {
        FreeClientData(context[k]);
      }
      context, open := context - {k}, open - {k};
    }

    method MarkDetached(c: nat, k: nat)
      modifies this`conn, this`open, this`localDetached, this`mine
      ensures conn == old(conn) - {c} && open == old(open) - {k}
      ensures localDetached == old(localDetached) + {c} && mine == old(mine) - 1
    {
      conn := conn - {c};
      open := open - {k};
      localDetached := localDetached + {c};
      mine := mine - 1;
    }

    /** silc_server_command_detach_cb. */
    method DetachCallback(i: nat)
      modifies this`detachTasks, this`conn, this`open, this`localDetached, this`mine
      ensures View() == DetachRan(old(View()), i)
    {
      if i >= |detachTasks| {
        return;
      }
      var k := detachTasks[i];
      detachTasks := WithoutAt(detachTasks, i);
      if k in context {
        MarkDetached(context[k], k);
      }
    }

    method TakeOver(k: nat, d: nat)
      modifies this`conn, this`context, this`detachedMode, this`resumedOnce, this`localDetached
      ensures conn == old(conn)[d := k] && context == old(context)[k := d]
      ensures detachedMode == old(detachedMode) - {d} && resumedOnce == old(resumedOnce) + {d}
      ensures localDetached == old(localDetached) - {d}
    {
      context := context[k := d];
      conn := conn[d := k];
      detachedMode := detachedMode - {d};
      resumedOnce := resumedOnce + {d};
      localDetached := localDetached - {d};
    }

    /** The entry `d` takes the stream over and the stream's own entry goes. */
    method Replace(k: nat, d: nat)
      requires Resumable(View(), k, d)
      modifies this`conn, this`context, this`live, this`registered, this`detachedMode, this`resumedOnce,
               this`localDetached, this`all, this`cell
      ensures View() == ResumeDone(old(View()), k, d)
    {
      var cur := context[k];
      TakeOver(k, d);
      CountOut();
      DeleteEntry(cur);
      Commutes(old(conn), old(detachedMode), cur, k, d);
    }

    /** silc_server_resume_client, with the signature of the client verified. */
    method ResumeClient(k: nat, d: nat)
      modifies this`conn, this`context, this`live, this`registered, this`detachedMode, this`resumedOnce,
               this`localDetached, this`all, this`cell
      ensures View() == ResumeDone(old(View()), k, d)
    {
      if k !in open || k !in context || context[k] == d {
        return;
      }
      if d !in registered || d !in detachedMode || d in resumedOnce {
        return;
      }
      Replace(k, d);
    }

    method Register(c: nat)
      modifies this`registered
      ensures View() == Step(old(View()), Event.Register(c))
    {
      if c in conn {
        registered := registered + {c};
      }
    }

    /** DETACH: the mode bit now, the callback and the timeout later. */
    method Detach(k: nat)
      modifies this`detachedMode, this`resumedOnce, this`detachTasks, this`timeoutTasks
      ensures View() == DetachAsked(old(View()), k)
    {
      if k !in open || k !in context || context[k] !in registered {
        return;
      }
      detachedMode, resumedOnce := detachedMode + {context[k]}, resumedOnce - {context[k]};
      detachTasks, timeoutTasks := detachTasks + [k], timeoutTasks + [context[k]];
    }

    /** silc_server_command_quit: the rest of it runs from the scheduler. */
    method Quit(k: nat)
      modifies this`quitTasks
      ensures View() == QuitAsked(old(View()), k)
    {
      if k in open && k in context && context[k] in registered {
        quitTasks := quitTasks + [k];
      }
    }

    method QuitCallback(i: nat)
      modifies this`quitTasks, this`live, this`conn, this`registered, this`detachedMode, this`mine, this`all,
               this`cell, this`context, this`open
      ensures View() == QuitRan(old(View()), i)
    {
      if i >= |quitTasks| {
        return;
      }
      var k := quitTasks[i];
      quitTasks := WithoutAt(quitTasks, i);
      if k in context {
        DropStream(k);
      }
    }

    /** silc_server_command_detach_timeout: the mode bit is all it looks at. */
    method DetachTimeout(i: nat)
      modifies this`timeoutTasks, this`live, this`conn, this`registered, this`detachedMode, this`mine, this`all,
               this`cell
      ensures View() == TimedOut(old(View()), i)
    {
      if i >= |timeoutTasks| {
        return;
      }
      var c := timeoutTasks[i];
      timeoutTasks := WithoutAt(timeoutTasks, i);
      if c in registered && c in detachedMode {
        FreeClientData(c);
      }
    }

    method Dispatch(e: Event)
      modifies this`live, this`conn, this`context, this`open, this`localDetached, this`registered,
               this`detachedMode, this`resumedOnce, this`detachTasks, this`quitTasks, this`timeoutTasks,
               this`clients, this`streams, this`mine, this`all, this`cell
      ensures View() == Step(old(View()), e)
    {
      hide Accepted, DetachAsked, DetachRan, TimedOut, QuitAsked, QuitRan, Dropped, ResumeDone;
      match e
      case Accept(c, k) => Accept(c, k);
      case Register(c) => Register(c);
      case Detach(k) => Detach(k);
      case DetachCallback(i) => DetachCallback(i);
      case DetachTimeout(i) => DetachTimeout(i);
      case Quit(k) => Quit(k);
      case QuitCallback(i) => QuitCallback(i);
      case Close(k) => if k in open { DropStream(k); }
      case Resume(k, d) => ResumeClient(k, d);
    }

    /** Every event, in any state: the account stays exact unless the event
        misfires, and then it does not. */
    method Handle(e: Event)
      requires Valid()
      modifies this
      ensures Valid()
      ensures View() == Step(old(View()), e)
      ensures misfired == (old(misfired) || Misfires(old(View()), e))
      ensures !old(misfired) ==> (Good(View()) <==> !misfired)
    {
      hide Step, Good, Misfires;
      ghost var was := View();
      if !misfired { StepGoodIff(was, e); }
      Dispatch(e);
      misfired := misfired || Misfires(was, e);
      assert View() == Step(was, e);
    }

    /** A whole run of a new server. */
    method Execute(evs: seq<Event>)
      requires Valid() && !misfired && View() == START
      modifies this
      ensures Valid() && View() == After(evs)
      ensures !misfired <==> NeverMisfires(evs)
      ensures !misfired ==> all == cell == |live| && mine == |conn.Keys|
      ensures AllOrderly(evs) ==> !misfired
    {
      hide Step, Good, Misfires;
      for i := 0 to |evs|
        invariant Valid() && View() == After(evs[..i])
        invariant !misfired <==> NeverMisfires(evs[..i])
      {
        assert evs[..i + 1][..i] == evs[..i];
        hide Valid;
        Handle(evs[i]);
      }
      assert evs[..|evs|] == evs;
      if AllOrderly(evs) { OrderlySessionsAreConserved(evs); }
      if !misfired { GoodCounts(View()); }
    }
  }
}
