/** The acting backup router's side of the resuming protocol
    (apps/silcd/server_backup.c).

    A packet's arrival and the protocol run it schedules are separate events:
    arrivals overwrite `ptype` and `session` in place, so one run may see the
    contents of a later packet.  `Initiator` is the value of the protocol
    context; `InitiatorContext` is the context the callbacks update. */
module ResumeInitiator {
  import opened Wire

  /** One entry of `ctx->sessions`. */
  datatype Session = Session(number: nat, connected: bool, peer: nat)

  /** A packet stream as the START loop sees it. */
  datatype Stream = Stream(peer: Option<nat>, self: bool, conn: ConnType, disabled: bool)

  datatype Sent = Sent(peer: nat, msg: ResumeMessage)

  datatype Initiator = Initiator(
    ptype: ResumeKind,          // ctx->type
    session: nat,               // ctx->session
    sessions: seq<Session>,     // ctx->sessions
    state: nat,                 // ctx->state
    primary: nat,               // the peer behind ctx->sock
    runs: nat,                  // scheduled silc_server_protocol_backup tasks
    endings: nat,               // scheduled silc_server_backup_send_resumed tasks
    role: ServerType,           // server->server_type
    sent: seq<Sent>)            // packets handed to the packet engine

  // ---------------------------------------------------------------- START

  predicate Eligible(s: Stream) {
    s.peer.Some? && !s.self && (s.conn == ConnRouter || s.conn == ConnServer) && !s.disabled
  }

  /** The peers that get a session, in stream order. */
  function Peers(streams: seq<Stream>): (ps: seq<nat>) {
    if streams == [] then []
    else
      var rest := Peers(streams[..|streams| - 1]);
      var s := streams[|streams| - 1];
      if Eligible(s) then rest + [s.peer.value] else rest
  }

  /** `idx` are the positions of the streams that get a session, in order. */
  ghost predicate Picks(streams: seq<Stream>, ps: seq<nat>, idx: seq<nat>) {
    && |idx| == |ps| && (forall i, j :: 0 <= i < j < |idx| ==> idx[i] < idx[j])
    && (forall i :: 0 <= i < |idx| ==> idx[i] < |streams| && Eligible(streams[idx[i]]))
    && (forall i :: 0 <= i < |idx| ==> streams[idx[i]].peer.value == ps[i])
    && (forall k :: 0 <= k < |streams| && Eligible(streams[k]) ==> k in idx)
  }

  lemma PicksNext(streams: seq<Stream>, s: Stream, ps: seq<nat>, idx: seq<nat>)
    requires Picks(streams, ps, idx)
    ensures Eligible(s) ==> Picks(streams + [s], ps + [s.peer.value], idx + [|streams|])
    ensures !Eligible(s) ==> Picks(streams + [s], ps, idx)
  {
    hide Eligible;
    var more := streams + [s];
    assert forall k :: 0 <= k < |streams| ==> more[k] == streams[k];
    assert forall x :: x in idx + [|streams|] <==> x in idx || x == |streams|;
  }

  lemma {:induction false} PeersPicked(streams: seq<Stream>) returns (idx: seq<nat>)
    ensures Picks(streams, Peers(streams), idx)
  {
    if streams == [] {
      idx := [];
    } else {
      var n := |streams| - 1;
      var before := PeersPicked(streams[..n]);
      assert streams == streams[..n] + [streams[n]];
      PicksNext(streams[..n], streams[n], Peers(streams[..n]), before);
      idx := if Eligible(streams[n]) then before + [n] else before;
      hide Eligible, Picks;
    }
  }

  function Opened(ps: seq<nat>): (ss: seq<Session>)
    ensures |ss| == |ps|
  {
    seq(|ps|, i requires 0 <= i < |ps| => Session(Byte(i), false, ps[i]))
  }

  function StartPackets(ps: seq<nat>): (ms: seq<Sent>)
    ensures |ms| == |ps|
  {
    seq(|ps|, i requires 0 <= i < |ps| => Sent(ps[i], ResumeMessage(Start, Byte(i))))
  }

  /** The context after its first run. */
  function Begin(ps: seq<nat>, primary: nat): Initiator {
    Initiator(Start, 0, Opened(ps), 2, primary, 0, 0, Router, StartPackets(ps))
  }

  /** START, from the streams alone: one session for each of those streams, in
      stream order, numbered in one byte and not connected, and one START with that
      number to its peer; nobody else is asked. */
  lemma StartAsksExactly(streams: seq<Stream>, primary: nat) returns (idx: seq<nat>)
    ensures forall i, j :: 0 <= i < j < |idx| ==> idx[i] < idx[j]
    ensures forall k :: 0 <= k < |streams| ==>
              (k in idx <==>
               && streams[k].peer.Some? && !streams[k].self
               && (streams[k].conn == ConnRouter || streams[k].conn == ConnServer) && !streams[k].disabled)
    ensures var c := Begin(Peers(streams), primary);
      && |c.sessions| == |c.sent| == |idx|
      && forall i :: 0 <= i < |idx| ==>
           && idx[i] < |streams| && streams[idx[i]].peer == Some(c.sessions[i].peer)
           && c.sessions[i].number == i % 256 && !c.sessions[i].connected
           && c.sent[i] == Sent(c.sessions[i].peer, ResumeMessage(Start, i % 256))
  {
    idx := PeersPicked(streams);
    assert forall i :: 0 <= i < |idx| ==> idx[i] in idx;
  }

  // ------------------------------------------------------------- transitions

  predicate Known(ss: seq<Session>, number: nat) {
    exists i :: 0 <= i < |ss| && ss[i].number == number
  }

  /** silc_server_backup_resume_router on a link that takes part in the protocol.
      A START is not for this context: it would begin one as responder. */
  function Arrived(c: Initiator, m: ResumeMessage): Initiator {
    if m.kind == Start then c else
    var c1 := c.(ptype := m.kind);
    if Known(c.sessions, m.number) then c1.(session := m.number, runs := c.runs + 1)
    else if m.kind == Resumed then c1.(runs := c.runs + 1)
    else c1
  }

  /** Index of the first session with this number, or `|ss|`. */
  function FirstIndex(ss: seq<Session>, number: nat): (k: nat)
    ensures k <= |ss|
    ensures k < |ss| ==> ss[k].number == number
    ensures forall j :: 0 <= j < k ==> ss[j].number != number
  {
    if ss == [] then 0
    else if ss[0].number == number then 0
    else
      var k := FirstIndex(ss[1..], number);
      assert forall j :: 1 <= j <= k ==> ss[j] == ss[1..][j - 1];
      k + 1
  }

  /** What the marking loop with its `break` leaves behind. */
  function MarkFirst(ss: seq<Session>, number: nat): (r: seq<Session>) {
    var k := FirstIndex(ss, number);
    if k < |ss| then ss[k := ss[k].(connected := true)] else ss
  }

  predicate AllConnected(ss: seq<Session>) {
    forall i :: 0 <= i < |ss| ==> ss[i].connected
  }

  /** The protocol body in the states it can be in after START. */
  function Body(c: Initiator): Initiator {
    if c.state == 2 && c.ptype == Connected then
      var marked := MarkFirst(c.sessions, c.session);
      c.(sessions := marked, endings := if AllConnected(marked) then c.endings + 1 else c.endings)
    else if c.state == 250 && c.ptype == Resumed then
      c.(role := BackupRouter)
    else c
  }

  function Ran(c: Initiator): Initiator
    requires c.runs > 0
  {
    Body(c.(runs := c.runs - 1))
  }

  /** The number of the last session opened to `peer`, or `dflt` without one. */
  function NumberOf(ss: seq<Session>, peer: nat, dflt: nat): nat {
    if ss == [] then dflt
    else if ss[|ss| - 1].peer == peer then ss[|ss| - 1].number
    else NumberOf(ss[..|ss| - 1], peer, dflt)
  }

  function EndingSent(c: Initiator): Initiator
    requires c.endings > 0
  {
    var n := NumberOf(c.sessions, c.primary, c.session);
    c.(session := n, state := 250, endings := c.endings - 1,
       sent := c.sent + [Sent(c.primary, ResumeMessage(Ending, Byte(n)))])
  }

  /** What an arrival changes: the type always, the session if some session has that
      number, and a run is scheduled for either that or RESUMED. */
  lemma ArrivalSets(c: Initiator, m: ResumeMessage)
    requires m.kind != Start
    ensures var n, found := Arrived(c, m), exists i :: 0 <= i < |c.sessions| && c.sessions[i].number == m.number;
      && n.ptype == m.kind
      && n.session == (if found then m.number else c.session)
      && n.runs == (if found || m.kind == Resumed then c.runs + 1 else c.runs)
      && n == c.(ptype := n.ptype, session := n.session, runs := n.runs)
  {
  }

  /** What a run changes before ENDING: after a CONNECTED the first session with the
      current number is marked, and nobody else; ENDING is scheduled if that
      completes them.  After ENDING a RESUMED makes the server a backup again. */
  lemma RunSets(c: Initiator)
    requires c.runs > 0
    ensures var n, heard := Ran(c), c.state == 2 && c.ptype == Connected;
      && |n.sessions| == |c.sessions|
      && (forall i :: 0 <= i < |c.sessions| ==>
            n.sessions[i] == c.sessions[i].(connected :=
              || c.sessions[i].connected
              || (heard && c.sessions[i].number == c.session
                  && forall j :: 0 <= j < i ==> c.sessions[j].number != c.session)))
      && n.endings == (if heard && (forall i :: 0 <= i < |n.sessions| ==> n.sessions[i].connected)
                       then c.endings + 1 else c.endings)
      && n.role == (if c.state == 250 && c.ptype == Resumed then BackupRouter else c.role)
      && n == c.(runs := c.runs - 1, sessions := n.sessions, endings := n.endings, role := n.role)
  {
    var k := FirstIndex(c.sessions, c.session);
    hide FirstIndex;
  }

  lemma {:induction false} NumberOfLast(ss: seq<Session>, peer: nat, dflt: nat, k: nat)
    requires k < |ss| && ss[k].peer == peer && forall j :: k < j < |ss| ==> ss[j].peer != peer
    ensures NumberOf(ss, peer, dflt) == ss[k].number
  {
    if k < |ss| - 1 { NumberOfLast(ss[..|ss| - 1], peer, dflt, k); }
  }

  /** ENDING carries the number of the last session opened to the primary. */
  lemma EndingSets(c: Initiator, k: nat)
    requires c.endings > 0
    requires k < |c.sessions| && c.sessions[k].peer == c.primary
    requires forall j :: k < j < |c.sessions| ==> c.sessions[j].peer != c.primary
    ensures EndingSent(c)
            == c.(session := c.sessions[k].number, state := 250, endings := c.endings - 1,
                  sent := c.sent + [Sent(c.primary, ResumeMessage(Ending, c.sessions[k].number % 256))])
  {
    NumberOfLast(c.sessions, c.primary, c.session, k);
    hide NumberOf;
  }

  // -------------------------------------------------------------------- runs

  datatype Event = Arrive(msg: ResumeMessage) | Run | SendEnding

  /** A task that is not scheduled does not run: the event is then a stutter. */
  function Step(c: Initiator, e: Event): Initiator {
    match e
    case Arrive(m) => Arrived(c, m)
    case Run => if c.runs > 0 then Ran(c) else c
    case SendEnding => if c.endings > 0 then EndingSent(c) else c
  }

  /** The context after START to `ps` and then the events `evs`. */
  function After(ps: seq<nat>, primary: nat, evs: seq<Event>): Initiator {
    if evs == [] then Begin(ps, primary)
    else Step(After(ps, primary, evs[..|evs| - 1]), evs[|evs| - 1])
  }

  lemma AfterSnoc(ps: seq<nat>, primary: nat, evs: seq<Event>, e: Event)
    ensures After(ps, primary, evs + [e]) == Step(After(ps, primary, evs), e)
  {
    assert (evs + [e])[..|evs|] == evs;
  }

  predicate HasArrived(evs: seq<Event>, m: ResumeMessage) {
    exists i :: 0 <= i < |evs| && evs[i] == Arrive(m)
  }

  predicate KindArrived(evs: seq<Event>, k: ResumeKind) {
    exists i :: 0 <= i < |evs| && evs[i].Arrive? && evs[i].msg.kind == k
  }

  predicate SentEnding(c: Initiator) {
    exists i :: 0 <= i < |c.sent| && c.sent[i].msg.kind == Ending
  }

  /** Every ENDING goes to the primary, with the number of its session. */
  predicate EndingsToPrimary(sent: seq<Sent>, ps: seq<nat>, primary: nat) {
    forall i :: 0 <= i < |sent| && sent[i].msg.kind == Ending ==>
      && sent[i].peer == primary
      && (primary in ps ==> sent[i].msg.number == NumberOf(Opened(ps), primary, 0))
  }

  // ------------------------------------------------- what a run of events says

  /** A packet that reaches the context. */
  predicate Reaches(e: Event) {
    e.Arrive? && e.msg.kind != Start
  }

  /** START gave this number out: to a session below the 256th. */
  predicate Given(n: nat, number: nat) {
    number < n && number < 256
  }

  /** The kind of the last packet. */
  function LastKind(evs: seq<Event>): ResumeKind {
    if evs == [] then Start
    else
      var e := evs[|evs| - 1];
      if Reaches(e) then e.msg.kind else LastKind(evs[..|evs| - 1])
  }

  /** The last number that START had given out; to begin with, session 0. */
  function LastNumber(n: nat, evs: seq<Event>): nat {
    if evs == [] then 0
    else
      var e := evs[|evs| - 1];
      if Reaches(e) && Given(n, e.msg.number) then e.msg.number else LastNumber(n, evs[..|evs| - 1])
  }

  /** The packet schedules a protocol run. */
  predicate Schedules(n: nat, e: Event) {
    Reaches(e) && (Given(n, e.msg.number) || e.msg.kind == Resumed)
  }

  /** Protocol runs still scheduled. */
  function Pending(n: nat, evs: seq<Event>): nat {
    if evs == [] then 0
    else
      var before := Pending(n, evs[..|evs| - 1]);
      var e := evs[|evs| - 1];
      if Schedules(n, e) then before + 1
      else if e == Run && before > 0 then before - 1 else before
  }

  /** A run is due, and would take the state of the context for an answer of
      session `i`. */
  predicate Ready(n: nat, evs: seq<Event>, i: nat) {
    Pending(n, evs) > 0 && LastKind(evs) == Connected && LastNumber(n, evs) == i
  }

  predicate MarkedBy(n: nat, evs: seq<Event>, i: nat) {
    exists q :: 0 <= q < |evs| && evs[q] == Run && Ready(n, evs[..q], i)
  }

  lemma MarkedNext(n: nat, pre: seq<Event>, e: Event, i: nat)
    ensures MarkedBy(n, pre + [e], i) <==> MarkedBy(n, pre, i) || (e == Run && Ready(n, pre, i))
  {
    var evs := pre + [e];
    assert evs[..|pre|] == pre;
    assert forall q :: 0 <= q < |pre| ==> evs[..q] == pre[..q] && evs[q] == pre[q];
    if MarkedBy(n, pre, i) {
      var q :| 0 <= q < |pre| && pre[q] == Run && Ready(n, pre[..q], i);
      assert evs[q] == Run && Ready(n, evs[..q], i);
    }
    if e == Run && Ready(n, pre, i) { assert evs[|pre|] == Run && Ready(n, evs[..|pre|], i); }
  }

  // -------------------------------------------------------------- invariants

  /** Sessions keep the number and the peer that START gave them. */
  ghost predicate Numbered(ss: seq<Session>, ps: seq<nat>) {
    && |ss| == |ps|
    && forall i :: 0 <= i < |ps| ==> ss[i].number == Byte(i) && ss[i].peer == ps[i]
  }

  /** Exactly the sessions that some run took an answer for are marked. */
  ghost predicate MarksExact(ss: seq<Session>, evs: seq<Event>) {
    forall i: nat :: i < |ss| ==> (ss[i].connected <==> i < 256 && MarkedBy(|ss|, evs, i))
  }

  ghost predicate Inv(c: Initiator, ps: seq<nat>, primary: nat, evs: seq<Event>) {
    && Numbered(c.sessions, ps) && MarksExact(c.sessions, evs) && c.primary == primary
    && c.ptype == LastKind(evs) && c.runs == Pending(|ps|, evs)
    && (c.state == 2 || c.state == 250) && (c.state == 2 ==> c.session == LastNumber(|ps|, evs))
    && (ps != [] ==> (c.endings > 0 || c.state == 250 <==> AllConnected(c.sessions)))
    && (c.state == 250 <==> SentEnding(c)) && EndingsToPrimary(c.sent, ps, primary)
    && (c.role == BackupRouter ==> SentEnding(c) && KindArrived(evs, Resumed))
  }

  /** The number looked up for a peer depends only on numbers and peers, and
      not on the default once the peer has a session. */
  lemma {:induction false} NumberOfStable(a: seq<Session>, b: seq<Session>, peer: nat, d1: nat, d2: nat)
    requires |a| == |b|
    requires forall i :: 0 <= i < |a| ==> a[i].number == b[i].number && a[i].peer == b[i].peer
    requires exists i :: 0 <= i < |a| && a[i].peer == peer
    ensures NumberOf(a, peer, d1) == NumberOf(b, peer, d2)
    ensures exists i :: 0 <= i < |a| && a[i].peer == peer && a[i].number == NumberOf(a, peer, d1)
  {
    var n := |a| - 1;
    if a[n].peer != peer {
      NumberOfStable(a[..n], b[..n], peer, d1, d2);
      var i :| 0 <= i < n && a[..n][i].peer == peer && a[..n][i].number == NumberOf(a[..n], peer, d1);
      assert a[i] == a[..n][i];
    }
  }

  lemma NumberOfOpened(ss: seq<Session>, ps: seq<nat>, primary: nat, dflt: nat)
    requires Numbered(ss, ps)
    ensures primary in ps ==> NumberOf(ss, primary, dflt) == NumberOf(Opened(ps), primary, 0)
    ensures primary in ps ==> NumberOf(ss, primary, dflt) < 256
  {
    if primary in ps {
      var i :| 0 <= i < |ps| && ps[i] == primary;
      assert ss[i].peer == primary;
      NumberOfStable(ss, Opened(ps), primary, dflt, 0);
    }
  }

  lemma KnownIffGiven(ss: seq<Session>, ps: seq<nat>, number: nat)
    requires Numbered(ss, ps)
    ensures Known(ss, number) <==> Given(|ps|, number)
  {
    if Given(|ps|, number) { assert ss[number].number == number; }
  }

  /** The marking loop finds the session itself: 256 and later share their number
      with an earlier one. */
  lemma MarkedIsNumber(ss: seq<Session>, ps: seq<nat>, number: nat)
    requires Numbered(ss, ps)
    ensures Given(|ps|, number) ==> MarkFirst(ss, number) == ss[number := ss[number].(connected := true)]
    ensures !Given(|ps|, number) ==> MarkFirst(ss, number) == ss
  {
    if Given(|ps|, number) { assert ss[number].number == number; }
    var k := FirstIndex(ss, number);
    if k < |ss| { assert ss[Byte(k)].number == ss[k].number; }
  }

  lemma {:induction false} LastNumberGiven(n: nat, evs: seq<Event>)
    ensures n > 0 ==> Given(n, LastNumber(n, evs))
  {
    if evs != [] { LastNumberGiven(n, evs[..|evs| - 1]); }
  }

  lemma KindArrivedGrows(pre: seq<Event>, e: Event, k: ResumeKind)
    ensures KindArrived(pre, k) || (e.Arrive? && e.msg.kind == k) ==> KindArrived(pre + [e], k)
  {
    var evs := pre + [e];
    assert evs[|pre|] == e;
    if KindArrived(pre, k) {
      var i :| 0 <= i < |pre| && pre[i].Arrive? && pre[i].msg.kind == k;
      assert evs[i] == pre[i];
    }
  }

  lemma {:induction false} LastKindArrived(evs: seq<Event>)
    ensures LastKind(evs) != Start ==> KindArrived(evs, LastKind(evs))
  {
    if evs != [] {
      var pre := evs[..|evs| - 1];
      LastKindArrived(pre);
      assert evs == pre + [evs[|evs| - 1]];
      KindArrivedGrows(pre, evs[|evs| - 1], LastKind(pre));
    }
  }

  /** Nothing is marked by an event that is no effective run. */
  lemma MarksStay(ss: seq<Session>, pre: seq<Event>, e: Event)
    requires MarksExact(ss, pre) && (e != Run || Pending(|ss|, pre) == 0)
    ensures MarksExact(ss, pre + [e])
  {
    forall i: nat | i < |ss| ensures MarkedBy(|ss|, pre + [e], i) <==> MarkedBy(|ss|, pre, i) {
      MarkedNext(|ss|, pre, e, i);
    }
  }

  lemma ListsNext(n: nat, pre: seq<Event>, e: Event)
    ensures LastKind(pre + [e]) == if Reaches(e) then e.msg.kind else LastKind(pre)
    ensures LastNumber(n, pre + [e])
            == if Reaches(e) && Given(n, e.msg.number) then e.msg.number else LastNumber(n, pre)
    ensures Pending(n, pre + [e])
            == if Schedules(n, e) then Pending(n, pre) + 1
               else if e == Run && Pending(n, pre) > 0 then Pending(n, pre) - 1 else Pending(n, pre)
  {
    assert (pre + [e])[..|pre|] == pre;
  }

  lemma ArrivalKeepsInv(c: Initiator, ps: seq<nat>, primary: nat, pre: seq<Event>, m: ResumeMessage)
    requires Inv(c, ps, primary, pre)
    ensures Inv(Arrived(c, m), ps, primary, pre + [Arrive(m)])
  {
    ListsNext(|ps|, pre, Arrive(m));
    MarksStay(c.sessions, pre, Arrive(m));
    KnownIffGiven(c.sessions, ps, m.number);
    KindArrivedGrows(pre, Arrive(m), Resumed);
    hide MarksExact, Known, Given, EndingsToPrimary, Numbered, LastKind, LastNumber, Pending, KindArrived;
  }

  lemma StutterKeepsInv(c: Initiator, ps: seq<nat>, primary: nat, pre: seq<Event>, e: Event)
    requires Inv(c, ps, primary, pre) && !e.Arrive? && (e == Run ==> c.runs == 0)
    ensures Inv(c, ps, primary, pre + [e])
  {
    ListsNext(|ps|, pre, e);
    MarksStay(c.sessions, pre, e);
    KindArrivedGrows(pre, e, Resumed);
    hide MarksExact, Given, EndingsToPrimary, Numbered, LastKind, LastNumber, Pending, KindArrived;
  }

  lemma EndingKeepsInv(c: Initiator, ps: seq<nat>, primary: nat, pre: seq<Event>)
    requires Inv(c, ps, primary, pre) && c.endings > 0
    ensures Inv(EndingSent(c), ps, primary, pre + [SendEnding])
  {
    ListsNext(|ps|, pre, SendEnding);
    MarksStay(c.sessions, pre, SendEnding);
    KindArrivedGrows(pre, SendEnding, Resumed);
    NumberOfOpened(c.sessions, ps, primary, c.session);
    assert EndingSent(c).sent[|c.sent|].msg.kind == Ending;
    hide MarksExact, Given, Numbered, LastKind, LastNumber, Pending, KindArrived, NumberOf, Opened;
  }

  /** What an effective run does to the marks. */
  lemma RunMarks(c: Initiator, ps: seq<nat>, primary: nat, pre: seq<Event>)
    requires Inv(c, ps, primary, pre) && c.runs > 0
    ensures Numbered(Ran(c).sessions, ps) && MarksExact(Ran(c).sessions, pre + [Run])
  {
    var n := |ps|;
    MarkedIsNumber(c.sessions, ps, c.session);
    if n > 0 { LastNumberGiven(n, pre); }
    forall i: nat | i < n
      ensures Ran(c).sessions[i].connected <==> i < 256 && MarkedBy(n, pre + [Run], i)
    {
      MarkedNext(n, pre, Run, i);
      assert c.sessions[i].connected <==> i < 256 && MarkedBy(n, pre, i);
      hide MarkedBy, MarkFirst, LastKind, LastNumber, Pending;
    }
  }

  lemma RunKeepsInv(c: Initiator, ps: seq<nat>, primary: nat, pre: seq<Event>)
    requires Inv(c, ps, primary, pre) && c.runs > 0
    ensures Inv(Ran(c), ps, primary, pre + [Run])
  {
    RunMarks(c, ps, primary, pre);
    ListsNext(|ps|, pre, Run);
    LastKindArrived(pre);
    KindArrivedGrows(pre, Run, Resumed);
    MarkedIsNumber(c.sessions, ps, c.session);
    hide MarksExact, Given, EndingsToPrimary, Numbered, LastKind, LastNumber, Pending, KindArrived, MarkFirst;
  }

  lemma BeginInv(ps: seq<nat>, primary: nat)
    ensures Inv(Begin(ps, primary), ps, primary, [])
  {
    if ps != [] { assert !Begin(ps, primary).sessions[0].connected; }
  }

  lemma {:induction false} RunsKeepInv(ps: seq<nat>, primary: nat, evs: seq<Event>)
    ensures Inv(After(ps, primary, evs), ps, primary, evs)
  {
    if evs == [] {
      BeginInv(ps, primary);
    } else {
      var pre, e := evs[..|evs| - 1], evs[|evs| - 1];
      RunsKeepInv(ps, primary, pre);
      var c := After(ps, primary, pre);
      assert evs == pre + [e];
      hide Inv, Arrived, Ran, EndingSent;
      if e.Arrive? {
        ArrivalKeepsInv(c, ps, primary, pre, e.msg);
      } else if e == Run && c.runs > 0 {
        RunKeepsInv(c, ps, primary, pre);
      } else if e == SendEnding && c.endings > 0 {
        EndingKeepsInv(c, ps, primary, pre);
      } else {
        StutterKeepsInv(c, ps, primary, pre, e);
      }
    }
  }

  // ------------------------------------------------------- who gets marked

  /** Over every run, whatever arrives and whenever runs happen: a session is
      marked exactly when some effective run found a CONNECTED as the last packet
      and the session's number as the last one given out. */
  lemma MarkedIff(ps: seq<nat>, primary: nat, evs: seq<Event>, i: nat)
    requires i < |ps|
    ensures |After(ps, primary, evs).sessions| == |ps|
    ensures After(ps, primary, evs).sessions[i].connected <==> i < 256 && MarkedBy(|ps|, evs, i)
  {
    RunsKeepInv(ps, primary, evs);
  }

  /** ENDING has been scheduled or sent exactly when every session is marked so. */
  lemma EndingScheduledIff(ps: seq<nat>, primary: nat, evs: seq<Event>)
    requires ps != []
    ensures var c := After(ps, primary, evs);
            c.endings > 0 || SentEnding(c)
            <==> |ps| <= 256 && forall i: nat :: i < |ps| ==> MarkedBy(|ps|, evs, i)
  {
    RunsKeepInv(ps, primary, evs);
    var c := After(ps, primary, evs);
    if AllConnected(c.sessions) { assert c.sessions[|ps| - 1].connected; }
  }

  /** The steps down and the destination, for every run. */
  lemma EndingGoesToPrimary(ps: seq<nat>, primary: nat, evs: seq<Event>)
    ensures var c := After(ps, primary, evs);
      && EndingsToPrimary(c.sent, ps, primary)
      && (c.role == BackupRouter ==> SentEnding(c) && KindArrived(evs, Resumed))
  {
    RunsKeepInv(ps, primary, evs);
  }

  // ------------------------------------------------------------- with echo

  /** Peers echo: every CONNECTED that arrives carries a number START gave out. */
  predicate Echoing(ps: seq<nat>, evs: seq<Event>) {
    forall i :: 0 <= i < |evs| && evs[i].Arrive? && evs[i].msg.kind == Connected
      ==> Given(|ps|, evs[i].msg.number)
  }

  /** The answer of session `i` at `p` is still the last packet when the run at
      `q` comes. */
  predicate AnsweredAt(evs: seq<Event>, i: nat, p: nat, q: nat) {
    && p < q < |evs| && evs[p] == Arrive(ResumeMessage(Connected, i)) && evs[q] == Run
    && forall k :: p < k < q ==> !Reaches(evs[k])
  }

  ghost predicate Answered(evs: seq<Event>, i: nat) {
    exists p: nat, q: nat :: AnsweredAt(evs, i, p, q)
  }

  /** Where the last packet came from. */
  lemma {:induction false} LastPacket(n: nat, evs: seq<Event>) returns (p: nat)
    requires LastKind(evs) == Connected
    requires forall k :: 0 <= k < |evs| && evs[k].Arrive? && evs[k].msg.kind == Connected
               ==> Given(n, evs[k].msg.number)
    ensures p < |evs| && evs[p] == Arrive(ResumeMessage(Connected, LastNumber(n, evs)))
    ensures forall k :: p < k < |evs| ==> !Reaches(evs[k])
  {
    var e := evs[|evs| - 1];
    if Reaches(e) {
      p := |evs| - 1;
    } else {
      var pre := evs[..|evs| - 1];
      assert forall k :: 0 <= k < |pre| ==> pre[k] == evs[k];
      p := LastPacket(n, pre);
    }
  }

  /** Right after an answer, and until the next packet, a run is due for it. */
  lemma {:induction false} ReadyAfterAnswer(n: nat, evs: seq<Event>, i: nat, p: nat)
    requires p < |evs| && evs[p] == Arrive(ResumeMessage(Connected, i)) && Given(n, i)
    requires forall k :: p < k < |evs| ==> !Reaches(evs[k]) && evs[k] != Run
    ensures Ready(n, evs, i)
  {
    var pre := evs[..|evs| - 1];
    if p < |evs| - 1 {
      assert forall k :: 0 <= k < |pre| ==> pre[k] == evs[k];
      ReadyAfterAnswer(n, pre, i, p);
    }
  }

  lemma FirstRun(evs: seq<Event>, p: nat, q: nat) returns (r: nat)
    requires p < q < |evs| && evs[q] == Run
    ensures p < r <= q && evs[r] == Run && forall k :: p < k < r ==> evs[k] != Run
  {
    r := p + 1;
    while evs[r] != Run
      invariant p < r <= q && forall k :: p < k < r ==> evs[k] != Run
      decreases q - r
    {
      r := r + 1;
    }
  }

  lemma MarkedByIffAnswered(ps: seq<nat>, evs: seq<Event>, i: nat)
    requires Echoing(ps, evs) && Given(|ps|, i)
    ensures MarkedBy(|ps|, evs, i) <==> Answered(evs, i)
  {
    if MarkedBy(|ps|, evs, i) {
      var q: nat :| q < |evs| && evs[q] == Run && Ready(|ps|, evs[..q], i);
      var p := LastPacket(|ps|, evs[..q]);
      assert AnsweredAt(evs, i, p, q);
    }
    if p: nat, q: nat :| AnsweredAt(evs, i, p, q) {
      var r := FirstRun(evs, p, q);
      ReadyAfterAnswer(|ps|, evs[..r], i, p);
    }
  }

  /** Under echo a session is marked exactly when an answer of it was followed by
      a run before any other packet: other schedules lose it. */
  lemma MarkedIffAnswered(ps: seq<nat>, primary: nat, evs: seq<Event>, i: nat)
    requires Echoing(ps, evs) && i < |ps| && |ps| <= 256
    ensures |After(ps, primary, evs).sessions| == |ps|
    ensures After(ps, primary, evs).sessions[i].connected <==> Answered(evs, i)
  {
    MarkedIff(ps, primary, evs, i);
    MarkedByIffAnswered(ps, evs, i);
  }

  /** ENDING is scheduled exactly when every session has such an answer. */
  lemma EndingIffAllAnswered(ps: seq<nat>, primary: nat, evs: seq<Event>)
    requires Echoing(ps, evs) && ps != []
    ensures var c := After(ps, primary, evs);
            c.endings > 0 || SentEnding(c)
            <==> |ps| <= 256 && forall i: nat :: i < |ps| ==> Answered(evs, i)
  {
    EndingScheduledIff(ps, primary, evs);
    if |ps| <= 256 {
      forall i: nat | i < |ps| ensures MarkedBy(|ps|, evs, i) <==> Answered(evs, i) {
        MarkedByIffAnswered(ps, evs, i);
      }
    }
  }

  /** ENDING is sent only after a CONNECTED for every opened session has
      arrived, always to the primary and with the number START gave it; the
      backup steps down only after ENDING went out and RESUMED came in. */
  lemma EndingIsSafe(ps: seq<nat>, primary: nat, evs: seq<Event>)
    requires Echoing(ps, evs)
    ensures SentEnding(After(ps, primary, evs)) ==>
              && |ps| <= 256
              && forall i :: 0 <= i < |ps| ==> HasArrived(evs, ResumeMessage(Connected, i))
    ensures var sent := After(ps, primary, evs).sent;
            forall i :: 0 <= i < |sent| && sent[i].msg.kind == Ending ==>
              && sent[i].peer == primary
              && forall k :: 0 <= k < |ps| && ps[k] == primary && (forall j :: k < j < |ps| ==> ps[j] != primary) ==>
                   sent[i].msg.number == k % 256
    ensures After(ps, primary, evs).role == BackupRouter ==>
              SentEnding(After(ps, primary, evs)) && KindArrived(evs, Resumed)
  {
    EndingGoesToPrimary(ps, primary, evs);
    forall k | 0 <= k < |ps| && ps[k] == primary && (forall j :: k < j < |ps| ==> ps[j] != primary)
      ensures NumberOf(Opened(ps), primary, 0) == k % 256
    {
      NumberOfLast(Opened(ps), primary, 0, k);
    }
    if ps != [] {
      EndingIffAllAnswered(ps, primary, evs);
      forall i: nat | Answered(evs, i) ensures HasArrived(evs, ResumeMessage(Connected, i)) {
        var p: nat, q: nat :| AnsweredAt(evs, i, p, q);
      }
    }
  }

  /** Both answers of a two-server cell arrive before the runs they schedule. */
  predicate Overlapping(evs: seq<Event>) {
    evs == [Arrive(ResumeMessage(Connected, 0)), Arrive(ResumeMessage(Connected, 1)), Run, Run]
  }

  lemma EchoingJoins(ps: seq<nat>, evs: seq<Event>, more: seq<Event>)
    requires Echoing(ps, evs) && Echoing(ps, more)
    ensures Echoing(ps, evs + more)
  {
  }

  lemma LostAnswer(evs: seq<Event>, more: seq<Event>, a: Event, b: Event, p: nat, q: nat)
    requires a == Arrive(ResumeMessage(Connected, 0)) && b == Arrive(ResumeMessage(Connected, 1))
    requires evs == [a, b, Run, Run] && !HasArrived(more, ResumeMessage(Connected, 0))
    ensures !AnsweredAt(evs + more, 0, p, q)
  {
    var all := evs + more;
    assert all[0] == a && all[1] == b && all[2] == Run && all[3] == Run && Reaches(all[1]);
    if 4 <= p < |all| {
      assert all[p] == more[p - 4];
    }
  }

  lemma FourEvents(n: nat, a: Event, b: Event)
    requires Schedules(n, a) && Schedules(n, b)
    ensures Pending(n, [a, b, Run, Run]) == 0
  {
    ListsNext(n, [], a);
    ListsNext(n, [a], b);
    ListsNext(n, [a, b], Run);
    ListsNext(n, [a, b, Run], Run);
    assert [] + [a] == [a] && [a] + [b] == [a, b] && [a, b] + [Run] == [a, b, Run];
    assert [a, b, Run] + [Run] == [a, b, Run, Run];
  }

  /** Every scheduled run is over, and yet no future sends ENDING unless session 0
      answers once more: the second arrival overwrote the first. */
  lemma OverwrittenAnswerIsLost(ps: seq<nat>, primary: nat, evs: seq<Event>, more: seq<Event>)
    requires |ps| == 2 && Overlapping(evs) && Echoing(ps, more)
    ensures After(ps, primary, evs).runs == 0
    ensures !HasArrived(more, ResumeMessage(Connected, 0)) ==> !SentEnding(After(ps, primary, evs + more))
  {
    RunsKeepInv(ps, primary, evs);
    FourEvents(|ps|, evs[0], evs[1]);
    hide After, Pending;
    if !HasArrived(more, ResumeMessage(Connected, 0)) {
      assert Echoing(ps, evs + more) by { EchoingJoins(ps, evs, more); }
      EndingIffAllAnswered(ps, primary, evs + more);
      forall p: nat, q: nat ensures !AnsweredAt(evs + more, 0, p, q) {
        LostAnswer(evs, more, evs[0], evs[1], p, q);
      }
      assert !Answered(evs + more, 0);
    }
  }

  // ------------------------------------------------- without echo, exactly

  /** The peers send only packets from this set. */
  predicate FromPeers(allowed: set<ResumeMessage>, evs: seq<Event>) {
    forall k :: 0 <= k < |evs| && evs[k].Arrive? ==> evs[k].msg in allowed
  }

  /** A CONNECTED with a number that nobody was given. */
  predicate Stray(n: nat, m: ResumeMessage) {
    m.kind == Connected && !Given(n, m.number)
  }

  /** A packet that schedules a run with session `i` as the current one, though it
      is no answer; session 0 is current to begin with. */
  predicate Diverts(n: nat, m: ResumeMessage, i: nat) {
    && m.kind != Start && m.kind != Connected
    && ((Given(n, i) && m.number == i) || (i == 0 && m.kind == Resumed && !Given(n, m.number)))
  }

  /** Session `i` can be marked without an answer of its own. */
  predicate Diverted(n: nat, allowed: set<ResumeMessage>, i: nat) {
    (exists x :: x in allowed && Stray(n, x)) && exists m :: m in allowed && Diverts(n, m, i)
  }

  predicate CanMark(n: nat, allowed: set<ResumeMessage>, i: nat) {
    ResumeMessage(Connected, i) in allowed || Diverted(n, allowed, i)
  }

  /** Some session can be marked without its answer, and the others at all. */
  predicate Foolable(n: nat, allowed: set<ResumeMessage>) {
    && n <= 256 && (exists i :: 0 <= i < n && Diverted(n, allowed, i))
    && forall i :: 0 <= i < n ==> CanMark(n, allowed, i)
  }

  /** Where the current session number came from. */
  lemma {:induction false} NumberSource(n: nat, evs: seq<Event>)
    ensures
      || (exists k :: 0 <= k < |evs| && Reaches(evs[k]) && Given(n, evs[k].msg.number)
                      && evs[k].msg.number == LastNumber(n, evs))
      || (LastNumber(n, evs) == 0 && forall k :: 0 <= k < |evs| && Reaches(evs[k]) ==> !Given(n, evs[k].msg.number))
  {
    if evs != [] {
      var pre := evs[..|evs| - 1];
      NumberSource(n, pre);
      assert forall k :: 0 <= k < |pre| ==> pre[k] == evs[k];
    }
  }

  lemma {:induction false} PendingSource(n: nat, evs: seq<Event>)
    ensures Pending(n, evs) > 0 ==> exists k :: 0 <= k < |evs| && Schedules(n, evs[k])
  {
    if evs != [] {
      var pre := evs[..|evs| - 1];
      PendingSource(n, pre);
      assert forall k :: 0 <= k < |pre| ==> pre[k] == evs[k];
    }
  }

  lemma {:induction false} KindSource(evs: seq<Event>)
    ensures LastKind(evs) == Connected ==>
              exists k :: 0 <= k < |evs| && Reaches(evs[k]) && evs[k].msg.kind == Connected
                          && forall n :: Given(n, evs[k].msg.number) ==> LastNumber(n, evs) == evs[k].msg.number
  {
    if evs != [] && !Reaches(evs[|evs| - 1]) {
      var pre := evs[..|evs| - 1];
      KindSource(pre);
      assert forall k :: 0 <= k < |pre| ==> pre[k] == evs[k];
    }
  }

  /** A run that marks a session was prepared by its answer or by a diversion. */
  lemma MarkSource(n: nat, allowed: set<ResumeMessage>, evs: seq<Event>, i: nat)
    requires FromPeers(allowed, evs) && Ready(n, evs, i)
    ensures HasArrived(evs, ResumeMessage(Connected, i)) || Diverted(n, allowed, i)
  {
    KindSource(evs);
    NumberSource(n, evs);
    PendingSource(n, evs);
    var k :| 0 <= k < |evs| && Reaches(evs[k]) && evs[k].msg.kind == Connected
             && forall n :: Given(n, evs[k].msg.number) ==> LastNumber(n, evs) == evs[k].msg.number;
    if Given(n, evs[k].msg.number) {
      assert evs[k] == Arrive(ResumeMessage(Connected, i));
    } else {
      assert evs[k].msg in allowed && Stray(n, evs[k].msg);
      if g :| 0 <= g < |evs| && Reaches(evs[g]) && Given(n, evs[g].msg.number) && evs[g].msg.number == i {
        if evs[g].msg.kind == Connected {
          assert evs[g] == Arrive(ResumeMessage(Connected, i));
        } else {
          assert evs[g].msg in allowed && Diverts(n, evs[g].msg, i);
        }
      } else {
        var s :| 0 <= s < |evs| && Schedules(n, evs[s]);
        assert evs[s].msg in allowed && Diverts(n, evs[s].msg, i);
      }
    }
  }

  /** One round of a run that marks session `i`: by its answer, or by diversion. */
  lemma RoundByAnswer(n: nat, evs: seq<Event>, i: nat)
    requires Given(n, i)
    ensures Ready(n, evs + [Arrive(ResumeMessage(Connected, i))], i)
  {
    ListsNext(n, evs, Arrive(ResumeMessage(Connected, i)));
  }

  lemma RoundByDiversion(n: nat, evs: seq<Event>, i: nat, m: ResumeMessage, x: ResumeMessage)
    requires Given(n, i) && Diverts(n, m, i) && Stray(n, x) && (i == 0 ==> evs == [])
    ensures Ready(n, evs + [Arrive(m)] + [Arrive(x)], i)
  {
    ListsNext(n, evs, Arrive(m));
    ListsNext(n, evs + [Arrive(m)], Arrive(x));
  }

  lemma MarkedByRound(n: nat, evs: seq<Event>, round: seq<Event>, i: nat)
    requires Ready(n, evs + round, i)
    ensures MarkedBy(n, evs + round + [Run], i)
    ensures forall j: nat :: MarkedBy(n, evs, j) ==> MarkedBy(n, evs + round + [Run], j)
  {
    MarkedNext(n, evs + round, Run, i);
    forall j: nat | MarkedBy(n, evs, j) ensures MarkedBy(n, evs + round + [Run], j) {
      var q :| 0 <= q < |evs| && evs[q] == Run && Ready(n, evs[..q], j);
      var all := evs + round + [Run];
      assert all[..q] == evs[..q] && all[q] == Run;
    }
  }

  /** A run of permitted packets that marks sessions 0 to `k - 1`, none of them by
      an answer of session `j`. */
  lemma PermittedRound(n: nat, allowed: set<ResumeMessage>, j: nat, before: seq<Event>, i: nat)
    returns (round: seq<Event>)
    requires Diverted(n, allowed, j) && CanMark(n, allowed, i) && Given(n, i) && Given(n, j)
    requires i == 0 ==> before == []
    ensures FromPeers(allowed, round) && !HasArrived(round, ResumeMessage(Connected, j))
    ensures Ready(n, before + round, i)
  {
    if i != j && ResumeMessage(Connected, i) in allowed {
      round := [Arrive(ResumeMessage(Connected, i))];
      RoundByAnswer(n, before, i);
    } else {
      assert Diverted(n, allowed, i);
      var x :| x in allowed && Stray(n, x);
      var m :| m in allowed && Diverts(n, m, i);
      round := [Arrive(m)] + [Arrive(x)];
      RoundByDiversion(n, before, i, m, x);
      assert before + [Arrive(m)] + [Arrive(x)] == before + round;
    }
  }

  lemma {:induction false} BuildRounds(n: nat, allowed: set<ResumeMessage>, j: nat, k: nat) returns (evs: seq<Event>)
    requires Foolable(n, allowed) && j < n && Diverted(n, allowed, j) && k <= n
    ensures FromPeers(allowed, evs) && !HasArrived(evs, ResumeMessage(Connected, j))
    ensures forall i: nat :: i < k ==> MarkedBy(n, evs, i)
    ensures k == 0 ==> evs == []
  {
    if k == 0 {
      evs := [];
    } else {
      var before := BuildRounds(n, allowed, j, k - 1);
      assert CanMark(n, allowed, k - 1);
      var round := PermittedRound(n, allowed, j, before, k - 1);
      MarkedByRound(n, before, round, k - 1);
      evs := before + round + [Run];
      hide Ready, MarkedBy, Foolable, Diverted, CanMark;
    }
  }

  lemma FooledRun(ps: seq<nat>, primary: nat, allowed: set<ResumeMessage>) returns (evs: seq<Event>, j: nat)
    requires Foolable(|ps|, allowed)
    ensures FromPeers(allowed, evs) && SentEnding(After(ps, primary, evs))
    ensures j < |ps| && !HasArrived(evs, ResumeMessage(Connected, j))
  {
    j :| j < |ps| && Diverted(|ps|, allowed, j);
    evs := BuildRounds(|ps|, allowed, j, |ps|);
    EndingScheduledIff(ps, primary, evs);
    var c := After(ps, primary, evs);
    if !SentEnding(c) {
      AfterSnoc(ps, primary, evs, SendEnding);
      assert EndingSent(c).sent[|c.sent|].msg.kind == Ending;
      evs := evs + [SendEnding];
    }
  }

  lemma UnfooledRun(ps: seq<nat>, primary: nat, allowed: set<ResumeMessage>, evs: seq<Event>, i: nat)
    requires FromPeers(allowed, evs) && SentEnding(After(ps, primary, evs)) && i < |ps|
    requires !Foolable(|ps|, allowed)
    ensures HasArrived(evs, ResumeMessage(Connected, i))
  {
    EndingScheduledIff(ps, primary, evs);
    forall k: nat | k < |ps|
      ensures HasArrived(evs, ResumeMessage(Connected, k)) || Diverted(|ps|, allowed, k)
      ensures CanMark(|ps|, allowed, k)
    {
      assert MarkedBy(|ps|, evs, k);
      var q :| 0 <= q < |evs| && evs[q] == Run && Ready(|ps|, evs[..q], k);
      MarkSource(|ps|, allowed, evs[..q], k);
      if HasArrived(evs[..q], ResumeMessage(Connected, k)) {
        var p :| 0 <= p < q && evs[..q][p] == Arrive(ResumeMessage(Connected, k));
        assert evs[p] == Arrive(ResumeMessage(Connected, k));
      }
    }
  }

  /** Safety by what the peers may send: no run of permitted packets sends ENDING
      without the answer of some session, exactly when no session can be marked by
      diversion with the others marked too.  Peers that echo, and peers that send
      nothing but CONNECTED, are safe; see `EchoIsSafe`. */
  lemma SafeIffNotFoolable(ps: seq<nat>, primary: nat, allowed: set<ResumeMessage>)
    ensures (forall evs, i: nat :: FromPeers(allowed, evs) && SentEnding(After(ps, primary, evs)) && i < |ps|
               ==> HasArrived(evs, ResumeMessage(Connected, i)))
            <==> !Foolable(|ps|, allowed)
  {
    if Foolable(|ps|, allowed) {
      var evs, j := FooledRun(ps, primary, allowed);
    } else {
      forall evs, i: nat | FromPeers(allowed, evs) && SentEnding(After(ps, primary, evs)) && i < |ps|
        ensures HasArrived(evs, ResumeMessage(Connected, i))
      {
        UnfooledRun(ps, primary, allowed, evs, i);
      }
    }
  }

  /** Peers that echo, or that send CONNECTED only, fool nobody. */
  lemma EchoIsSafe(n: nat, allowed: set<ResumeMessage>)
    requires (forall m :: m in allowed ==> !Stray(n, m)) || (forall m :: m in allowed ==> m.kind == Connected)
    ensures !Foolable(n, allowed)
  {
  }

  /** And one stray number beside a packet that schedules a run does. */
  lemma StrayNumberMarksWrongSession(ps: seq<nat>, primary: nat)
    requires |ps| == 1
    ensures var allowed := {ResumeMessage(Ending, 0), ResumeMessage(Connected, 9)};
      && Foolable(|ps|, allowed)
      && exists evs :: FromPeers(allowed, evs) && SentEnding(After(ps, primary, evs))
                       && !HasArrived(evs, ResumeMessage(Connected, 0))
  {
    var allowed := {ResumeMessage(Ending, 0), ResumeMessage(Connected, 9)};
    assert Stray(1, ResumeMessage(Connected, 9)) && Diverts(1, ResumeMessage(Ending, 0), 0);
    assert Diverted(1, allowed, 0);
    var evs, j := FooledRun(ps, primary, allowed);
  }

  /** With no session open nothing is ever scheduled but RESUMED runs. */
  lemma {:induction false} NothingWithoutSessions(primary: nat, evs: seq<Event>)
    requires Echoing([], evs)
    ensures After([], primary, evs).sessions == []
    ensures After([], primary, evs).ptype != Connected
    ensures After([], primary, evs).endings == 0 && !SentEnding(After([], primary, evs))
  {
    if evs != [] {
      var pre, e := evs[..|evs| - 1], evs[|evs| - 1];
      assert forall i :: 0 <= i < |pre| ==> pre[i] == evs[i];
      NothingWithoutSessions(primary, pre);
    }
  }

  /** Every session answers, each answer run before the next arrives. */
  lemma {:induction false} SerialAnswers(n: nat, k: nat) returns (evs: seq<Event>)
    requires k <= n <= 256
    ensures forall i :: 0 <= i < |evs| && evs[i].Arrive? ==> Given(n, evs[i].msg.number)
    ensures forall i: nat :: i < k ==> MarkedBy(n, evs, i)
  {
    evs := [];
    if k > 0 {
      var before := SerialAnswers(n, k - 1);
      RoundByAnswer(n, before, k - 1);
      MarkedByRound(n, before, [Arrive(ResumeMessage(Connected, k - 1))], k - 1);
      evs := before + [Arrive(ResumeMessage(Connected, k - 1))] + [Run];
    }
  }

  lemma EndingIffFromSerial(ps: seq<nat>, primary: nat, evs: seq<Event>)
    requires 1 <= |ps| <= 256 && Echoing(ps, evs)
    requires forall i: nat :: i < |ps| ==> MarkedBy(|ps|, evs, i)
    ensures exists all :: Echoing(ps, all) && SentEnding(After(ps, primary, all))
  {
    EndingScheduledIff(ps, primary, evs);
    var c := After(ps, primary, evs);
    if !SentEnding(c) {
      AfterSnoc(ps, primary, evs, SendEnding);
      assert EndingSent(c).sent[|c.sent|].msg.kind == Ending;
      assert Echoing(ps, evs + [SendEnding]);
    }
  }

  /** The hand-over can complete exactly when the session numbers, which travel
      in one byte, are distinct: up to 256 peers, and at least one. */
  lemma CanFinishIffNumbersDistinct(ps: seq<nat>, primary: nat)
    ensures (exists evs :: Echoing(ps, evs) && SentEnding(After(ps, primary, evs)))
            <==> 1 <= |ps| <= 256
  {
    if evs :| Echoing(ps, evs) && SentEnding(After(ps, primary, evs)) {
      EndingIsSafe(ps, primary, evs);
      if ps == [] { NothingWithoutSessions(primary, evs); }
    }
    if 1 <= |ps| <= 256 {
      var evs := SerialAnswers(|ps|, |ps|);
      EndingIffFromSerial(ps, primary, evs);
    }
  }

  // ----------------------------------------------- the context, as updated

  class InitiatorContext {
    var ptype: ResumeKind
    var session: nat
    var sessions: seq<Session>
    var state: nat
    const primary: nat
    var runs: nat
    var endings: nat
    var role: ServerType
    var sent: seq<Sent>

    ghost function View(): Initiator
      reads this
    {
      Initiator(ptype, session, sessions, state, primary, runs, endings, role, sent)
    }

    /** silc_server_backup_connected, followed by the first protocol run. */
    constructor (streams: seq<Stream>, primary: nat)
      ensures View() == Begin(Peers(streams), primary)
    {
      ptype, session, state := Start, 0, 1;
      this.primary := primary;
      runs, endings, role := 0, 0, Router;
      sessions, sent := [], [];
      new;
      ghost var ps := [];
      for i := 0 to |streams|
        invariant ps == Peers(streams[..i])
        invariant sessions == Opened(ps) && sent == StartPackets(ps)
        invariant ptype == Start && session == 0 && state == 1
        invariant runs == 0 && endings == 0 && role == Router
      {
        assert streams[..i + 1][..i] == streams[..i];
        var s := streams[i];
        if !s.peer.Some? || s.self || (s.conn != ConnRouter && s.conn != ConnServer) {
          continue;
        }
        if s.disabled {
          continue;
        }
        sent := sent + [Sent(s.peer.value, ResumeMessage(Start, Byte(|sessions|)))];
        sessions := sessions + [Session(Byte(|sessions|), false, s.peer.value)];
        ps := ps + [s.peer.value];
      }
      assert streams[..|streams|] == streams;
      state := state + 1;
    }

    method Receive(m: ResumeMessage)
      modifies this`ptype, this`session, this`runs
      ensures View() == Arrived(old(View()), m)
    {
      if m.kind == Start {
        return;
      }
      ptype := m.kind;
      var i := 0;
      while i < |sessions|
        invariant 0 <= i <= |sessions|
        invariant forall j :: 0 <= j < i ==> sessions[j].number != m.number
        invariant ptype == m.kind && session == old(session) && runs == old(runs)
      {
        if m.number == sessions[i].number {
          session := m.number;
          runs := runs + 1;
          return;
        }
        i := i + 1;
      }
      if m.kind == Resumed {
        runs := runs + 1;
      }
    }

    method RunProtocol()
      requires runs > 0
      modifies this`runs, this`sessions, this`endings, this`role
      ensures View() == Ran(old(View()))
    {
      runs := runs - 1;
      if state == 2 {
        if ptype != Connected {
          return;
        }
        ghost var was := sessions;
        var i := 0;
        while i < |sessions| && sessions[i].number != session
          invariant 0 <= i <= |sessions| && sessions == was
          invariant forall j :: 0 <= j < i ==> was[j].number != session
          invariant runs == old(runs) - 1 && endings == old(endings) && role == old(role)
        {
          i := i + 1;
        }
        assert i == FirstIndex(was, session);
        if i < |sessions| {
          sessions := sessions[i := sessions[i].(connected := true)];
        }
        i := 0;
        while i < |sessions|
          invariant 0 <= i <= |sessions| && sessions == MarkFirst(was, session)
          invariant forall j :: 0 <= j < i ==> sessions[j].connected
          invariant runs == old(runs) - 1 && endings == old(endings) && role == old(role)
        {
          if !sessions[i].connected {
            return;
          }
          i := i + 1;
        }
        endings := endings + 1;
      } else if state == 250 {
        if ptype != Resumed {
          return;
        }
        role := BackupRouter;
      }
    }

    method SendEndingTask()
      requires endings > 0
      modifies this`session, this`state, this`endings, this`sent
      ensures View() == EndingSent(old(View()))
    {
      endings := endings - 1;
      var i := 0;
      while i < |sessions|
        invariant 0 <= i <= |sessions|
        invariant session == NumberOf(sessions[..i], primary, old(session))
        invariant state == old(state) && endings == old(endings) - 1 && sent == old(sent)
      {
        assert sessions[..i + 1][..i] == sessions[..i];
        if sessions[i].peer == primary {
          session := sessions[i].number;
        }
        i := i + 1;
      }
      assert sessions[..|sessions|] == sessions;
      sent := sent + [Sent(primary, ResumeMessage(Ending, Byte(session)))];
      state := 250;
    }
  }
}
