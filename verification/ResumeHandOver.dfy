/** What the resuming protocol can do: a schedule that hands a cell back to its
    primary, and exactly which late answers can mislead an attempt. */
module ResumeHandOver {
  import opened Wire
  import opened ResumeNetwork
  import B = ResumeInitiator
  import R = ResumeResponder

  // -------------------------------------------------------------------- peers

  /** A normal server that lost the primary and uses the backup in its place. */
  predicate Away(n: R.Node) {
    && n.kind == NormalServer && n.backupPrimary && n.replaced && !n.linked
    && n.ctxs == [] && n.atBackup == None && n.atPrimary == None && n.connects == 0 && n.router == R.ToBackup
  }

  /** The primary, back and connected to the backup only. */
  predicate Returned(n: R.Node) {
    && n.kind == Router && !n.routeUsable && !n.backupPrimary && !n.backupClosed
    && n.ctxs == [] && n.atBackup == None && n.atPrimary == None && n.router == R.ToBackup
  }

  /** Has answered the START that gave it `number`, and waits. */
  predicate Moved(n: R.Node, number: nat) {
    && n.linked && n.replaced && n.atPrimary == Some(0)
    && n.ctxs == [R.Ctx(Start, number, Some(number), 250, R.ToPrimary, true, 0, false)]
  }

  predicate Primed(n: R.Node, number: nat) {
    && n.atBackup == Some(0) && n.ctxs == [R.Ctx(Start, number, Some(number), 2, R.ToBackup, true, 0, false)]
  }

  function StartFrom(number: nat): R.Event {
    R.Arrive(R.ToBackup, ResumeMessage(Start, number))
  }

  /** It connects to the primary and answers over the fresh link. */
  lemma AwayAnswers(n: R.Node, number: nat)
    requires Away(n)
    ensures var n1 := R.Step(n, StartFrom(number)).0;
            var n2 := R.Step(n1, R.Run(0)).0;
      && R.Step(n, StartFrom(number)).1 == R.Silent && |n1.ctxs| == 1
      && R.Step(n1, R.Run(0)).1 == R.Silent && n2.atBackup == Some(0)
      && R.Step(n2, R.Connect).1 == R.Reply(R.ToBackup, number) && Moved(R.Step(n2, R.Connect).0, number)
  {
    var n1 := R.Step(n, StartFrom(number)).0;
    assert n1 == n.(ctxs := [R.Ctx(Start, number, None, 1, R.ToBackup, true, 1, false)], atBackup := Some(0));
    hide R.Received, R.Done;
    var n2 := R.Step(n1, R.Run(0)).0;
    assert n2 == n1.(ctxs := [R.Ctx(Start, number, Some(number), 250, R.ToBackup, true, 0, false)], connects := 1);
    hide R.Ran;
  }

  lemma ReturnedAnswers(n: R.Node, number: nat)
    requires Returned(n)
    ensures var n1 := R.Step(n, StartFrom(number)).0;
      && R.Step(n, StartFrom(number)).1 == R.Silent && |n1.ctxs| == 1
      && R.Step(n1, R.Run(0)).1 == R.Reply(R.ToBackup, number) && Primed(R.Step(n1, R.Run(0)).0, number)
  {
    var n1 := R.Step(n, StartFrom(number)).0;
    assert n1 == n.(ctxs := [R.Ctx(Start, number, None, 1, R.ToBackup, true, 1, false)], atBackup := Some(0));
    hide R.Received, R.Done;
  }

  /** ENDING makes the primary announce RESUMED. */
  lemma PrimedAnnounces(n: R.Node, number: nat)
    requires Primed(n, number)
    ensures var e := R.Arrive(R.ToBackup, ResumeMessage(Ending, number));
      && R.Step(n, e).1 == R.Silent && R.Step(n, e).0.ctxs != []
      && |R.Step(n, e).0.ctxs| == 1
      && R.Step(R.Step(n, e).0, R.Run(0)).1 == R.AnnounceResumed
  {
    var e := R.Arrive(R.ToBackup, ResumeMessage(Ending, number));
    assert R.Step(n, e).0 == n.(ctxs := [R.Ctx(Ending, number, Some(number), 2, R.ToBackup, true, 1, false)]);
    hide R.Received, R.Done;
  }

  /** RESUMED over the primary's link makes a server go back to it. */
  lemma MovedSwitches(n: R.Node, number: nat)
    requires Moved(n, number)
    ensures var e := R.Arrive(R.ToPrimary, ResumeMessage(Resumed, 0));
      && R.Step(n, e).1 == R.Silent && |R.Step(n, e).0.ctxs| == 1
      && R.Step(R.Step(n, e).0, R.Run(0)).0.router == R.ToPrimary
  {
    var e := R.Arrive(R.ToPrimary, ResumeMessage(Resumed, 0));
    assert R.Step(n, e).0 == n.(ctxs := [R.Ctx(Resumed, number, Some(number), 250, R.ToPrimary, true, 1, false)]);
    hide R.Received, R.Done;
  }

  // --------------------------------------------------------------------- runs

  /** A run from `s` to `t`. */
  predicate Leads(cell: Cell, s: Net, t: Net, evs: seq<Event>, late: set<nat>) {
    After(cell, s, evs) == t && LateFrom(cell, s, evs, late)
  }

  lemma LeadsOn(cell: Cell, s: Net, t: Net, evs: seq<Event>, late: set<nat>, e: Event)
    requires Leads(cell, s, t, evs, late)
    requires Stale(cell, t, e) ==> e.p.src in late
    ensures Leads(cell, s, Step(cell, t, e), evs + [e], late)
  {
    assert (evs + [e])[..|evs|] == evs;
    hide Step, Stale;
  }

  // ---------------------------------------------------- one peer answers START

  /** The cells that can be handed back. */
  predicate Able(cell: Cell) {
    && NoRepeats(cell.ps) && 1 <= |cell.ps| <= 256
    && cell.backup !in cell.ps && cell.backup != cell.primary
  }

  /** The peer has not taken part yet. */
  predicate Idle(cell: Cell, s: Net, p: nat) {
    && p in s.nodes && Origins(s, p) == []
    && if p == cell.primary then Returned(s.nodes[p]) else Away(s.nodes[p])
  }

  predicate Replied(cell: Cell, s: Net, p: nat, number: nat) {
    && p in s.nodes
    && if p == cell.primary then Primed(s.nodes[p], number) else Moved(s.nodes[p], number)
  }

  function Answer(cell: Cell, i: nat, attempt: nat): Packet
    requires i < |cell.ps|
  {
    Packet(cell.ps[i], cell.backup, ResumeMessage(Connected, i), attempt)
  }

  function StartPacket(cell: Cell, i: nat, attempt: nat): Packet
    requires i < |cell.ps|
  {
    Packet(cell.backup, cell.ps[i], ResumeMessage(Start, i), attempt)
  }

  /** Only the node `p` has moved, and the wire has grown. */
  ghost predicate OnlyNode(s: Net, t: Net, p: nat) {
    && p in s.nodes && p in t.nodes && s.wire <= t.wire
    && t == s.(nodes := s.nodes[p := t.nodes[p]], origin := t.origin, wire := t.wire)
    && (forall q :: q != p ==> Origins(t, q) == Origins(s, q))
  }

  lemma StartDelivered(cell: Cell, s: Net, i: nat)
    requires Able(cell) && i < |cell.ps| && Idle(cell, s, cell.ps[i])
    requires StartPacket(cell, i, s.attempt) in s.wire
    requires var r := R.Step(s.nodes[cell.ps[i]], StartFrom(i)); r.1 == R.Silent && |r.0.ctxs| == 1
    ensures var p, t := cell.ps[i], Step(cell, s, Deliver(StartPacket(cell, i, s.attempt)));
      && OnlyNode(s, t, p) && t.nodes[p] == R.Step(s.nodes[p], StartFrom(i)).0 && Origins(t, p) == [s.attempt]
  {
    hide R.Step;
    assert s.nodes[cell.ps[i]].ctxs == [] && [] + [s.attempt] == [s.attempt];
    var p, t := cell.ps[i], Step(cell, s, Deliver(StartPacket(cell, i, s.attempt)));
    assert t == s.(nodes := s.nodes[p := t.nodes[p]], origin := s.origin[p := [s.attempt]], wire := t.wire);
    assert t.wire == s.wire;
  }

  lemma LocalRuns(cell: Cell, s: Net, p: nat, e: R.Event)
    requires p in s.nodes && !e.Arrive?
    ensures var t := Step(cell, s, Local(p, e));
      && OnlyNode(s, t, p) && t.nodes[p] == R.Step(s.nodes[p], e).0 && Origins(t, p) == Origins(s, p)
      && t.wire == s.wire + Emitted(cell, s, p, t.nodes[p], R.Step(s.nodes[p], e).1, AttemptOf(s, p, e))
  {
    hide R.Step, Emitted;
  }

  lemma OnlyNodeTwice(s: Net, t: Net, u: Net, p: nat)
    requires OnlyNode(s, t, p) && OnlyNode(t, u, p)
    ensures OnlyNode(s, u, p)
  {
  }

  /** START, its run and, for a normal server, the connection: the answer is out. */
  lemma PeerReplies(cell: Cell, s0: Net, s: Net, evs: seq<Event>, late: set<nat>, i: nat)
    returns (t: Net, more: seq<Event>)
    requires Able(cell) && i < |cell.ps| && Idle(cell, s, cell.ps[i])
    requires StartPacket(cell, i, s.attempt) in s.wire && Leads(cell, s0, s, evs, late)
    ensures Leads(cell, s0, t, more, late) && OnlyNode(s, t, cell.ps[i])
    ensures Replied(cell, t, cell.ps[i], i) && Answer(cell, i, s.attempt) in t.wire
    ensures Origins(t, cell.ps[i]) == [s.attempt]
  {
    var p := cell.ps[i];
    var e1, e2 := Deliver(StartPacket(cell, i, s.attempt)), Local(p, R.Run(0));
    if p == cell.primary { ReturnedAnswers(s.nodes[p], i); } else { AwayAnswers(s.nodes[p], i); }
    hide R.Step, Leads, Step;
    StartDelivered(cell, s, i);
    var t1 := Step(cell, s, e1);
    LeadsOn(cell, s0, s, evs, late, e1);
    LocalRuns(cell, t1, p, R.Run(0));
    var t2 := Step(cell, t1, e2);
    LeadsOn(cell, s0, t1, evs + [e1], late, e2);
    OnlyNodeTwice(s, t1, t2, p);
    t, more := t2, evs + [e1] + [e2];
    if p != cell.primary {
      LocalRuns(cell, t2, p, R.Connect);
      t := Step(cell, t2, Local(p, R.Connect));
      LeadsOn(cell, s0, t2, more, late, Local(p, R.Connect));
      more := more + [Local(p, R.Connect)];
      OnlyNodeTwice(s, t2, t, p);
    }
  }

  // ------------------------------------------------- the backup hears them all

  /** The sessions below `k` are marked and ENDING is not out. */
  ghost predicate Tracked(cell: Cell, s: Net, k: nat) {
    && s.init == B.After(cell.ps, cell.primary, s.log) && !B.SentEnding(s.init)
    && forall j: nat :: j < k ==> B.MarkedBy(|cell.ps|, s.log, j)
  }

  lemma RoundTracked(cell: Cell, s: Net, i: nat)
    requires Able(cell) && i < |cell.ps| && Tracked(cell, s, i)
    ensures var a := B.Arrive(ResumeMessage(Connected, i));
            Tracked(cell, s.(init := B.Step(B.Step(s.init, a), B.Run), log := s.log + [a] + [B.Run]), i + 1)
  {
    var a := B.Arrive(ResumeMessage(Connected, i));
    B.AfterSnoc(cell.ps, cell.primary, s.log, a);
    B.AfterSnoc(cell.ps, cell.primary, s.log + [a], B.Run);
    B.RoundByAnswer(|cell.ps|, s.log, i);
    B.MarkedByRound(|cell.ps|, s.log, [a], i);
    assert B.Step(B.Step(s.init, a), B.Run).sent == s.init.sent;
    hide B.After, B.MarkedBy, B.Step, B.Ready;
  }

  /** An answer arrives and the run it schedules comes next. */
  lemma AnswerTaken(cell: Cell, s0: Net, s: Net, evs: seq<Event>, late: set<nat>, i: nat, p: Packet)
    returns (t: Net, more: seq<Event>)
    requires Able(cell) && i < |cell.ps| && Tracked(cell, s, i) && Leads(cell, s0, s, evs, late)
    requires p in s.wire && p.dst == cell.backup && p.msg == ResumeMessage(Connected, i)
    requires p.attempt != s.attempt ==> p.src in late
    ensures Leads(cell, s0, t, more, late) && Tracked(cell, t, i + 1)
    ensures t == s.(init := t.init, log := t.log, answers := s.answers + [p])
  {
    var a := B.Arrive(p.msg);
    RoundTracked(cell, s, i);
    LeadsOn(cell, s0, s, evs, late, Deliver(p));
    var u := Step(cell, s, Deliver(p));
    assert u == s.(init := B.Step(s.init, a), log := s.log + [a], answers := s.answers + [p]);
    LeadsOn(cell, s0, u, evs + [Deliver(p)], late, BackupRun);
    t, more := Step(cell, u, BackupRun), evs + [Deliver(p)] + [BackupRun];
    assert t == u.(init := B.Step(u.init, B.Run), log := u.log + [B.Run]);
    hide B.Step, B.After, B.SentEnding, B.MarkedBy, Leads, Step;
  }

  /** The peers below `i` have been heard in this attempt, `skip` among them
      through its answer in the first attempt; the others have not taken part. */
  ghost predicate Progress(cell: Cell, s: Net, i: nat, skip: nat) {
    && i <= |cell.ps| && Tracked(cell, s, i)
    && (forall j :: 0 <= j < |cell.ps| ==> StartPacket(cell, j, s.attempt) in s.wire)
    && (forall j :: 0 <= j < |cell.ps| && j != skip ==>
          if j < i then Replied(cell, s, cell.ps[j], j) else Idle(cell, s, cell.ps[j]))
    && (skip < |cell.ps| ==>
          Answer(cell, skip, 0) in s.wire && forall p :: p in s.answers && p.src == cell.ps[skip] ==> p.attempt == 0)
  }

  function Skipped(cell: Cell, skip: nat): set<nat> {
    if skip < |cell.ps| then {cell.ps[skip]} else {}
  }

  lemma OneRound(cell: Cell, s0: Net, s: Net, evs: seq<Event>, i: nat, skip: nat)
    returns (t: Net, more: seq<Event>)
    requires Able(cell) && i < |cell.ps| && Progress(cell, s, i, skip)
    requires Leads(cell, s0, s, evs, Skipped(cell, skip))
    ensures Progress(cell, t, i + 1, skip) && Leads(cell, s0, t, more, Skipped(cell, skip))
    ensures t.attempt == s.attempt
    ensures skip < |cell.ps| ==> Origins(t, cell.ps[skip]) == Origins(s, cell.ps[skip])
  {
    hide Leads, Moved, Primed, Away, Returned;
    var late := Skipped(cell, skip);
    if i == skip {
      t, more := AnswerTaken(cell, s0, s, evs, late, i, Answer(cell, skip, 0));
    } else {
      var u, es := PeerReplies(cell, s0, s, evs, late, i);
      assert Tracked(cell, u, i);
      t, more := AnswerTaken(cell, s0, u, es, late, i, Answer(cell, i, s.attempt));
      forall j | 0 <= j < |cell.ps| && j != skip
        ensures if j < i + 1 then Replied(cell, t, cell.ps[j], j) else Idle(cell, t, cell.ps[j])
      {
        assert j != i ==> cell.ps[j] != cell.ps[i];
        assert Origins(t, cell.ps[j]) == Origins(u, cell.ps[j]);
      }
    }
  }

  lemma {:induction false} AllRounds(cell: Cell, s0: Net, s: Net, evs: seq<Event>, i: nat, skip: nat)
    returns (t: Net, more: seq<Event>)
    requires Able(cell) && i <= |cell.ps| && Progress(cell, s, 0, skip)
    requires Leads(cell, s0, s, evs, Skipped(cell, skip))
    ensures Progress(cell, t, i, skip) && Leads(cell, s0, t, more, Skipped(cell, skip))
    ensures t.attempt == s.attempt
    ensures skip < |cell.ps| ==> Origins(t, cell.ps[skip]) == Origins(s, cell.ps[skip])
  {
    hide Progress, Leads, Able;
    if i == 0 {
      t, more := s, evs;
    } else {
      var u, es := AllRounds(cell, s0, s, evs, i - 1, skip);
      t, more := OneRound(cell, s0, u, es, i - 1, skip);
    }
  }

  /** With all of them heard, ENDING goes out. */
  lemma EndingFollows(cell: Cell, s0: Net, s: Net, evs: seq<Event>, late: set<nat>)
    returns (t: Net, p: Packet)
    requires Able(cell) && Tracked(cell, s, |cell.ps|) && Leads(cell, s0, s, evs, late)
    ensures Leads(cell, s0, t, evs + [BackupEnding], late) && B.SentEnding(t.init)
    ensures t == s.(init := t.init, log := t.log, wire := s.wire + {p}) && p.msg.kind == Ending
  {
    B.EndingScheduledIff(cell.ps, cell.primary, s.log);
    LeadsOn(cell, s0, s, evs, late, BackupEnding);
    t := Step(cell, s, BackupEnding);
    var sent := t.init.sent[|t.init.sent| - 1];
    assert t.init.sent == s.init.sent + [sent] && sent.msg.kind == Ending;
    p := Packet(cell.backup, sent.peer, sent.msg, s.attempt);
    hide B.After, B.MarkedBy, Leads;
  }

  // --------------------------------------------- which late answers do mislead

  lemma FirstProgress(cell: Cell, s: Net, skip: nat)
    requires Able(cell) && s.init == B.Begin(cell.ps, cell.primary) && s.log == [] && s.answers == []
    requires Starts(cell, s.attempt) <= s.wire
    requires forall j :: 0 <= j < |cell.ps| && j != skip ==> Idle(cell, s, cell.ps[j])
    requires skip < |cell.ps| ==> Answer(cell, skip, 0) in s.wire
    ensures Progress(cell, s, 0, skip)
  {
    forall j | 0 <= j < |cell.ps| ensures StartPacket(cell, j, s.attempt) in s.wire {
      assert StartPacket(cell, j, s.attempt)
             == Packet(cell.backup, cell.ps[j], ResumeMessage(Start, Byte(j)), s.attempt);
    }
    hide Idle;
  }

  /** An old answer of one peer is enough: the second attempt sends ENDING though
      that peer has handled the first START only. */
  lemma LateAnswerMisleads(cell: Cell, s: Net, r: nat) returns (evs: seq<Event>)
    requires Initial(cell, s) && Able(cell) && r < |cell.ps|
    requires forall j :: 0 <= j < |cell.ps| ==> Idle(cell, s, cell.ps[j])
    ensures var t := After(cell, s, evs);
      && LateFrom(cell, s, evs, {cell.ps[r]})
      && B.SentEnding(t.init) && t.attempt == 1
      && !HasAnswer(cell, Current(t), r) && Origins(t, cell.ps[r]) == [0]
  {
    var late := {cell.ps[r]};
    FirstProgress(cell, s, |cell.ps|);
    var t0, es := PeerReplies(cell, s, s, [], late, r);
    LeadsOn(cell, s, t0, es, late, BackupRestart);
    var s1 := Step(cell, t0, BackupRestart);
    forall j | 0 <= j < |cell.ps| && j != r ensures Idle(cell, s1, cell.ps[j]) {
      assert Idle(cell, s, cell.ps[j]) && cell.ps[j] != cell.ps[r];
      assert Origins(s1, cell.ps[j]) == Origins(t0, cell.ps[j]);
    }
    FirstProgress(cell, s1, r);
    var t1, es1 := AllRounds(cell, s, s1, es + [BackupRestart], |cell.ps|, r);
    var t, p := EndingFollows(cell, s, t1, es1, late);
    evs := es1 + [BackupEnding];
  }

  lemma {:induction false} LateFromMore(cell: Cell, s: Net, evs: seq<Event>, few: set<nat>, more: set<nat>)
    requires LateFrom(cell, s, evs, few) && few <= more
    ensures LateFrom(cell, s, evs, more)
  {
    if evs != [] { LateFromMore(cell, s, evs[..|evs| - 1], few, more); }
  }

  lemma StaleFromPeer(cell: Cell, s: Net, e: Event)
    requires Inv(cell, s) && Stale(cell, s, e)
    ensures e.p.src in cell.ps
  {
    assert PacketOk(cell, s.wire, e.p);
  }

  /** Answers come from peers. */
  lemma {:induction false} NobodyLate(cell: Cell, s: Net, evs: seq<Event>, late: set<nat>)
    requires Initial(cell, s) && LateFrom(cell, s, evs, late)
    requires forall j :: 0 <= j < |cell.ps| ==> cell.ps[j] !in late
    ensures LateFrom(cell, s, evs, {})
  {
    if evs != [] {
      var pre, e := evs[..|evs| - 1], evs[|evs| - 1];
      NobodyLate(cell, s, pre, late);
      RunsKeepInv(cell, s, pre);
      hide Stale, Inv, Initial;
      if Stale(cell, After(cell, s, pre), e) { StaleFromPeer(cell, After(cell, s, pre), e); }
    }
  }

  /** Which late answers an attempt stands: in every run in which old answers are
      delivered from the servers `late` only, ENDING means that every peer answered
      this very attempt, if and only if no peer is among them. */
  lemma AttemptsSafeIff(cell: Cell, s: Net, late: set<nat>)
    requires Initial(cell, s) && Able(cell)
    requires forall j :: 0 <= j < |cell.ps| ==> Idle(cell, s, cell.ps[j])
    ensures (forall evs :: LateFrom(cell, s, evs, late) && B.SentEnding(After(cell, s, evs).init)
               ==> AllAnswered(cell, Current(After(cell, s, evs))))
            <==> forall j :: 0 <= j < |cell.ps| ==> cell.ps[j] !in late
  {
    hide Initial, Able, Idle, LateFrom, After, Current, HasAnswer, B.SentEnding;
    if forall j :: 0 <= j < |cell.ps| ==> cell.ps[j] !in late {
      forall evs | LateFrom(cell, s, evs, late) && B.SentEnding(After(cell, s, evs).init)
        ensures AllAnswered(cell, Current(After(cell, s, evs)))
      {
        NobodyLate(cell, s, evs, late);
        PromptAttemptsAreSafe(cell, s, evs);
      }
    } else {
      var r :| 0 <= r < |cell.ps| && cell.ps[r] in late;
      var evs := LateAnswerMisleads(cell, s, r);
      LateFromMore(cell, s, evs, {cell.ps[r]}, late);
      assert !AllAnswered(cell, Current(After(cell, s, evs)));
    }
  }

  // -------------------------------------------------- handing the cell back

  /** A packet that makes no new context. */
  lemma NodeDelivered(cell: Cell, s: Net, p: Packet, link: R.Link)
    requires p in s.wire && p.dst in s.nodes && p.dst != cell.backup
    requires if link == R.ToBackup then p.src == cell.backup else p.src == cell.primary != cell.backup
    requires var r := R.Step(s.nodes[p.dst], R.Arrive(link, p.msg));
             r.1 == R.Silent && |r.0.ctxs| == |s.nodes[p.dst].ctxs|
    ensures var t := Step(cell, s, Deliver(p));
      && OnlyNode(s, t, p.dst) && t.nodes[p.dst] == R.Step(s.nodes[p.dst], R.Arrive(link, p.msg)).0
  {
    hide R.Step;
    var t := Step(cell, s, Deliver(p));
    assert t == s.(nodes := s.nodes[p.dst := t.nodes[p.dst]], wire := t.wire);
  }

  /** RESUMED is on its way to everybody. */
  predicate Announced(cell: Cell, s: Net, attempt: nat) {
    && Packet(cell.primary, cell.backup, ResumeMessage(Resumed, 0), attempt) in s.wire
    && forall j :: 0 <= j < |cell.ps| && cell.ps[j] != cell.primary ==>
      Packet(cell.primary, cell.ps[j], ResumeMessage(Resumed, 0), attempt) in s.wire
  }

  /** The servers below `k` have gone back to the primary. */
  predicate Switched(cell: Cell, s: Net, k: nat) {
    forall j :: 0 <= j < |cell.ps| && cell.ps[j] != cell.primary ==>
      && cell.ps[j] in s.nodes
      && if j < k then s.nodes[cell.ps[j]].router == R.ToPrimary else Moved(s.nodes[cell.ps[j]], j)
  }

  /** ENDING reaches the primary, whose run announces RESUMED. */
  lemma PrimaryAnnounces(cell: Cell, s0: Net, s: Net, evs: seq<Event>, m: nat, p: Packet)
    returns (t: Net, more: seq<Event>, attempt: nat)
    requires Able(cell) && m < |cell.ps| && cell.ps[m] == cell.primary && Leads(cell, s0, s, evs, {})
    requires forall j :: 0 <= j < |cell.ps| ==> Replied(cell, s, cell.ps[j], j)
    requires p in s.wire && p.src == cell.backup && p.dst == cell.primary && p.msg == ResumeMessage(Ending, m)
    ensures Leads(cell, s0, t, more, {}) && Announced(cell, t, attempt) && Switched(cell, t, 0) && t.init == s.init
  {
    hide Leads, Moved, R.Step;
    var q, e1, e2 := cell.primary, Deliver(p), Local(cell.primary, R.Run(0));
    assert Replied(cell, s, cell.ps[m], m);
    PrimedAnnounces(s.nodes[q], m);
    NodeDelivered(cell, s, p, R.ToBackup);
    LeadsOn(cell, s0, s, evs, {}, e1);
    var u := Step(cell, s, e1);
    LocalRuns(cell, u, q, R.Run(0));
    LeadsOn(cell, s0, u, evs + [e1], {}, e2);
    t, more, attempt := Step(cell, u, e2), evs + [e1] + [e2], AttemptOf(u, q, R.Run(0));
    OnlyNodeTwice(s, u, t, q);
    hide Step;
    forall j | 0 <= j < |cell.ps| && cell.ps[j] != q
      ensures cell.ps[j] in t.nodes && Moved(t.nodes[cell.ps[j]], j)
      ensures Packet(q, cell.ps[j], ResumeMessage(Resumed, 0), attempt) in t.wire
    {
      assert Replied(cell, s, cell.ps[j], j) && cell.ps[j] in u.nodes;
    }
  }

  lemma MovedHasOne(n: R.Node, number: nat)
    requires Moved(n, number)
    ensures |n.ctxs| == 1
  {
  }

  /** RESUMED reaches one server, whose run switches it back. */
  lemma OneSwitches(cell: Cell, s0: Net, s: Net, evs: seq<Event>, k: nat, attempt: nat)
    returns (t: Net, more: seq<Event>)
    requires Able(cell) && k < |cell.ps| && Announced(cell, s, attempt) && Switched(cell, s, k)
    requires Leads(cell, s0, s, evs, {})
    ensures Leads(cell, s0, t, more, {}) && Announced(cell, t, attempt) && Switched(cell, t, k + 1) && t.init == s.init
  {
    hide Leads, Moved, R.Step;
    t, more := s, evs;
    var q := cell.ps[k];
    if q != cell.primary {
      var p := Packet(cell.primary, q, ResumeMessage(Resumed, 0), attempt);
      var e1, e2 := Deliver(p), Local(q, R.Run(0));
      MovedSwitches(s.nodes[q], k);
      assert Moved(s.nodes[q], k) && |s.nodes[q].ctxs| == 1 by { MovedHasOne(s.nodes[q], k); }
      NodeDelivered(cell, s, p, R.ToPrimary);
      LeadsOn(cell, s0, s, evs, {}, e1);
      var u := Step(cell, s, e1);
      LocalRuns(cell, u, q, R.Run(0));
      LeadsOn(cell, s0, u, evs + [e1], {}, e2);
      t, more := Step(cell, u, e2), evs + [e1] + [e2];
      OnlyNodeTwice(s, u, t, q);
      hide Step;
      assert forall j :: 0 <= j < |cell.ps| && j != k ==> cell.ps[j] != q;
    }
  }

  lemma {:induction false} AllSwitch(cell: Cell, s0: Net, s: Net, evs: seq<Event>, k: nat, attempt: nat)
    returns (t: Net, more: seq<Event>)
    requires Able(cell) && k <= |cell.ps| && Announced(cell, s, attempt) && Switched(cell, s, 0)
    requires Leads(cell, s0, s, evs, {})
    ensures Leads(cell, s0, t, more, {}) && Announced(cell, t, attempt) && Switched(cell, t, k) && t.init == s.init
  {
    hide Able, Announced, Switched, Leads;
    t, more := s, evs;
    if k > 0 {
      var u, es := AllSwitch(cell, s0, s, evs, k - 1, attempt);
      t, more := OneSwitches(cell, s0, u, es, k - 1, attempt);
    }
  }

  /** ENDING is for the primary and carries the number it was given. */
  lemma EndingNames(cell: Cell, t: Net, p: Packet, m: nat)
    requires Inv(cell, t) && Able(cell) && p in t.wire && p.msg.kind == Ending
    requires m < |cell.ps| && cell.ps[m] == cell.primary
    ensures p.src == cell.backup && p.dst == cell.primary && p.msg == ResumeMessage(Ending, m)
  {
    EndingNumber(cell, t, p);
    OneNumberGiven(cell, cell.primary);
    assert PacketOk(cell, t.wire, p);
    assert Byte(m) in Given(cell, cell.primary);
  }

  /** RESUMED reaches the backup, which steps down. */
  lemma BackupStepsDown(cell: Cell, s0: Net, s: Net, evs: seq<Event>, attempt: nat)
    returns (t: Net, more: seq<Event>)
    requires Announced(cell, s, attempt) && s.init.state == 250 && Leads(cell, s0, s, evs, {})
    ensures Leads(cell, s0, t, more, {}) && t.nodes == s.nodes && t.init.role == BackupRouter
  {
    var p := Packet(cell.primary, cell.backup, ResumeMessage(Resumed, 0), attempt);
    LeadsOn(cell, s0, s, evs, {}, Deliver(p));
    var u := Step(cell, s, Deliver(p));
    LeadsOn(cell, s0, u, evs + [Deliver(p)], {}, BackupRun);
    t, more := Step(cell, u, BackupRun), evs + [Deliver(p)] + [BackupRun];
    hide Leads;
  }

  lemma SameReplies(cell: Cell, s: Net, t: Net)
    requires t.nodes == s.nodes
    ensures forall p, i :: Replied(cell, s, p, i) ==> Replied(cell, t, p, i)
  {
  }

  /** The first half: everybody answers and ENDING goes out, to the primary. */
  lemma CellReachesEnding(cell: Cell, s: Net, m: nat) returns (t: Net, evs: seq<Event>, p: Packet)
    requires Initial(cell, s) && Able(cell) && m < |cell.ps| && cell.ps[m] == cell.primary
    requires forall j :: 0 <= j < |cell.ps| ==> Idle(cell, s, cell.ps[j])
    ensures Leads(cell, s, t, evs, {}) && t.init.state == 250
    ensures forall j :: 0 <= j < |cell.ps| ==> Replied(cell, t, cell.ps[j], j)
    ensures p in t.wire && p.src == cell.backup && p.dst == cell.primary && p.msg == ResumeMessage(Ending, m)
  {
    var n := |cell.ps|;
    FirstProgress(cell, s, n);
    hide Idle, Able;
    var t1, es := AllRounds(cell, s, s, [], n, n);
    assert forall j :: 0 <= j < n ==> Replied(cell, t1, cell.ps[j], j);
    hide Tracked, Replied, Initial;
    t, p := EndingFollows(cell, s, t1, es, {});
    evs := es + [BackupEnding];
    RunsKeepInv(cell, s, evs);
    B.RunsKeepInv(cell.ps, cell.primary, t.log);
    EndingNames(cell, t, p, m);
    SameReplies(cell, t1, t);
  }

  /** Liveness by example: any cell of up to 256 distinct peers, the primary among
      them, has a run in which every normal server goes back to the primary and the
      backup to being one. */
  lemma CellCanBeHandedBack(cell: Cell, s: Net) returns (evs: seq<Event>)
    requires Initial(cell, s) && Able(cell) && cell.primary in cell.ps
    requires forall j :: 0 <= j < |cell.ps| ==> Idle(cell, s, cell.ps[j])
    ensures LateFrom(cell, s, evs, {})
    ensures var t := After(cell, s, evs);
      && t.init.role == BackupRouter
      && forall p :: p in cell.ps && p != cell.primary ==> p in t.nodes && t.nodes[p].router == R.ToPrimary
  {
    var m :| 0 <= m < |cell.ps| && cell.ps[m] == cell.primary;
    var t2, es2, p := CellReachesEnding(cell, s, m);
    hide Initial, Idle, Able, Replied;
    var t3, es3, a := PrimaryAnnounces(cell, s, t2, es2, m, p);
    var t4, es4 := AllSwitch(cell, s, t3, es3, |cell.ps|, a);
    var t5;
    t5, evs := BackupStepsDown(cell, s, t4, es4, a);
  }
}
