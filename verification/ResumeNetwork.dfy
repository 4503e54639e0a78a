/** The resuming protocol as a distributed system: one acting backup that may
    restart the protocol any number of times, the returning primary, and any
    number of servers and routers.  The wire is a set that never shrinks, so
    packets may be delayed, reordered, repeated or never delivered. */
module ResumeNetwork {
  import opened Wire
  import B = ResumeInitiator
  import R = ResumeResponder

  /** `attempt` says which START a packet goes back to.  It is not on the wire:
      no step depends on it. */
  datatype Packet = Packet(src: nat, dst: nat, msg: ResumeMessage, attempt: nat)

  /** Who takes part: `ps` are the peers the backup opens sessions to. */
  datatype Cell = Cell(backup: nat, primary: nat, ps: seq<nat>)

  datatype Net = Net(
    init: B.Initiator,          // the backup's current protocol context
    log: seq<B.Event>,          // what happened to it since its START
    attempt: nat,               // the number of that START
    answers: seq<Packet>,       // the CONNECTED packets delivered since
    nodes: map<nat, R.Node>,
    origin: map<nat, seq<nat>>, // by node, the START each of its contexts goes back to
    wire: set<Packet>)

  function Starts(cell: Cell, attempt: nat): set<Packet> {
    set i | 0 <= i < |cell.ps| :: Packet(cell.backup, cell.ps[i], ResumeMessage(Start, Byte(i)), attempt)
  }

  ghost predicate Initial(cell: Cell, s: Net) {
    && cell.backup !in cell.ps && cell.backup !in s.nodes
    && (forall p :: p in s.nodes ==> s.nodes[p].ctxs == [] && s.nodes[p].router == R.ToBackup)
    && s.log == [] && s.init == B.Begin(cell.ps, cell.primary) && s.attempt == 0 && s.answers == []
    && s.origin == map[] && s.wire == Starts(cell, 0)
  }

  datatype Event =
    | Deliver(p: Packet)
    | BackupRun
    | BackupEnding
    | BackupRestart
    | Local(at: nat, e: R.Event)

  function BackupStep(cell: Cell, s: Net, e: B.Event): Net {
    s.(init := B.Step(s.init, e), log := s.log + [e])
  }

  /** The context that a step of a node works on. */
  function Working(n: R.Node, e: R.Event): nat {
    match e
    case Run(k) => k
    case Connect => if n.atBackup.Some? then n.atBackup.value else 0
    case _ => 0
  }

  function Origins(s: Net, at: nat): seq<nat> {
    if at in s.origin then s.origin[at] else []
  }

  /** The START that an answer given in this step goes back to. */
  function AttemptOf(s: Net, at: nat, e: R.Event): nat
    requires at in s.nodes
  {
    var k := Working(s.nodes[at], e);
    if k < |Origins(s, at)| then Origins(s, at)[k] else 0
  }

  function Emitted(cell: Cell, s: Net, at: nat, n: R.Node, eff: R.Effect, attempt: nat): set<Packet> {
    match eff
    case Silent => {}
    case Reply(link, number) =>
      if link == R.ToBackup then {Packet(at, cell.backup, ResumeMessage(Connected, number), attempt)}
      else if n.disabled then {}
      else {Packet(at, cell.primary, ResumeMessage(Connected, number), attempt)}
    case AnnounceResumed =>
      set q | q in s.nodes.Keys + {cell.backup} && q != at :: Packet(at, q, ResumeMessage(Resumed, 0), attempt)
  }

  function NodeStep(cell: Cell, s: Net, at: nat, e: R.Event): Net
    requires at in s.nodes
  {
    var (n, eff) := R.Step(s.nodes[at], e);
    s.(nodes := s.nodes[at := n], wire := s.wire + Emitted(cell, s, at, n, eff, AttemptOf(s, at, e)))
  }

  /** Delivery to a node; a START that makes a new context dates it. */
  function NodeDelivery(cell: Cell, s: Net, p: Packet, link: R.Link): Net
    requires p.dst in s.nodes
  {
    var t := NodeStep(cell, s, p.dst, R.Arrive(link, p.msg));
    if |t.nodes[p.dst].ctxs| > |s.nodes[p.dst].ctxs|
    then t.(origin := s.origin[p.dst := Origins(s, p.dst) + [p.attempt]])
    else t
  }

  function BackupDelivery(cell: Cell, s: Net, p: Packet): Net {
    var t := BackupStep(cell, s, B.Arrive(p.msg));
    if p.msg.kind == Connected then t.(answers := s.answers + [p]) else t
  }

  function Step(cell: Cell, s: Net, e: Event): Net {
    match e
    case Deliver(p) =>
      if p !in s.wire then s
      else if p.dst == cell.backup then BackupDelivery(cell, s, p)
      else if p.dst !in s.nodes then s
      else if p.src == cell.backup then NodeDelivery(cell, s, p, R.ToBackup)
      else if p.src == cell.primary then NodeDelivery(cell, s, p, R.ToPrimary)
      else s
    case BackupRun => BackupStep(cell, s, B.Run)
    case BackupEnding =>
      if s.init.endings > 0 then
        var t := BackupStep(cell, s, B.SendEnding);
        var sent := t.init.sent[|t.init.sent| - 1];
        t.(wire := t.wire + {Packet(cell.backup, sent.peer, sent.msg, s.attempt)})
      else s
    case BackupRestart =>
      s.(init := B.Begin(cell.ps, cell.primary), log := [], attempt := s.attempt + 1, answers := [],
         wire := s.wire + Starts(cell, s.attempt + 1))
    case Local(at, le) =>
      if at in s.nodes && !le.Arrive? then NodeStep(cell, s, at, le) else s
  }

  function After(cell: Cell, s: Net, evs: seq<Event>): Net {
    if evs == [] then s else Step(cell, After(cell, s, evs[..|evs| - 1]), evs[|evs| - 1])
  }

  // ---------------------------------------------- what the steps put on the wire

  /** A restart starts every session again with its number, and nothing else. */
  lemma RestartSends(cell: Cell, s: Net, p: Packet)
    ensures var t := Step(cell, s, BackupRestart);
      && t.nodes == s.nodes && t.origin == s.origin && t.log == [] && t.answers == [] && t.attempt == s.attempt + 1
      && (p in t.wire
          <==> || p in s.wire
               || exists i :: 0 <= i < |cell.ps|
                    && p == Packet(cell.backup, cell.ps[i], ResumeMessage(Start, i % 256), s.attempt + 1))
  {
    assert forall i :: 0 <= i < |cell.ps| ==> ResumeMessage(Start, Byte(i)) == ResumeMessage(Start, i % 256);
  }

  /** A protocol run of a node: the first one answers CONNECTED where its context
      points, unless that is the link to the primary and disabled; the run that has
      seen ENDING tells everybody RESUMED. */
  lemma RunSends(cell: Cell, s: Net, at: nat, k: nat, p: Packet)
    requires at in s.nodes && k < |s.nodes[at].ctxs| && s.nodes[at].ctxs[k].live && s.nodes[at].ctxs[k].runs > 0
    ensures var n, c, t := s.nodes[at], s.nodes[at].ctxs[k], Step(cell, s, Local(at, R.Run(k)));
            var attempt := if at in s.origin && k < |s.origin[at]| then s.origin[at][k] else 0;
      && at in t.nodes
      && (p in t.wire
          <==> || p in s.wire
               || (&& c.state == 1 && c.ptype == Start && (!n.backupPrimary || n.linked)
                   && (c.sock == R.ToBackup || !t.nodes[at].disabled)
                   && p == Packet(at, if c.sock == R.ToBackup then cell.backup else cell.primary,
                                  ResumeMessage(Connected, c.session), attempt))
               || (&& c.state == 2 && c.ptype == Ending
                   && (p.dst in s.nodes || p.dst == cell.backup) && p.dst != at
                   && p == Packet(at, p.dst, ResumeMessage(Resumed, 0), attempt)))
  {
    var n, c := s.nodes[at], s.nodes[at].ctxs[k];
    var (m, eff) := R.Step(n, R.Run(k));
    R.AnswersIff(n, R.Run(k), c.sock, c.session);
    R.AnnouncesIff(n, R.Run(k));
    if eff.Reply? { R.AnswersIff(n, R.Run(k), eff.link, eff.number); }
    hide R.Step;
  }

  /** A new link to the primary is answered for to the backup. */
  lemma ConnectSends(cell: Cell, s: Net, at: nat, p: Packet)
    requires at in s.nodes
    ensures var n := s.nodes[at];
            p in Step(cell, s, Local(at, R.Connect)).wire
            <==> || p in s.wire
                 || (&& n.connects > 0 && !n.linked
                     && n.atBackup.Some? && n.atBackup.value < |n.ctxs| && n.ctxs[n.atBackup.value].live
                     && p == Packet(at, cell.backup, ResumeMessage(Connected, n.ctxs[n.atBackup.value].session),
                                    if at in s.origin && n.atBackup.value < |s.origin[at]|
                                    then s.origin[at][n.atBackup.value] else 0))
  {
    var n := s.nodes[at];
    var (m, eff) := R.Step(n, R.Connect);
    R.AnnouncesIff(n, R.Connect);
    if eff.Reply? { R.AnswersIff(n, R.Connect, eff.link, eff.number); }
    if n.atBackup.Some? && n.atBackup.value < |n.ctxs| {
      R.AnswersIff(n, R.Connect, R.ToBackup, n.ctxs[n.atBackup.value].session);
    }
    hide R.Step;
  }

  /** Nothing else a node does puts a packet on the wire, and a packet is handled
      by the server it is sent to, over the link it came by, at any time after it
      was sent. */
  lemma DeliverySends(cell: Cell, s: Net, p: Packet)
    requires p in s.wire && p.dst != cell.backup && p.dst in s.nodes && p.src in {cell.backup, cell.primary}
    ensures var t := Step(cell, s, Deliver(p));
      && t.wire == s.wire && t.init == s.init && t.log == s.log && t.answers == s.answers && t.attempt == s.attempt
      && t.nodes == s.nodes[p.dst := R.Step(s.nodes[p.dst],
           R.Arrive(if p.src == cell.backup then R.ToBackup else R.ToPrimary, p.msg)).0]
  {
    var e := R.Arrive(if p.src == cell.backup then R.ToBackup else R.ToPrimary, p.msg);
    var (n, eff) := R.Step(s.nodes[p.dst], e);
    R.AnnouncesIff(s.nodes[p.dst], e);
    if eff.Reply? { R.AnswersIff(s.nodes[p.dst], e, eff.link, eff.number); }
    hide R.Step;
    assert eff == R.Silent;
  }

  // --------------------------------------------------------------- vocabulary

  /** The session numbers START gives to `p`. */
  function Given(cell: Cell, p: nat): set<nat> {
    set i | 0 <= i < |cell.ps| && cell.ps[i] == p :: Byte(i)
  }

  predicate EndingOut(wire: set<Packet>) {
    exists p :: p in wire && p.msg.kind == Ending
  }

  predicate ResumedOut(wire: set<Packet>, dst: nat) {
    exists p :: p in wire && p.msg.kind == Resumed && p.dst == dst
  }

  /** An answer of the `i`-th peer, with the number it was given. */
  predicate IsAnswer(cell: Cell, p: Packet, i: nat) {
    i < |cell.ps| && p.src == cell.ps[i] && p.dst == cell.backup && p.msg == ResumeMessage(Connected, i)
  }

  predicate HasAnswer(cell: Cell, packets: set<Packet>, i: nat) {
    exists p :: p in packets && IsAnswer(cell, p, i)
  }

  /** Every peer of the backup has answered, in this attempt or an earlier one. */
  predicate AllAnswered(cell: Cell, packets: set<Packet>) {
    |cell.ps| <= 256 && forall i :: 0 <= i < |cell.ps| ==> HasAnswer(cell, packets, i)
  }

  // ---------------------------------------------------------------- invariant

  predicate PacketOk(cell: Cell, wire: set<Packet>, p: Packet) {
    match p.msg.kind
    case Start => p.src == cell.backup && p.msg.number in Given(cell, p.dst)
    case Connected => p.src != cell.backup && p.msg.number in Given(cell, p.src)
    case Ending =>
      && p.src == cell.backup && p.dst == cell.primary && AllAnswered(cell, wire)
      && (cell.primary in cell.ps ==>
            p.msg.number == B.NumberOf(B.Opened(cell.ps), cell.primary, 0))
    case Resumed => p.src == cell.primary && EndingOut(wire)
    case Replaced => false
  }

  /** A context holds numbers this node was given, and saw ENDING or RESUMED
      only if one was on its way here. */
  predicate CtxOk(given: set<nat>, ending: bool, resumed: bool, c: R.Ctx) {
    && c.session in given
    && (c.known.Some? ==> c.known.value in given)
    && (c.ptype == Ending ==> ending)
    && (c.ptype == Resumed ==> resumed)
  }

  predicate CtxsOk(given: set<nat>, ending: bool, resumed: bool, cs: seq<R.Ctx>) {
    forall k :: 0 <= k < |cs| ==> CtxOk(given, ending, resumed, cs[k])
  }

  predicate NodeOk(given: set<nat>, ending: bool, resumed: bool, n: R.Node) {
    CtxsOk(given, ending, resumed, n.ctxs) && (n.router == R.ToPrimary ==> resumed)
  }

  predicate NodesOk(cell: Cell, wire: set<Packet>, nodes: map<nat, R.Node>) {
    forall at :: at in nodes ==>
      NodeOk(Given(cell, at), EndingOut(wire) && at == cell.primary, ResumedOut(wire, at), nodes[at])
  }

  /** CONNECTED arrivals in the backup's log are the delivered answers. */
  predicate LogOk(answers: seq<Packet>, log: seq<B.Event>) {
    forall i :: 0 <= i < |log| && log[i].Arrive? && log[i].msg.kind == Connected ==>
      exists p :: p in answers && p.msg == log[i].msg
  }

  /** They came off the wire. */
  predicate AnswersOk(cell: Cell, wire: set<Packet>, answers: seq<Packet>) {
    forall p :: p in answers ==> p in wire && p.dst == cell.backup && p.msg.kind == Connected
  }

  ghost predicate Inv(cell: Cell, s: Net) {
    && cell.backup !in cell.ps && cell.backup !in s.nodes
    && s.init == B.After(cell.ps, cell.primary, s.log)
    && LogOk(s.answers, s.log) && AnswersOk(cell, s.wire, s.answers)
    && (forall p :: p in s.wire ==> PacketOk(cell, s.wire, p))
    && NodesOk(cell, s.wire, s.nodes)
  }

  // -------------------------------------------------- a node keeps its part

  lemma PutKeepsOk(g: set<nat>, e: bool, r: bool, cs: seq<R.Ctx>, k: nat, c: R.Ctx)
    requires k < |cs| && CtxsOk(g, e, r, cs) && CtxOk(g, e, r, c)
    ensures CtxsOk(g, e, r, cs[k := c])
  {
  }

  /** What a packet tells the node it reaches. */
  predicate Told(g: set<nat>, ending: bool, resumed: bool, m: ResumeMessage) {
    && (m.kind == Start ==> m.number in g)
    && (m.kind == Ending ==> ending)
    && (m.kind == Resumed ==> resumed)
  }

  lemma AdoptKeepsOk(g: set<nat>, e: bool, r: bool, n: R.Node, link: R.Link, kind: ResumeKind)
    requires NodeOk(g, e, r, n)
    ensures NodeOk(g, e, r, R.Adopted(n, link, kind))
  {
    if R.Adopted(n, link, kind) != n {
      var k := n.atBackup.value;
      PutKeepsOk(g, e, r, n.ctxs, k, n.ctxs[k].(sock := R.ToPrimary));
    }
  }

  lemma StartKeepsOk(g: set<nat>, e: bool, r: bool, n: R.Node, link: R.Link, number: nat)
    requires NodeOk(g, e, r, n) && number in g
    ensures NodeOk(g, e, r, R.Started(n, link, number))
  {
    var c := R.Ctx(Start, number, None, 1, link, true, 1, false);
    assert CtxOk(g, e, r, c);
    assert CtxsOk(g, e, r, n.ctxs + [c]);
  }

  lemma HandKeepsOk(g: set<nat>, e: bool, r: bool, n: R.Node, k: nat, m: ResumeMessage)
    requires NodeOk(g, e, r, n) && Told(g, e, r, m) && R.Live(n, k)
    ensures NodeOk(g, e, r, R.Handed(n, k, m))
  {
    assert CtxOk(g, e, r, n.ctxs[k]);
    PutKeepsOk(g, e, r, n.ctxs, k, R.Handed(n, k, m).ctxs[k]);
  }

  lemma ReceiveKeepsOk(g: set<nat>, e: bool, r: bool, n: R.Node, link: R.Link, m: ResumeMessage)
    requires NodeOk(g, e, r, n) && Told(g, e, r, m)
    ensures NodeOk(g, e, r, R.Received(n, link, m))
  {
    if m.kind == Start {
      StartKeepsOk(g, e, r, n, link, m.number);
    } else {
      AdoptKeepsOk(g, e, r, n, link, m.kind);
      var n1 := R.Adopted(n, link, m.kind);
      var p := R.Pointer(n1, link);
      if R.Points(n1, p) { HandKeepsOk(g, e, r, n1, p.value, m); }
    }
  }

  /** What a step may put on the wire. */
  predicate EffectOk(g: set<nat>, e: bool, eff: R.Effect) {
    (eff.Reply? ==> eff.number in g) && (eff.AnnounceResumed? ==> e)
  }

  lemma RunKeepsOk(g: set<nat>, e: bool, r: bool, n: R.Node, k: nat)
    requires NodeOk(g, e, r, n) && R.Live(n, k)
    ensures NodeOk(g, e, r, R.Ran(n, k).0) && EffectOk(g, e, R.Ran(n, k).1)
  {
    var c := n.ctxs[k];
    assert CtxOk(g, e, r, c);
    PutKeepsOk(g, e, r, n.ctxs, k, R.Recorded(n, k).ctxs[k]);
    PutKeepsOk(g, e, r, n.ctxs, k, c.(finishing := true));
  }

  lemma DoneKeepsOk(g: set<nat>, e: bool, r: bool, n: R.Node, k: nat, error: bool)
    requires NodeOk(g, e, r, n) && R.Live(n, k)
    ensures NodeOk(g, e, r, R.Done(n, k, error))
  {
    PutKeepsOk(g, e, r, n.ctxs, k, n.ctxs[k].(live := false));
  }

  lemma ConnectKeepsOk(g: set<nat>, e: bool, r: bool, n: R.Node)
    requires NodeOk(g, e, r, n)
    ensures NodeOk(g, e, r, R.ConnectedBack(n).0) && EffectOk(g, e, R.ConnectedBack(n).1)
  {
    if R.Points(n, n.atBackup) {
      var k := n.atBackup.value;
      assert CtxOk(g, e, r, n.ctxs[k]);
      PutKeepsOk(g, e, r, n.ctxs, k, n.ctxs[k].(sock := R.ToPrimary));
    }
  }

  lemma NodeStepKeepsOk(g: set<nat>, e: bool, r: bool, n: R.Node, ev: R.Event)
    requires NodeOk(g, e, r, n)
    requires ev.Arrive? ==> Told(g, e, r, ev.msg)
    ensures NodeOk(g, e, r, R.Step(n, ev).0) && EffectOk(g, e, R.Step(n, ev).1)
  {
    hide R.Received, R.Ran, R.ConnectedBack, R.Done;
    match ev
    case Arrive(link, m) => ReceiveKeepsOk(g, e, r, n, link, m);
    case Run(k) =>
      if R.Live(n, k) && n.ctxs[k].runs > 0 {
        PutKeepsOk(g, e, r, n.ctxs, k, R.Taken(n, k).ctxs[k]);
        RunKeepsOk(g, e, r, R.Taken(n, k), k);
      }
    case Connect =>
      if n.connects > 0 { ConnectKeepsOk(g, e, r, n.(connects := n.connects - 1)); }
    case Timeout(k) => if R.Live(n, k) { DoneKeepsOk(g, e, r, n, k, true); }
    case Finish(k) => if R.Live(n, k) { DoneKeepsOk(g, e, r, n, k, false); }
  }

  // ------------------------------------------------ the whole keeps the rest

  lemma MoreAnswered(cell: Cell, few: set<Packet>, more: set<Packet>)
    requires few <= more && AllAnswered(cell, few)
    ensures AllAnswered(cell, more)
  {
    forall i | 0 <= i < |cell.ps| ensures HasAnswer(cell, more, i) {
      assert HasAnswer(cell, few, i);
      var p :| p in few && IsAnswer(cell, p, i);
    }
  }

  lemma WireGrows(cell: Cell, w: set<Packet>, w': set<Packet>)
    requires w <= w'
    ensures forall p :: PacketOk(cell, w, p) ==> PacketOk(cell, w', p)
    ensures forall ps :: AnswersOk(cell, w, ps) ==> AnswersOk(cell, w', ps)
    ensures EndingOut(w) ==> EndingOut(w')
    ensures forall d :: ResumedOut(w, d) ==> ResumedOut(w', d)
  {
    if AllAnswered(cell, w) { MoreAnswered(cell, w, w'); }
  }

  lemma NodesKeepOk(cell: Cell, nodes: map<nat, R.Node>, w: set<Packet>, w': set<Packet>)
    requires w <= w' && NodesOk(cell, w, nodes)
    ensures NodesOk(cell, w', nodes)
  {
    WireGrows(cell, w, w');
    forall at | at in nodes
      ensures NodeOk(Given(cell, at), EndingOut(w') && at == cell.primary, ResumedOut(w', at), nodes[at])
    {
      assert NodeOk(Given(cell, at), EndingOut(w) && at == cell.primary, ResumedOut(w, at), nodes[at]);
    }
  }

  lemma EmittedOk(cell: Cell, s: Net, at: nat, n: R.Node, eff: R.Effect, attempt: nat, p: Packet)
    requires at != cell.backup && p in Emitted(cell, s, at, n, eff, attempt)
    requires EffectOk(Given(cell, at), EndingOut(s.wire) && at == cell.primary, eff)
    ensures PacketOk(cell, s.wire, p)
  {
  }

  lemma NodePutKeepsOk(cell: Cell, s: Net, at: nat, n: R.Node)
    requires NodesOk(cell, s.wire, s.nodes)
    requires NodeOk(Given(cell, at), EndingOut(s.wire) && at == cell.primary, ResumedOut(s.wire, at), n)
    ensures NodesOk(cell, s.wire, s.nodes[at := n])
  {
  }

  lemma NodeEventKeepsInv(cell: Cell, s: Net, at: nat, ev: R.Event)
    requires Inv(cell, s) && at in s.nodes
    requires ev.Arrive? ==>
               Told(Given(cell, at), EndingOut(s.wire) && at == cell.primary, ResumedOut(s.wire, at), ev.msg)
    ensures Inv(cell, NodeStep(cell, s, at, ev))
  {
    var (n, eff) := R.Step(s.nodes[at], ev);
    NodeStepKeepsOk(Given(cell, at), EndingOut(s.wire) && at == cell.primary, ResumedOut(s.wire, at),
                    s.nodes[at], ev);
    NodePutKeepsOk(cell, s, at, n);
    var a := AttemptOf(s, at, ev);
    var w := s.wire + Emitted(cell, s, at, n, eff, a);
    WireGrows(cell, s.wire, w);
    NodesKeepOk(cell, s.nodes[at := n], s.wire, w);
    forall p | p in w ensures PacketOk(cell, w, p) {
      if p !in s.wire { EmittedOk(cell, s, at, n, eff, a, p); }
    }
  }

  lemma LogGrows(a: seq<Packet>, answers: seq<Packet>, log: seq<B.Event>, e: B.Event)
    requires LogOk(a, log) && a <= answers
    requires e.Arrive? && e.msg.kind == Connected ==> exists p :: p in answers && p.msg == e.msg
    ensures LogOk(answers, log + [e])
  {
    forall i | 0 <= i < |log| && log[i].Arrive? && log[i].msg.kind == Connected
      ensures exists p :: p in answers && p.msg == log[i].msg
    {
      var p :| p in a && p.msg == log[i].msg;
      assert p in answers;
    }
  }

  lemma BackupEventKeepsInv(cell: Cell, s: Net, e: B.Event, answers: seq<Packet>, extra: set<Packet>)
    requires Inv(cell, s)
    requires s.answers <= answers && AnswersOk(cell, s.wire, answers)
    requires e.Arrive? && e.msg.kind == Connected ==> exists p :: p in answers && p.msg == e.msg
    requires forall p :: p in extra ==> PacketOk(cell, s.wire + extra, p)
    ensures Inv(cell, BackupStep(cell, s, e).(wire := s.wire + extra, answers := answers))
  {
    var t := BackupStep(cell, s, e).(wire := s.wire + extra, answers := answers);
    B.AfterSnoc(cell.ps, cell.primary, s.log, e);
    WireGrows(cell, s.wire, t.wire);
    NodesKeepOk(cell, s.nodes, s.wire, t.wire);
    LogGrows(s.answers, answers, s.log, e);
    hide PacketOk, NodesOk, LogOk, AnswersOk, B.Step, B.After;
  }

  lemma LogEchoes(cell: Cell, s: Net)
    requires Inv(cell, s)
    ensures B.Echoing(cell.ps, s.log)
  {
    forall i | 0 <= i < |s.log| && s.log[i].Arrive? && s.log[i].msg.kind == Connected
      ensures B.Given(|cell.ps|, s.log[i].msg.number)
    {
      var p :| p in s.answers && p.msg == s.log[i].msg;
      assert PacketOk(cell, s.wire, p);
      var j :| 0 <= j < |cell.ps| && cell.ps[j] == p.src && Byte(j) == p.msg.number;
    }
  }

  /** ENDING means that an answer of every peer was delivered in this attempt. */
  lemma EndingMeansDelivered(cell: Cell, s: Net)
    requires Inv(cell, s) && B.SentEnding(s.init)
    ensures AllAnswered(cell, Elems(s.answers))
  {
    LogEchoes(cell, s);
    B.EndingIsSafe(cell.ps, cell.primary, s.log);
    forall i | 0 <= i < |cell.ps| ensures HasAnswer(cell, Elems(s.answers), i) {
      var m := ResumeMessage(Connected, i);
      assert B.HasArrived(s.log, m);
      var k :| 0 <= k < |s.log| && s.log[k] == B.Arrive(m);
      var p :| p in s.answers && p.msg == s.log[k].msg;
      assert PacketOk(cell, s.wire, p);
      assert p in Elems(s.answers) && IsAnswer(cell, p, i);
    }
  }

  lemma EndingMeansAllAnswered(cell: Cell, s: Net)
    requires Inv(cell, s) && B.SentEnding(s.init)
    ensures AllAnswered(cell, s.wire)
  {
    EndingMeansDelivered(cell, s);
    MoreAnswered(cell, Elems(s.answers), s.wire);
  }

  lemma EndingPacketOk(cell: Cell, s: Net)
    requires Inv(cell, s) && B.SentEnding(s.init)
    ensures forall i :: 0 <= i < |s.init.sent| && s.init.sent[i].msg.kind == Ending ==>
              PacketOk(cell, s.wire, Packet(cell.backup, s.init.sent[i].peer, s.init.sent[i].msg, s.attempt))
  {
    EndingMeansAllAnswered(cell, s);
    LogEchoes(cell, s);
    B.EndingGoesToPrimary(cell.ps, cell.primary, s.log);
    var c := B.After(cell.ps, cell.primary, s.log);
    forall i | 0 <= i < |c.sent| && c.sent[i].msg.kind == Ending
      ensures PacketOk(cell, s.wire, Packet(cell.backup, c.sent[i].peer, c.sent[i].msg, s.attempt))
    {
      assert c.sent[i].peer == cell.primary;
    }
  }

  lemma EndingEventKeepsInv(cell: Cell, s: Net)
    requires Inv(cell, s) && s.init.endings > 0
    ensures Inv(cell, Step(cell, s, BackupEnding))
  {
    var t := BackupStep(cell, s, B.SendEnding);
    BackupEventKeepsInv(cell, s, B.SendEnding, s.answers, {});
    assert s.wire + {} == s.wire && t == t.(wire := s.wire, answers := s.answers);
    var last := |t.init.sent| - 1;
    assert t.init.sent[last].msg.kind == Ending;
    EndingPacketOk(cell, t);
    var p := Packet(cell.backup, t.init.sent[last].peer, t.init.sent[last].msg, s.attempt);
    WireGrows(cell, s.wire, s.wire + {p});
    BackupEventKeepsInv(cell, s, B.SendEnding, s.answers, {p});
  }

  lemma RestartKeepsInv(cell: Cell, s: Net)
    requires Inv(cell, s)
    ensures Inv(cell, Step(cell, s, BackupRestart))
  {
    var t := Step(cell, s, BackupRestart);
    WireGrows(cell, s.wire, t.wire);
    NodesKeepOk(cell, s.nodes, s.wire, t.wire);
  }

  lemma DeliveryTells(cell: Cell, s: Net, p: Packet)
    requires Inv(cell, s) && p in s.wire && p.dst in s.nodes
    ensures Told(Given(cell, p.dst), EndingOut(s.wire) && p.dst == cell.primary,
                 ResumedOut(s.wire, p.dst), p.msg)
  {
    assert PacketOk(cell, s.wire, p);
  }

  lemma DeliveryKeepsInv(cell: Cell, s: Net, p: Packet)
    requires Inv(cell, s)
    ensures Inv(cell, Step(cell, s, Deliver(p)))
  {
    if p in s.wire && p.dst == cell.backup {
      var answers := if p.msg.kind == Connected then s.answers + [p] else s.answers;
      assert s.wire + {} == s.wire;
      BackupEventKeepsInv(cell, s, B.Arrive(p.msg), answers, {});
    } else if p in s.wire && p.dst in s.nodes {
      DeliveryTells(cell, s, p);
      if p.src == cell.backup {
        NodeEventKeepsInv(cell, s, p.dst, R.Arrive(R.ToBackup, p.msg));
      } else if p.src == cell.primary {
        NodeEventKeepsInv(cell, s, p.dst, R.Arrive(R.ToPrimary, p.msg));
      }
    }
  }

  lemma StepKeepsInv(cell: Cell, s: Net, e: Event)
    requires Inv(cell, s)
    ensures Inv(cell, Step(cell, s, e))
  {
    assert s.wire + {} == s.wire;
    match e
    case Deliver(p) => DeliveryKeepsInv(cell, s, p);
    case BackupRun => BackupEventKeepsInv(cell, s, B.Run, s.answers, {});
    case BackupEnding => if s.init.endings > 0 { EndingEventKeepsInv(cell, s); }
    case BackupRestart => RestartKeepsInv(cell, s);
    case Local(at, le) => if at in s.nodes && !le.Arrive? { NodeEventKeepsInv(cell, s, at, le); }
  }

  lemma {:induction false} RunsKeepInv(cell: Cell, s: Net, evs: seq<Event>)
    requires Initial(cell, s)
    ensures Inv(cell, After(cell, s, evs))
  {
    if evs == [] {
      assert B.After(cell.ps, cell.primary, []) == B.Begin(cell.ps, cell.primary);
    } else {
      RunsKeepInv(cell, s, evs[..|evs| - 1]);
      StepKeepsInv(cell, After(cell, s, evs[..|evs| - 1]), evs[|evs| - 1]);
    }
  }

  // ------------------------------------------------------------- main results

  /** Resume safety over every interleaving of arrivals, runs, timeouts and
      restarts: ENDING follows a CONNECTED from every peer, RESUMED follows
      ENDING and comes from the primary only, and nobody switches back to the
      primary before a RESUMED to it, hence before all peers have answered.  An
      answer counts whichever attempt it belongs to; for one attempt see
      `PromptAttemptsAreSafe`. */
  lemma ResumeIsSafe(cell: Cell, s: Net, evs: seq<Event>)
    requires Initial(cell, s)
    ensures var t := After(cell, s, evs);
      && (EndingOut(t.wire) ==> AllAnswered(cell, t.wire))
      && (forall p :: p in t.wire && p.msg.kind == Resumed ==> p.src == cell.primary && EndingOut(t.wire))
      && (forall at :: at in t.nodes && t.nodes[at].router == R.ToPrimary ==>
            ResumedOut(t.wire, at) && AllAnswered(cell, t.wire))
  {
    RunsKeepInv(cell, s, evs);
    var t := After(cell, s, evs);
    forall at | at in t.nodes && t.nodes[at].router == R.ToPrimary
      ensures ResumedOut(t.wire, at) && EndingOut(t.wire)
    {
      assert NodeOk(Given(cell, at), EndingOut(t.wire) && at == cell.primary, ResumedOut(t.wire, at), t.nodes[at]);
    }
    assert EndingOut(t.wire) ==> AllAnswered(cell, t.wire);
  }

  /** With one session per peer, a peer is given one number: its session's. */
  lemma OneNumberGiven(cell: Cell, p: nat)
    requires p in cell.ps
    requires NoRepeats(cell.ps)
    ensures Given(cell, p) == {B.NumberOf(B.Opened(cell.ps), p, 0)}
  {
    var i :| 0 <= i < |cell.ps| && cell.ps[i] == p;
    var given := B.Opened(cell.ps);
    assert given[i].peer == p;
    B.NumberOfStable(given, given, p, 0, 0);
    assert forall j :: 0 <= j < |cell.ps| && cell.ps[j] == p ==> j == i;
  }

  lemma RecordedIsGiven(cell: Cell, s: Net, at: nat, k: nat)
    requires NodesOk(cell, s.wire, s.nodes) && at in s.nodes && k < |s.nodes[at].ctxs|
    ensures s.nodes[at].ctxs[k].known.Some? ==> s.nodes[at].ctxs[k].known.value in Given(cell, at)
  {
    hide Given, EndingOut, ResumedOut;
    assert NodeOk(Given(cell, at), EndingOut(s.wire) && at == cell.primary, ResumedOut(s.wire, at), s.nodes[at]);
    assert CtxOk(Given(cell, at), EndingOut(s.wire) && at == cell.primary, ResumedOut(s.wire, at),
                 s.nodes[at].ctxs[k]);
  }

  lemma EndingNumber(cell: Cell, s: Net, p: Packet)
    requires Inv(cell, s) && p in s.wire && p.msg.kind == Ending && cell.primary in cell.ps
    ensures p.msg.number == B.NumberOf(B.Opened(cell.ps), cell.primary, 0)
  {
    assert PacketOk(cell, s.wire, p);
  }

  lemma RecordedMatches(cell: Cell, t: Net, p: Packet, k: nat)
    requires Inv(cell, t) && p in t.wire && p.msg.kind == Ending
    requires cell.primary in cell.ps && NoRepeats(cell.ps)
    requires cell.primary in t.nodes && k < |t.nodes[cell.primary].ctxs|
    ensures var known := t.nodes[cell.primary].ctxs[k].known; known == None || known == Some(p.msg.number)
  {
    EndingNumber(cell, t, p);
    RecordedIsGiven(cell, t, cell.primary, k);
    OneNumberGiven(cell, cell.primary);
    hide *;
  }

  /** Sessions are opened to distinct peers: ENDING then carries exactly the
      number the primary has recorded, in whichever run it recorded it. */
  lemma EndingCarriesRecordedNumber(cell: Cell, s: Net, evs: seq<Event>, p: Packet, k: nat)
    requires Initial(cell, s) && cell.primary in cell.ps
    requires NoRepeats(cell.ps)
    requires var t := After(cell, s, evs);
      && p in t.wire && p.msg.kind == Ending
      && cell.primary in t.nodes && k < |t.nodes[cell.primary].ctxs|
    ensures var known := After(cell, s, evs).nodes[cell.primary].ctxs[k].known;
            known == None || known == Some(p.msg.number)
  {
    hide Inv, Initial, After, NoRepeats;
    RunsKeepInv(cell, s, evs);
    RecordedMatches(cell, After(cell, s, evs), p, k);
  }

  // ------------------------------------------------------------ one attempt

  /** The answers delivered in this attempt that belong to it. */
  function Current(s: Net): set<Packet> {
    set p | p in s.answers && p.attempt == s.attempt
  }

  /** A CONNECTED of another attempt is delivered. */
  predicate Stale(cell: Cell, s: Net, e: Event) {
    && e.Deliver? && e.p in s.wire && e.p.dst == cell.backup && e.p.msg.kind == Connected
    && e.p.attempt != s.attempt
  }

  /** Old answers come from the servers in `late` only. */
  predicate LateFrom(cell: Cell, s: Net, evs: seq<Event>, late: set<nat>) {
    evs != [] ==>
      var pre := evs[..|evs| - 1];
      LateFrom(cell, s, pre, late) && (Stale(cell, After(cell, s, pre), evs[|pre|]) ==> evs[|pre|].p.src in late)
  }

  /** Nothing old was delivered. */
  predicate AllCurrent(s: Net) {
    forall p :: p in s.answers ==> p.attempt == s.attempt
  }

  lemma StepAnswers(cell: Cell, s: Net, e: Event)
    requires AllCurrent(s) && !Stale(cell, s, e)
    ensures AllCurrent(Step(cell, s, e))
  {
    hide R.Step, B.Step, Emitted, Starts;
  }

  lemma {:induction false} PromptAnswers(cell: Cell, s: Net, evs: seq<Event>)
    requires Initial(cell, s) && LateFrom(cell, s, evs, {})
    ensures AllCurrent(After(cell, s, evs))
  {
    if evs == [] {
      assert AllCurrent(s);
    } else {
      hide Step, Stale, AllCurrent, Initial;
      var pre, e := evs[..|evs| - 1], evs[|evs| - 1];
      PromptAnswers(cell, s, pre);
      StepAnswers(cell, After(cell, s, pre), e);
    }
  }

  /** Within an attempt: as long as no answer of an earlier one is delivered after
      the restart, ENDING means that every peer has handled the START of this very
      attempt and answered it. */
  lemma PromptAttemptsAreSafe(cell: Cell, s: Net, evs: seq<Event>)
    requires Initial(cell, s) && LateFrom(cell, s, evs, {}) && B.SentEnding(After(cell, s, evs).init)
    ensures AllAnswered(cell, Current(After(cell, s, evs)))
    ensures Current(After(cell, s, evs)) <= After(cell, s, evs).wire
  {
    RunsKeepInv(cell, s, evs);
    var t := After(cell, s, evs);
    EndingMeansDelivered(cell, t);
    PromptAnswers(cell, s, evs);
    assert Elems(t.answers) == Current(t) <= t.wire;
  }
}
