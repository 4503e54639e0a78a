/** A responder in the resuming protocol: a normal server, a remote router or
    the returning primary itself (apps/silcd/server_backup.c), and the link to
    the returning primary that stays disabled meanwhile.

    `backup_proto` pointers are modelled as indices into the contexts allocated
    so far.  Only the two links of the
    protocol are modelled: to the acting backup and to the returning primary. */
module ResumeResponder {
  import opened Wire

  datatype Link = ToBackup | ToPrimary

  datatype Ctx = Ctx(
    ptype: ResumeKind,        // ctx->type
    session: nat,             // ctx->session
    known: Option<nat>,       // ctx->sessions[0].session once recorded
    state: nat,               // ctx->state
    sock: Link,               // ctx->sock
    live: bool,               // not yet freed
    runs: nat,                // scheduled silc_server_protocol_backup tasks
    finishing: bool)          // silc_server_protocol_backup_done is scheduled

  datatype Node = Node(
    kind: ServerType,         // server->server_type
    routeUsable: bool,        // server->router is set and not disabled
    router: Link,             // which of the two peers server->router is
    backupPrimary: bool,      // server->backup_primary
    backupClosed: bool,       // server->backup_closed
    replaced: bool,           // the backup is recorded as replacing the primary
    linked: bool,             // there is a stream to the primary
    disabled: bool,           // its entry carries SILC_IDLIST_STATUS_DISABLED
    atBackup: Option<nat>,    // backup_proto of the backup's entry
    atPrimary: Option<nat>,   // backup_proto of the primary's entry
    ctxs: seq<Ctx>,           // every context allocated so far
    connects: nat)            // connection attempts towards the primary

  /** What a step puts on the wire. */
  datatype Effect = Silent | Reply(link: Link, number: nat) | AnnounceResumed

  predicate Live(n: Node, k: nat) {
    k < |n.ctxs| && n.ctxs[k].live
  }

  /** A pointer that can be followed. */
  predicate Points(n: Node, p: Option<nat>) {
    p.Some? && Live(n, p.value)
  }

  function Pointer(n: Node, link: Link): Option<nat> {
    if link == ToBackup then n.atBackup else n.atPrimary
  }

  // ---------------------------------------------------------------- arrivals

  /** START allocates a context, whatever was running before. */
  function Started(n: Node, link: Link, number: nat): Node {
    if n.kind == Router && n.backupClosed then n.(backupClosed := false)
    else
      var k := |n.ctxs|;
      var n1 := n.(ctxs := n.ctxs + [Ctx(Start, number, None, 1, link, true, 1, false)]);
      if link == ToBackup then n1.(atBackup := Some(k)) else n1.(atPrimary := Some(k))
  }

  /** RESUMED on a disabled primary link adopts the context of the backup. */
  function Adopted(n: Node, link: Link, kind: ResumeKind): Node {
    if kind == Resumed && link == ToPrimary && n.atPrimary == None && n.disabled && n.replaced
       && Points(n, n.atBackup)
    then
      var k := n.atBackup.value;
      n.(atPrimary := Some(k), ctxs := n.ctxs[k := n.ctxs[k].(sock := ToPrimary)])
    else n
  }

  /** The context's `type` is always overwritten, its `session` only by a known
      number. */
  function Handed(n: Node, k: nat, m: ResumeMessage): Node
    requires Live(n, k)
  {
    var c := n.ctxs[k].(ptype := m.kind);
    n.(ctxs := n.ctxs[k :=
        if c.known == Some(m.number) then c.(session := m.number, runs := c.runs + 1)
        else if m.kind == Resumed then c.(runs := c.runs + 1)
        else c])
  }

  /** REPLACED over our primary route: a backup has taken that router's place. */
  predicate IsReplaced(n: Node, link: Link, kind: ResumeKind) {
    kind == Replaced && n.kind == Router && n.router == link
  }

  /** silc_server_backup_resume_router. */
  function Received(n: Node, link: Link, m: ResumeMessage): (r: Node)
    ensures r.linked == n.linked
  {
    if m.kind == Start then Started(n, link, m.number)
    else if IsReplaced(n, link, m.kind) then
      if link == ToPrimary then n.(disabled := true) else n
    else
      var n1 := Adopted(n, link, m.kind);
      var p := Pointer(n1, link);
      if Points(n1, p) then Handed(n1, p.value, m) else n1
  }

  // -------------------------------------------------------------------- runs

  function Recorded(n: Node, k: nat): Node
    requires Live(n, k)
  {
    var next := if n.kind == Router && !n.routeUsable then 2 else 250;
    n.(ctxs := n.ctxs[k := n.ctxs[k].(known := Some(n.ctxs[k].session), state := next)])
  }

  /** RESUMED was seen: go back to the primary the backup had replaced. */
  function SwitchedBack(n: Node, k: nat): Node
    requires Live(n, k)
  {
    if n.ctxs[k].sock == ToPrimary && n.replaced then
      n.(router := ToPrimary, backupPrimary := false, disabled := false, replaced := false)
    else n
  }

  /** silc_server_protocol_backup as responder. */
  function Ran(n: Node, k: nat): (r: (Node, Effect))
    requires Live(n, k)
    ensures r.0.linked == n.linked
  {
    var c := n.ctxs[k];
    if c.state == 1 then
      if c.ptype != Start then (n, Silent)
      else if n.backupPrimary && !n.linked then (Recorded(n, k).(connects := n.connects + 1), Silent)
      else (Recorded(n, k), Reply(c.sock, c.session))
    else if c.state == 2 then
      if c.ptype != Ending then (n, Silent)
      else
        (n.(disabled := false, atBackup := Some(k), atPrimary := if n.linked then Some(k) else n.atPrimary,
            ctxs := n.ctxs[k := c.(finishing := true)]),
         AnnounceResumed)
    else
      if c.ptype != Resumed then (n, Silent)
      else (SwitchedBack(n, k).(ctxs := n.ctxs[k := c.(finishing := true)]), Silent)
  }

  /** silc_server_backup_connect_primary on success: answer the backup, disable
      the new link and move the context there. */
  function ConnectedBack(n: Node): (r: (Node, Effect))
    ensures r.0.linked
  {
    var up := n.(linked := true, disabled := false, atPrimary := None);
    if Points(n, n.atBackup) then
      var k := n.atBackup.value;
      (up.(disabled := true, ctxs := n.ctxs[k := n.ctxs[k].(sock := ToPrimary)],
           atPrimary := Some(k), atBackup := None),
       Reply(ToBackup, n.ctxs[k].session))
    else (up, Silent)
  }

  /** silc_server_protocol_backup_done.  After an error a normal server leaves
      router links as they are. */
  function Done(n: Node, k: nat, error: bool): (r: Node)
    requires Live(n, k)
    ensures r.linked == n.linked
  {
    var keep := error && n.kind == NormalServer;
    var n1 := n.(
      disabled := if n.atPrimary == Some(k) && !keep then false else n.disabled,
      ctxs := n.ctxs[k := n.ctxs[k].(live := false)]);
    if n.ctxs[k].sock == ToBackup then n1.(atBackup := None) else n1.(atPrimary := None)
  }

  // ------------------------------------------------------------------ events

  datatype Event =
    | Arrive(link: Link, msg: ResumeMessage)
    | Run(k: nat)
    | Connect
    | Timeout(k: nat)
    | Finish(k: nat)

  /** One scheduled run leaves the queue. */
  function Taken(n: Node, k: nat): Node
    requires Live(n, k) && n.ctxs[k].runs > 0
  {
    n.(ctxs := n.ctxs[k := n.ctxs[k].(runs := n.ctxs[k].runs - 1)])
  }

  /** Tasks run only when scheduled; a second stream to the primary is another
      link and leaves this one alone. */
  function Step(n: Node, e: Event): (r: (Node, Effect)) {
    match e
    case Arrive(link, m) => (Received(n, link, m), Silent)
    case Run(k) =>
      if Live(n, k) && n.ctxs[k].runs > 0 then Ran(Taken(n, k), k) else (n, Silent)
    case Connect =>
      if n.connects > 0 && !n.linked then ConnectedBack(n.(connects := n.connects - 1)) else (n, Silent)
    case Timeout(k) => (if Live(n, k) then Done(n, k, true) else n, Silent)
    case Finish(k) => (if Live(n, k) && n.ctxs[k].finishing then Done(n, k, false) else n, Silent)
  }

  function After(n: Node, evs: seq<Event>): Node {
    if evs == [] then n else Step(After(n, evs[..|evs| - 1]), evs[|evs| - 1]).0
  }

  // ------------------------------------------- what the events do, one by one

  /** START: a new context over this link, unless a router whose backup had closed
      the connection refuses it, once. */
  lemma StartSets(n: Node, link: Link, number: nat)
    ensures var t, refused := Step(n, Arrive(link, ResumeMessage(Start, number))).0, n.kind == Router && n.backupClosed;
      && t.backupClosed == (n.backupClosed && !refused)
      && t.ctxs == (if refused then n.ctxs else n.ctxs + [Ctx(Start, number, None, 1, link, true, 1, false)])
      && t.atBackup == (if !refused && link == ToBackup then Some(|n.ctxs|) else n.atBackup)
      && t.atPrimary == (if !refused && link == ToPrimary then Some(|n.ctxs|) else n.atPrimary)
      && t == n.(backupClosed := t.backupClosed, ctxs := t.ctxs, atBackup := t.atBackup, atPrimary := t.atPrimary)
  {
  }

  /** REPLACED over its primary route only tells a router not to use that route. */
  lemma ReplacedDisables(n: Node, number: nat)
    requires n.kind == Router && n.router == ToPrimary
    ensures Step(n, Arrive(ToPrimary, ResumeMessage(Replaced, number))).0 == n.(disabled := true)
  {
  }

  lemma HandedSets(n: Node, k: nat, m: ResumeMessage)
    requires Live(n, k)
    ensures Handed(n, k, m).ctxs == n.ctxs[k := n.ctxs[k].(
              ptype := m.kind,
              session := if n.ctxs[k].known == Some(m.number) then m.number else n.ctxs[k].session,
              runs := if n.ctxs[k].known == Some(m.number) || m.kind == Resumed then n.ctxs[k].runs + 1
                      else n.ctxs[k].runs)]
    ensures Handed(n, k, m) == n.(ctxs := Handed(n, k, m).ctxs)
  {
  }

  lemma NothingAdopted(n: Node, link: Link, kind: ResumeKind)
    requires link == ToPrimary && kind == Resumed ==> n.atPrimary.Some? || !n.disabled || !n.replaced
    ensures Adopted(n, link, kind) == n
  {
  }

  lemma StepReceives(n: Node, link: Link, m: ResumeMessage)
    ensures Step(n, Arrive(link, m)).0 == Received(n, link, m)
  {
    hide Received;
  }

  /** Every other packet goes to the context of its link: its type always, its
      session if it is the recorded one, and a run for either that or RESUMED. */
  lemma PacketSets(n: Node, link: Link, m: ResumeMessage)
    requires m.kind != Start && !(m.kind == Replaced && n.kind == Router && n.router == link)
    requires link == ToPrimary && m.kind == Resumed ==> n.atPrimary.Some? || !n.disabled || !n.replaced
    ensures var t, p := Step(n, Arrive(link, m)).0, if link == ToBackup then n.atBackup else n.atPrimary;
      && t == n.(ctxs := t.ctxs)
      && if p.Some? && p.value < |n.ctxs| && n.ctxs[p.value].live then
           var c := n.ctxs[p.value];
           t.ctxs == n.ctxs[p.value := c.(
             ptype := m.kind, session := if c.known == Some(m.number) then m.number else c.session,
             runs := if c.known == Some(m.number) || m.kind == Resumed then c.runs + 1 else c.runs)]
         else t.ctxs == n.ctxs
  {
    var p := Pointer(n, link);
    NothingAdopted(n, link, m.kind);
    hide Handed, Adopted, Step;
    StepReceives(n, link, m);
    if Points(n, p) {
      assert Received(n, link, m) == Handed(n, p.value, m);
      HandedSets(n, p.value, m);
    } else {
      assert Received(n, link, m) == n;
    }
    hide Received;
  }

  /** A RESUMED over a disabled link to the replaced primary that has no context
      takes over the backup's, and schedules its run. */
  lemma AdoptionSets(n: Node, number: nat, k: nat)
    requires n.atPrimary == None && n.disabled && n.replaced && n.atBackup == Some(k)
    requires k < |n.ctxs| && n.ctxs[k].live
    ensures var t := Step(n, Arrive(ToPrimary, ResumeMessage(Resumed, number))).0;
      && t.atPrimary == Some(k) && t.atBackup == Some(k) && t.replaced && t.disabled
      && t.ctxs == n.ctxs[k := n.ctxs[k].(
           ptype := Resumed, sock := ToPrimary, runs := n.ctxs[k].runs + 1,
           session := if n.ctxs[k].known == Some(number) then number else n.ctxs[k].session)]
  {
    var m := ResumeMessage(Resumed, number);
    var a := Adopted(n, ToPrimary, Resumed);
    assert a == n.(atPrimary := Some(k), ctxs := n.ctxs[k := n.ctxs[k].(sock := ToPrimary)]);
    HandedSets(a, k, m);
    hide Handed, Adopted;
  }

  /** A run of this context is due. */
  predicate Due(n: Node, e: Event) {
    e.Run? && e.k < |n.ctxs| && n.ctxs[e.k].live && n.ctxs[e.k].runs > 0
  }

  /** Who answers CONNECTED, where, and with which number. */
  lemma AnswersIff(n: Node, e: Event, link: Link, number: nat)
    ensures Step(n, e).1 == Reply(link, number)
            <==> || (&& e.Run? && e.k < |n.ctxs| && n.ctxs[e.k].live && n.ctxs[e.k].runs > 0
                     && n.ctxs[e.k].state == 1 && n.ctxs[e.k].ptype == Start && (!n.backupPrimary || n.linked)
                     && link == n.ctxs[e.k].sock && number == n.ctxs[e.k].session)
                 || (&& e == Connect && n.connects > 0 && !n.linked
                     && n.atBackup.Some? && n.atBackup.value < |n.ctxs| && n.ctxs[n.atBackup.value].live
                     && link == ToBackup && number == n.ctxs[n.atBackup.value].session)
  {
    hide Received, Done;
  }

  /** Who announces RESUMED: the returning primary that has seen ENDING. */
  lemma AnnouncesIff(n: Node, e: Event)
    ensures Step(n, e).1 == AnnounceResumed
            <==> && e.Run? && e.k < |n.ctxs| && n.ctxs[e.k].live && n.ctxs[e.k].runs > 0
                 && n.ctxs[e.k].state == 2 && n.ctxs[e.k].ptype == Ending
  {
    hide Received, Done;
  }

  /** The first run of a context records its session; only a router without a usable
      route becomes the one that waits for ENDING. */
  lemma FirstRunSets(n: Node, k: nat)
    requires k < |n.ctxs| && n.ctxs[k].live && n.ctxs[k].runs > 0 && n.ctxs[k].state == 1 && n.ctxs[k].ptype == Start
    ensures var t, c := Step(n, Run(k)).0, n.ctxs[k];
      && t.ctxs == n.ctxs[k := c.(known := Some(c.session), runs := c.runs - 1,
                                  state := if n.kind == Router && !n.routeUsable then 2 else 250)]
      && t == n.(ctxs := t.ctxs, connects := if n.backupPrimary && !n.linked then n.connects + 1 else n.connects)
  {
    hide Received, Done, ConnectedBack;
  }

  lemma RunSwitches(n: Node, k: nat)
    requires Live(n, k) && n.ctxs[k].runs > 0 && n.router == ToBackup
    ensures Ran(Taken(n, k), k).0.router == ToPrimary
            <==> && n.ctxs[k].state != 1 && n.ctxs[k].state != 2 && n.ctxs[k].ptype == Resumed
                 && n.ctxs[k].sock == ToPrimary && n.replaced
  {
  }

  /** Who goes back to the primary. */
  lemma SwitchesBackIff(n: Node, e: Event)
    requires n.router == ToBackup
    ensures Step(n, e).0.router == ToPrimary
            <==> && e.Run? && e.k < |n.ctxs| && n.ctxs[e.k].live && n.ctxs[e.k].runs > 0
                 && n.ctxs[e.k].state != 1 && n.ctxs[e.k].state != 2 && n.ctxs[e.k].ptype == Resumed
                 && n.ctxs[e.k].sock == ToPrimary && n.replaced
  {
    if Due(n, e) { RunSwitches(n, e.k); }
    hide Ran;
  }

  lemma RunLifts(n: Node, k: nat)
    requires Live(n, k) && n.ctxs[k].runs > 0 && n.disabled
    ensures !Ran(Taken(n, k), k).0.disabled
            <==> || (n.ctxs[k].state == 2 && n.ctxs[k].ptype == Ending)
                 || (&& n.ctxs[k].state != 1 && n.ctxs[k].state != 2 && n.ctxs[k].ptype == Resumed
                     && n.ctxs[k].sock == ToPrimary && n.replaced)
  {
  }

  lemma DoneLifts(n: Node, k: nat, error: bool)
    requires Live(n, k) && n.disabled
    ensures !Done(n, k, error).disabled <==> n.atPrimary == Some(k) && !(error && n.kind == NormalServer)
  {
  }

  lemma ConnectLifts(n: Node)
    ensures !ConnectedBack(n).0.disabled <==> !Points(n, n.atBackup)
  {
  }

  lemma HandedKeeps(n: Node, link: Link, m: ResumeMessage)
    ensures Started(n, link, m.number).disabled == Adopted(n, link, m.kind).disabled == n.disabled
    ensures forall a: Node, k: nat :: Live(a, k) ==> Handed(a, k, m).disabled == a.disabled
  {
  }

  lemma ArrivalLifts(n: Node, link: Link, m: ResumeMessage)
    requires n.disabled
    ensures Received(n, link, m).disabled
  {
    hide Started, Adopted, Handed;
    HandedKeeps(n, link, m);
  }

  /** What lifts the restriction of the primary's link. */
  lemma LiftsIff(n: Node, e: Event)
    requires n.disabled
    ensures !Step(n, e).0.disabled
            <==> match e
                 case Arrive(_, _) => false
                 case Run(k) =>
                   && k < |n.ctxs| && n.ctxs[k].live && n.ctxs[k].runs > 0
                   && (|| (n.ctxs[k].state == 2 && n.ctxs[k].ptype == Ending)
                       || (&& n.ctxs[k].state != 1 && n.ctxs[k].state != 2 && n.ctxs[k].ptype == Resumed
                           && n.ctxs[k].sock == ToPrimary && n.replaced))
                 case Connect =>
                   && n.connects > 0 && !n.linked
                   && !(n.atBackup.Some? && n.atBackup.value < |n.ctxs| && n.ctxs[n.atBackup.value].live)
                 case Timeout(k) =>
                   k < |n.ctxs| && n.ctxs[k].live && n.atPrimary == Some(k) && n.kind != NormalServer
                 case Finish(k) => k < |n.ctxs| && n.ctxs[k].live && n.ctxs[k].finishing && n.atPrimary == Some(k)
  {
    match e
    case Arrive(link, m) => hide Started, Adopted, Handed; ArrivalLifts(n, link, m);
    case Run(k) => if Due(n, e) { RunLifts(n, k); } hide Ran;
    case Connect => if n.connects > 0 { ConnectLifts(n.(connects := n.connects - 1)); } hide ConnectedBack;
    case Timeout(k) => if Live(n, k) { DoneLifts(n, k, true); } hide Done;
    case Finish(k) => if Live(n, k) { DoneLifts(n, k, false); } hide Done;
  }

  lemma ArrivalImposes(n: Node, link: Link, m: ResumeMessage)
    requires !n.disabled
    ensures Received(n, link, m).disabled
            <==> m.kind == Replaced && n.kind == Router && n.router == link && link == ToPrimary
  {
  }

  lemma RunImposes(n: Node, k: nat)
    requires Live(n, k) && n.ctxs[k].runs > 0 && !n.disabled
    ensures !Ran(Taken(n, k), k).0.disabled
  {
  }

  /** What imposes it: the fresh link of an answer, and REPLACED. */
  lemma ImposesIff(n: Node, e: Event)
    requires !n.disabled
    ensures Step(n, e).0.disabled
            <==> || (&& e == Connect && n.connects > 0 && !n.linked
                     && n.atBackup.Some? && n.atBackup.value < |n.ctxs| && n.ctxs[n.atBackup.value].live)
                 || (&& e.Arrive? && e.msg.kind == Replaced && n.kind == Router && n.router == e.link
                     && e.link == ToPrimary)
  {
    match e
    case Arrive(link, m) => ArrivalImposes(n, link, m); hide Received;
    case Run(k) => if Due(n, e) { RunImposes(n, k); } hide Ran;
    case Connect => if n.connects > 0 { ConnectLifts(n.(connects := n.connects - 1)); } hide ConnectedBack;
    case _ => hide Ran, Received, ConnectedBack;
  }

  lemma DoneSets(n: Node, k: nat, error: bool)
    requires Live(n, k)
    ensures var t := Done(n, k, error);
      && t.ctxs == n.ctxs[k := n.ctxs[k].(live := false)]
      && t.atBackup == (if n.ctxs[k].sock == ToBackup then None else n.atBackup)
      && t.atPrimary == (if n.ctxs[k].sock == ToBackup then n.atPrimary else None)
      && t.router == n.router && t.replaced == n.replaced && t.backupPrimary == n.backupPrimary
      && t.linked == n.linked && t.connects == n.connects
  {
  }

  /** The run that has seen ENDING: both links point at its context, the restriction
      is lifted and the protocol finishes. */
  lemma EndingRunSets(n: Node, k: nat)
    requires k < |n.ctxs| && n.ctxs[k].live && n.ctxs[k].runs > 0 && n.ctxs[k].state == 2 && n.ctxs[k].ptype == Ending
    ensures Step(n, Run(k)).0
            == n.(disabled := false, atBackup := Some(k), atPrimary := if n.linked then Some(k) else n.atPrimary,
                  ctxs := n.ctxs[k := n.ctxs[k].(finishing := true, runs := n.ctxs[k].runs - 1)])
  {
    hide Received, Done, ConnectedBack;
  }

  /** The run that has seen RESUMED finishes; over the link to the primary it also
      switches back, if a backup had replaced that. */
  lemma ResumedRunSets(n: Node, k: nat)
    requires k < |n.ctxs| && n.ctxs[k].live && n.ctxs[k].runs > 0
    requires n.ctxs[k].state != 1 && n.ctxs[k].state != 2 && n.ctxs[k].ptype == Resumed
    ensures var back := n.ctxs[k].sock == ToPrimary && n.replaced;
            var u := if back then n.(router := ToPrimary, backupPrimary := false, disabled := false, replaced := false)
                     else n;
            Step(n, Run(k)).0 == u.(ctxs := n.ctxs[k := n.ctxs[k].(finishing := true, runs := n.ctxs[k].runs - 1)])
  {
    hide Received, Done, ConnectedBack;
  }

  /** The connection to the primary: the context moves to it, or there is none and the
      link is free. */
  lemma ConnectSets(n: Node)
    requires n.connects > 0 && !n.linked
    ensures var t, up := Step(n, Connect).0, n.(linked := true, connects := n.connects - 1);
            if n.atBackup.Some? && n.atBackup.value < |n.ctxs| && n.ctxs[n.atBackup.value].live
            then t == up.(disabled := true, atBackup := None, atPrimary := n.atBackup,
                          ctxs := n.ctxs[n.atBackup.value := n.ctxs[n.atBackup.value].(sock := ToPrimary)])
            else t == up.(disabled := false, atPrimary := None)
  {
    hide Received, Done, Ran;
  }

  /** A completed context is gone, and so is the pointer of its link. */
  lemma CompletionSets(n: Node, k: nat, e: Event)
    requires k < |n.ctxs| && n.ctxs[k].live
    requires e == Timeout(k) || (e == Finish(k) && n.ctxs[k].finishing)
    ensures var t := Step(n, e).0;
      && t.ctxs == n.ctxs[k := n.ctxs[k].(live := false)]
      && t.atBackup == (if n.ctxs[k].sock == ToBackup then None else n.atBackup)
      && t.atPrimary == (if n.ctxs[k].sock == ToBackup then n.atPrimary else None)
      && t.router == n.router && t.replaced == n.replaced && t.backupPrimary == n.backupPrimary
      && t.linked == n.linked && t.connects == n.connects
  {
    DoneSets(n, k, e.Timeout?);
    hide Done;
  }

  // -------------------------------------------------------- the quiet link

  /** Packet types that matter on a disabled link; `Other` is everything else. */
  datatype PacketType = Heartbeat | ResumeRouter | Rekey | Other

  /** The guard of silc_server_packet_send, _send_dest and _send_srcdest for an
      entry that is not our own. */
  predicate PassesSend(n: Node, t: PacketType) {
    !(n.disabled && t != Heartbeat)
  }

  /** The disabled-link test of silc_server_packet_receive. */
  predicate PassesReceive(n: Node, t: PacketType) {
    !(n.disabled && t != Heartbeat && t != ResumeRouter && t != Rekey)
  }

  /** A context that no RESUMED and no success has reached. */
  predicate Waiting(c: Ctx) {
    c.ptype != Resumed && !c.finishing
  }

  /** A context that will not lift the restriction by itself: its completion is not
      scheduled, and no run is due that would take it for resumed. */
  predicate Harmless(c: Ctx) {
    !c.finishing && !(c.ptype == Resumed && c.runs > 0 && c.state != 1)
  }

  /** One context of a normal server: on the primary's link it is harmless, and
      none becomes the returning primary's own. */
  predicate CtxCalm(c: Ctx) {
    (c.sock == ToPrimary ==> Harmless(c)) && c.state != 2
  }

  predicate Leads(n: Node, p: Option<nat>, link: Link) {
    p.Some? ==> p.value < |n.ctxs| && n.ctxs[p.value].sock == link
  }

  /** A normal server that no RESUMED of the primary's has reached. */
  predicate Calm(n: Node) {
    && n.kind == NormalServer
    && Leads(n, n.atPrimary, ToPrimary) && Leads(n, n.atBackup, ToBackup)
    && forall k :: 0 <= k < |n.ctxs| ==> CtxCalm(n.ctxs[k])
  }

  /** The primary is back and its link is disabled. */
  predicate Quiet(n: Node) {
    n.linked && n.disabled
  }

  /** The connection to the returning primary succeeds and takes the context over. */
  predicate Moves(n: Node, e: Event) {
    e == Connect && n.connects > 0 && !n.linked && Points(n, n.atBackup)
  }

  /** What lifts the restriction sooner or later: RESUMED over the primary's link,
      or a context moved there that is not harmless. */
  predicate Stirs(n: Node, e: Event) {
    || (e.Arrive? && e.link == ToPrimary && e.msg.kind == Resumed)
    || (Moves(n, e) && !Harmless(n.ctxs[n.atBackup.value]))
  }

  /** Over this link. */
  predicate NoResumed(evs: seq<Event>, link: Link) {
    forall i :: 0 <= i < |evs| && evs[i].Arrive? && evs[i].link == link ==> evs[i].msg.kind != Resumed
  }

  /** A context is replaced by one on the same link. */
  lemma PutKeepsCalm(n: Node, k: nat, c: Ctx)
    requires Calm(n) && k < |n.ctxs| && CtxCalm(c) && c.sock == n.ctxs[k].sock
    ensures Calm(n.(ctxs := n.ctxs[k := c]))
  {
  }

  lemma ReceiveKeepsCalm(n: Node, link: Link, m: ResumeMessage)
    requires Calm(n) && !(link == ToPrimary && m.kind == Resumed)
    ensures var r := Received(n, link, m); Calm(r) && (Quiet(n) ==> Quiet(r))
  {
    var p := Pointer(n, link);
    if m.kind != Start && Points(n, p) {
      PutKeepsCalm(n, p.value, Handed(n, p.value, m).ctxs[p.value]);
    }
  }

  lemma RunKeepsCalm(n: Node, k: nat)
    requires Calm(n) && Live(n, k) && n.ctxs[k].runs > 0
    ensures var r := Ran(Taken(n, k), k).0; Calm(r) && (Quiet(n) ==> Quiet(r))
  {
    var c, t := n.ctxs[k], Taken(n, k);
    assert CtxCalm(c) && CtxCalm(t.ctxs[k]);
    PutKeepsCalm(n, k, t.ctxs[k]);
    if c.state == 1 && c.ptype == Start {
      PutKeepsCalm(t, k, Recorded(t, k).ctxs[k]);
    } else if c.sock == ToBackup {
      PutKeepsCalm(t, k, t.ctxs[k].(finishing := true));
    }
  }

  lemma DoneKeepsCalm(n: Node, k: nat, error: bool)
    requires Calm(n) && Live(n, k) && (error || n.ctxs[k].finishing)
    ensures var r := Done(n, k, error); Calm(r) && (Quiet(n) ==> Quiet(r))
  {
    var c := n.ctxs[k];
    assert CtxCalm(c);
    PutKeepsCalm(n, k, c.(live := false));
    var dead := n.(ctxs := n.ctxs[k := c.(live := false)]);
    assert Done(n, k, error) == if c.sock == ToBackup then dead.(atBackup := None) else dead.(atPrimary := None);
    hide Done, CtxCalm;
  }

  lemma ConnectKeepsCalm(n: Node)
    requires Calm(n) && (Points(n, n.atBackup) ==> Harmless(n.ctxs[n.atBackup.value]))
    ensures var r := ConnectedBack(n).0; Calm(r) && (Points(n, n.atBackup) ==> Quiet(r))
  {
    if Points(n, n.atBackup) { assert CtxCalm(n.ctxs[n.atBackup.value].(sock := ToPrimary)); }
  }

  /** One event, whatever it is. */
  lemma StepKeepsCalm(n: Node, e: Event)
    requires Calm(n) && !Stirs(n, e)
    ensures Calm(Step(n, e).0)
    ensures Quiet(n) || Moves(n, e) ==> Quiet(Step(n, e).0)
  {
    hide Received, Ran, ConnectedBack, Done;
    match e
    case Arrive(link, m) => ReceiveKeepsCalm(n, link, m);
    case Run(k) => if Live(n, k) && n.ctxs[k].runs > 0 { RunKeepsCalm(n, k); }
    case Connect =>
      if n.connects > 0 && !n.linked { ConnectKeepsCalm(n.(connects := n.connects - 1)); }
    case Timeout(k) => if Live(n, k) { DoneKeepsCalm(n, k, true); }
    case Finish(k) => if Live(n, k) && n.ctxs[k].finishing { DoneKeepsCalm(n, k, false); }
  }

  lemma StaysLinked(n: Node, e: Event)
    requires n.linked
    ensures Step(n, e).0.linked && !Moves(n, e)
  {
    hide Received, Ran, ConnectedBack, Done;
  }

  lemma {:induction false} StaysQuiet(n: Node, evs: seq<Event>)
    requires Calm(n) && Quiet(n) && NoResumed(evs, ToPrimary)
    ensures Calm(After(n, evs)) && Quiet(After(n, evs))
  {
    if evs != [] {
      var pre := evs[..|evs| - 1];
      assert forall i :: 0 <= i < |pre| ==> pre[i] == evs[i];
      StaysQuiet(n, pre);
      StaysLinked(After(n, pre), evs[|pre|]);
      StepKeepsCalm(After(n, pre), evs[|pre|]);
    }
  }

  /** Quiet link.  A normal server answers CONNECTED over a fresh link to the
      returning primary, with a harmless context: that link stays disabled through
      every arrival, run, further START, failure and timeout, and through any
      RESUMED of the backup's, until a RESUMED arrives over the link itself.  The
      send functions let only heartbeats through and the receive path processes
      only heartbeat, resume and rekey packets. */
  lemma {:induction false} QuietUntilResumed(n: Node, evs: seq<Event>)
    requires Calm(n) && Moves(n, Connect) && Harmless(n.ctxs[n.atBackup.value])
    requires NoResumed(evs, ToPrimary)
    ensures Step(n, Connect).1 == Reply(ToBackup, n.ctxs[n.atBackup.value].session)
    ensures var m := After(Step(n, Connect).0, evs);
            && (forall t :: PassesSend(m, t) <==> t == Heartbeat)
            && (forall t :: PassesReceive(m, t) <==> t != Other)
  {
    StepKeepsCalm(n, Connect);
    StaysQuiet(Step(n, Connect).0, evs);
    assert !PassesSend(After(Step(n, Connect).0, evs), Other);
  }

  lemma AfterNothing(n: Node)
    ensures After(n, []) == n
  {
  }

  lemma AfterSnoc(n: Node, evs: seq<Event>, e: Event)
    ensures After(n, evs + [e]) == Step(After(n, evs), e).0
  {
    assert (evs + [e])[..|evs|] == evs;
  }

  lemma AfterTwo(n: Node, a: Event, b: Event)
    ensures After(n, [a, b]) == Step(Step(n, a).0, b).0
  {
    hide Step;
    AfterSnoc(n, [], a);
    AfterSnoc(n, [a], b);
    assert [] + [a] == [a] && [a] + [b] == [a, b];
  }

  lemma RunKeepsFinishing(m: Node, k: nat)
    requires Live(m, k) && m.ctxs[k].state != 2
    ensures var r := Ran(m, k).0;
      && Live(r, k) && r.atPrimary == m.atPrimary
      && (m.ctxs[k].finishing || (m.ctxs[k].ptype == Resumed && m.ctxs[k].state != 1) ==> r.ctxs[k].finishing)
  {
  }

  lemma RunFinishes(m: Node, k: nat)
    requires Live(m, k) && m.ctxs[k].state != 2 && !Harmless(m.ctxs[k])
    ensures var r := Step(m, Run(k)).0;
      && Live(r, k) && r.ctxs[k].finishing && r.atPrimary == m.atPrimary
  {
    var c := m.ctxs[k];
    if c.runs > 0 { RunKeepsFinishing(Taken(m, k), k); }
    hide Ran;
  }

  lemma FinishLifts(m: Node, k: nat)
    requires Live(m, k) && m.ctxs[k].finishing && m.atPrimary == Some(k)
    ensures !Step(m, Finish(k)).0.disabled
  {
  }

  /** Any other context lifts the restriction in a run and its completion. */
  lemma LiftsWithoutResumed(n: Node) returns (evs: seq<Event>)
    requires Calm(n) && Moves(n, Connect) && !Harmless(n.ctxs[n.atBackup.value])
    ensures NoResumed(evs, ToPrimary) && !Quiet(After(Step(n, Connect).0, evs))
  {
    var k := n.atBackup.value;
    var m := Step(n, Connect).0;
    assert CtxCalm(n.ctxs[k]);
    evs := [Run(k), Finish(k)];
    AfterTwo(m, Run(k), Finish(k));
    var c := m.ctxs[k];
    assert c == n.ctxs[k].(sock := ToPrimary) && m.atPrimary == Some(k) && m.kind == NormalServer;
    RunFinishes(m, k);
    FinishLifts(Step(m, Run(k)).0, k);
  }

  // ----------------------------------------------- before the primary is back

  predicate Fresh(n: Node) {
    n.kind == NormalServer && n.ctxs == [] && n.atBackup == None && n.atPrimary == None
  }

  predicate AllWaiting(cs: seq<Ctx>) {
    forall k :: 0 <= k < |cs| ==> Waiting(cs[k])
  }

  lemma PutKeepsWaiting(cs: seq<Ctx>, k: nat, c: Ctx)
    requires k < |cs| && AllWaiting(cs) && Waiting(c)
    ensures AllWaiting(cs[k := c])
  {
  }

  lemma ReceiveKeepsWaiting(n: Node, link: Link, m: ResumeMessage)
    requires AllWaiting(n.ctxs) && m.kind != Resumed
    ensures AllWaiting(Received(n, link, m).ctxs)
  {
    var p := Pointer(n, link);
    if m.kind != Start && Points(n, p) {
      PutKeepsWaiting(n.ctxs, p.value, Handed(n, p.value, m).ctxs[p.value]);
    }
  }

  lemma RunKeepsWaiting(n: Node, k: nat)
    requires Calm(n) && AllWaiting(n.ctxs) && Live(n, k)
    ensures AllWaiting(Ran(n, k).0.ctxs)
  {
    assert CtxCalm(n.ctxs[k]) && Waiting(n.ctxs[k]);
    if n.ctxs[k].state == 1 { PutKeepsWaiting(n.ctxs, k, Recorded(n, k).ctxs[k]); }
  }

  lemma ConnectKeepsWaiting(n: Node)
    requires AllWaiting(n.ctxs)
    ensures AllWaiting(ConnectedBack(n).0.ctxs)
  {
  }

  lemma RunEventKeepsWaiting(n: Node, k: nat)
    requires Calm(n) && AllWaiting(n.ctxs) && Live(n, k) && n.ctxs[k].runs > 0
    ensures AllWaiting(Ran(Taken(n, k), k).0.ctxs)
  {
    assert CtxCalm(n.ctxs[k]) && Waiting(n.ctxs[k]);
    PutKeepsCalm(n, k, Taken(n, k).ctxs[k]);
    PutKeepsWaiting(n.ctxs, k, Taken(n, k).ctxs[k]);
    hide *;
    RunKeepsWaiting(Taken(n, k), k);
  }

  lemma DoneKeepsWaiting(n: Node, k: nat, error: bool)
    requires AllWaiting(n.ctxs) && Live(n, k)
    ensures AllWaiting(Done(n, k, error).ctxs)
  {
    PutKeepsWaiting(n.ctxs, k, n.ctxs[k].(live := false));
  }

  lemma StepKeepsWaiting(n: Node, e: Event)
    requires Calm(n) && AllWaiting(n.ctxs) && (e.Arrive? ==> e.msg.kind != Resumed)
    ensures AllWaiting(Step(n, e).0.ctxs)
  {
    hide Received, Ran, ConnectedBack, Done, AllWaiting, Calm;
    match e
    case Arrive(link, m) => ReceiveKeepsWaiting(n, link, m);
    case Run(k) => if Live(n, k) && n.ctxs[k].runs > 0 { RunEventKeepsWaiting(n, k); }
    case Connect => if n.connects > 0 { ConnectKeepsWaiting(n.(connects := n.connects - 1)); }
    case Timeout(k) => if Live(n, k) { DoneKeepsWaiting(n, k, true); }
    case Finish(k) => if Live(n, k) { DoneKeepsWaiting(n, k, false); }
  }

  /** The premise of `QuietUntilResumed` holds along every run without RESUMED. */
  lemma {:induction false} UnresumedUntilResumed(n: Node, evs: seq<Event>)
    requires Fresh(n) && NoResumed(evs, ToPrimary) && NoResumed(evs, ToBackup)
    ensures Calm(After(n, evs)) && AllWaiting(After(n, evs).ctxs)
  {
    if evs != [] {
      var pre, e := evs[..|evs| - 1], evs[|evs| - 1];
      assert forall i :: 0 <= i < |pre| ==> pre[i] == evs[i];
      UnresumedUntilResumed(n, pre);
      assert e.Arrive? ==> e.msg.kind != Resumed by { assert evs[|pre|] == e; }
      StepKeepsWaiting(After(n, pre), e);
      StepKeepsCalm(After(n, pre), e);
    }
  }

  lemma LinkedNext(n: Node, e: Event)
    ensures n.linked || Moves(n, e) ==> Step(n, e).0.linked
  {
    hide Received, Ran, ConnectedBack, Done;
  }

  /** Whatever the backup sends, RESUMED included. */
  lemma {:induction false} CalmUntilConnected(n: Node, evs: seq<Event>)
    requires Fresh(n) && NoResumed(evs, ToPrimary) && !After(n, evs).linked
    ensures Calm(After(n, evs))
  {
    if evs != [] {
      var pre, e := evs[..|evs| - 1], evs[|evs| - 1];
      assert forall i :: 0 <= i < |pre| ==> pre[i] == evs[i];
      var m := After(n, pre);
      LinkedNext(m, e);
      CalmUntilConnected(n, pre);
      StepKeepsCalm(m, e);
    }
  }

  /** Exactly when the link is quiet: after any run of a fresh server, once it has
      answered CONNECTED over the new link, no continuation without RESUMED over
      that link lifts the restriction, if and only if the context it moves there is
      harmless. */
  lemma QuietIff(n: Node, pre: seq<Event>)
    requires Fresh(n) && NoResumed(pre, ToPrimary) && Moves(After(n, pre), Connect)
    ensures var m := After(n, pre);
            (forall evs :: NoResumed(evs, ToPrimary) ==> Quiet(After(Step(m, Connect).0, evs)))
            <==> Harmless(m.ctxs[m.atBackup.value])
  {
    var m := After(n, pre);
    CalmUntilConnected(n, pre);
    hide Step, Calm, After, Quiet, NoResumed, Fresh;
    if Harmless(m.ctxs[m.atBackup.value]) {
      forall evs | NoResumed(evs, ToPrimary) ensures Quiet(After(Step(m, Connect).0, evs)) {
        StepKeepsCalm(m, Connect);
        StaysQuiet(Step(m, Connect).0, evs);
      }
    } else {
      var evs := LiftsWithoutResumed(m);
    }
  }

  /** The first context of a server whose primary is not back yet: it connects. */
  lemma StartedAndRun(n: Node)
    requires Fresh(n) && n.backupPrimary && !n.linked && n.connects == 0
    ensures var s := Step(Step(n, Arrive(ToBackup, ResumeMessage(Start, 0))).0, Run(0)).0;
      && s.ctxs == [Ctx(Start, 0, Some(0), 250, ToBackup, true, 0, false)]
      && s.connects == 1 && s.atBackup == Some(0)
      && !s.linked && s.replaced == n.replaced && s.kind == n.kind
  {
    var s1 := Step(n, Arrive(ToBackup, ResumeMessage(Start, 0))).0;
    assert s1 == n.(ctxs := [Ctx(Start, 0, None, 1, ToBackup, true, 1, false)], atBackup := Some(0));
  }

  /** RESUMED over the backup's link, the connection, and only then the run. */
  lemma ResumedThenConnected(s: Node)
    requires s.ctxs == [Ctx(Start, 0, Some(0), 250, ToBackup, true, 0, false)]
    requires s.connects == 1 && s.atBackup == Some(0) && !s.linked && s.replaced
    ensures var t := Step(s, Arrive(ToBackup, ResumeMessage(Resumed, 0))).0;
            var u := Step(Step(t, Connect).0, Run(0)).0;
            Moves(t, Connect) && !u.disabled && u.router == ToPrimary
  {
    var t := Step(s, Arrive(ToBackup, ResumeMessage(Resumed, 0))).0;
    assert t == s.(ctxs := [Ctx(Resumed, 0, Some(0), 250, ToBackup, true, 1, false)]);
    var m := Step(t, Connect).0;
    assert m.ctxs == [Ctx(Resumed, 0, Some(0), 250, ToPrimary, true, 1, false)] && m.replaced;
    hide Received, ConnectedBack, Done;
  }

  /** The other case happens: a RESUMED over the backup's link that arrives before
      the connection to the primary lifts the restriction once its run comes, since
      nothing asks who sent it. */
  lemma EarlyResumedLifts(n: Node) returns (pre: seq<Event>, evs: seq<Event>)
    requires Fresh(n) && n.backupPrimary && n.replaced && !n.linked && n.connects == 0
    ensures NoResumed(pre, ToPrimary) && Moves(After(n, pre), Connect) && NoResumed(evs, ToPrimary)
    ensures var m := After(Step(After(n, pre), Connect).0, evs);
            PassesSend(m, Other) && m.router == ToPrimary
  {
    var e1, e2 := Arrive(ToBackup, ResumeMessage(Start, 0)), Run(0);
    var e3 := Arrive(ToBackup, ResumeMessage(Resumed, 0));
    pre, evs := [e1, e2] + [e3], [Run(0)];
    StartedAndRun(n);
    ResumedThenConnected(Step(Step(n, e1).0, e2).0);
    hide Step, Moves, Fresh;
    AfterTwo(n, e1, e2);
    AfterSnoc(n, [e1, e2], e3);
    AfterNothing(Step(After(n, pre), Connect).0);
    AfterSnoc(Step(After(n, pre), Connect).0, [], Run(0));
    assert [] + [Run(0)] == evs;
  }

  /** The exemption is for normal servers only: at a router a timeout of the
      context on the primary's link does lift the restriction. */
  lemma TimeoutLiftsIffRouter(n: Node, k: nat)
    requires Live(n, k) && n.atPrimary == Some(k) && n.disabled
    requires n.kind == NormalServer || n.kind == Router
    ensures Step(n, Timeout(k)).0.disabled <==> n.kind == NormalServer
  {
  }

  // ------------------------------------------------- the handlers, as they run

  class Responder {
    const kind: ServerType
    var routeUsable: bool
    var router: Link
    var backupPrimary: bool
    var backupClosed: bool
    var replaced: bool
    var linked: bool
    var disabled: bool
    var atBackup: Option<nat>
    var atPrimary: Option<nat>
    var ctxs: seq<Ctx>
    var connects: nat
    ghost var moved: bool       // the primary is back and has the context
    ghost var stirred: bool     // something that may lift the restriction has happened

    ghost function View(): Node
      reads this
    {
      Node(kind, routeUsable, router, backupPrimary, backupClosed, replaced, linked, disabled,
           atBackup, atPrimary, ctxs, connects)
    }

    /** The quiet link, as an invariant of the object. */
    ghost predicate Valid()
      reads this
    {
      kind == NormalServer && !stirred ==> Calm(View()) && (moved ==> Quiet(View()))
    }

    /** A server whose backup has taken the primary's place, before any START. */
    constructor (kind: ServerType)
      ensures Valid() && !moved && !stirred && this.kind == kind
      ensures kind == NormalServer ==> Fresh(View())
    {
      this.kind, routeUsable, router := kind, true, ToBackup;
      backupPrimary, backupClosed, replaced, linked, disabled := true, false, true, false, false;
      atBackup, atPrimary, ctxs, connects := None, None, [], 0;
      moved, stirred := false, false;
    }

    /** A START starts over, unless the backup had closed the connection. */
    method Start(link: Link, number: nat)
      modifies this`backupClosed, this`ctxs, this`atBackup, this`atPrimary
      ensures View() == Started(old(View()), link, number)
    {
      if kind == Router && backupClosed {
        backupClosed := false;
        return;
      }
      var k := |ctxs|;
      ctxs := ctxs + [Ctx(ResumeKind.Start, number, None, 1, link, true, 1, false)];
      if link == ToBackup {
        atBackup := Some(k);
      } else {
        atPrimary := Some(k);
      }
    }

    method Adopt(link: Link, kind: ResumeKind)
      modifies this`ctxs, this`atPrimary
      ensures View() == Adopted(old(View()), link, kind)
    {
      if kind == Resumed && link == ToPrimary && atPrimary.None? && disabled && replaced {
        if atBackup.Some? && atBackup.value < |ctxs| && ctxs[atBackup.value].live {
          ctxs := ctxs[atBackup.value := ctxs[atBackup.value].(sock := ToPrimary)];
          atPrimary := atBackup;
        }
      }
    }

    /** A packet for the running protocol: type first, then the session, if it is
        the recorded one. */
    method Hand(k: nat, m: ResumeMessage)
      requires k < |ctxs| && ctxs[k].live
      modifies this`ctxs
      ensures View() == Handed(old(View()), k, m)
    {
      var c := ctxs[k].(ptype := m.kind);
      if c.known == Some(m.number) {
        c := c.(session := m.number, runs := c.runs + 1);
      } else if m.kind == Resumed {
        c := c.(runs := c.runs + 1);
      }
      ctxs := ctxs[k := c];
    }

    method Receive(link: Link, m: ResumeMessage)
      modifies this`backupClosed, this`ctxs, this`atBackup, this`atPrimary, this`disabled
      ensures View() == Received(old(View()), link, m)
    {
      hide Started, Adopted, Handed;
      if m.kind == ResumeKind.Start {
        Start(link, m.number);
        return;
      }
      if m.kind == Replaced && kind == Router && router == link {
        if link == ToPrimary {
          disabled := true;
        }
        return;
      }
      Adopt(link, m.kind);
      var p := if link == ToBackup then atBackup else atPrimary;
      if p.Some? && p.value < |ctxs| && ctxs[p.value].live {
        Hand(p.value, m);
      }
    }

    /** State 1: the answer, or a connection to give it over. */
    method Answer(k: nat) returns (e: Effect)
      requires k < |ctxs| && ctxs[k].live && ctxs[k].state == 1
      modifies this`connects, this`ctxs
      ensures (View(), e) == Ran(old(View()), k)
    {
      var c := ctxs[k];
      if c.ptype != ResumeKind.Start {
        return Silent;
      }
      ctxs := ctxs[k := c.(known := Some(c.session), state := if kind == Router && !routeUsable then 2 else 250)];
      if backupPrimary && !linked {
        connects := connects + 1;
        return Silent;
      }
      e := Reply(c.sock, c.session);
    }

    /** The protocol body as responder, in its three states. */
    method RunProtocol(k: nat) returns (e: Effect)
      requires k < |ctxs| && ctxs[k].live
      modifies this`router, this`backupPrimary, this`replaced, this`disabled, this`atBackup, this`atPrimary,
               this`connects, this`ctxs
      ensures (View(), e) == Ran(old(View()), k)
    {
      var c := ctxs[k];
      if c.state == 1 {
        e := Answer(k);
        return;
      }
      if c.state == 2 {
        if c.ptype != Ending {
          return Silent;
        }
        disabled, atBackup := false, Some(k);
        if linked {
          atPrimary := Some(k);
        }
        ctxs := ctxs[k := c.(finishing := true)];
        return AnnounceResumed;
      }
      if c.ptype != Resumed {
        return Silent;
      }
      if c.sock == ToPrimary && replaced {
        router, backupPrimary, disabled, replaced := ToPrimary, false, false, false;
      }
      ctxs := ctxs[k := c.(finishing := true)];
      e := Silent;
    }

    /** silc_server_backup_connect_primary: the answer goes out before the new
        link is disabled. */
    method Connected() returns (e: Effect)
      modifies this`linked, this`disabled, this`atPrimary, this`atBackup, this`ctxs
      ensures (View(), e) == ConnectedBack(old(View()))
    {
      e := Silent;
      linked, disabled, atPrimary := true, false, None;
      if atBackup.None? || atBackup.value >= |ctxs| || !ctxs[atBackup.value].live {
        return;
      }
      var k := atBackup.value;
      e := Reply(ToBackup, ctxs[k].session);
      disabled := true;
      ctxs := ctxs[k := ctxs[k].(sock := ToPrimary)];
      atPrimary, atBackup := Some(k), None;
    }

    /** silc_server_protocol_backup_done, over the two links. */
    method Complete(k: nat, error: bool)
      requires k < |ctxs| && ctxs[k].live
      modifies this`disabled, this`ctxs, this`atBackup, this`atPrimary
      ensures View() == Done(old(View()), k, error)
    {
      if atPrimary == Some(k) {
        if !(error && kind == NormalServer) {
          disabled := false;
        }
      }
      var sock := ctxs[k].sock;
      ctxs := ctxs[k := ctxs[k].(live := false)];
      if sock == ToBackup {
        atBackup := None;
      } else {
        atPrimary := None;
      }
    }

    method Dispatch(ev: Event) returns (e: Effect)
      modifies this`backupClosed, this`router, this`backupPrimary, this`replaced, this`linked, this`disabled,
               this`atBackup, this`atPrimary, this`connects, this`ctxs
      ensures (View(), e) == Step(old(View()), ev)
    {
      hide Received, Ran, ConnectedBack, Done;
      e := Silent;
      match ev
      case Arrive(link, m) => Receive(link, m);
      case Run(k) =>
        if k < |ctxs| && ctxs[k].live && ctxs[k].runs > 0 {
          ctxs := ctxs[k := ctxs[k].(runs := ctxs[k].runs - 1)];
          e := RunProtocol(k);
        }
      case Connect =>
        if connects > 0 && !linked {
          connects := connects - 1;
          e := Connected();
        }
      case Timeout(k) =>
        if k < |ctxs| && ctxs[k].live { Complete(k, true); }
      case Finish(k) =>
        if k < |ctxs| && ctxs[k].live && ctxs[k].finishing { Complete(k, false); }
    }

    /** Every event, in any state: the object does what the protocol does and the
        quiet link stays quiet. */
    method Handle(ev: Event) returns (e: Effect)
      requires Valid()
      modifies this
      ensures Valid()
      ensures (View(), e) == Step(old(View()), ev)
      ensures moved == (old(moved) || Moves(old(View()), ev))
      ensures stirred == (old(stirred) || Stirs(old(View()), ev))
    {
      hide Step, Calm, Quiet, Moves, Stirs;
      ghost var was := View();
      if kind == NormalServer && !stirred && !Stirs(was, ev) { StepKeepsCalm(was, ev); }
      e := Dispatch(ev);
      moved, stirred := moved || Moves(was, ev), stirred || Stirs(was, ev);
    }

    /** The guard of silc_server_packet_send: while the primary is back and has not
        announced RESUMED over the link, only heartbeats pass. */
    method MaySend(t: PacketType) returns (passes: bool)
      requires Valid()
      ensures passes == PassesSend(View(), t)
      ensures kind == NormalServer && moved && !stirred ==> (passes <==> t == Heartbeat)
    {
      passes := !disabled || t == Heartbeat;
    }

    /** A whole run, from any state. */
    method Execute(evs: seq<Event>)
      requires Valid()
      modifies this
      ensures Valid()
      ensures View() == After(old(View()), evs)
      ensures NoResumed(evs, ToPrimary) && old(moved) && old(linked) && !old(stirred) ==> moved && !stirred
    {
      ghost var was := View();
      for i := 0 to |evs|
        invariant Valid() && View() == After(was, evs[..i])
        invariant NoResumed(evs, ToPrimary) && old(moved) && old(linked) && !old(stirred)
                  ==> moved && linked && !stirred
      {
        assert evs[..i + 1][..i] == evs[..i];
        if linked { StaysLinked(View(), evs[i]); }
        hide Valid, Step;
        var _ := Handle(evs[i]);
      }
      assert evs[..|evs|] == evs;
    }
  }
}
