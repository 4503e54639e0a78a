/** Callbacks waiting for a command reply (apps/silcd/command.c, command.h,
    command_reply.c): registration, the check that marks, the execution, the
    deletion, and the timeout.  Entries carry the number of their registration,
    which stands for the identity of the allocated entry. */
module PendingCommands {
  import opened Wire

  /** SILC_COMMAND_NONE, which as a registration matches any command. */
  const ANY: nat := 0

  datatype Pending = Pending(
    id: nat, cmd: nat, ident: nat, callback: nat, context: nat,
    marked: bool)                  // reply_check

  datatype State = State(
    list: seq<Pending>,            // server->pending_commands
    next: nat,                     // registrations accepted so far
    called: seq<nat>)              // callbacks called, by registration

  /** A registration as a caller asks for it. */
  datatype Request = Request(cmd: nat, ident: nat, callback: nat, context: nat)

  predicate Same(p: Pending, r: Request) {
    p.cmd == r.cmd && p.ident == r.ident && p.callback == r.callback && p.context == r.context
  }

  predicate Registered(list: seq<Pending>, r: Request) {
    exists i :: 0 <= i < |list| && Same(list[i], r)
  }

  /** silc_server_command_pending_timed. */
  function Register(s: State, r: Request): State {
    if Registered(s.list, r) then s
    else s.(list := s.list + [Pending(s.next, r.cmd, r.ident, r.callback, r.context, false)], next := s.next + 1)
  }

  /** What a reply to `cmd` with `ident` is for. */
  predicate Matches(p: Pending, cmd: nat, ident: nat) {
    (p.cmd == cmd || p.cmd == ANY) && p.ident == ident
  }

  /** What the deletion takes out. */
  predicate Goes(p: Pending, cmd: nat, ident: nat) {
    (p.cmd == cmd || (p.cmd == ANY && p.marked)) && p.ident == ident
  }

  function Matching(list: seq<Pending>, cmd: nat, ident: nat): seq<nat> {
    if list == [] then []
    else
      var rest := Matching(list[..|list| - 1], cmd, ident);
      var p := list[|list| - 1];
      if Matches(p, cmd, ident) then rest + [p.id] else rest
  }

  /** silc_server_command_pending_check marks what it finds. */
  function Marked(list: seq<Pending>, cmd: nat, ident: nat): (r: seq<Pending>)
    ensures |r| == |list|
  {
    seq(|list|, i requires 0 <= i < |list| =>
      if Matches(list[i], cmd, ident) then list[i].(marked := true) else list[i])
  }

  /** silc_server_command_pending_del. */
  function Remaining(list: seq<Pending>, cmd: nat, ident: nat): seq<Pending> {
    if list == [] then []
    else
      var rest := Remaining(list[..|list| - 1], cmd, ident);
      var p := list[|list| - 1];
      if Goes(p, cmd, ident) then rest else rest + [p]
  }

  function RegisterAll(s: State, rs: seq<Request>): State {
    if rs == [] then s else Register(RegisterAll(s, rs[..|rs| - 1]), rs[|rs| - 1])
  }

  /** A final reply, or a timeout: check, call, delete; the callbacks may register
      further callbacks, `inside`. */
  function Executed(s: State, cmd: nat, ident: nat, inside: seq<Request>): State {
    var s1 := s.(list := Marked(s.list, cmd, ident), called := s.called + Matching(s.list, cmd, ident));
    var s2 := RegisterAll(s1, inside);
    s2.(list := Remaining(s2.list, cmd, ident))
  }

  /** An intermediate entry of a list reply only marks. */
  function Noted(s: State, cmd: nat, ident: nat): State {
    s.(list := Marked(s.list, cmd, ident))
  }

  datatype Event =
    | Ask(r: Request)
    | ListReply(cmd: nat, ident: nat)
    | FinalReply(cmd: nat, ident: nat, inside: seq<Request>)
    | Timeout(k: nat, inside: seq<Request>)

  function Step(s: State, e: Event): State {
    match e
    case Ask(r) => Register(s, r)
    case ListReply(c, i) => Noted(s, c, i)
    case FinalReply(c, i, inside) => Executed(s, c, i, inside)
    case Timeout(k, inside) =>
      if k < |s.list| then Executed(s, s.list[k].cmd, s.list[k].ident, inside) else s
  }

  const EMPTY := State([], 0, [])

  function After(evs: seq<Event>): State {
    if evs == [] then EMPTY else Step(After(evs[..|evs| - 1]), evs[|evs| - 1])
  }

  // --------------------------------------------------------------- vocabulary

  predicate Alike(p: Pending, q: Pending) {
    p.cmd == q.cmd && p.ident == q.ident && p.callback == q.callback && p.context == q.context
  }

  /** No two entries agree on command, ident, callback and context. */
  predicate NoTwins(list: seq<Pending>) {
    forall i, j :: 0 <= i < j < |list| ==> !Alike(list[i], list[j])
  }

  /** Registration numbers ascend along the list and are below `next`. */
  predicate Ascending(list: seq<Pending>, next: nat) {
    && (forall i, j :: 0 <= i < j < |list| ==> list[i].id < list[j].id)
    && (forall i :: 0 <= i < |list| ==> list[i].id < next)
  }

  predicate Waiting(list: seq<Pending>, id: nat) {
    exists i :: 0 <= i < |list| && list[i].id == id
  }

  // ------------------------------------------------------- filters, in general

  lemma {:induction false} RemainingHas(list: seq<Pending>, cmd: nat, ident: nat)
    ensures forall p :: p in Remaining(list, cmd, ident) <==> p in list && !Goes(p, cmd, ident)
  {
    if list != [] {
      RemainingHas(list[..|list| - 1], cmd, ident);
      assert list == list[..|list| - 1] + [list[|list| - 1]];
    }
  }

  lemma AppendKeeps(rest: seq<Pending>, p: Pending, next: nat)
    requires NoTwins(rest) && Ascending(rest, next) && p.id < next
    requires forall q :: q in rest ==> q.id < p.id && !Alike(q, p)
    ensures NoTwins(rest + [p]) && Ascending(rest + [p], next)
  {
  }

  lemma {:induction false} RemainingKeeps(list: seq<Pending>, cmd: nat, ident: nat, next: nat)
    requires NoTwins(list) && Ascending(list, next)
    ensures NoTwins(Remaining(list, cmd, ident)) && Ascending(Remaining(list, cmd, ident), next)
  {
    if list != [] {
      var pre, p := list[..|list| - 1], list[|list| - 1];
      RemainingKeeps(pre, cmd, ident, next);
      RemainingHas(pre, cmd, ident);
      forall q | q in pre ensures q.id < p.id && !Alike(q, p) {
        var i :| 0 <= i < |pre| && pre[i] == q;
        assert list[i] == q;
      }
      if !Goes(p, cmd, ident) { AppendKeeps(Remaining(pre, cmd, ident), p, next); }
    }
  }

  lemma {:induction false} MatchingHas(list: seq<Pending>, cmd: nat, ident: nat, id: nat)
    ensures id in Matching(list, cmd, ident)
            <==> exists i :: 0 <= i < |list| && list[i].id == id && Matches(list[i], cmd, ident)
  {
    if list != [] {
      MatchingHas(list[..|list| - 1], cmd, ident, id);
    }
  }

  lemma {:induction false} MatchingOnce(list: seq<Pending>, cmd: nat, ident: nat, next: nat)
    requires Ascending(list, next)
    ensures NoRepeats(Matching(list, cmd, ident))
  {
    if list != [] {
      var pre := list[..|list| - 1];
      MatchingOnce(pre, cmd, ident, next);
      MatchingHas(pre, cmd, ident, list[|list| - 1].id);
    }
  }

  lemma MarkedSame(list: seq<Pending>, cmd: nat, ident: nat, next: nat)
    ensures NoTwins(list) ==> NoTwins(Marked(list, cmd, ident))
    ensures Ascending(list, next) ==> Ascending(Marked(list, cmd, ident), next)
    ensures forall id :: Waiting(Marked(list, cmd, ident), id) <==> Waiting(list, id)
    ensures forall r :: Registered(Marked(list, cmd, ident), r) <==> Registered(list, r)
  {
    var m := Marked(list, cmd, ident);
    forall id | Waiting(list, id) ensures Waiting(m, id) {
      var i :| 0 <= i < |list| && list[i].id == id;
      assert m[i].id == id;
    }
    forall r | Registered(list, r) ensures Registered(m, r) {
      var i :| 0 <= i < |list| && Same(list[i], r);
      assert Same(m[i], r);
    }
  }

  // ------------------------------------------------------------ registrations

  /** A table as the operations keep it. */
  ghost predicate Sound(s: State) {
    NoTwins(s.list) && Ascending(s.list, s.next)
  }

  lemma RegisterKeeps(s: State, r: Request)
    requires Sound(s)
    ensures Sound(Register(s, r)) && Registered(Register(s, r).list, r)
  {
    var t := Register(s, r);
    if !Registered(s.list, r) {
      assert Same(t.list[|s.list|], r);
      forall i | 0 <= i < |s.list| ensures !Alike(s.list[i], t.list[|s.list|]) {
        assert !Same(s.list[i], r);
      }
    }
  }

  /** What registering a batch adds: new entries with the next numbers, one for
      each request that was not registered before. */
  ghost predicate Extended(s: State, t: State, rs: seq<Request>) {
    && s.list <= t.list && s.next <= t.next && t.called == s.called
    && t.next - s.next == |t.list| - |s.list|
    && (forall i :: |s.list| <= i < |t.list| ==> t.list[i].id == s.next + (i - |s.list|) && !t.list[i].marked)
    && (forall i :: |s.list| <= i < |t.list| ==> exists r :: r in rs && Same(t.list[i], r) && !Registered(s.list, r))
    && (forall r :: r in rs ==> Registered(t.list, r))
  }

  lemma RegisteredGrows(a: seq<Pending>, b: seq<Pending>)
    requires a <= b
    ensures forall r :: Registered(a, r) ==> Registered(b, r)
    ensures forall id :: Waiting(a, id) ==> Waiting(b, id)
  {
    assert forall i :: 0 <= i < |a| ==> a[i] == b[i];
  }

  lemma {:induction false} BatchExtends(s: State, rs: seq<Request>)
    requires Sound(s)
    ensures Sound(RegisterAll(s, rs)) && Extended(s, RegisterAll(s, rs), rs)
  {
    if rs != [] {
      var pre, r := rs[..|rs| - 1], rs[|rs| - 1];
      BatchExtends(s, pre);
      var t := RegisterAll(s, pre);
      RegisterKeeps(t, r);
      RegisteredGrows(t.list, Register(t, r).list);
      RegisteredGrows(s.list, t.list);
      assert rs == pre + [r];
    }
  }

  lemma ExecutedKeeps(s: State, cmd: nat, ident: nat, inside: seq<Request>)
    requires Sound(s)
    ensures Sound(Executed(s, cmd, ident, inside))
  {
    MarkedSame(s.list, cmd, ident, s.next);
    var s1 := s.(list := Marked(s.list, cmd, ident), called := s.called + Matching(s.list, cmd, ident));
    BatchExtends(s1, inside);
    var s2 := RegisterAll(s1, inside);
    RemainingKeeps(s2.list, cmd, ident, s2.next);
  }

  /** Over every run: no two entries ever agree on command, ident, callback and
      context. */
  lemma {:induction false} NeverTwins(evs: seq<Event>)
    ensures Sound(After(evs)) && NoTwins(After(evs).list)
  {
    if evs != [] {
      var pre, e := evs[..|evs| - 1], evs[|evs| - 1];
      NeverTwins(pre);
      var s := After(pre);
      match e
      case Ask(r) => RegisterKeeps(s, r);
      case ListReply(c, i) => MarkedSame(s.list, c, i, s.next);
      case FinalReply(c, i, inside) => ExecutedKeeps(s, c, i, inside);
      case Timeout(k, inside) =>
        if k < |s.list| { ExecutedKeeps(s, s.list[k].cmd, s.list[k].ident, inside); }
    }
  }

  // ---------------------------------------------------------------- execution

  /** The table while the callbacks run. */
  function During(s: State, cmd: nat, ident: nat, inside: seq<Request>): State {
    RegisterAll(s.(list := Marked(s.list, cmd, ident), called := s.called + Matching(s.list, cmd, ident)), inside)
  }

  lemma DuringExtends(s: State, cmd: nat, ident: nat, inside: seq<Request>)
    requires Sound(s)
    ensures var m, all := s.(list := Marked(s.list, cmd, ident), called := s.called + Matching(s.list, cmd, ident)),
                          During(s, cmd, ident, inside);
            Sound(m) && Sound(all) && Extended(m, all, inside)
    ensures Executed(s, cmd, ident, inside).list == Remaining(During(s, cmd, ident, inside).list, cmd, ident)
  {
    MarkedSame(s.list, cmd, ident, s.next);
    BatchExtends(s.(list := Marked(s.list, cmd, ident), called := s.called + Matching(s.list, cmd, ident)), inside);
  }

  lemma StaysIff(list: seq<Pending>, next: nat, i: nat, cmd: nat, ident: nat)
    requires Ascending(list, next) && i < |list|
    ensures Waiting(Remaining(list, cmd, ident), list[i].id) <==> !Goes(list[i], cmd, ident)
  {
    RemainingHas(list, cmd, ident);
    var rest := Remaining(list, cmd, ident);
    if Waiting(rest, list[i].id) {
      var k :| 0 <= k < |rest| && rest[k].id == list[i].id;
      assert rest[k] in list;
      var j :| 0 <= j < |list| && list[j] == rest[k];
      assert j == i;
    }
    if !Goes(list[i], cmd, ident) {
      assert list[i] in rest;
      var k :| 0 <= k < |rest| && rest[k] == list[i];
    }
  }

  /** Registration is refused exactly when the same command, ident, callback and
      context are waiting already; else an unmarked entry is appended. */
  lemma AskAddsIff(s: State, r: Request)
    ensures var t := Step(s, Ask(r));
            var twin := exists i :: 0 <= i < |s.list| && s.list[i].cmd == r.cmd && s.list[i].ident == r.ident
                               && s.list[i].callback == r.callback && s.list[i].context == r.context;
      && t.list == (if twin then s.list
                    else s.list + [Pending(s.next, r.cmd, r.ident, r.callback, r.context, false)])
      && t.next == (if twin then s.next else s.next + 1) && t.called == s.called
  {
  }

  lemma CalledDuring(s: State, cmd: nat, ident: nat, inside: seq<Request>)
    requires Sound(s)
    ensures Executed(s, cmd, ident, inside).called == s.called + Matching(s.list, cmd, ident)
  {
    DuringExtends(s, cmd, ident, inside);
    hide RegisterAll, Remaining, Matching, Marked;
  }

  lemma ReplyCalls(s: State, cmd: nat, ident: nat, inside: seq<Request>, i: nat)
    requires Sound(s) && i < |s.list|
    ensures s.list[i].id in Matching(s.list, cmd, ident) <==> Matches(s.list[i], cmd, ident)
    ensures Waiting(Executed(s, cmd, ident, inside).list, s.list[i].id) <==> !Matches(s.list[i], cmd, ident)
    ensures !Matches(s.list[i], cmd, ident) ==> s.list[i] in Executed(s, cmd, ident, inside).list
    ensures Executed(s, cmd, ident, inside).called == s.called + Matching(s.list, cmd, ident)
  {
    DuringExtends(s, cmd, ident, inside);
    MatchingHas(s.list, cmd, ident, s.list[i].id);
    var all := During(s, cmd, ident, inside);
    RemainingHas(all.list, cmd, ident);
    hide Remaining, NoTwins, Executed, RegisterAll;
    assert all.list[i] == Marked(s.list, cmd, ident)[i];
    StaysIff(all.list, all.next, i, cmd, ident);
    CalledDuring(s, cmd, ident, inside);
  }

  /** A final reply calls and removes a waiting registration exactly when it has
      its ident and its command, or was registered for any command (0); all others
      stay as they are, uncalled. */
  lemma ReplyToWaiting(s: State, cmd: nat, ident: nat, inside: seq<Request>, i: nat)
    requires Sound(s) && i < |s.list| && s.list[i].id !in s.called
    ensures var p, t := s.list[i], Step(s, FinalReply(cmd, ident, inside));
            var gone := forall j :: 0 <= j < |t.list| ==> t.list[j].id != p.id;
      && (p.id in t.called && gone <==> p.ident == ident && (p.cmd == cmd || p.cmd == 0))
      && (p.id !in t.called && p in t.list <==> !(p.ident == ident && (p.cmd == cmd || p.cmd == 0)))
  {
    ReplyCalls(s, cmd, ident, inside, i);
    hide Matching, Executed, Sound;
  }

  /** Callbacks are called in the order of their registration. */
  lemma {:induction false} CallsInOrder(list: seq<Pending>, next: nat, cmd: nat, ident: nat, i: nat, j: nat)
    requires Ascending(list, next) && i < j < |Matching(list, cmd, ident)|
    ensures Matching(list, cmd, ident)[i] < Matching(list, cmd, ident)[j]
  {
    var n := |list| - 1;
    var rest := Matching(list[..n], cmd, ident);
    if j < |rest| {
      CallsInOrder(list[..n], next, cmd, ident, i, j);
    } else {
      assert rest[i] in rest && Matching(list, cmd, ident)[j] == list[n].id;
      MatchingHas(list[..n], cmd, ident, rest[i]);
      var k :| 0 <= k < n && list[..n][k].id == rest[i];
      assert list[k].id == rest[i];
    }
  }

  /** A timeout is a reply to the waiting entry itself. */
  lemma TimeoutCalls(s: State, k: nat, inside: seq<Request>, i: nat)
    requires Sound(s) && k < |s.list| && i < |s.list| && s.list[i].id !in s.called
    ensures var p, t := s.list[i], Step(s, Timeout(k, inside));
            var gone := forall j :: 0 <= j < |t.list| ==> t.list[j].id != p.id;
            p.id in t.called && gone
            <==> p.ident == s.list[k].ident && (p.cmd == s.list[k].cmd || p.cmd == 0)
  {
    ReplyToWaiting(s, s.list[k].cmd, s.list[k].ident, inside, i);
    hide Executed, Sound;
  }

  /** Intermediate list replies mark what matches, and call and remove nothing. */
  lemma ListReplyOnlyMarks(s: State, cmd: nat, ident: nat, i: nat)
    requires i < |s.list|
    ensures var p, t := s.list[i], Step(s, ListReply(cmd, ident));
      && t.called == s.called && |t.list| == |s.list| && t.next == s.next
      && t.list[i] == p.(marked := p.marked || (p.ident == ident && (p.cmd == cmd || p.cmd == 0)))
  {
  }

  /** A registration for any command outlives the intermediate replies and goes with
      the final one, whatever command they name. */
  lemma WildcardGoesWithFinal(s: State, cmd: nat, last: nat, ident: nat, inside: seq<Request>, i: nat)
    requires Sound(s) && i < |s.list| && s.list[i].id !in s.called
    requires s.list[i].cmd == 0 && s.list[i].ident == ident
    ensures var id, u := s.list[i].id, Step(s, ListReply(cmd, ident));
            var t := Step(u, FinalReply(last, ident, inside));
      && id !in u.called && u.list[i].id == id && u.list[i].marked
      && id in t.called && forall j :: 0 <= j < |t.list| ==> t.list[j].id != id
  {
    var u := Step(s, ListReply(cmd, ident));
    MarkedSame(s.list, cmd, ident, s.next);
    assert Sound(u) && u.list[i] == s.list[i].(marked := true);
    ReplyToWaiting(u, last, ident, inside, i);
  }

  /** An entry that a callback registered: it is not called, and it stays unless
      it asks for the very command and ident being replied to. */
  lemma ReplyToNew(s: State, cmd: nat, ident: nat, inside: seq<Request>, i: nat)
    requires Sound(s) && |s.list| <= i < |During(s, cmd, ident, inside).list|
    ensures var p := During(s, cmd, ident, inside).list[i];
      && p.id >= s.next && p.id !in Matching(s.list, cmd, ident)
      && (Waiting(Executed(s, cmd, ident, inside).list, p.id) <==> !(p.cmd == cmd && p.ident == ident))
  {
    DuringExtends(s, cmd, ident, inside);
    var all := During(s, cmd, ident, inside);
    MatchingHas(s.list, cmd, ident, all.list[i].id);
    hide Remaining, Executed, RegisterAll;
    StaysIff(all.list, all.next, i, cmd, ident);
  }

  // ------------------------------------------------------------- main results

  /** Every registration is either still waiting or has been called, once. */
  ghost predicate Accounted(s: State) {
    && (forall id: nat :: id < s.next ==> (Waiting(s.list, id) <==> id !in s.called))
    && (forall id :: id in s.called ==> id < s.next)
    && NoRepeats(s.called)
  }

  /** A callback asks for the command and ident that are being replied to: the
      deletion that follows throws the new entry away uncalled. */
  predicate Swallows(s: State, cmd: nat, ident: nat, inside: seq<Request>) {
    exists r :: r in inside && r.cmd == cmd && r.ident == ident && !Registered(s.list, r)
  }

  predicate Loses(s: State, e: Event) {
    match e
    case FinalReply(c, i, inside) => Swallows(s, c, i, inside)
    case Timeout(k, inside) => k < |s.list| && Swallows(s, s.list[k].cmd, s.list[k].ident, inside)
    case _ => false
  }

  lemma InPrefix(m: seq<Pending>, all: seq<Pending>, i: nat, r: Request)
    requires m <= all && i < |all|
    ensures i < |m| ==> Waiting(m, all[i].id)
    ensures i < |m| && Same(all[i], r) ==> Registered(m, r)
  {
    if i < |m| {
      assert all[i] == m[i];
    }
  }

  /** The new entries that the deletion takes away again. */
  predicate Swallowed(s: State, all: seq<Pending>, cmd: nat, ident: nat) {
    exists i :: |s.list| <= i < |all| && all[i].cmd == cmd && all[i].ident == ident
  }

  lemma SwallowedAsked(m: seq<Pending>, s: State, all: seq<Pending>, cmd: nat, ident: nat, inside: seq<Request>)
    requires |m| == |s.list| && m <= all
    requires forall i :: |m| <= i < |all| ==> exists r :: r in inside && Same(all[i], r) && !Registered(m, r)
    requires forall r :: Registered(m, r) <==> Registered(s.list, r)
    requires forall r :: r in inside ==> Registered(all, r)
    ensures Swallows(s, cmd, ident, inside) <==> Swallowed(s, all, cmd, ident)
  {
    if Swallowed(s, all, cmd, ident) {
      var i :| |s.list| <= i < |all| && all[i].cmd == cmd && all[i].ident == ident;
      var r :| r in inside && Same(all[i], r) && !Registered(m, r);
    }
    if r :| r in inside && r.cmd == cmd && r.ident == ident && !Registered(s.list, r) {
      assert Registered(all, r);
      var i :| 0 <= i < |all| && Same(all[i], r);
      InPrefix(m, all, i, r);
    }
  }

  lemma SwallowedIff(s: State, cmd: nat, ident: nat, inside: seq<Request>)
    requires Sound(s)
    ensures Swallows(s, cmd, ident, inside)
            <==> Swallowed(s, During(s, cmd, ident, inside).list, cmd, ident)
  {
    DuringExtends(s, cmd, ident, inside);
    MarkedSame(s.list, cmd, ident, s.next);
    hide During, Swallows, Swallowed, Registered, Same, Marked, NoTwins, Ascending;
    SwallowedAsked(Marked(s.list, cmd, ident), s, During(s, cmd, ident, inside).list, cmd, ident, inside);
  }

  lemma WaitingIn(list: seq<Pending>, id: nat, cmd: nat, ident: nat)
    ensures Waiting(Remaining(list, cmd, ident), id) ==> Waiting(list, id)
  {
    RemainingHas(list, cmd, ident);
    var rest := Remaining(list, cmd, ident);
    if Waiting(rest, id) {
      var k :| 0 <= k < |rest| && rest[k].id == id;
      assert rest[k] in list;
    }
  }

  lemma CalledOnce(a: seq<nat>, b: seq<nat>)
    requires NoRepeats(a)
    requires NoRepeats(b)
    requires forall x :: x in a ==> x !in b
    ensures NoRepeats(a + b)
  {
    forall i, j | 0 <= i < j < |a + b| ensures (a + b)[i] != (a + b)[j] {
      if i < |a| <= j { assert a[i] in a && b[j - |a|] in b; }
    }
  }

  /** The calls of one reply: all to waiting entries, none called before. */
  lemma CallsAreFresh(s: State, cmd: nat, ident: nat)
    requires Sound(s) && Accounted(s)
    ensures var called := s.called + Matching(s.list, cmd, ident);
      && NoRepeats(called)
      && (forall id :: id in called ==> id < s.next)
  {
    var now := Matching(s.list, cmd, ident);
    MatchingOnce(s.list, cmd, ident, s.next);
    forall id | id in now ensures id < s.next && id !in s.called {
      MatchingHas(s.list, cmd, ident, id);
      assert Waiting(s.list, id);
    }
    CalledOnce(s.called, now);
  }

  /** A registration that is over does not come back. */
  lemma NotBack(s: State, cmd: nat, ident: nat, inside: seq<Request>, id: nat)
    requires Sound(s) && id < s.next && !Waiting(s.list, id)
    ensures !Waiting(Executed(s, cmd, ident, inside).list, id)
  {
    DuringExtends(s, cmd, ident, inside);
    MarkedSame(s.list, cmd, ident, s.next);
    var m, all := Marked(s.list, cmd, ident), During(s, cmd, ident, inside).list;
    WaitingIn(all, id, cmd, ident);
    if Waiting(all, id) {
      var i :| 0 <= i < |all| && all[i].id == id;
      InPrefix(m, all, i, Request(0, 0, 0, 0));
    }
  }

  /** What a reply does to the account of one registration. */
  lemma ReplyAccount(s: State, cmd: nat, ident: nat, inside: seq<Request>, id: nat)
    requires Sound(s) && Accounted(s) && id < Executed(s, cmd, ident, inside).next
    ensures var t := Executed(s, cmd, ident, inside);
      (Waiting(t.list, id) <==> id !in t.called)
      || (id >= s.next && !Waiting(t.list, id) && Swallows(s, cmd, ident, inside))
  {
    var t, all := Executed(s, cmd, ident, inside), During(s, cmd, ident, inside);
    DuringExtends(s, cmd, ident, inside);
    SwallowedIff(s, cmd, ident, inside);
    MatchingHas(s.list, cmd, ident, id);
    assert t.called == s.called + Matching(s.list, cmd, ident);
    hide Remaining, Executed, RegisterAll, Swallows, NoTwins;
    if id >= s.next {
      var i := |s.list| + (id - s.next);
      assert all.list[i].id == id;
      ReplyToNew(s, cmd, ident, inside, i);
    } else if Waiting(s.list, id) {
      var i :| 0 <= i < |s.list| && s.list[i].id == id;
      ReplyToWaiting(s, cmd, ident, inside, i);
    } else {
      NotBack(s, cmd, ident, inside, id);
    }
  }

  lemma ReplyAccountsIff(s: State, cmd: nat, ident: nat, inside: seq<Request>)
    requires Sound(s) && Accounted(s)
    ensures Accounted(Executed(s, cmd, ident, inside)) <==> !Swallows(s, cmd, ident, inside)
  {
    var t, all := Executed(s, cmd, ident, inside), During(s, cmd, ident, inside);
    DuringExtends(s, cmd, ident, inside);
    CallsAreFresh(s, cmd, ident);
    assert t.called == s.called + Matching(s.list, cmd, ident) && t.next == all.next;
    SwallowedIff(s, cmd, ident, inside);
    hide Remaining, Executed, RegisterAll, Swallows, NoTwins;
    forall id: nat | id < t.next
      ensures (Waiting(t.list, id) <==> id !in t.called)
              || (id >= s.next && !Waiting(t.list, id) && Swallows(s, cmd, ident, inside))
    {
      ReplyAccount(s, cmd, ident, inside, id);
    }
    if Swallows(s, cmd, ident, inside) {
      var i :| |s.list| <= i < |all.list| && all.list[i].cmd == cmd && all.list[i].ident == ident;
      ReplyToNew(s, cmd, ident, inside, i);
      var id := all.list[i].id;
      assert id < t.next && !Waiting(t.list, id) && id !in t.called;
    }
  }

  lemma RegisterAccounts(s: State, r: Request)
    requires Sound(s) && Accounted(s)
    ensures Accounted(Register(s, r))
  {
    var t := Register(s, r);
    if !Registered(s.list, r) {
      assert t.list[|s.list|].id == s.next;
      RegisteredGrows(s.list, t.list);
      forall id: nat | id < s.next ensures Waiting(t.list, id) ==> Waiting(s.list, id) {
        if Waiting(t.list, id) {
          var i :| 0 <= i < |t.list| && t.list[i].id == id;
          assert s.list[i] == t.list[i];
        }
      }
    }
  }

  lemma StepAccountsIff(s: State, e: Event)
    requires Sound(s) && Accounted(s)
    ensures Accounted(Step(s, e)) <==> !Loses(s, e)
  {
    hide Executed, Swallows, Registered, Matching, Remaining;
    match e
    case Ask(r) => RegisterAccounts(s, r);
    case ListReply(c, i) => MarkedSame(s.list, c, i, s.next);
    case FinalReply(c, i, inside) => ReplyAccountsIff(s, c, i, inside);
    case Timeout(k, inside) =>
      if k < |s.list| { ReplyAccountsIff(s, s.list[k].cmd, s.list[k].ident, inside); }
  }

  ghost predicate AlwaysAccounted(evs: seq<Event>) {
    Accounted(After(evs)) && (evs != [] ==> AlwaysAccounted(evs[..|evs| - 1]))
  }

  predicate NeverLoses(evs: seq<Event>) {
    evs != [] ==> NeverLoses(evs[..|evs| - 1]) && !Loses(After(evs[..|evs| - 1]), evs[|evs| - 1])
  }

  lemma NothingYet()
    ensures Accounted(EMPTY)
  {
  }

  /** Over every run of registrations, intermediate and final replies and
      timeouts: each registration is either waiting or has been called exactly
      once, in all states, exactly when no callback registered for the reply it
      was called by. */
  lemma {:induction false} AccountedIff(evs: seq<Event>)
    ensures AlwaysAccounted(evs) <==> NeverLoses(evs)
  {
    hide Step, Loses, Accounted;
    assert Accounted(EMPTY) by { NothingYet(); }
    if evs != [] {
      var pre := evs[..|evs| - 1];
      AccountedIff(pre);
      NeverTwins(pre);
      if AlwaysAccounted(pre) { StepAccountsIff(After(pre), evs[|evs| - 1]); }
    }
  }

  lemma OneAndAgain(p: Pending, again: Request)
    requires p.id == 0 && !p.marked && again.cmd == p.cmd && again.ident == p.ident && !Same(p, again)
    ensures Executed(State([p], 1, []), p.cmd, p.ident, [again]) == State([], 2, [0])
  {
    var q := Pending(1, again.cmd, again.ident, again.callback, again.context, false);
    assert [p][..0] == [] && [again][..0] == [];
    assert Matching([p], p.cmd, p.ident) == [0];
    assert Marked([p], p.cmd, p.ident) == [p.(marked := true)];
    assert !Registered([p.(marked := true)], again);
    var both := [p.(marked := true)] + [q];
    assert RegisterAll(State([p.(marked := true)], 1, [0]), [again]) == State(both, 2, [0]);
    var one := both[..|both| - 1];
    assert one == [p.(marked := true)] && one[..|one| - 1] == [];
    assert Remaining(one, p.cmd, p.ident) == [];
    assert Goes(both[|both| - 1], p.cmd, p.ident);
  }

  /** The exception is real: a callback that asks again for what is being replied
      to is thrown away uncalled. */
  lemma AskingAgainLoses(r: Request, again: Request) returns (evs: seq<Event>)
    requires again.cmd == r.cmd && again.ident == r.ident && again != r
    ensures !NeverLoses(evs) && !AlwaysAccounted(evs)
    ensures var s := After(evs); s.next == 2 && s.list == [] && s.called == [0]
  {
    var e1, e2 := Ask(r), FinalReply(r.cmd, r.ident, [again]);
    evs := [e1] + [e2];
    assert evs[..1] == [e1] && [e1][..0] == [];
    var p := Pending(0, r.cmd, r.ident, r.callback, r.context, false);
    assert After([e1]) == State([p], 1, []);
    OneAndAgain(p, again);
    assert Same(p, r) && Swallows(After([e1]), r.cmd, r.ident, [again]);
    AccountedIff(evs);
  }

  // -------------------------------------------------- the list, as updated

  lemma RemainingNext(was: seq<Pending>, i: nat, cmd: nat, ident: nat)
    requires i < |was|
    ensures Remaining(was[..i + 1], cmd, ident)
            == Remaining(was[..i], cmd, ident) + (if Goes(was[i], cmd, ident) then [] else [was[i]])
  {
    assert was[..i + 1][..i] == was[..i];
  }

  lemma Split(kept: seq<Pending>, was: seq<Pending>, i: nat, list: seq<Pending>)
    requires i < |was| && list == kept + was[i..]
    ensures list[|kept|] == was[i]
    ensures list[..|kept|] + list[|kept| + 1..] == kept + was[i + 1..]
    ensures list == kept + [was[i]] + was[i + 1..]
  {
  }

  class Table {
    var list: seq<Pending>
    var next: nat
    var called: seq<nat>

    ghost function View(): State
      reads this
    {
      State(list, next, called)
    }

    constructor ()
      ensures View() == EMPTY
    {
      list, next, called := [], 0, [];
    }

    /** Refuses what is registered already. */
    method Ask(r: Request) returns (ok: bool)
      modifies this`list, this`next
      ensures View() == Register(old(View()), r) && ok == !Registered(old(list), r)
    {
      var i := 0;
      while i < |list|
        invariant 0 <= i <= |list| && forall j :: 0 <= j < i ==> !Same(list[j], r)
      {
        if Same(list[i], r) {
          return false;
        }
        i := i + 1;
      }
      list := list + [Pending(next, r.cmd, r.ident, r.callback, r.context, false)];
      next := next + 1;
      return true;
    }

    /** Marks what it finds and returns it. */
    method Check(cmd: nat, ident: nat) returns (callbacks: seq<nat>)
      modifies this`list
      ensures list == Marked(old(list), cmd, ident) && callbacks == Matching(old(list), cmd, ident)
      ensures |list| == |old(list)| && forall i :: 0 <= i < |list| ==>
                list[i] == old(list)[i].(marked := || old(list)[i].marked
                                                   || ((old(list)[i].cmd == cmd || old(list)[i].cmd == 0)
                                                       && old(list)[i].ident == ident))
      ensures forall id :: id in callbacks <==>
                exists i :: 0 <= i < |list| && old(list)[i].id == id
                  && (old(list)[i].cmd == cmd || old(list)[i].cmd == 0) && old(list)[i].ident == ident
    {
      callbacks := [];
      var i := 0;
      while i < |list|
        invariant 0 <= i <= |list| == |old(list)|
        invariant callbacks == Matching(old(list)[..i], cmd, ident)
        invariant forall j :: 0 <= j < i ==> list[j] == Marked(old(list), cmd, ident)[j]
        invariant forall j :: i <= j < |list| ==> list[j] == old(list)[j]
      {
        assert old(list)[..i + 1][..i] == old(list)[..i];
        if (list[i].cmd == cmd || list[i].cmd == ANY) && list[i].ident == ident {
          callbacks := callbacks + [list[i].id];
          list := list[i := list[i].(marked := true)];
        }
        i := i + 1;
      }
      assert old(list)[..i] == old(list);
      forall id ensures id in callbacks <==> exists i :: 0 <= i < |list| && old(list)[i].id == id
                                               && Matches(old(list)[i], cmd, ident)
      {
        MatchingHas(old(list), cmd, ident, id);
      }
    }

    /** Deletes while it iterates. */
    method Delete(cmd: nat, ident: nat)
      modifies this`list
      ensures list == Remaining(old(list), cmd, ident)
    {
      var n := 0;
      ghost var was, i := list, 0;
      while n < |list|
        invariant 0 <= i <= |was| && n <= |list| && |list| - n == |was| - i
        invariant list == Remaining(was[..i], cmd, ident) + was[i..] && n == |Remaining(was[..i], cmd, ident)|
      {
        ghost var kept := Remaining(was[..i], cmd, ident);
        RemainingNext(was, i, cmd, ident);
        var r := list[n];
        Split(kept, was, i, list);
        hide Remaining;
        if (r.cmd == cmd || (r.cmd == ANY && r.marked)) && r.ident == ident {
          list := list[..n] + list[n + 1..];
        } else {
          n := n + 1;
        }
        i := i + 1;
      }
      assert was[..i] == was;
    }

    /** A final reply, or a timeout with the entry's own command and ident: the
        callbacks run in order and may register `inside`. */
    method Execute(cmd: nat, ident: nat, inside: seq<Request>)
      modifies this
      ensures View() == Executed(old(View()), cmd, ident, inside)
    {
      var callbacks := Check(cmd, ident);
      called := called + callbacks;
      var k := 0;
      ghost var s1 := View();
      while k < |inside|
        invariant 0 <= k <= |inside| && View() == RegisterAll(s1, inside[..k])
      {
        assert inside[..k + 1][..k] == inside[..k];
        var ok := Ask(inside[k]);
        k := k + 1;
      }
      assert inside[..k] == inside;
      Delete(cmd, ident);
    }
  }
}
