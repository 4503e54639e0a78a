/** Broadcast packets between routers (apps/silcd/server.c, packet_send.c,
    packet_receive.c): every router hands a broadcast on to its primary route
    unless that is where it originated.  Any number of broadcasts are under way
    at once and packets arrive in any order.  Feeding backup routers is left
    out. */
module RouterRing {
  import opened Wire

  /** A broadcast under way: its number, the source ID and the next receiver. */
  datatype Packet = Packet(id: nat, src: nat, to: nat)

  datatype Net = Net(
    started: seq<nat>,       // originators, in order: broadcast b started at started[b]
    flight: seq<Packet>,     // sent and not yet received
    handled: seq<Packet>,    // received and processed
    sends: seq<Packet>)      // everything ever sent

  // -------------------------------------------------------------- one router

  /** silc_server_packet_broadcast: `primary` is the router behind the primary
      route, if there is one. */
  function Forwarded(primary: Option<nat>, p: Packet): seq<Packet> {
    if primary.None? || p.src == primary.value then [] else [Packet(p.id, p.src, primary.value)]
  }

  /** A router broadcasts a packet of its own, or one of its server's. */
  function Originated(primary: Option<nat>, id: nat, self: nat): seq<Packet> {
    if primary.None? then [] else [Packet(id, self, primary.value)]
  }

  // ------------------------------------------------------------- the network

  function Primary(next: map<nat, nat>, r: nat): Option<nat> {
    if r in next then Some(next[r]) else None
  }

  datatype Event = Originate(at: nat) | Arrive(k: nat)

  function Step(next: map<nat, nat>, s: Net, e: Event): Net {
    match e
    case Originate(r) =>
      var out := Originated(Primary(next, r), |s.started|, r);
      Net(s.started + [r], s.flight + out, s.handled, s.sends + out)
    case Arrive(k) =>
      if k >= |s.flight| then s
      else
        var p := s.flight[k];
        var out := Forwarded(Primary(next, p.to), p);
        Net(s.started, WithoutAt(s.flight, k) + out, s.handled + [p], s.sends + out)
  }

  function After(next: map<nat, nat>, evs: seq<Event>): Net {
    if evs == [] then Net([], [], [], []) else Step(next, After(next, evs[..|evs| - 1]), evs[|evs| - 1])
  }

  /** The receivers of broadcast `b` among some packets, in order. */
  function Receivers(ps: seq<Packet>, b: nat): seq<nat> {
    if ps == [] then []
    else
      var rest := Receivers(ps[..|ps| - 1], b);
      var p := ps[|ps| - 1];
      if p.id == b then rest + [p.to] else rest
  }

  lemma ReceiversSnoc(ps: seq<Packet>, p: Packet, b: nat)
    ensures Receivers(ps + [p], b) == if p.id == b then Receivers(ps, b) + [p.to] else Receivers(ps, b)
  {
    assert (ps + [p])[..|ps|] == ps;
  }

  lemma {:induction false} ReceiversAppend(ps: seq<Packet>, qs: seq<Packet>, b: nat)
    ensures Receivers(ps + qs, b) == Receivers(ps, b) + Receivers(qs, b)
  {
    if qs == [] {
      assert ps + qs == ps;
    } else {
      var pre := qs[..|qs| - 1];
      ReceiversAppend(ps, pre, b);
      assert ps + qs == (ps + pre) + [qs[|qs| - 1]];
      ReceiversSnoc(ps + pre, qs[|qs| - 1], b);
    }
  }

  /** Taking one packet out of the air. */
  lemma ReceiversRemoved(ps: seq<Packet>, k: nat, b: nat)
    requires k < |ps|
    ensures ps[k].id != b ==> Receivers(WithoutAt(ps, k), b) == Receivers(ps, b)
    ensures ps[k].id == b ==> |Receivers(WithoutAt(ps, k), b)| + 1 == |Receivers(ps, b)|
    ensures ps[k].id == b && |Receivers(ps, b)| == 1 ==> Receivers(ps, b) == [ps[k].to]
  {
    var p := ps[k];
    assert ps == ps[..k] + ([p] + ps[k + 1..]);
    ReceiversAppend(ps[..k], [p] + ps[k + 1..], b);
    ReceiversAppend([p], ps[k + 1..], b);
    ReceiversAppend(ps[..k], ps[k + 1..], b);
    ReceiversSnoc([], p, b);
    assert [] + [p] == [p];
  }

  // ------------------------------------------------ following primary routes

  /** No router is its own primary route. */
  predicate NoLoops(next: map<nat, nat>) {
    forall r :: r in next ==> next[r] != r
  }

  /** The router `k` primary routes away from `o`. */
  function Hop(next: map<nat, nat>, o: nat, k: nat): Option<nat> {
    if k == 0 then Some(o)
    else
      var before := Hop(next, o, k - 1);
      if before.None? then None else Primary(next, before.value)
  }

  /** The walk has left the routes or come back to its start. */
  predicate Ends(next: map<nat, nat>, o: nat, k: nat) {
    k >= 1 && (Hop(next, o, k).None? || Hop(next, o, k) == Some(o))
  }

  predicate EndsBy(next: map<nat, nat>, o: nat, k: nat) {
    exists j :: 0 <= j <= k && Ends(next, o, j)
  }

  /** The `i`-th receiver is where the walk from `o` is after `i + 1` hops, before
      its end. */
  predicate Follows(next: map<nat, nat>, o: nat, sent: seq<nat>) {
    forall i :: 0 <= i < |sent| ==> Hop(next, o, i + 1) == Some(sent[i]) && sent[i] != o
  }

  /** One broadcast: it is sent along the walk of primary routes, handled by all
      its receivers but the one it is on its way to, and when it is no longer on
      its way the walk has ended. */
  predicate OnWalk(next: map<nat, nat>, s: Net, b: nat, o: nat) {
    var sent, done, air := Receivers(s.sends, b), Receivers(s.handled, b), Receivers(s.flight, b);
    && Follows(next, o, sent)
    && done + air == sent && |air| <= 1
    && (air == [] ==> Ends(next, o, |sent| + 1))
  }

  predicate AllOnWalk(next: map<nat, nat>, s: Net) {
    forall b :: 0 <= b < |s.started| ==> OnWalk(next, s, b, s.started[b])
  }

  /** Packets carry their originator. */
  predicate SourcesKept(s: Net) {
    forall k :: 0 <= k < |s.flight| ==>
      s.flight[k].id < |s.started| && s.flight[k].src == s.started[s.flight[k].id]
  }

  predicate Unheard(s: Net, b: nat) {
    Receivers(s.flight, b) == [] && Receivers(s.handled, b) == [] && Receivers(s.sends, b) == []
  }

  ghost predicate NoneBeyond(s: Net) {
    forall b: nat :: b >= |s.started| ==> Unheard(s, b)
  }

  ghost predicate Inv(next: map<nat, nat>, s: Net) {
    AllOnWalk(next, s) && SourcesKept(s) && NoneBeyond(s)
  }

  // ----------------------------------------------------------------- arrivals

  /** At most one packet of broadcast `b`. */
  lemma ReceiversOfFew(out: seq<Packet>, b: nat)
    requires |out| <= 1
    ensures Receivers(out, b) == if out != [] && out[0].id == b then [out[0].to] else []
  {
    if out != [] {
      ReceiversSnoc([], out[0], b);
      assert [] + [out[0]] == out;
    }
  }

  /** The routers that the arrival of `q` sends it on to. */
  function Onward(next: map<nat, nat>, q: Packet): seq<nat> {
    var primary := Primary(next, q.to);
    if primary.None? || primary.value == q.src then [] else [primary.value]
  }

  lemma ForwardedRecords(next: map<nat, nat>, q: Packet, b: nat)
    ensures Receivers(Forwarded(Primary(next, q.to), q), b) == if q.id == b then Onward(next, q) else []
  {
    ReceiversOfFew(Forwarded(Primary(next, q.to), q), b);
    hide Receivers;
  }

  /** What an arrival does to the records of a broadcast. */
  lemma ArrivalRecords(next: map<nat, nat>, s: Net, k: nat, b: nat)
    requires k < |s.flight|
    ensures var q, t := s.flight[k], Step(next, s, Arrive(k));
            var out := if q.id == b then Onward(next, q) else [];
      && Receivers(t.flight, b) == Receivers(WithoutAt(s.flight, k), b) + out
      && Receivers(t.handled, b) == Receivers(s.handled, b) + (if q.id == b then [q.to] else [])
      && Receivers(t.sends, b) == Receivers(s.sends, b) + out
  {
    var q := s.flight[k];
    var fwd := Forwarded(Primary(next, q.to), q);
    ForwardedRecords(next, q, b);
    ReceiversSnoc(s.handled, q, b);
    ReceiversAppend(WithoutAt(s.flight, k), fwd, b);
    ReceiversAppend(s.sends, fwd, b);
    hide Receivers, Forwarded, Onward, Primary, WithoutAt;
  }

  /** The walk goes on where the packet does. */
  lemma OnwardFollows(next: map<nat, nat>, o: nat, sent: seq<nat>, q: Packet)
    requires Follows(next, o, sent) && sent != [] && sent[|sent| - 1] == q.to && q.src == o
    ensures Follows(next, o, sent + Onward(next, q))
    ensures Onward(next, q) == [] ==> Ends(next, o, |sent| + 1)
  {
    assert Hop(next, o, |sent|) == Some(q.to);
    assert Hop(next, o, |sent| + 1) == Primary(next, q.to);
  }

  /** The only packet of its broadcast. */
  lemma OnlyPacket(s: Net, k: nat)
    requires k < |s.flight| && |Receivers(s.flight, s.flight[k].id)| <= 1
    ensures var q := s.flight[k];
            Receivers(s.flight, q.id) == [q.to] && Receivers(WithoutAt(s.flight, k), q.id) == []
  {
    ReceiversRemoved(s.flight, k, s.flight[k].id);
    hide Receivers, WithoutAt;
  }

  /** The packet that is on its way reaches its router. */
  lemma ArrivalOnWalk(next: map<nat, nat>, s: Net, k: nat, o: nat)
    requires k < |s.flight| && s.flight[k].src == o && OnWalk(next, s, s.flight[k].id, o)
    ensures OnWalk(next, Step(next, s, Arrive(k)), s.flight[k].id, o)
  {
    var q := s.flight[k];
    var sent, done := Receivers(s.sends, q.id), Receivers(s.handled, q.id);
    OnlyPacket(s, k);
    ArrivalRecords(next, s, k, q.id);
    assert sent == done + [q.to];
    hide Receivers, Step, Follows, Ends, WithoutAt;
    assert |Onward(next, q)| <= 1;
    hide Onward;
    OnwardFollows(next, o, sent, q);
    assert [] + Onward(next, q) == Onward(next, q);
    assert Onward(next, q) == [] ==> sent + Onward(next, q) == sent;
  }

  /** Other broadcasts do not notice. */
  lemma OthersUntouched(next: map<nat, nat>, s: Net, k: nat, b: nat)
    requires k < |s.flight| && b != s.flight[k].id
    ensures var t := Step(next, s, Arrive(k));
      && Receivers(t.flight, b) == Receivers(s.flight, b)
      && Receivers(t.handled, b) == Receivers(s.handled, b)
      && Receivers(t.sends, b) == Receivers(s.sends, b)
  {
    ReceiversRemoved(s.flight, k, b);
    ArrivalRecords(next, s, k, b);
  }

  lemma ArrivalKeepsSources(next: map<nat, nat>, s: Net, k: nat)
    requires SourcesKept(s) && k < |s.flight|
    ensures SourcesKept(Step(next, s, Arrive(k)))
    ensures Step(next, s, Arrive(k)).started == s.started
  {
  }

  lemma ArrivalKeepsInv(next: map<nat, nat>, s: Net, k: nat)
    requires Inv(next, s) && k < |s.flight|
    ensures Inv(next, Step(next, s, Arrive(k)))
  {
    var t, q := Step(next, s, Arrive(k)), s.flight[k];
    ArrivalKeepsSources(next, s, k);
    assert q.id < |s.started| && q.src == s.started[q.id];
    hide SourcesKept, Receivers, Step, Follows, Ends;
    forall b: nat | b < |s.started| ensures OnWalk(next, t, b, t.started[b]) {
      assert OnWalk(next, s, b, s.started[b]);
      if b == q.id { ArrivalOnWalk(next, s, k, q.src); } else { OthersUntouched(next, s, k, b); }
    }
    forall b: nat | b >= |s.started| ensures Unheard(t, b) {
      assert Unheard(s, b);
      OthersUntouched(next, s, k, b);
    }
  }

  // ------------------------------------------------------------- originations

  lemma OriginationRecords(next: map<nat, nat>, s: Net, r: nat, b: nat)
    ensures var t := Step(next, s, Originate(r));
            var out := if b == |s.started| && r in next then [next[r]] else [];
      && Receivers(t.flight, b) == Receivers(s.flight, b) + out
      && Receivers(t.handled, b) == Receivers(s.handled, b)
      && Receivers(t.sends, b) == Receivers(s.sends, b) + out
  {
    var out := Originated(Primary(next, r), |s.started|, r);
    ReceiversOfFew(out, b);
    ReceiversAppend(s.flight, out, b);
    ReceiversAppend(s.sends, out, b);
  }

  lemma OriginationOnWalk(next: map<nat, nat>, s: Net, r: nat)
    requires NoLoops(next) && Unheard(s, |s.started|)
    ensures OnWalk(next, Step(next, s, Originate(r)), |s.started|, r)
  {
    OriginationRecords(next, s, r, |s.started|);
    hide Receivers, Step;
    assert Hop(next, r, 0) == Some(r) && Hop(next, r, 1) == Primary(next, r);
  }

  lemma OriginationKeepsSources(next: map<nat, nat>, s: Net, r: nat)
    requires SourcesKept(s)
    ensures SourcesKept(Step(next, s, Originate(r)))
    ensures Step(next, s, Originate(r)).started == s.started + [r]
  {
  }

  lemma OriginationKeepsInv(next: map<nat, nat>, s: Net, r: nat)
    requires NoLoops(next) && Inv(next, s)
    ensures Inv(next, Step(next, s, Originate(r)))
  {
    var t := Step(next, s, Originate(r));
    assert Unheard(s, |s.started|);
    OriginationOnWalk(next, s, r);
    OriginationKeepsSources(next, s, r);
    hide Receivers, SourcesKept, Step, Follows, Ends;
    forall b: nat | b < |t.started| ensures OnWalk(next, t, b, t.started[b]) {
      OriginationRecords(next, s, r, b);
      assert b < |s.started| ==> OnWalk(next, s, b, s.started[b]);
    }
    forall b: nat | b >= |t.started| ensures Unheard(t, b) {
      assert Unheard(s, b);
      OriginationRecords(next, s, r, b);
    }
  }

  lemma {:induction false} RunsKeepInv(next: map<nat, nat>, evs: seq<Event>)
    requires NoLoops(next)
    ensures Inv(next, After(next, evs))
  {
    if evs != [] {
      var pre, e := evs[..|evs| - 1], evs[|evs| - 1];
      RunsKeepInv(next, pre);
      var s := After(next, pre);
      hide Inv, NoLoops;
      if e.Originate? {
        OriginationKeepsInv(next, s, e.at);
      } else if e.k < |s.flight| {
        ArrivalKeepsInv(next, s, e.k);
      }
    }
  }

  // ------------------------------------------------- any network, in every run

  /** Whatever the primary routes, and whatever else is under way: a broadcast goes
      along the walk of primary routes from its originator, each receiver handling
      it once in turn, and nothing of it is in the air exactly when the walk ends
      with the next hop. */
  lemma BroadcastFollowsRoutes(next: map<nat, nat>, evs: seq<Event>, b: nat)
    requires NoLoops(next) && b < |After(next, evs).started|
    ensures var s := After(next, evs);
            var sent, done := Receivers(s.sends, b), Receivers(s.handled, b);
      && Follows(next, s.started[b], sent)
      && done <= sent && |sent| <= |done| + 1
      && (Receivers(s.flight, b) == [] <==> Ends(next, s.started[b], |done| + 1))
  {
    RunsKeepInv(next, evs);
    var s := After(next, evs);
    var sent, done, air := Receivers(s.sends, b), Receivers(s.handled, b), Receivers(s.flight, b);
    var o := s.started[b];
    assert OnWalk(next, s, b, o);
    if air != [] { assert Hop(next, o, |done| + 1) == Some(sent[|done|]) && sent[|done|] != o; }
  }

  /** Each arrival is handled and takes its broadcast one hop further. */
  lemma ArrivalsAdvance(next: map<nat, nat>, evs: seq<Event>, k: nat)
    requires NoLoops(next) && k < |After(next, evs).flight|
    ensures var s := After(next, evs);
            var b := s.flight[k].id;
      && b < |s.started| && |Receivers(s.sends, b)| == |Receivers(s.handled, b)| + 1
      && |Receivers(Step(next, s, Arrive(k)).handled, b)| == |Receivers(s.handled, b)| + 1
  {
    RunsKeepInv(next, evs);
    var s := After(next, evs);
    var b := s.flight[k].id;
    assert OnWalk(next, s, b, s.started[b]);
    ReceiversRemoved(s.flight, k, b);
    ReceiversSnoc(s.handled, s.flight[k], b);
  }

  predicate Started(next: map<nat, nat>, evs: seq<Event>, b: nat, o: nat) {
    b < |After(next, evs).started| && After(next, evs).started[b] == o
  }

  /** No run ever sends more than `n` copies of a broadcast from `o`. */
  ghost predicate AtMost(next: map<nat, nat>, o: nat, n: nat) {
    forall evs: seq<Event>, b: nat :: Started(next, evs, b, o) ==> |Receivers(After(next, evs).sends, b)| <= n
  }

  lemma NotEndedYet(next: map<nat, nat>, o: nat, sent: seq<nat>, j: nat)
    requires Follows(next, o, sent) && j <= |sent|
    ensures !Ends(next, o, j)
  {
    if j > 0 { assert Hop(next, o, j - 1 + 1) == Some(sent[j - 1]); }
  }

  /** A walk that ends bounds the sends. */
  lemma EndBounds(next: map<nat, nat>, o: nat, k: nat)
    requires NoLoops(next) && EndsBy(next, o, k)
    ensures k > 0 && AtMost(next, o, k - 1)
  {
    var j :| 0 <= j <= k && Ends(next, o, j);
    forall evs: seq<Event>, b: nat | Started(next, evs, b, o)
      ensures |Receivers(After(next, evs).sends, b)| <= k - 1
    {
      BroadcastFollowsRoutes(next, evs, b);
      var sent := Receivers(After(next, evs).sends, b);
      if j <= |sent| { NotEndedYet(next, o, sent, j); }
    }
  }

  ghost predicate NeverEnds(next: map<nat, nat>, o: nat) {
    forall k: nat :: !Ends(next, o, k)
  }

  /** On such a walk the broadcast is always on its way. */
  lemma AlwaysAirborne(next: map<nat, nat>, o: nat, evs: seq<Event>)
    requires NoLoops(next) && NeverEnds(next, o) && After(next, evs).started == [o]
    ensures var s := After(next, evs);
      && s.flight != [] && s.flight[0].id == 0 && |Receivers(s.sends, 0)| == |Receivers(s.handled, 0)| + 1
  {
    var s := After(next, evs);
    BroadcastFollowsRoutes(next, evs, 0);
    assert !Ends(next, o, |Receivers(s.handled, 0)| + 1);
    assert s.flight != [];
    ArrivalsAdvance(next, evs, 0);
  }

  lemma OneStep(next: map<nat, nat>, o: nat)
    ensures var s := After(next, [Originate(o)]); s.started == [o] && Receivers(s.handled, 0) == []
  {
    assert [Originate(o)][..0] == [];
  }

  /** A walk that does not end keeps one broadcast going for as long as one likes. */
  lemma {:induction false} Circulates(next: map<nat, nat>, o: nat, n: nat) returns (evs: seq<Event>)
    requires NoLoops(next) && NeverEnds(next, o)
    ensures var s := After(next, evs);
            s.started == [o] && |Receivers(s.handled, 0)| == n && |Receivers(s.sends, 0)| == n + 1
  {
    hide Ends, NoLoops, Hop, NeverEnds, Receivers;
    if n == 0 {
      evs := [Originate(o)];
      OneStep(next, o);
    } else {
      var pre := Circulates(next, o, n - 1);
      evs := pre + [Arrive(0)];
      assert evs[..|pre|] == pre;
      AlwaysAirborne(next, o, pre);
      ArrivalsAdvance(next, pre, 0);
    }
    AlwaysAirborne(next, o, evs);
  }

  // ------------------------------------------------------- how soon walks end

  lemma {:induction false} Pigeonhole(s: seq<nat>, holes: set<nat>)
    requires NoRepeats(s) && forall x :: x in s ==> x in holes
    ensures |s| <= |holes|
  {
    if s != [] {
      var last := s[|s| - 1];
      Pigeonhole(s[..|s| - 1], holes - {last});
    }
  }

  function Hops(next: map<nat, nat>, o: nat, n: nat): (r: seq<nat>)
    requires forall k :: 0 <= k < n ==> Hop(next, o, k).Some?
    ensures |r| == n && forall k :: 0 <= k < n ==> Hop(next, o, k) == Some(r[k])
  {
    if n == 0 then [] else Hops(next, o, n - 1) + [Hop(next, o, n - 1).value]
  }

  /** Routers with a primary route are `|next|`: a walk longer than that repeats. */
  lemma Repeats(next: map<nat, nat>, o: nat) returns (i: nat, j: nat)
    requires !EndsBy(next, o, |next| + 1)
    ensures i < j <= |next| && Hop(next, o, i) == Hop(next, o, j)
  {
    var n := |next| + 1;
    forall k | 0 <= k <= n ensures Hop(next, o, k).Some? {
      assert !Ends(next, o, k);
    }
    var r := Hops(next, o, n);
    forall k | 0 <= k < n ensures r[k] in next.Keys {
      assert Hop(next, o, k + 1).Some?;
    }
    if NoRepeats(r) { Pigeonhole(r, next.Keys); }
    i, j :| 0 <= i < j < |r| && r[i] == r[j];
  }

  lemma {:induction false} Periodic(next: map<nat, nat>, o: nat, i: nat, j: nat, t: nat)
    requires Hop(next, o, i) == Hop(next, o, j)
    ensures Hop(next, o, i + t) == Hop(next, o, j + t)
  {
    if t > 0 { Periodic(next, o, i, j, t - 1); }
  }

  lemma {:induction false} NotEnded(next: map<nat, nat>, o: nat, i: nat, j: nat, k: nat)
    requires !EndsBy(next, o, |next| + 1)
    requires i < j <= |next| && Hop(next, o, i) == Hop(next, o, j)
    ensures !Ends(next, o, k)
  {
    if k > |next| + 1 {
      Periodic(next, o, i, j, k - j);
      NotEnded(next, o, i, j, k - (j - i));
    }
  }

  /** A walk that has not ended after one hop more than there are routes never
      does. */
  lemma EndsSoonOrNever(next: map<nat, nat>, o: nat)
    requires !EndsBy(next, o, |next| + 1)
    ensures NeverEnds(next, o)
  {
    var i, j := Repeats(next, o);
    forall k: nat ensures !Ends(next, o, k) { NotEnded(next, o, i, j, k); }
  }

  /** On any primary routes the copies of a broadcast from `o` are bounded over all
      runs if and only if the routes from `o` lead, within one hop more than there
      are routes, to a router without one or back to `o`. */
  lemma BoundedIff(next: map<nat, nat>, o: nat)
    requires NoLoops(next)
    ensures (exists n: nat :: AtMost(next, o, n)) <==> EndsBy(next, o, |next| + 1)
    ensures EndsBy(next, o, |next| + 1) ==> AtMost(next, o, |next|)
  {
    if EndsBy(next, o, |next| + 1) {
      EndBounds(next, o, |next| + 1);
    } else {
      EndsSoonOrNever(next, o);
      forall n: nat ensures !AtMost(next, o, n) {
        var evs := Circulates(next, o, n);
        assert Started(next, evs, 0, o);
      }
    }
  }

  lemma {:induction false} RoundAndRound(next: map<nat, nat>, k: nat)
    requires next == map[0 := 1, 1 := 2, 2 := 1]
    ensures Hop(next, 0, k) == Some(if k == 0 then 0 else if k % 2 == 1 then 1 else 2)
  {
    if k > 0 { RoundAndRound(next, k - 1); }
  }

  /** Primary routes 0 to 1, 1 to 2 and 2 to 1: whatever router 0 originates goes
      round between 1 and 2 without end. */
  lemma RoutesPastOriginatorCirculate(n: nat) returns (evs: seq<Event>)
    ensures var next := map[0 := 1, 1 := 2, 2 := 1];
            Started(next, evs, 0, 0) && |Receivers(After(next, evs).sends, 0)| > n
  {
    var next: map<nat, nat> := map[0 := 1, 1 := 2, 2 := 1];
    forall k: nat ensures !Ends(next, 0, k) { RoundAndRound(next, k); }
    evs := Circulates(next, 0, n);
  }

  // ---------------------------------------------------------------- the ring

  function Pos(p: nat, i: nat, n: nat): nat {
    if p + i < n then p + i else p + i - n
  }

  /** `ring` lists the routers; each has the next one as its primary route. */
  predicate IsRing(ring: seq<nat>, next: map<nat, nat>) {
    && |ring| >= 2
    && NoRepeats(ring)
    && (forall i :: 0 <= i < |ring| ==> ring[i] in next && next[ring[i]] == ring[Pos(i, 1, |ring|)])
  }

  lemma RingNext(ring: seq<nat>, next: map<nat, nat>, p: nat, m: nat)
    requires IsRing(ring, next) && p < |ring| && m < |ring|
    ensures Primary(next, ring[Pos(p, m, |ring|)]) == Some(ring[Pos(p, m + 1, |ring|)])
  {
    assert Pos(Pos(p, m, |ring|), 1, |ring|) == Pos(p, m + 1, |ring|);
  }

  /** The walk goes round the ring. */
  lemma {:induction false} HopOnRing(ring: seq<nat>, next: map<nat, nat>, p: nat, m: nat)
    requires IsRing(ring, next) && p < |ring| && m <= |ring|
    ensures Hop(next, ring[p], m) == Some(ring[Pos(p, m, |ring|)])
  {
    hide IsRing, Primary;
    if m > 0 {
      HopOnRing(ring, next, p, m - 1);
      RingNext(ring, next, p, m - 1);
    }
  }

  lemma EndsOnRing(ring: seq<nat>, next: map<nat, nat>, p: nat, m: nat)
    requires IsRing(ring, next) && p < |ring| && 1 <= m <= |ring|
    ensures Ends(next, ring[p], m) <==> m == |ring|
  {
    HopOnRing(ring, next, p, m);
    hide Hop;
    assert Pos(p, m, |ring|) == p <==> m == |ring|;
  }

  /** A broadcast from position `p` and the routers it was sent to. */
  lemma SentOnRing(ring: seq<nat>, next: map<nat, nat>, p: nat, sent: seq<nat>)
    requires IsRing(ring, next) && p < |ring| && Follows(next, ring[p], sent)
    ensures |sent| < |ring| && forall i :: 0 <= i < |sent| ==> sent[i] == ring[Pos(p, i + 1, |ring|)]
  {
    EndsOnRing(ring, next, p, |ring|);
    hide IsRing, Hop, Ends;
    if |sent| >= |ring| { NotEndedYet(next, ring[p], sent, |ring|); }
    forall i | 0 <= i < |sent| ensures sent[i] == ring[Pos(p, i + 1, |ring|)] {
      HopOnRing(ring, next, p, i + 1);
    }
  }

  /** Over every run on a ring of any size, with any broadcasts under way and any
      order of arrival: no router handles a broadcast twice, its originator never
      handles it, and at most n - 1 copies are sent. */
  lemma HandledAtMostOnce(ring: seq<nat>, next: map<nat, nat>, evs: seq<Event>, b: nat)
    requires IsRing(ring, next) && NoLoops(next)
    requires b < |After(next, evs).started| && After(next, evs).started[b] in ring
    ensures var s := After(next, evs);
      && NoRepeats(Receivers(s.handled, b))
      && s.started[b] !in Receivers(s.handled, b)
      && |Receivers(s.sends, b)| <= |ring| - 1
  {
    var s := After(next, evs);
    var p :| 0 <= p < |ring| && ring[p] == s.started[b];
    BroadcastFollowsRoutes(next, evs, b);
    SentOnRing(ring, next, p, Receivers(s.sends, b));
  }

  lemma PlaceAfter(ring: seq<nat>, p: nat, r: nat) returns (i: nat)
    requires p < |ring| && r in ring && r != ring[p]
    ensures i < |ring| - 1 && ring[Pos(p, i + 1, |ring|)] == r
  {
    var j :| 0 <= j < |ring| && ring[j] == r;
    i := if j > p then j - p - 1 else j + |ring| - p - 1;
    assert Pos(p, i + 1, |ring|) == j;
  }

  /** A broadcast with nothing left in the air was handled exactly once by every
      router but its originator, with exactly n - 1 sends. */
  lemma HandledByAll(ring: seq<nat>, next: map<nat, nat>, evs: seq<Event>, b: nat, r: nat)
    requires IsRing(ring, next) && NoLoops(next)
    requires b < |After(next, evs).started| && After(next, evs).started[b] in ring
    requires Receivers(After(next, evs).flight, b) == []
    ensures var s := After(next, evs);
      && |Receivers(s.sends, b)| == |Receivers(s.handled, b)| == |ring| - 1
      && (r in ring && r != s.started[b] ==> r in Receivers(s.handled, b))
  {
    var s, n := After(next, evs), |ring|;
    var sent, done := Receivers(s.sends, b), Receivers(s.handled, b);
    var p :| 0 <= p < n && ring[p] == s.started[b];
    BroadcastFollowsRoutes(next, evs, b);
    SentOnRing(ring, next, p, sent);
    assert |done| + 1 <= n;
    EndsOnRing(ring, next, p, |done| + 1);
    hide IsRing, Receivers, Follows, Ends, NoLoops, After;
    if r in ring && r != s.started[b] {
      var i := PlaceAfter(ring, p, r);
      assert done[i] == sent[i] == r;
    }
  }

  /** And it does come to that: each arrival of a broadcast that is on its way
      takes it one step nearer its end. */
  lemma ArrivalsProgress(ring: seq<nat>, next: map<nat, nat>, evs: seq<Event>, k: nat)
    requires IsRing(ring, next) && NoLoops(next)
    requires k < |After(next, evs).flight| && After(next, evs).flight[k].src in ring
    ensures var s := After(next, evs);
            var b := s.flight[k].id;
      && b < |s.started| && s.started[b] == s.flight[k].src
      && |Receivers(Step(next, s, Arrive(k)).handled, b)| == |Receivers(s.handled, b)| + 1 <= |ring| - 1
  {
    var s := After(next, evs);
    RunsKeepInv(next, evs);
    ArrivalsAdvance(next, evs, k);
    HandledAtMostOnce(ring, next, evs, s.flight[k].id);
  }
}
