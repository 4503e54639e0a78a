/** What ends a run of the resuming protocol at the acting backup
    (apps/silcd/server_backup.c, silc_server_protocol_backup_done): success, a
    restart, or giving up. */
module ResumeRestarts {
  import opened Wire

  /** A packet stream as the completion callback's loop sees it. */
  datatype Stream = Stream(
    number: nat,              // the stream itself
    conn: Option<ConnType>,   // absent without an entry
    isRouter: bool,           // entry->server_type == SILC_ROUTER
    ours: bool)               // entry->backup_proto is the run that ended

  datatype Outcome = Restart(attempt: nat) | GiveUp

  datatype Done = Done(outcomes: seq<Outcome>, role: ServerType, enabled: seq<nat>)

  const MAX_RESTART := 10

  predicate Concerned(s: Stream) {
    (s.conn == Some(ConnRouter) || s.conn == Some(ConnServer)) && s.ours
  }

  /** The branch for our primary route at a backup router. */
  predicate Retries(s: Stream, error: bool, role: ServerType, backup: bool, primary: Option<nat>) {
    && Concerned(s) && error && !(role == NormalServer && s.isRouter)
    && primary == Some(s.number) && backup
  }

  function Decided(attempt: nat, failure: bool): Outcome {
    if failure || attempt > MAX_RESTART then GiveUp else Restart(attempt + 1)
  }

  predicate Numbered(streams: seq<Stream>) {
    forall i, j :: 0 <= i < j < |streams| ==> streams[i].number != streams[j].number
  }

  /** The run ends in error, and its primary route asks for another. */
  predicate Failed(streams: seq<Stream>, error: bool, role: ServerType, backup: bool, primary: Option<nat>) {
    exists s :: s in streams && Retries(s, error, role, backup, primary)
  }

  /** After an error a normal server leaves router links as they are, until giving
      up has made it a backup router; and a link that is tried again stays disabled. */
  predicate Enables(streams: seq<Stream>, k: nat, error: bool, role: ServerType, backup: bool, primary: Option<nat>,
                    o: Outcome)
    requires k < |streams|
  {
    var s := streams[k];
    var gaveUp := o == GiveUp && Failed(streams[..k], error, role, backup, primary);
    && Concerned(s)
    && !(error && role == NormalServer && !gaveUp && s.isRouter)
    && (Retries(s, error, role, backup, primary) ==> o == GiveUp)
  }

  /** The restriction is lifted on exactly these links. */
  predicate EnabledExactly(enabled: seq<nat>, streams: seq<Stream>, error: bool, role: ServerType, backup: bool,
                           primary: Option<nat>, o: Outcome) {
    forall k :: 0 <= k < |streams| ==>
      (streams[k].number in enabled <==> Enables(streams, k, error, role, backup, primary, o))
  }

  /** The outcomes that `Complete` promises, from the streams alone: another run is
      decided on exactly when the run ended in error and our primary route, at a
      server with the backup role, carried it; a normal server does not try a router
      again; and it is the last after the eleventh, or when a failure was reported. */
  lemma OutcomeMeans(streams: seq<Stream>, error: bool, role: ServerType, backup: bool, primary: Option<nat>,
                     attempt: nat, failure: bool)
    ensures Failed(streams, error, role, backup, primary)
            <==> && error && backup
                 && exists k :: 0 <= k < |streams|
                      && streams[k].ours && streams[k].conn in {Some(ConnRouter), Some(ConnServer)}
                      && primary == Some(streams[k].number) && !(role == NormalServer && streams[k].isRouter)
    ensures Decided(attempt, failure) == if failure || attempt >= 11 then GiveUp else Restart(attempt + 1)
  {
    if k :| 0 <= k < |streams| && streams[k].ours && streams[k].conn in {Some(ConnRouter), Some(ConnServer)}
            && primary == Some(streams[k].number) && !(role == NormalServer && streams[k].isRouter) {
      assert streams[k] in streams;
    }
  }

  /** The links it enables again. */
  lemma EnablesMeans(streams: seq<Stream>, k: nat, error: bool, role: ServerType, backup: bool, primary: Option<nat>,
                     o: Outcome)
    requires k < |streams|
    ensures var s, gaveUp := streams[k], o == GiveUp && Failed(streams[..k], error, role, backup, primary);
            var alone := error && role == NormalServer && s.isRouter;
            Enables(streams, k, error, role, backup, primary, o)
            <==> && s.ours && s.conn in {Some(ConnRouter), Some(ConnServer)}
                 && (alone ==> gaveUp)
                 && (error && !alone && backup && primary == Some(s.number) ==> o == GiveUp)
  {
  }

  /** The loop over all streams.  A run that ends in error starts at most one new
      run, because only one stream is the primary route; giving up lifts the
      restriction of that link as well. */
  method Complete(streams: seq<Stream>, error: bool, role: ServerType, backup: bool, primary: Option<nat>,
                  attempt: nat, failure: bool) returns (d: Done)
    requires Numbered(streams)
    ensures d.outcomes == if Failed(streams, error, role, backup, primary) then [Decided(attempt, failure)] else []
    ensures d.role == if d.outcomes == [GiveUp] then BackupRouter else role
    ensures EnabledExactly(d.enabled, streams, error, role, backup, primary, Decided(attempt, failure))
  {
    var outcomes: seq<Outcome>, role1, enabled: seq<nat>, failed := [], role, [], failure;
    var i := 0;
    while i < |streams|
      invariant 0 <= i <= |streams|
      invariant outcomes == if Failed(streams[..i], error, role, backup, primary)
                            then [Decided(attempt, failure)] else []
      invariant role1 == if outcomes == [GiveUp] then BackupRouter else role
      invariant outcomes == [] ==> failed == failure
      invariant forall k :: 0 <= k < i ==>
                  (streams[k].number in enabled
                   <==> Enables(streams, k, error, role, backup, primary, Decided(attempt, failure)))
      invariant forall x :: x in enabled ==> exists k :: 0 <= k < i && streams[k].number == x
    {
      var s := streams[i];
      assert streams[..i + 1] == streams[..i] + [s];
      i := i + 1;
      if s.conn.None? {
        continue;
      }
      if s.conn.value != ConnRouter && s.conn.value != ConnServer {
        continue;
      }
      if s.ours {
        if error {
          if role1 == NormalServer && s.isRouter {
            continue;
          }
          if primary == Some(s.number) && backup {
            assert Retries(s, error, role, backup, primary);
            assert forall r :: r in streams[..i - 1] ==> r.number != s.number;
            if attempt > MAX_RESTART {
              failed := true;
            }
            if !failed {
              outcomes := outcomes + [Restart(attempt + 1)];
            } else {
              role1 := BackupRouter;
              outcomes := outcomes + [GiveUp];
              enabled := enabled + [s.number];
            }
            continue;
          }
        }
        enabled := enabled + [s.number];
      }
    }
    assert streams[..i] == streams;
    d := Done(outcomes, role1, enabled);
  }

  // ------------------------------------------------------- chains of attempts

  /** How a run ended, as the callback finds it: the streams of the moment, the
      primary route among them, the error, and whether a peer reported failure. */
  datatype End = End(streams: seq<Stream>, primary: Option<nat>, error: bool, failure: bool)

  predicate EndFailed(e: End, role: ServerType, backup: bool) {
    Failed(e.streams, e.error, role, backup, e.primary)
  }

  /** Every run but the last failed and was restarted. */
  predicate Chained(ends: seq<End>, role: ServerType, backup: bool, dones: seq<Done>) {
    && |dones| <= |ends| && |dones| <= 12
    && (forall i :: 0 <= i < |dones| ==>
          dones[i].outcomes == if EndFailed(ends[i], role, backup) then [Decided(i, ends[i].failure)] else [])
    && (forall i :: 0 <= i < |dones| - 1 ==> dones[i].outcomes == [Restart(i + 1)])
  }

  /** The last run was not restarted, or is the last there is. */
  predicate Ended(ends: seq<End>, dones: seq<Done>) {
    dones != [] && (|dones| == |ends| || dones[|dones| - 1].outcomes in {[], [GiveUp]})
  }

  /** Every run so far was restarted. */
  predicate Restarted(dones: seq<Done>) {
    |dones| < 12 && forall i :: 0 <= i < |dones| ==> dones[i].outcomes == [Restart(i + 1)]
  }

  predicate RolesFollow(dones: seq<Done>, role: ServerType) {
    forall i :: 0 <= i < |dones| ==> dones[i].role == if dones[i].outcomes == [GiveUp] then BackupRouter else role
  }

  /** One more run of the chain. */
  lemma ChainGrows(ends: seq<End>, role: ServerType, backup: bool, dones: seq<Done>, d: Done)
    requires Chained(ends, role, backup, dones) && Restarted(dones) && |dones| < |ends|
    requires var e := ends[|dones|];
             d.outcomes == if EndFailed(e, role, backup) then [Decided(|dones|, e.failure)] else []
    ensures Chained(ends, role, backup, dones + [d])
    ensures if d.outcomes == [Restart(|dones| + 1)] then Restarted(dones + [d]) else Ended(ends, dones + [d])
  {
    hide EndFailed;
  }

  /** The callback of every run of a chain, each started by the one before: at
      most twelve runs, whatever the peers and the network do; the server goes back
      to being a backup exactly when a run gives up; and that is the first one that
      fails with a failure reported, or the twelfth. */
  method Attempts(ends: seq<End>, role: ServerType, backup: bool) returns (dones: seq<Done>)
    requires forall i :: 0 <= i < |ends| ==> Numbered(ends[i].streams)
    ensures Chained(ends, role, backup, dones) && (ends != [] ==> Ended(ends, dones))
    ensures |dones| <= 12 && forall i :: 0 <= i < |dones| - 1 ==> dones[i].outcomes == [Restart(i + 1)]
    ensures ends != [] ==>
              && dones != [] && |dones| <= |ends|
              && (|dones| == |ends| || dones[|dones| - 1].outcomes == [] || dones[|dones| - 1].outcomes == [GiveUp])
    ensures dones != [] && role != BackupRouter ==>
              var k := |dones| - 1;
              dones[k].role == BackupRouter <==>
                EndFailed(ends[k], role, backup) && (ends[k].failure || k == 11)
  {
    dones := [];
    var more := true;
    while more && |dones| < |ends|
      invariant Chained(ends, role, backup, dones) && RolesFollow(dones, role)
      invariant if more then Restarted(dones) else Ended(ends, dones)
      decreases |ends| - |dones|, more
    {
      hide Numbered, Failed, Retries, Concerned, EnabledExactly, Chained, Restarted, Ended;
      var k, e := |dones|, ends[|dones|];
      var d := Complete(e.streams, e.error, role, backup, e.primary, k, e.failure);
      ChainGrows(ends, role, backup, dones, d);
      dones := dones + [d];
      more := d.outcomes == [Restart(k + 1)];
    }
  }

  /** A network that never lets a run succeed ends the chain at the twelfth run. */
  lemma AlwaysFailingGivesUp(ends: seq<End>, role: ServerType, backup: bool, dones: seq<Done>)
    requires Chained(ends, role, backup, dones) && Ended(ends, dones) && |ends| >= 12
    requires forall i :: 0 <= i < |ends| ==> EndFailed(ends[i], role, backup) && !ends[i].failure
    ensures |dones| == 12 && dones[11].outcomes == [GiveUp]
    ensures forall i :: 0 <= i < 11 ==> dones[i].outcomes == [Restart(i + 1)]
  {
    var k := |dones| - 1;
    assert dones[k].outcomes == [Decided(k, false)];
  }
}
