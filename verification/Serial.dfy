/** `poll_once` as a schedule of the transition system, session by session. */
module Serial {
  import opened Tables
  import opened Catalog
  import opened Worker
  import opened Protocol

  // ---------------------------------------------------------------- a poll is a schedule

  lemma RankDrops(c: Deployment, t: Db, msg: Message, phase: Phase, now: int)
    ensures var next := Commit(c, t, msg, phase, now).next;
            next.Some? ==> Rank(next.value) < Rank(phase)
  {
  }

  /** Worker i works its batch to the end, undisturbed. */
  function Drive(c: Deployment, w: World, i: nat): World
    requires i < |w.hands|
    decreases |w.hands[i].batch| - w.hands[i].pos, Rank(w.hands[i].phase)
  {
    if !Busy(w.hands[i]) then w
    else
      RankDrops(c, w.t, w.hands[i].batch[w.hands[i].pos], w.hands[i].phase, w.clock);
      Drive(c, AfterWork(c, w, i), i)
  }

  /** `poll_once` of worker i. */
  function Poll(c: Deployment, w: World, i: nat, max: nat, timeout: int): World
    requires i < |w.hands| && !Busy(w.hands[i])
  {
    Drive(c, AfterReceive(c, w, i, max, timeout), i)
  }

  lemma {:induction false} DriveFrame(c: Deployment, w: World, i: nat)
    requires i < |w.hands|
    ensures var v := Drive(c, w, i);
            && |v.hands| == |w.hands| && !Busy(v.hands[i]) && v.clock == w.clock
            && forall a :: 0 <= a < |w.hands| && a != i ==> v.hands[a] == w.hands[a]
    decreases |w.hands[i].batch| - w.hands[i].pos, Rank(w.hands[i].phase)
  {
    if Busy(w.hands[i]) {
      RankDrops(c, w.t, w.hands[i].batch[w.hands[i].pos], w.hands[i].phase, w.clock);
      DriveFrame(c, AfterWork(c, w, i), i);
    }
  }

  lemma ProcessedAfterCommit(c: Deployment, t: Db, h: Hand, now: int)
    requires Busy(h)
    ensures var turn := Commit(c, t, h.batch[h.pos], h.phase, now);
            var next := Advanced(h, turn.next);
            Processed(c, t, h.batch, h.pos, h.phase, now)
            == Processed(c, turn.db, next.batch, next.pos, next.phase, now)
  {
    RankDrops(c, t, h.batch[h.pos], h.phase, now);
    var turn := Commit(c, t, h.batch[h.pos], h.phase, now);
    assert Finished(c, t, h.batch[h.pos], h.phase, now)
           == if turn.next.None? then turn.db else Finished(c, turn.db, h.batch[h.pos], turn.next.value, now);
  }

  lemma {:induction false} DriveProcesses(c: Deployment, w: World, i: nat)
    requires i < |w.hands|
    ensures Drive(c, w, i).t == Processed(c, w.t, w.hands[i].batch, w.hands[i].pos, w.hands[i].phase, w.clock)
    decreases |w.hands[i].batch| - w.hands[i].pos, Rank(w.hands[i].phase)
  {
    if Busy(w.hands[i]) {
      RankDrops(c, w.t, w.hands[i].batch[w.hands[i].pos], w.hands[i].phase, w.clock);
      ProcessedAfterCommit(c, w.t, w.hands[i], w.clock);
      DriveProcesses(c, AfterWork(c, w, i), i);
    }
  }

  /** The schedule `Poll` leaves the database that the worker's `PollOnce` leaves. */
  lemma PollIsPollOnce(c: Deployment, w: World, i: nat, max: nat, timeout: int)
    requires i < |w.hands| && !Busy(w.hands[i])
    ensures Poll(c, w, i, max, timeout).t
            == Processed(c, Received(c, w.t, max, timeout, w.clock), Batch(c, w.t, max, w.clock), 0, Guard, w.clock)
  {
    DriveProcesses(c, AfterReceive(c, w, i, max, timeout), i);
  }

  // ---------------------------------------------------------------- what a poll commits is what its run passes through

  /** n commits of worker i. */
  function Works(i: nat, n: nat): (steps: seq<Step>)
    ensures |steps| == n
  {
    seq(n, _ => Work(i))
  }

  /** The tables that the rest of a hand will commit. */
  function Ahead(c: Deployment, w: World, i: nat): seq<Db>
    requires i < |w.hands|
  {
    BatchCommits(c, w.t, w.hands[i].batch, w.hands[i].pos, w.hands[i].phase, w.clock)
  }

  /** What a commit in `phase` adds to the log. */
  function Logged(t: Db, phase: Phase): seq<Db>
  {
    if phase.Guard? || phase.RunTool? then [] else [t]
  }

  lemma OneCommit(c: Deployment, t: Db, msg: Message, phase: Phase, now: int)
    ensures var turn := Commit(c, t, msg, phase, now);
            && (turn.next.None? ==>
                  Finished(c, t, msg, phase, now) == turn.db
                      && Commits(c, t, msg, phase, now) == Logged(turn.db, phase))
            && (turn.next.Some? ==>
                  && Finished(c, t, msg, phase, now) == Finished(c, turn.db, msg, turn.next.value, now)
                  && Commits(c, t, msg, phase, now)
                     == Logged(turn.db, phase) + Commits(c, turn.db, msg, turn.next.value, now))
  {
    hide Commit;
  }

  lemma OneMessage(c: Deployment, t: Db, h: Hand, now: int)
    requires Busy(h)
    ensures BatchCommits(c, t, h.batch, h.pos, h.phase, now)
            == Commits(c, t, h.batch[h.pos], h.phase, now)
               + BatchCommits(c, Finished(c, t, h.batch[h.pos], h.phase, now), h.batch, h.pos + 1, Guard, now)
  {
    hide Commits; hide Finished;
  }

  lemma CommitsAfterCommit(c: Deployment, t: Db, h: Hand, now: int)
    requires Busy(h)
    ensures var turn := Commit(c, t, h.batch[h.pos], h.phase, now);
            var next := Advanced(h, turn.next);
            BatchCommits(c, t, h.batch, h.pos, h.phase, now)
            == Logged(turn.db, h.phase) + BatchCommits(c, turn.db, next.batch, next.pos, next.phase, now)
  {
    hide Commit; hide Commits; hide Finished; hide BatchCommits;
    var turn := Commit(c, t, h.batch[h.pos], h.phase, now);
    OneMessage(c, t, h, now);
    OneCommit(c, t, h.batch[h.pos], h.phase, now);
    if turn.next.Some? {
      OneMessage(c, turn.db, Advanced(h, turn.next), now);
    }
  }

  lemma AheadAfterWork(c: Deployment, w: World, i: nat)
    requires i < |w.hands| && Busy(w.hands[i])
    ensures var v := AfterWork(c, w, i);
            && (w.hands[i].phase.Guard? || w.hands[i].phase.RunTool? ==> v.t == w.t && Ahead(c, w, i) == Ahead(c, v, i))
            && (!w.hands[i].phase.Guard? && !w.hands[i].phase.RunTool? ==> Ahead(c, w, i) == [v.t] + Ahead(c, v, i))
  {
    CommitsAfterCommit(c, w.t, w.hands[i], w.clock);
  }

  lemma OneMoreWork(c: Deployment, w: World, i: nat, n: nat)
    requires i < |w.hands| && Busy(w.hands[i])
    ensures Run(c, w, Works(i, n + 1)) == Run(c, AfterWork(c, w, i), Works(i, n))
  {
    assert Works(i, n + 1)[0] == Work(i) && Works(i, n + 1)[1..] == Works(i, n);
  }

  lemma {:induction false} LogIsReached(c: Deployment, w: World, i: nat, k: nat) returns (n: nat)
    requires i < |w.hands| && k < |Ahead(c, w, i)|
    ensures Run(c, w, Works(i, n)).t == Ahead(c, w, i)[k]
    decreases |w.hands[i].batch| - w.hands[i].pos, Rank(w.hands[i].phase)
  {
    var v := AfterWork(c, w, i);
    RankDrops(c, w.t, w.hands[i].batch[w.hands[i].pos], w.hands[i].phase, w.clock);
    AheadAfterWork(c, w, i);
    if w.hands[i].phase.Guard? || w.hands[i].phase.RunTool? {
      n := LogIsReached(c, v, i, k);
    } else if k == 0 {
      n := 0;
      assert Works(i, 0) == [];
    } else {
      n := LogIsReached(c, v, i, k - 1);
    }
    OneMoreWork(c, w, i, n);
    n := n + 1;
  }

  lemma {:induction false} RunIsLogged(c: Deployment, w: World, i: nat, n: nat)
    requires i < |w.hands|
    ensures var t := Run(c, w, Works(i, n)).t;
            t == w.t || t in Ahead(c, w, i)
    decreases n
  {
    if n == 0 {
      assert Works(i, 0) == [];
    } else if Busy(w.hands[i]) {
      AheadAfterWork(c, w, i);
      OneMoreWork(c, w, i, n - 1);
      RunIsLogged(c, AfterWork(c, w, i), i, n - 1);
    } else {
      assert Works(i, n)[0] == Work(i) && Works(i, n)[1..] == Works(i, n - 1);
      RunIsLogged(c, w, i, n - 1);
    }
  }

  lemma PollCommitsAhead(c: Deployment, w: World, i: nat, max: nat, timeout: int)
    requires i < |w.hands|
    ensures var u := AfterReceive(c, w, i, max, timeout);
            i < |u.hands| && PollCommits(c, w.t, max, timeout, w.clock) == [u.t] + Ahead(c, u, i)
  {
    hide BatchCommits; hide Batch; hide Received;
  }

  /**
   * The tables that `poll_once` commits are exactly those that its schedule passes through, so a crash during a poll
   * leaves one of them, and can leave each of them.
   */
  lemma PollCommitsAreTheRun(c: Deployment, w: World, i: nat, max: nat, timeout: int, t: Db)
    requires i < |w.hands| && !Busy(w.hands[i])
    ensures t in PollCommits(c, w.t, max, timeout, w.clock) <==>
            exists n: nat :: Run(c, AfterReceive(c, w, i, max, timeout), Works(i, n)).t == t
  {
    hide PollCommits; hide Ahead; hide AfterReceive;
    var u := AfterReceive(c, w, i, max, timeout);
    var log := PollCommits(c, w.t, max, timeout, w.clock);
    PollCommitsAhead(c, w, i, max, timeout);
    if t in log {
      var k :| 0 <= k < |log| && log[k] == t;
      if k == 0 {
        assert Works(i, 0) == [];
        assert Run(c, u, Works(i, 0)).t == t;
      } else {
        var n := LogIsReached(c, u, i, k - 1);
        assert Run(c, u, Works(i, n)).t == t;
      }
    }
    forall n: nat ensures Run(c, u, Works(i, n)).t in log {
      RunIsLogged(c, u, i, n);
    }
  }

  /** Steps of a crash-free worker and the clock. */
  predicate Undisturbed(steps: seq<Step>)
  {
    forall k :: 0 <= k < |steps| ==> steps[k].Tick? || steps[k].Receive? || steps[k].Work?
  }

  lemma {:induction false} DriveIsRun(c: Deployment, w: World, i: nat) returns (steps: seq<Step>)
    requires i < |w.hands|
    ensures Run(c, w, steps) == Drive(c, w, i) && Undisturbed(steps)
    decreases |w.hands[i].batch| - w.hands[i].pos, Rank(w.hands[i].phase)
  {
    steps := [];
    if Busy(w.hands[i]) {
      RankDrops(c, w.t, w.hands[i].batch[w.hands[i].pos], w.hands[i].phase, w.clock);
      var rest := DriveIsRun(c, AfterWork(c, w, i), i);
      steps := [Work(i)] + rest;
      assert steps[0] == Work(i) && steps[1..] == rest;
    }
  }

  lemma PollIsRun(c: Deployment, w: World, i: nat, max: nat, timeout: int) returns (steps: seq<Step>)
    requires i < |w.hands| && !Busy(w.hands[i])
    ensures Run(c, w, steps) == Poll(c, w, i, max, timeout) && Undisturbed(steps)
  {
    var rest := DriveIsRun(c, AfterReceive(c, w, i, max, timeout), i);
    steps := [Receive(i, max, timeout)] + rest;
    assert steps[0] == Receive(i, max, timeout) && steps[1..] == rest;
  }
}
