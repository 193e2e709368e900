/** What the outbox relay promises: oldest first, at least once, and an exact number of ticks to drain. */
module OutboxLaws {
  import opened Ingestion

  /** How many events still wait. */
  function Backlog(outbox: seq<Event>): nat {
    if outbox == [] then 0
    else Backlog(outbox[..|outbox| - 1]) + if outbox[|outbox| - 1].processed then 0 else 1
  }

  function Excess(n: nat, taken: nat): nat {
    if n <= taken then 0 else n - taken
  }

  /** A batch is in order, as long as it may be, and skips nothing older than what it takes. */
  ghost predicate OldestBatch(outbox: seq<Event>, limit: nat, batch: seq<nat>) {
    |batch| == Backlog(outbox) - Excess(Backlog(outbox), limit) &&
    (forall j, k :: 0 <= j < k < |batch| ==> batch[j] < batch[k]) &&
    (|batch| < limit ==> forall i :: 0 <= i < |outbox| && !outbox[i].processed ==> i in batch) &&
    (forall i, k :: 0 <= k < |batch| && 0 <= i < batch[k] < |outbox| && !outbox[i].processed ==> i in batch)
  }

  lemma {:induction false} BatchIsOldest(outbox: seq<Event>, limit: nat)
    ensures OldestBatch(outbox, limit, Unprocessed(outbox, limit))
  {
    if outbox != [] {
      BatchIsOldest(outbox[..|outbox| - 1], limit);
      BatchGrows(outbox, limit);
    }
  }

  lemma BatchGrows(outbox: seq<Event>, limit: nat)
    requires outbox != []
    requires OldestBatch(outbox[..|outbox| - 1], limit, Unprocessed(outbox[..|outbox| - 1], limit))
    ensures OldestBatch(outbox, limit, Unprocessed(outbox, limit))
  {
    var last := |outbox| - 1;
    var before := Unprocessed(outbox[..last], limit);
    var after := Unprocessed(outbox, limit);
    assert after == if !outbox[last].processed && |before| < limit then before + [last] else before;
    hide Unprocessed, OldestBatch, Backlog;
    BacklogGrows(outbox);
    if !outbox[last].processed && |before| < limit {
      Appended(outbox, limit, before);
    } else {
      NotAppended(outbox, limit, before);
    }
  }

  lemma NotAppended(outbox: seq<Event>, limit: nat, before: seq<nat>)
    requires outbox != [] && (outbox[|outbox| - 1].processed || limit <= |before|)
    requires OldestBatch(outbox[..|outbox| - 1], limit, before)
    requires forall k :: 0 <= k < |before| ==> before[k] < |outbox| - 1
    requires Backlog(outbox) == Backlog(outbox[..|outbox| - 1]) + if outbox[|outbox| - 1].processed then 0 else 1
    ensures OldestBatch(outbox, limit, before)
  {
    hide Backlog;
    var last := |outbox| - 1;
    var front := outbox[..last];
    assert forall i :: 0 <= i < last ==> front[i] == outbox[i];
  }

  lemma Appended(outbox: seq<Event>, limit: nat, before: seq<nat>)
    requires outbox != [] && !outbox[|outbox| - 1].processed && |before| < limit
    requires OldestBatch(outbox[..|outbox| - 1], limit, before)
    requires forall k :: 0 <= k < |before| ==> before[k] < |outbox| - 1
    requires Backlog(outbox) == Backlog(outbox[..|outbox| - 1]) + 1
    ensures OldestBatch(outbox, limit, before + [|outbox| - 1])
  {
    hide Backlog;
    var last := |outbox| - 1;
    var front, batch := outbox[..last], before + [last];
    forall i | 0 <= i < |outbox| && !outbox[i].processed
      ensures i in batch
    {
      if i < last {
        assert !front[i].processed;
        assert i in before;
      } else {
        assert batch[|before|] == last;
      }
    }
  }

  lemma BacklogGrows(outbox: seq<Event>)
    requires outbox != []
    ensures Backlog(outbox) == Backlog(outbox[..|outbox| - 1]) + if outbox[|outbox| - 1].processed then 0 else 1
  {
  }

  lemma StampedPrefix(outbox: seq<Event>, batch: seq<nat>, taken: bool)
    requires outbox != []
    requires forall k :: 0 <= k < |batch| ==> batch[k] < |outbox| - 1
    ensures var last := |outbox| - 1;
            Stamped(outbox, if taken then batch + [last] else batch) ==
            Stamped(outbox[..last], batch) +
            [if taken then outbox[last].(processed := true) else outbox[last]]
  {
  }

  /** One tick takes a full batch off the backlog, or all of it. */
  lemma {:induction false} TickDrains(outbox: seq<Event>, limit: nat)
    ensures Backlog(Stamped(outbox, Unprocessed(outbox, limit))) == Excess(Backlog(outbox), limit)
  {
    if outbox == [] {
      assert Stamped(outbox, Unprocessed(outbox, limit)) == [];
    } else {
      hide Stamped;
      var last := |outbox| - 1;
      var front := outbox[..last];
      var before := Unprocessed(front, limit);
      var taken := !outbox[last].processed && |before| < limit;
      TickDrains(front, limit);
      BatchIsOldest(front, limit);
      StampedPrefix(outbox, before, taken);
      var after := Stamped(outbox, Unprocessed(outbox, limit));
      assert after[..last] == Stamped(front, before);
    }
  }

  /** The outbox after `ticks` relay ticks with nothing arriving. */
  function Drained(outbox: seq<Event>, limit: nat, ticks: nat): seq<Event> {
    if ticks == 0 then outbox
    else var before := Drained(outbox, limit, ticks - 1); Stamped(before, Unprocessed(before, limit))
  }

  lemma {:induction false} BacklogAfter(outbox: seq<Event>, limit: nat, ticks: nat)
    ensures Backlog(Drained(outbox, limit, ticks)) == Excess(Backlog(outbox), ticks * limit)
  {
    hide Backlog, Stamped, Unprocessed;
    if ticks > 0 {
      BacklogAfter(outbox, limit, ticks - 1);
      TickDrains(Drained(outbox, limit, ticks - 1), limit);
      OneMore(ticks, limit);
    }
  }

  lemma OneMore(ticks: int, limit: int)
    ensures ticks * limit == (ticks - 1) * limit + limit
  {
  }

  /** A backlog of `n` is empty after exactly the ticks that `n` events fill, rounded up, and not before. */
  lemma DrainsInExactly(outbox: seq<Event>, limit: nat, ticks: nat)
    requires 0 < limit
    ensures Backlog(Drained(outbox, limit, ticks)) == 0 <==> (Backlog(outbox) + limit - 1) / limit <= ticks
  {
    hide Backlog, Drained;
    var n := Backlog(outbox);
    BacklogAfter(outbox, limit, ticks);
    RoundedUp(n, limit, ticks);
  }

  lemma RoundedUp(n: nat, limit: nat, ticks: nat)
    requires 0 < limit
    ensures n <= ticks * limit <==> (n + limit - 1) / limit <= ticks
  {
    var q := (n + limit - 1) / limit;
    assert n + limit - 1 == q * limit + (n + limit - 1) % limit;
    if q <= ticks {
      Product(q, ticks, limit);
    } else {
      Product(ticks + 1, q, limit);
      OneMore(ticks + 1, limit);
    }
  }

  lemma Product(a: nat, b: nat, c: nat)
    requires a <= b
    ensures a * c <= b * c
  {
  }

  // ------------------------------------------------------- at least once

  /** Every stamped event has been dispatched. */
  ghost predicate StampedWereSent(s: State) {
    forall i :: 0 <= i < |s.outbox| && s.outbox[i].processed ==> i in s.sent
  }

  lemma StepKeepsSent(cfg: Config, s: State, step: Step)
    requires StampedWereSent(s) && Enabled(cfg, s, step)
    ensures StampedWereSent(Apply(cfg, s, step))
  {
    hide ChunksFor, RowsBy, PointsBy, PointsExcept, RowsExcept, PointsFor, RowsFor, Dispatched, MessagesFor, WithStatus,
         Advance, InPhase;
    var s' := Apply(cfg, s, step);
    if step.Relay? {
      var batch := Unprocessed(s.outbox, cfg.relayBatch);
      assert s'.outbox == Stamped(s.outbox, batch);
      forall i | 0 <= i < |s'.outbox| && s'.outbox[i].processed
        ensures i in s'.sent
      {
        if i in batch {
          assert i in multiset(batch);
        }
      }
    } else {
      assert forall i :: 0 <= i < |s.outbox| ==> s'.outbox[i] == s.outbox[i];
      assert forall i :: |s.outbox| <= i < |s'.outbox| ==> !s'.outbox[i].processed;
      assert s.sent <= s'.sent;
    }
  }

  /** Over every run, with crashes anywhere: an event stamped processed was dispatched at least once. */
  lemma {:induction false} DeliveredAtLeastOnce(cfg: Config, s: State, steps: seq<Step>)
    requires StampedWereSent(s) && Valid(cfg, s, steps)
    ensures StampedWereSent(Run(cfg, s, steps))
    decreases |steps|
  {
    hide Apply, Enabled, StampedWereSent;
    if steps != [] {
      StepKeepsSent(cfg, s, steps[0]);
      DeliveredAtLeastOnce(cfg, Apply(cfg, s, steps[0]), steps[1..]);
    }
  }

  /** A relay that dies before its commit stamps nothing, and the next tick takes the same batch again. */
  lemma CrashRedelivers(cfg: Config, s: State, dispatched: nat)
    requires Enabled(cfg, s, RelayCrash(dispatched))
    ensures var crashed := Apply(cfg, s, RelayCrash(dispatched));
            var after := Apply(cfg, crashed, Relay);
            crashed.outbox == s.outbox && after.outbox == Apply(cfg, s, Relay).outbox &&
            forall k :: 0 <= k < |Unprocessed(s.outbox, cfg.relayBatch)| ==>
              after.sent[Unprocessed(s.outbox, cfg.relayBatch)[k]] >=
              s.sent[Unprocessed(s.outbox, cfg.relayBatch)[k]] + if k < dispatched then 2 else 1
  {
    var batch := Unprocessed(s.outbox, cfg.relayBatch);
    forall k | 0 <= k < |batch|
      ensures multiset(batch)[batch[k]] >= 1 && (k < dispatched ==> multiset(batch[..dispatched])[batch[k]] >= 1)
    {
      assert batch[k] in multiset(batch);
      if k < dispatched {
        assert batch[..dispatched][k] == batch[k];
        assert batch[k] in multiset(batch[..dispatched]);
      }
    }
  }
}
