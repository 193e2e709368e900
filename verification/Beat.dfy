/** The two scheduled jobs: the outbox relay tick and the stuck-document sweep. */
module Beat {
  import opened Ingestion
  import opened Pipeline
  import opened Sequences
  import opened Shared
  import opened StepLaws

  /** The oldest unprocessed events, up to the limit. */
  method FetchUnprocessed(outbox: seq<Event>, limit: nat) returns (batch: seq<nat>)
    ensures batch == Unprocessed(outbox, limit)
  {
    batch := [];
    for i := 0 to |outbox|
      invariant batch == Unprocessed(outbox[..i], limit)
    {
      if !outbox[i].processed && |batch| < limit {
        batch := batch + [i];
      }
      assert outbox[..i + 1][..i] == outbox[..i];
    }
    TakeAll(outbox);
  }

  /** Dispatching one more event of a batch. */
  lemma DispatchNext(outbox: seq<Event>, batch: seq<nat>, i: nat)
    requires i < |batch| && forall k :: 0 <= k < |batch| ==> batch[k] < |outbox|
    ensures var event := outbox[batch[i]];
            Dispatched(outbox, batch[..i + 1]) ==
            Dispatched(outbox, batch[..i]) +
            if event.kind == DocumentUploaded then multiset{Message(event.document, event.owner, 0)} else multiset{}
    ensures multiset(batch[..i + 1]) == multiset(batch[..i]) + multiset{batch[i]}
    ensures Stamped(outbox, batch[..i + 1]) ==
            Stamped(outbox, batch[..i])[batch[i] := outbox[batch[i]].(processed := true)]
  {
    hide Stamped;
    assert batch[..i + 1][..i] == batch[..i];
    assert batch[..i + 1] == batch[..i] + [batch[i]];
    StampNext(outbox, batch[..i], batch[i]);
  }

  lemma StampNext(outbox: seq<Event>, before: seq<nat>, next: nat)
    requires next < |outbox|
    ensures Stamped(outbox, before + [next]) == Stamped(outbox, before)[next := outbox[next].(processed := true)]
  {
    assert forall i :: i in before + [next] <==> i in before || i == next;
  }

  lemma NothingDispatched(outbox: seq<Event>)
    ensures Stamped(outbox, []) == outbox && Dispatched(outbox, []) == multiset{}
  {
  }

  /**
   One relay tick: dispatch each event, stamp it in the open transaction, commit at the end. The process dies after
   `lifetime` dispatches if it does not get further; then nothing is stamped.
   */
  method RelayTick(stores: Stores, cfg: Config, lifetime: nat) returns (count: nat)
    modifies stores
    ensures var batch := Unprocessed(old(stores.outbox), cfg.relayBatch);
            var step := if lifetime <= |batch| then RelayCrash(lifetime) else Relay;
            Enabled(cfg, old(stores.Snapshot()), step) &&
            stores.Snapshot() == Apply(cfg, old(stores.Snapshot()), step) &&
            (lifetime > |batch| ==> count == |batch|)
  {
    hide Stamped, Dispatched, Unprocessed;
    var batch := FetchUnprocessed(stores.outbox, cfg.relayBatch);
    var taken, staged := DispatchBatch(stores, batch, lifetime);
    if lifetime <= |batch| {
      return taken;
    }
    TakeAll(batch);
    stores.outbox := staged;
    return |batch|;
  }

  /** The relay's loop; the stamps stay in the open transaction. */
  method DispatchBatch(stores: Stores, batch: seq<nat>, lifetime: nat) returns (taken: nat, staged: seq<Event>)
    requires forall k :: 0 <= k < |batch| ==> batch[k] < |stores.outbox|
    modifies stores`queue, stores`sent
    ensures taken == if lifetime <= |batch| then lifetime else |batch|
    ensures staged == Stamped(stores.outbox, batch[..taken])
    ensures stores.queue == old(stores.queue) + Dispatched(stores.outbox, batch[..taken])
    ensures stores.sent == old(stores.sent) + multiset(batch[..taken])
  {
    hide Stamped, Dispatched;
    staged, taken := stores.outbox, 0;
    assert batch[..0] == [];
    NothingDispatched(staged);
    while taken < |batch| && taken < lifetime
      invariant 0 <= taken <= |batch| && taken <= lifetime
      invariant staged == Stamped(stores.outbox, batch[..taken])
      invariant stores.queue == old(stores.queue) + Dispatched(stores.outbox, batch[..taken])
      invariant stores.sent == old(stores.sent) + multiset(batch[..taken])
    {
      var event := stores.outbox[batch[taken]];
      DispatchNext(stores.outbox, batch, taken);
      if event.kind == DocumentUploaded {
        stores.queue := stores.queue + multiset{Message(event.document, event.owner, 0)};
      }
      stores.sent := stores.sent + multiset{batch[taken]};
      staged := staged[batch[taken] := event.(processed := true)];
      taken := taken + 1;
    }
  }

  /** Documents in a stuck status that nothing has touched since the cutoff. */
  function StuckSince(documents: map<DocumentId, Document>, updatedAt: map<DocumentId, int>, cutoff: int):
    set<DocumentId>
    requires documents.Keys <= updatedAt.Keys
  {
    set d | d in documents && StuckStatus(documents[d].status) && updatedAt[d] < cutoff
  }

  /** The document is pending or processing and was last touched before the threshold's length ago. */
  predicate Overdue(documents: map<DocumentId, Document>, updatedAt: map<DocumentId, int>, d: DocumentId, now: int,
                    threshold: int)
  {
    d in documents && d in updatedAt && documents[d].status != Indexed && documents[d].status != Failed &&
    threshold < now - updatedAt[d]
  }

  lemma StuckIsOverdue(documents: map<DocumentId, Document>, updatedAt: map<DocumentId, int>, now: int, threshold: int,
                       d: DocumentId)
    requires documents.Keys <= updatedAt.Keys
    ensures d in StuckSince(documents, updatedAt, now - threshold) <==> Overdue(documents, updatedAt, d, now, threshold)
  {
  }

  /** One fresh message for every overdue document and no other, and as many as `count`. */
  ghost predicate Swept(s: State, updatedAt: map<DocumentId, int>, now: int, threshold: int, queue: multiset<Message>,
                        count: nat)
  {
    (forall m: Message :: queue[m] ==
      s.queue[m] + if Overdue(s.documents, updatedAt, m.document, now, threshold) &&
                      m == Message(m.document, s.documents[m.document].owner, 0) then 1 else 0) &&
    count == |set d | d in s.documents && Overdue(s.documents, updatedAt, d, now, threshold)|
  }

  lemma SweepIs(cfg: Config, s: State, updatedAt: map<DocumentId, int>, now: int, threshold: int)
    requires s.documents.Keys <= updatedAt.Keys
    ensures var stuck := StuckSince(s.documents, updatedAt, now - threshold);
            Enabled(cfg, s, Sweep(stuck)) &&
            Swept(s, updatedAt, now, threshold, Apply(cfg, s, Sweep(stuck)).queue, |stuck|) &&
            Apply(cfg, s, Sweep(stuck)) == s.(queue := s.queue + MessagesFor(s.documents, stuck))
  {
    hide Apply, Overdue, MessagesFor;
    var stuck := StuckSince(s.documents, updatedAt, now - threshold);
    SweepApplied(cfg, s, stuck);
    forall d
      ensures d in stuck <==> Overdue(s.documents, updatedAt, d, now, threshold)
    {
      StuckIsOverdue(s.documents, updatedAt, now, threshold, d);
    }
    assert stuck == set d | d in s.documents && Overdue(s.documents, updatedAt, d, now, threshold);
    forall m: Message
      ensures Apply(cfg, s, Sweep(stuck)).queue[m] ==
              s.queue[m] + if Overdue(s.documents, updatedAt, m.document, now, threshold) &&
                              m == Message(m.document, s.documents[m.document].owner, 0) then 1 else 0
    {
      SweepQueues(cfg, s, stuck, m);
    }
  }

  lemma SweepApplied(cfg: Config, s: State, stuck: set<DocumentId>)
    requires stuck <= s.documents.Keys && forall d :: d in stuck ==> StuckStatus(s.documents[d].status)
    ensures Enabled(cfg, s, Sweep(stuck))
    ensures Apply(cfg, s, Sweep(stuck)) == s.(queue := s.queue + MessagesFor(s.documents, stuck))
  {
  }

  /** One sweep: a fresh message for every stuck document, no other message, and as many as it says. */
  method SweepTick(stores: Stores, cfg: Config, updatedAt: map<DocumentId, int>, now: int, threshold: int)
    returns (count: nat)
    requires stores.documents.Keys <= updatedAt.Keys
    modifies stores
    ensures var stuck := StuckSince(old(stores.documents), updatedAt, now - threshold);
            Enabled(cfg, old(stores.Snapshot()), Sweep(stuck)) && count == |stuck| &&
            stores.Snapshot() == Apply(cfg, old(stores.Snapshot()), Sweep(stuck))
    ensures Swept(old(stores.Snapshot()), updatedAt, now, threshold, stores.queue, count)
  {
    SweepIs(cfg, stores.Snapshot(), updatedAt, now, threshold);
    hide Swept, Apply, Enabled, MessagesFor;
    var stuck := StuckSince(stores.documents, updatedAt, now - threshold);
    DispatchStuck(stores, stuck);
    return |stuck|;
  }

  /** The sweep's loop. */
  method DispatchStuck(stores: Stores, stuck: set<DocumentId>)
    requires stuck <= stores.documents.Keys
    modifies stores`queue
    ensures stores.queue == old(stores.queue) + MessagesFor(stores.documents, stuck)
  {
    hide MessagesFor;
    ghost var served: set<DocumentId> := {};
    var waiting := stuck;
    NoMessages(stores.documents);
    while waiting != {}
      invariant waiting <= stuck && served == stuck - waiting
      invariant stores.queue == old(stores.queue) + MessagesFor(stores.documents, served)
      decreases waiting
    {
      var d :| d in waiting;
      OneMoreMessage(stores.documents, served, d);
      stores.queue := stores.queue + multiset{Message(d, stores.documents[d].owner, 0)};
      waiting, served := waiting - {d}, served + {d};
    }
    assert served == stuck;
  }

  lemma NoMessages(documents: map<DocumentId, Document>)
    ensures MessagesFor(documents, {}) == multiset{}
  {
  }

  lemma OneMoreMessage(documents: map<DocumentId, Document>, served: set<DocumentId>, d: DocumentId)
    requires served <= documents.Keys && d in documents && d !in served
    ensures MessagesFor(documents, served + {d}) ==
            MessagesFor(documents, served) + multiset{Message(d, documents[d].owner, 0)}
  {
    assert (set e | e in served + {d} :: Message(e, documents[e].owner, 0)) ==
           (set e | e in served :: Message(e, documents[e].owner, 0)) + {Message(d, documents[d].owner, 0)};
  }
}
