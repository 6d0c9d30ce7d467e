/** No committed task is lost, whatever the relays, crashes and operators do. */
module NoLoss {
  import opened Types
  import opened Engine
  import opened Mutations
  import opened Selector
  import opened Replay
  import opened Protocol

  /** A stored payload is the one that was enqueued under its ticket. */
  ghost predicate Original(enqueued: map<nat, Payload>, p: Payload) {
    p.ticket in enqueued && enqueued[p.ticket] == p
  }

  ghost predicate TablesOriginal(enqueued: map<nat, Payload>, t: Tables) {
    && (forall id :: id in t.outbox ==> Original(enqueued, t.outbox[id].payload))
    && (forall id :: id in t.dead ==> Original(enqueued, t.dead[id].payload))
  }

  ghost predicate CopiesOriginal(enqueued: map<nat, Payload>, h: RelayState) {
    h.Holding? ==> forall i :: 0 <= i < |h.batch| ==> Original(enqueued, h.batch[i].payload)
  }

  ghost predicate PayloadsIntact(s: State) {
    && (forall ticket :: ticket in s.enqueued ==> s.enqueued[ticket].ticket == ticket)
    && TablesOriginal(s.enqueued, s.tables)
    && (forall r :: 0 <= r < |s.relays| ==> CopiesOriginal(s.enqueued, s.relays[r]))
  }

  ghost predicate InOutbox(t: Tables, ticket: nat) {
    exists id :: id in t.outbox && t.outbox[id].payload.ticket == ticket
  }

  ghost predicate InDead(t: Tables, ticket: nat) {
    exists id :: id in t.dead && t.dead[id].payload.ticket == ticket
  }

  ghost predicate Stored(t: Tables, ticket: nat) {
    InOutbox(t, ticket) || InDead(t, ticket)
  }

  ghost predicate AccountedFor(s: State, ticket: nat) {
    Stored(s.tables, ticket) || ticket in s.accepted || ticket in s.purged
  }

  /** A relay believes a send succeeded only if the broker took it. */
  ghost predicate BeliefsTrue(s: State) {
    forall r, i :: 0 <= r < |s.relays| && s.relays[r].Holding? && 0 <= i < |s.relays[r].batch| ==>
      var h := s.relays[r]; var m := h.batch[i];
      m.id in h.attempts && h.attempts[m.id].Accepted? ==> m.payload.ticket in s.accepted
  }

  ghost predicate Kept(s: State) {
    && Consistent(s)
    && PayloadsIntact(s)
    && BeliefsTrue(s)
    && forall ticket :: ticket in s.enqueued ==> AccountedFor(s, ticket)
  }

  // ---- One action -----------------------------------------------------------------------------

  lemma TablesStayOriginal(cfg: Config, s: State, a: Action, t': Tables)
    requires Can(cfg, s, a) && Kept(s) && StepEffect(cfg, s, a, t')
    ensures !a.Enqueue? ==> TablesOriginal(s.enqueued, t')
  {
    match a
    case Commit(r, l, _) => CommitPayloads(cfg, s.enqueued, s.tables, s.relays[r], l, s.now, t');
    case ReplayDead(_, _) => ReplayPayloads(s.enqueued, s.tables, s.now, t');
    case _ =>
  }

  lemma CommitPayloads(cfg: Config, enqueued: map<nat, Payload>, t: Tables, h: RelayState, l: Lists, now: real,
                       t': Tables)
    requires t.Valid() && TablesOriginal(enqueued, t) && CopiesOriginal(enqueued, h)
             && CommitEffect(cfg, t, h, l, now, t')
    ensures TablesOriginal(enqueued, t')
  {
    forall id | id in t'.dead ensures Original(enqueued, t'.dead[id].payload) {
      if id !in t.dead { assert BuriesOneOf(h.batch, l, now, t'.dead[id]); }
    }
    forall id | id in t'.outbox ensures Original(enqueued, t'.outbox[id].payload) {
      assert RowSettled(cfg, l, now, t.outbox[id], t'.outbox[id]);
    }
  }

  lemma ReplayPayloads(enqueued: map<nat, Payload>, t: Tables, now: real, t': Tables)
    requires TablesOriginal(enqueued, t) && ReplayEffect(t, now, t')
    ensures TablesOriginal(enqueued, t')
  {
    forall id | id in t'.outbox ensures Original(enqueued, t'.outbox[id].payload) {
      if id !in t.outbox { assert ComesBack(t, t', now, id); }
    }
  }

  lemma StepPayloads(cfg: Config, s: State, a: Action)
    requires cfg.Valid() && Can(cfg, s, a) && Kept(s)
    ensures PayloadsIntact(Do(cfg, s, a))
  {
    var s' := Do(cfg, s, a);
    StepHasEffect(cfg, s, a);
    TablesStayOriginal(cfg, s, a, s'.tables);
    if a.Enqueue? {
      assert TablesOriginal(s'.enqueued, s'.tables);
    }
    StepCopies(cfg, s, a);
  }

  lemma StepCopies(cfg: Config, s: State, a: Action)
    requires Can(cfg, s, a) && Kept(s)
    ensures var s' := Do(cfg, s, a); forall r :: 0 <= r < |s'.relays| ==> CopiesOriginal(s'.enqueued, s'.relays[r])
  {
    var s' := Do(cfg, s, a);
    if a.Claim? { SelectedAreTheOldestFree(s.tables, a.locked, cfg.staleTimeout, s.now, cfg.batchSize); }
    forall r | 0 <= r < |s'.relays| ensures CopiesOriginal(s'.enqueued, s'.relays[r]) {
      assert CopiesOriginal(s.enqueued, s.relays[r]);
    }
  }

  lemma StepBeliefs(cfg: Config, s: State, a: Action)
    requires Can(cfg, s, a) && Kept(s)
    ensures BeliefsTrue(Do(cfg, s, a))
  {
    var s' := Do(cfg, s, a);
    forall r, i | 0 <= r < |s'.relays| && s'.relays[r].Holding? && 0 <= i < |s'.relays[r].batch|
      ensures var h := s'.relays[r]; var m := h.batch[i];
              m.id in h.attempts && h.attempts[m.id].Accepted? ==> m.payload.ticket in s'.accepted
    {
      if a.Publish? && a.relay == r {
        var h := s.relays[r];
        assert i != a.index ==> h.batch[i].id != h.batch[a.index].id by { IncreasingIsUnique(h.batch); }
      }
    }
  }

  /** A row that a commit removes was either published or is now a dead letter. */
  lemma RemovedRowStored(cfg: Config, t: Tables, h: RelayState, l: Lists, now: real, t': Tables, id: nat)
      returns (i: nat)
    requires CopiesFit(t, h) && CommitEffect(cfg, t, h, l, now, t') && Lawful(cfg, h.batch, h.attempts, l)
    requires id in t.outbox && id !in t'.outbox
    ensures i < |h.batch| && h.batch[i].id == id && h.batch[i].payload == t.outbox[id].payload
    ensures (id in h.attempts && h.attempts[id].Accepted?) || InDead(t', t.outbox[id].payload.ticket)
  {
    IncreasingIsUnique(h.batch);
    OneList(cfg, h.batch, h.attempts, l, id);
    assert id in Classified(l);
    var m :| m in h.batch && m.id == id;
    i :| 0 <= i < |h.batch| && h.batch[i] == m;
    assert CopyFits(t, h.batch[i]);
    LawfulReadsBack(cfg, h.batch, h.attempts, l, m);
    if id !in l.published {
      assert LiesIn(t'.dead, m, now);
      var d :| d in t'.dead && t'.dead[d] == Buried(m, d, now);
      assert t'.dead[d].payload.ticket == t.outbox[id].payload.ticket;
    }
  }

  lemma CommitStores(cfg: Config, s: State, r: nat, l: Lists, t': Tables, ticket: nat)
    requires Kept(s) && Holds(s, r) && Lawful(cfg, s.relays[r].batch, s.relays[r].attempts, l)
    requires CommitEffect(cfg, s.tables, s.relays[r], l, s.now, t') && Stored(s.tables, ticket)
    ensures Stored(t', ticket) || ticket in s.accepted
  {
    var t, h := s.tables, s.relays[r];
    if InOutbox(t, ticket) {
      var id :| id in t.outbox && t.outbox[id].payload.ticket == ticket;
      if id in t'.outbox {
        assert RowSettled(cfg, l, s.now, t.outbox[id], t'.outbox[id]);
        assert t'.outbox[id].payload.ticket == ticket;
      } else {
        assert CopiesFit(t, h);
        var i := RemovedRowStored(cfg, t, h, l, s.now, t', id);
        assert h.batch[i].payload.ticket == ticket;
      }
    } else {
      var d :| d in t.dead && t.dead[d].payload.ticket == ticket;
      assert t'.dead[d].payload.ticket == ticket;
    }
  }

  lemma ReplayedStored(t: Tables, now: real, t': Tables, d: nat)
    requires d in t.dead && Reappears(t, t', now, d)
    ensures InOutbox(t', t.dead[d].payload.ticket)
  {
    var id :| t.nextRow <= id < t'.nextRow && id in t'.outbox
      && t'.outbox[id] == Row(id, now, None, 0, None, t.dead[d].payload);
    assert t'.outbox[id].payload.ticket == t.dead[d].payload.ticket;
  }

  lemma ReplayStores(t: Tables, now: real, t': Tables, ticket: nat)
    requires ReplayEffect(t, now, t') && Stored(t, ticket)
    ensures Stored(t', ticket)
  {
    if InOutbox(t, ticket) {
      var id :| id in t.outbox && t.outbox[id].payload.ticket == ticket;
      assert t'.outbox[id].payload.ticket == ticket;
    } else {
      var d :| d in t.dead && t.dead[d].payload.ticket == ticket;
      if d in t'.dead {
        assert t'.dead[d].payload.ticket == ticket;
      } else {
        ReplayedStored(t, now, t', d);
      }
    }
  }

  /** The other actions keep every stored task stored, except that a purge records it. */
  lemma OtherStores(cfg: Config, s: State, a: Action, t': Tables, ticket: nat)
    requires Kept(s) && Can(cfg, s, a) && !a.Commit? && !a.ReplayDead?
    requires StepEffect(cfg, s, a, t') && Stored(s.tables, ticket)
    ensures Stored(t', ticket)
            || (&& a.Purge?
                && exists d :: d in s.tables.dead && d in a.ids && s.tables.dead[d].payload.ticket == ticket)
  {
    var t := s.tables;
    if InOutbox(t, ticket) {
      var id :| id in t.outbox && t.outbox[id].payload.ticket == ticket;
      assert id in t'.outbox && t'.outbox[id].payload.ticket == ticket;
    } else {
      var d :| d in t.dead && t.dead[d].payload.ticket == ticket;
      if !(a.Purge? && d in a.ids) {
        assert t'.dead[d].payload.ticket == ticket;
      }
    }
  }

  lemma StepAccounts(cfg: Config, s: State, a: Action, ticket: nat)
    requires cfg.Valid() && Can(cfg, s, a) && Kept(s) && ticket in Do(cfg, s, a).enqueued
    ensures AccountedFor(Do(cfg, s, a), ticket)
  {
    var s' := Do(cfg, s, a);
    StepHasEffect(cfg, s, a);
    if a.Enqueue? && a.payload.ticket == ticket {
      assert s'.tables.outbox[s.tables.nextRow].payload.ticket == ticket;
    } else {
      assert AccountedFor(s, ticket);
      if Stored(s.tables, ticket) {
        match a
        case Commit(r, l, _) => CommitStores(cfg, s, r, l, s'.tables, ticket);
        case ReplayDead(_, _) => ReplayStores(s.tables, s.now, s'.tables, ticket);
        case _ => OtherStores(cfg, s, a, s'.tables, ticket);
      }
    }
  }

  lemma StepKept(cfg: Config, s: State, a: Action)
    requires cfg.Valid() && Can(cfg, s, a) && Kept(s)
    ensures Kept(Do(cfg, s, a))
  {
    StepConsistent(cfg, s, a);
    StepPayloads(cfg, s, a);
    StepBeliefs(cfg, s, a);
    forall ticket | ticket in Do(cfg, s, a).enqueued ensures AccountedFor(Do(cfg, s, a), ticket) {
      StepAccounts(cfg, s, a, ticket);
    }
  }

  lemma {:induction false} RunKept(cfg: Config, s: State, run: seq<Action>)
    requires cfg.Valid() && Kept(s) && CanAll(cfg, s, run)
    ensures Kept(DoAll(cfg, s, run))
    decreases |run|
  {
    if run != [] {
      StepKept(cfg, s, run[0]);
      RunKept(cfg, Do(cfg, s, run[0]), run[1..]);
    }
  }

  /** In every run of any number of relays, with crashes, rolled-back second transactions,
      stale claims, resets, replays and purges in any order: every task ever committed to
      the outbox is in the outbox, among the dead letters, accepted by the broker or
      purged, and every stored copy still has exactly the payload that was enqueued. */
  lemma NoTaskIsLost(cfg: Config, k: nat, now: real, run: seq<Action>)
    requires cfg.Valid() && CanAll(cfg, Start(k, now), run)
    ensures var s := DoAll(cfg, Start(k, now), run);
            && PayloadsIntact(s)
            && forall ticket :: ticket in s.enqueued ==> AccountedFor(s, ticket)
  {
    StartConsistent(k, now);
    RunKept(cfg, Start(k, now), run);
  }
}
