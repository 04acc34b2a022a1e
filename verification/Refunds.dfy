/** Refund chains: every refund refers to an older payment of at least its amount. */
module Refunds {
  import opened Basics
  import opened Payments
  import opened Streams
  import opened Storage
  import opened EventStore
  import opened WriteSide

  predicate IsRefund(e: Event) {
    e.body.Created? && e.body.ptype == "refund"
  }

  /** log[j] is the creation the refund e refers to, of at least e's amount. */
  predicate Backs(e: Event, original: Event)
    requires IsRefund(e)
  {
    && original.body.Created? && e.body.reference == Some(original.paymentId)
    && e.body.amount <= original.body.amount
  }

  ghost predicate Backed(log: seq<StoreRow>, e: Event, before: nat) {
    IsRefund(e) ==> exists j: nat :: j < before && j < |log| && Backs(e, log[j].event)
  }

  ghost predicate RefundsBacked(log: seq<StoreRow>) {
    forall k :: 0 <= k < |log| ==> Backed(log, log[k].event, k)
  }

  ghost predicate PendingBacked(s: System) {
    forall c, i :: c in s.editing && 0 <= i < |s.editing[c].uncommitted| ==>
      Backed(s.db.eventStore, s.editing[c].uncommitted[i], |s.db.eventStore|)
  }

  lemma BackedOnLonger(log: seq<StoreRow>, more: seq<StoreRow>, e: Event, before: nat, later: nat)
    requires Backed(log, e, before) && before <= later
    ensures Backed(log + more, e, later)
  {
    if IsRefund(e) {
      var j: nat :| j < before && j < |log| && Backs(e, log[j].event);
      assert (log + more)[j] == log[j];
    }
  }

  /** What a refund's creation emits, in the terms of Backs. */
  lemma OpenedRefund(creation: Creation, paymentId: Id, eventId: Id, now: Time)
    requires Open(creation, paymentId, eventId, now).Ok?
    ensures var a := Open(creation, paymentId, eventId, now).value;
            && |a.uncommitted| == 1
            && (IsRefund(a.uncommitted[0]) ==>
                  creation.CreateRefund? && a.uncommitted[0].body.reference == Some(creation.originalId)
                  && a.uncommitted[0].body.amount == creation.amount)
  {
    TypeTextParses(TypeOf(creation));
    TypeTextParses(REFUND);
  }

  /** The original that the service loaded and checked is a row of the log. */
  lemma CheckedOriginalIsStored(log: seq<StoreRow>, creation: Creation, now: Time) returns (j: nat)
    requires StreamsOk(log) && creation.CreateRefund? && RefundCheck(log, creation, now).None?
    ensures j < |log| && log[j].event.body.Created? && log[j].event.paymentId == creation.originalId
    ensures creation.amount <= log[j].event.body.amount
  {
    var id := creation.originalId;
    var rows := RowsOf(log, id);
    assert StreamOk(rows, id);
    LoadIsFaithful(log, id, now);
    RowsOfMembers(log, id, rows[0]);
    j :| j < |log| && log[j] == rows[0];
    LegalBeginning(EventsIn(rows));
  }

  /** On a sound log a refund passes exactly when its original is stored and its amount at least the refund's. */
  lemma RefundCheckIs(log: seq<StoreRow>, c: Creation, now: Time)
    requires StreamsOk(log)
    ensures !c.CreateRefund? ==> RefundCheck(log, c, now) == None
    ensures c.CreateRefund? ==>
              var rows, check := RowsOf(log, c.originalId), RefundCheck(log, c, now);
              if rows == [] then check == Some(PaymentNotFound)
              else
                && rows[0].event.body.Created?
                && check == if c.amount > rows[0].event.body.amount then Some(RefundExceedsOriginal) else None
  {
    if c.CreateRefund? {
      var rows := RowsOf(log, c.originalId);
      assert StreamOk(rows, c.originalId);
      LoadIsFaithful(log, c.originalId, now);
      if rows != [] {
        LegalBeginning(EventsIn(rows));
      }
    }
  }

  lemma OpenedIsBacked(log: seq<StoreRow>, creation: Creation, paymentId: Id, eventId: Id, now: Time)
    requires StreamsOk(log) && RefundCheck(log, creation, now).None? && Open(creation, paymentId, eventId, now).Ok?
    ensures var events := Open(creation, paymentId, eventId, now).value.uncommitted;
            |events| == 1 && Backed(log, events[0], |log|)
  {
    OpenedRefund(creation, paymentId, eventId, now);
    var e := Open(creation, paymentId, eventId, now).value.uncommitted[0];
    if IsRefund(e) {
      var j := CheckedOriginalIsStored(log, creation, now);
      assert Backs(e, log[j].event);
    }
  }

  lemma CreateKeepsBacked(s: System, c: nat, creation: Creation, paymentId: Id, eventId: Id, now: Time)
    requires StreamsOk(s.db.eventStore) && PendingBacked(s)
    ensures PendingBacked(CreateStep(s, c, creation, paymentId, eventId, now))
  {
    if RefundCheck(s.db.eventStore, creation, now).None? && Open(creation, paymentId, eventId, now).Ok? {
      OpenedIsBacked(s.db.eventStore, creation, paymentId, eventId, now);
    }
  }

  lemma BackedEventsMayBeStored(log: seq<StoreRow>, more: seq<StoreRow>)
    requires RefundsBacked(log)
    requires forall k :: 0 <= k < |more| ==> Backed(log, more[k].event, |log|)
    ensures RefundsBacked(log + more)
  {
    forall k | 0 <= k < |log + more| ensures Backed(log + more, (log + more)[k].event, k) {
      if k < |log| {
        BackedOnLonger(log, more, log[k].event, k, k);
      } else {
        BackedOnLonger(log, more, more[k - |log|].event, |log|, k);
      }
    }
  }

  lemma PendingOnLonger(s: System, more: seq<StoreRow>, after: System)
    requires PendingBacked(s) && after.db.eventStore == s.db.eventStore + more
    requires forall d :: d in after.editing && after.editing[d].uncommitted != [] ==>
               d in s.editing && after.editing[d].uncommitted == s.editing[d].uncommitted
    ensures PendingBacked(after)
  {
    forall d, i | d in after.editing && 0 <= i < |after.editing[d].uncommitted|
      ensures Backed(after.db.eventStore, after.editing[d].uncommitted[i], |after.db.eventStore|)
    {
      BackedOnLonger(s.db.eventStore, more, s.editing[d].uncommitted[i], |s.db.eventStore|, |after.db.eventStore|);
    }
  }

  lemma SaveKeepsBacked(s: System, c: nat, stamps: seq<Stamp>, debug: bool)
    requires Sound(s) && RefundsBacked(s.db.eventStore) && PendingBacked(s)
    ensures RefundsBacked(SaveStep(s, c, stamps, debug).db.eventStore) && PendingBacked(SaveStep(s, c, stamps, debug))
  {
    if c in s.editing && |stamps| == |s.editing[c].uncommitted| {
      var a := s.editing[c];
      var r := Commit(s.db, debug, a, stamps);
      if r.Ok? {
        assert Builds(RowsOf(s.db.eventStore, a.core.paymentId), a);
        CommitIsAtTheEnd(s, a, stamps, debug);
        var more := NewRows(a.core.paymentId, a.version - |a.uncommitted|, a.uncommitted, stamps);
        forall k | 0 <= k < |more| ensures Backed(s.db.eventStore, more[k].event, |s.db.eventStore|) {
          assert more[k].event == s.editing[c].uncommitted[k];
        }
        BackedEventsMayBeStored(s.db.eventStore, more);
        PendingOnLonger(s, more, System(r.value, s.editing[c := a.(uncommitted := [])]));
      }
    }
  }

  lemma IssueKeepsBacked(s: System, c: nat, command: Command, eventId: Id, now: Time)
    requires PendingBacked(s)
    ensures PendingBacked(IssueStep(s, c, command, eventId, now))
  {
  }

  /** The steps that store nothing and open nothing. */
  lemma QuietStepKeepsBacked(s: System, step: Step, debug: bool)
    requires RefundsBacked(s.db.eventStore) && PendingBacked(s)
    requires step.Load? || step.Drop? || step.Rebuild? || step.Purge? || step.Touch?
    ensures RefundsBacked(Next(s, step, debug).db.eventStore) && PendingBacked(Next(s, step, debug))
  {
  }

  lemma StepKeepsBacked(s: System, step: Step, debug: bool)
    requires Sound(s) && RefundsBacked(s.db.eventStore) && PendingBacked(s)
    ensures RefundsBacked(Next(s, step, debug).db.eventStore) && PendingBacked(Next(s, step, debug))
  {
    match step {
      case Create(c, creation, paymentId, eventId, now) => CreateKeepsBacked(s, c, creation, paymentId, eventId, now);
      case IssueTo(c, command, eventId, now) => IssueKeepsBacked(s, c, command, eventId, now);
      case Save(c, stamps) => SaveKeepsBacked(s, c, stamps, debug);
      case _ => QuietStepKeepsBacked(s, step, debug);
    }
  }

  lemma {:induction false} EveryRefundIsBacked(steps: seq<Step>, debug: bool)
    ensures RefundsBacked(Run(steps, debug).db.eventStore) && PendingBacked(Run(steps, debug))
  {
    if steps != [] {
      EveryRefundIsBacked(steps[..|steps| - 1], debug);
      EveryRunIsSound(steps[..|steps| - 1], debug);
      StepKeepsBacked(Run(steps[..|steps| - 1], debug), steps[|steps| - 1], debug);
    }
  }

  /** A chain of references, each to an earlier row, amounts never decreasing, ending at a non-refund. */
  ghost predicate Chain(log: seq<StoreRow>, path: seq<nat>) {
    && path != []
    && (forall i :: 0 <= i < |path| ==> path[i] < |log| && log[path[i]].event.body.Created?)
    && (forall i :: 0 <= i < |path| - 1 ==>
          path[i + 1] < path[i] && IsRefund(log[path[i]].event) && Backs(log[path[i]].event, log[path[i + 1]].event))
    && !IsRefund(log[path[|path| - 1]].event)
  }

  lemma {:induction false} ChainFrom(log: seq<StoreRow>, k: nat) returns (path: seq<nat>)
    requires RefundsBacked(log) && k < |log| && log[k].event.body.Created?
    ensures Chain(log, path) && path[0] == k
    ensures |path| <= k + 1
  {
    if IsRefund(log[k].event) {
      assert Backed(log, log[k].event, k);
      var j: nat :| j < k && j < |log| && Backs(log[k].event, log[j].event);
      var rest := ChainFrom(log, j);
      path := [k] + rest;
      forall i | 0 <= i < |path| - 1
        ensures path[i + 1] < path[i] && IsRefund(log[path[i]].event) && Backs(log[path[i]].event, log[path[i + 1]].event)
      {
        assert i > 0 ==> path[i] == rest[i - 1] && path[i + 1] == rest[i];
      }
    } else {
      path := [k];
    }
  }

  /** From any stored payment, following references reaches a payment that is no refund. */
  lemma ReferencesReachAPayment(steps: seq<Step>, debug: bool, k: nat) returns (path: seq<nat>)
    requires k < |Run(steps, debug).db.eventStore| && Run(steps, debug).db.eventStore[k].event.body.Created?
    ensures Chain(Run(steps, debug).db.eventStore, path) && path[0] == k
    ensures |path| <= k + 1
  {
    EveryRefundIsBacked(steps, debug);
    path := ChainFrom(Run(steps, debug).db.eventStore, k);
  }
}
