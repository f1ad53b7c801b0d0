/** What a run of Payment Service says step by step, and what its tables and messages show for it. */
module PaymentLabels {
  import opened Basics
  import opened Payments
  import opened PaymentFlow

  // ------------------------------------------------------------------- events

  function Sent(run: seq<Step>): seq<OrderCreated> {
    if run == [] then []
    else (if run[0].Publish? then [run[0].event] else []) + Sent(run[1..])
  }

  lemma {:induction false} EventsRun(s: State, run: seq<Step>)
    requires Legal(s, run)
    ensures Run(s, run).events == s.events + Sent(run)
    decreases |run|
  {
    if run != [] {
      EventsRun(Apply(s, run[0]), run[1..]);
    }
  }

  /** The events there are to handle are those that were published, in order. */
  lemma EventsByLabels(s: State, run: seq<Step>)
    requires Initial(s) && Legal(s, run)
    ensures Run(s, run).events == Sent(run)
  {
    EventsRun(s, run);
  }

  // ------------------------------------------------------------ what is over

  predicate Asks(step: Step, i: nat) { step.AskGateway? && step.worker == i }
  predicate Saves(step: Step, i: nat) { step.Save? && step.worker == i }
  predicate Announces(step: Step, i: nat) { step.Announce? && step.worker == i }

  /** A worker past a stage does not come back to it. */
  lemma {:induction false} PastAsking(s: State, run: seq<Step>, i: nat)
    requires Legal(s, run) && i < |s.workers| && !s.workers[i].phase.AtGateway?
    ensures forall q :: 0 <= q < |run| ==> !Asks(run[q], i)
    decreases |run|
  {
    if run != [] {
      PastAsking(Apply(s, run[0]), run[1..], i);
      assert forall q :: 1 <= q < |run| ==> run[q] == run[1..][q - 1];
    }
  }

  lemma {:induction false} PastSaving(s: State, run: seq<Step>, i: nat)
    requires Legal(s, run) && i < |s.workers| && (s.workers[i].phase.Announcing? || s.workers[i].phase.Finished?)
    ensures forall q :: 0 <= q < |run| ==> !Asks(run[q], i) && !Saves(run[q], i)
    decreases |run|
  {
    if run != [] {
      PastSaving(Apply(s, run[0]), run[1..], i);
      assert forall q :: 1 <= q < |run| ==> run[q] == run[1..][q - 1];
    }
  }

  /** A worker that has crashed or returned does nothing any more. */
  lemma {:induction false} FinishedIsOver(s: State, run: seq<Step>, i: nat)
    requires Legal(s, run) && i < |s.workers| && s.workers[i].phase.Finished?
    ensures forall q :: 0 <= q < |run| ==> !Asks(run[q], i) && !Saves(run[q], i) && !Announces(run[q], i)
    decreases |run|
  {
    if run != [] {
      FinishedIsOver(Apply(s, run[0]), run[1..], i);
      assert forall q :: 1 <= q < |run| ==> run[q] == run[1..][q - 1];
    }
  }

  /** So does a callback. */
  lemma {:induction false} DoneIsOver(s: State, run: seq<Step>, v: nat)
    requires Legal(s, run) && v < |s.verifiers| && s.verifiers[v].phase.Done?
    ensures forall q :: 0 <= q < |run| && (run[q].Decide? || run[q].Store? || run[q].Tell?) ==> run[q].verifier != v
    decreases |run|
  {
    if run != [] {
      DoneIsOver(Apply(s, run[0]), run[1..], v);
      assert forall q :: 1 <= q < |run| ==> run[q] == run[1..][q - 1];
    }
  }

  lemma CrashAndAbandonEnd(s: State, step: Step)
    requires Enabled(s, step) && (step.Crash? || step.Abandon? || step.Announce? || step.Tell?)
    ensures step.Crash? || step.Announce? ==> Apply(s, step).workers[step.worker].phase.Finished?
    ensures step.Abandon? || step.Tell? ==> Apply(s, step).verifiers[step.verifier].phase.Done?
  {
  }

  // ---------------------------------------------------------- one gateway request

  /** For each payment the gateway is asked at most once in a run. */
  lemma {:induction false} AskedOnceByLabels(s: State, run: seq<Step>, i: nat, p: nat, q: nat)
    requires Legal(s, run) && p < q < |run| && Asks(run[p], i)
    ensures !Asks(run[q], i)
    decreases |run|
  {
    if p == 0 {
      PastAsking(Apply(s, run[0]), run[1..], i);
      assert run[q] == run[1..][q - 1];
    } else {
      AskedOnceByLabels(Apply(s, run[0]), run[1..], i, p - 1, q - 1);
    }
  }

  // -------------------------------------------------------------- stored failures

  /** What a worker and its row are, before the worker has saved anything. */
  predicate Unsaved(w: Worker, row: Payment) {
    && (w.phase.AtGateway? || w.phase.SavingFailure? ==>
          && Valid(w.local) && w.local.gatewayRef == None
          && row.status == Pending && row.gatewayRef == None)
    && (w.phase.AtGateway? ==> w.local.status == Pending)
    && (w.phase.SavingFailure? ==> w.local.status == Failed)
    && (w.phase.SavingAuthority? ==> w.local.status == Awaiting)
  }

  ghost predicate Sound(s: State) {
    && TableOk(s.payments) && s.verifiers == [] && |s.workers| == |s.payments|
    && (forall i :: 0 <= i < |s.payments| ==> s.payments[i].authority == None && Unsaved(s.workers[i], s.payments[i]))
  }

  predicate SavesFailure(s: State, step: Step, i: nat) {
    step == Save(i, true) && i < |s.workers| && s.workers[i].phase.SavingFailure?
  }

  /** A refused payment can be stored as failed. */
  lemma FailureIsSaved(t: Table, i: nat, p: Payment)
    requires TableOk(t) && i < |t| && t[i].status == Pending && t[i].gatewayRef == None
    requires Valid(p) && p.status == Failed && p.gatewayRef == None
    ensures UpdateFromPending(t, i, p).Ok? && UpdateFromPending(t, i, p).value[i].status == Failed
  {
    var row := t[i].(status := p.status, gatewayName := p.gatewayName, gatewayRef := p.gatewayRef, reason := p.reason);
    var t' := t[i := row];
    assert forall j :: 0 <= j < |t| ==> t'[j].order == t[j].order && (Active(t'[j].status) ==> Active(t[j].status));
    assert forall j :: 0 <= j < |t| && t'[j].gatewayRef.Some? ==> t'[j] == t[j];
    assert TableOk(t');
  }

  lemma SaveStep(s: State, w: nat, dbOk: bool)
    requires Sound(s) && Enabled(s, Save(w, dbOk))
    ensures Sound(Apply(s, Save(w, dbOk)))
    ensures var s' := Apply(s, Save(w, dbOk));
      && (forall i :: 0 <= i < |s.payments| && i != w ==> s'.payments[i] == s.payments[i])
      && s'.payments[w].status == (if SavesFailure(s, Save(w, dbOk), w) then Failed else s.payments[w].status)
  {
    var local := s.workers[w].local;
    assert Unsaved(s.workers[w], s.payments[w]);
    if s.workers[w].phase.SavingFailure? {
      FailureIsSaved(s.payments, w, local);
    } else {
      AwaitingIsRefused(s.payments, w, local);
    }
  }

  lemma InsertStep(s: State, e: nat)
    requires Sound(s) && e < |s.events| && Inserts(s, e)
    ensures Sound(Apply(s, Handle(e, true)))
    ensures var s' := Apply(s, Handle(e, true));
      |s'.payments| == |s.payments| + 1 && s.payments <= s'.payments && s'.payments[|s.payments|].status == Pending
  {
    var s' := Apply(s, Handle(e, true));
    assert s'.payments == s.payments + [s'.payments[|s.payments|]];
  }

  predicate IsFailed(s: State, i: nat) { i < |s.payments| && s.payments[i].status == Failed }

  lemma StepSound(s: State, step: Step, i: nat)
    requires Sound(s) && Enabled(s, step)
    ensures Sound(Apply(s, step))
    ensures IsFailed(Apply(s, step), i) <==> IsFailed(s, i) || SavesFailure(s, step, i)
  {
    if step.Save? {
      SaveStep(s, step.worker, step.dbOk);
    } else if step.Handle? && step.dbOk && Inserts(s, step.e) {
      InsertStep(s, step.e);
    } else if step.AskGateway? {
      assert Unsaved(s.workers[step.worker], s.payments[step.worker]);
    }
  }

  predicate Saving(s: State, i: nat) { i < |s.workers| && s.workers[i].phase.SavingFailure? }

  lemma InTail(run: seq<Step>, step: Step)
    requires run != []
    ensures step in run <==> step == run[0] || step in run[1..]
  {
  }

  lemma {:induction false} FailedRun(s: State, run: seq<Step>, i: nat)
    requires Sound(s) && Legal(s, run)
    ensures IsFailed(Run(s, run), i) <==>
      IsFailed(s, i) || ((Saving(s, i) || AskGateway(i, None) in run) && Save(i, true) in run)
    decreases |run|
  {
    if run != [] {
      StepSound(s, run[0], i);
      var s' := Apply(s, run[0]);
      FailedRun(s', run[1..], i);
      InTail(run, AskGateway(i, None));
      InTail(run, Save(i, true));
      if Saves(run[0], i) || (run[0] == Crash(i)) {
        PastSaving(s', run[1..], i);
      } else if Asks(run[0], i) {
        PastAsking(s', run[1..], i);
      }
    }
  }

  /**
   A payment is stored as failed exactly if, in the run, the gateway refused it and its worker's UPDATE then reached
   the database.
   */
  lemma FailedExactlyWhenSaved(s: State, run: seq<Step>, i: nat)
    requires Initial(s) && Legal(s, run)
    ensures IsFailed(Run(s, run), i) <==> AskGateway(i, None) in run && Save(i, true) in run
  {
    FailedRun(s, run, i);
  }

  // ----------------------------------------------------------- announced failures

  predicate ToldBy(s: State, o: nat, i: nat)
    requires o < |s.outcomes|
  {
    s.outcomes[o].source.ByHandler? && s.outcomes[o].outcome.payment == i && !s.outcomes[o].outcome.completed
  }

  ghost predicate FailureTold(s: State, i: nat) {
    exists o :: 0 <= o < |s.outcomes| && ToldBy(s, o, i)
  }

  lemma ToldStep(s: State, step: Step, i: nat)
    requires Enabled(s, step)
    ensures FailureTold(Apply(s, step), i) <==> FailureTold(s, i) || step == Announce(i, true)
  {
    var s' := Apply(s, step);
    assert forall o :: 0 <= o < |s.outcomes| ==> s'.outcomes[o] == s.outcomes[o];
    if FailureTold(s, i) {
      var o :| 0 <= o < |s.outcomes| && ToldBy(s, o, i);
      assert ToldBy(s', o, i);
    }
    if step == Announce(i, true) {
      assert ToldBy(s', |s.outcomes|, i);
    }
    if FailureTold(s', i) {
      var o :| 0 <= o < |s'.outcomes| && ToldBy(s', o, i);
      assert o < |s.outcomes| ==> ToldBy(s, o, i);
    }
  }

  predicate Refused(s: State, i: nat) {
    i < |s.workers| && (s.workers[i].phase.SavingFailure? || s.workers[i].phase.Announcing?)
  }

  lemma RefusedStep(s: State, step: Step, i: nat)
    requires Enabled(s, step)
    ensures Refused(Apply(s, step), i) ==> Refused(s, i) || step == AskGateway(i, None)
    ensures step == Announce(i, true) ==> Refused(s, i)
  {
  }

  lemma {:induction false} ToldRun(s: State, run: seq<Step>, i: nat)
    requires Legal(s, run)
    ensures FailureTold(Run(s, run), i) <==> FailureTold(s, i) || Announce(i, true) in run
    ensures Announce(i, true) in run ==> Refused(s, i) || AskGateway(i, None) in run
    decreases |run|
  {
    if run != [] {
      ToldStep(s, run[0], i);
      RefusedStep(s, run[0], i);
      ToldRun(Apply(s, run[0]), run[1..], i);
      InTail(run, Announce(i, true));
      InTail(run, AskGateway(i, None));
    }
  }

  /**
   HandleOrderCreated has published payment.failed for a payment exactly if its worker's publish succeeded, which
   only follows a refusal by the gateway; and if the worker's UPDATE reached the database, the payment is stored
   as failed beside it.
   */
  lemma AnnouncedFailureIsStored(s: State, run: seq<Step>, i: nat)
    requires Initial(s) && Legal(s, run)
    ensures FailureTold(Run(s, run), i) <==> Announce(i, true) in run
    ensures FailureTold(Run(s, run), i) ==> AskGateway(i, None) in run
    ensures FailureTold(Run(s, run), i) && Save(i, true) in run ==> IsFailed(Run(s, run), i)
  {
    ToldRun(s, run, i);
    FailedExactlyWhenSaved(s, run, i);
  }

  /**
   Whatever a worker or a callback is about to do can go well or fail, it can break off at any time, and a delivery
   or a callback can come whenever there is an event to deliver or a stored authority to find.
   */
  lemma AnythingCanHappen(s: State, i: nat, ok: bool, gateway: Option<(string, string)>, verdict: GatewayReply)
    ensures i < |s.events| ==> Enabled(s, Handle(i, ok))
    ensures i < |s.workers| ==>
      && Enabled(s, Crash(i))
      && (s.workers[i].phase.AtGateway? ==> Enabled(s, AskGateway(i, gateway)))
      && (s.workers[i].phase.SavingFailure? || s.workers[i].phase.SavingAuthority? ==> Enabled(s, Save(i, ok)))
      && (s.workers[i].phase.Announcing? ==> Enabled(s, Announce(i, ok)))
    ensures i < |s.payments| && s.payments[i].authority.Some? && s.payments[i].authority.value != "" ==>
      Enabled(s, Step.Callback(s.payments[i].authority.value, i))
    ensures i < |s.verifiers| ==>
      && Enabled(s, Abandon(i))
      && (s.verifiers[i].phase.Deciding? ==> Enabled(s, Decide(i, verdict, ok)))
      && (s.verifiers[i].phase.StoringFailure? || s.verifiers[i].phase.StoringSuccess? ==> Enabled(s, Store(i, ok)))
      && (s.verifiers[i].phase.TellingFailure? || s.verifiers[i].phase.TellingSuccess? ==> Enabled(s, Tell(i, ok)))
  {
  }

  lemma {:induction false} SoundRun(s: State, run: seq<Step>)
    requires Sound(s) && Legal(s, run)
    ensures Sound(Run(s, run))
    decreases |run|
  {
    if run != [] {
      StepSound(s, run[0], 0);
      SoundRun(Apply(s, run[0]), run[1..]);
    }
  }

  /** No order ever has two payments that are pending or completed. */
  lemma OneActivePerOrder(s: State, run: seq<Step>, i: nat, j: nat)
    requires Initial(s) && Legal(s, run) && i < j < |Run(s, run).payments|
    requires Run(s, run).payments[i].order == Run(s, run).payments[j].order
    ensures !(Run(s, run).payments[i].status in {Pending, Completed} && Run(s, run).payments[j].status in {Pending, Completed})
  {
    SoundRun(s, run);
  }
}
