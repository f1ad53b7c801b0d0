/** One outcome per payment, with callbacks, workers and events of all payments interleaved. */
module CallbackOutcomes {
  import opened Basics
  import opened Sums
  import opened Payments
  import opened PaymentFlow

  // ----------------------------------------------------------------- verdicts

  function StatusOf(completed: bool): Status { if completed then Completed else Failed }

  /** A callback for payment `i` that has got past its Update and announces an outcome. */
  function Decides(i: nat): Verifier -> int {
    (v: Verifier) => if v.payment == i && v.decided.Some? then 1 else 0
  }

  function Decisions(s: State, i: nat): int { Sum(s.verifiers, Decides(i)) }

  predicate Match(s: State, i: nat)
    requires i < |s.payments|
  {
    forall v :: 0 <= v < |s.verifiers| && s.verifiers[v].payment == i && s.verifiers[v].decided.Some? ==>
      s.payments[i].status == StatusOf(s.verifiers[v].decided.value)
  }

  /** At most one callback has an outcome to announce for the payment, and it is the stored one. */
  predicate Settled(s: State, i: nat)
    requires i < |s.payments|
  {
    Decisions(s, i) <= 1 && Match(s, i)
  }

  predicate Saved(s: State, v: nat, dbOk: bool)
    requires v < |s.verifiers|
  {
    dbOk && Update(s.payments, s.verifiers[v].payment, s.verifiers[v].local).Ok?
  }

  /**
   The guard Update lacks: a callback goes on to announce its outcome although the payment is no longer pending,
   or although its failure was not saved.
   */
  predicate Unguarded(s: State, step: Step, i: nat)
    requires Enabled(s, step)
  {
    && i < |s.payments| && step.Store? && s.verifiers[step.verifier].payment == i
    && (s.verifiers[step.verifier].phase.StoringFailure? || Saved(s, step.verifier, step.dbOk))
    && (s.payments[i].status != Pending || !Saved(s, step.verifier, step.dbOk))
  }

  predicate EverUnguarded(s: State, run: seq<Step>, i: nat)
    requires Legal(s, run)
    decreases |run|
  {
    run != [] && (Unguarded(s, run[0], i) || EverUnguarded(Apply(s, run[0]), run[1..], i))
  }

  // ---------------------------------------------------------------- invariant

  predicate BeforeStore(p: VerifierPhase) { p.Deciding? || p.StoringFailure? || p.StoringSuccess? }

  /** What a callback for payment `i` carries in each phase. */
  predicate VerifierShape(v: Verifier) {
    && (BeforeStore(v.phase) ==> v.decided == None)
    && (v.phase.Deciding? ==> v.local.status == Pending)
    && (v.phase.StoringFailure? ==> v.local.status == Failed)
    && (v.phase.StoringSuccess? ==> v.local.status == Completed)
    && (v.phase.TellingFailure? ==> v.decided == Some(false))
    && (v.phase.TellingSuccess? ==> v.decided == Some(true))
  }

  /** While callbacks are at work, the payment is pending or one of them has decided it. */
  predicate Open(s: State, i: nat)
    requires i < |s.payments|
  {
    forall v :: 0 <= v < |s.verifiers| && s.verifiers[v].payment == i && BeforeStore(s.verifiers[v].phase) ==>
      s.payments[i].status == Pending || Decisions(s, i) > 0
  }

  /** A published outcome of a callback is what that callback decided; it has nothing more to say. */
  predicate ToldOk(s: State, o: nat, i: nat)
    requires o < |s.outcomes|
  {
    s.outcomes[o].outcome.payment == i && s.outcomes[o].source.ByCallback? ==>
      var v := s.outcomes[o].source.verifier;
      && v < |s.verifiers| && s.verifiers[v].payment == i && s.verifiers[v].phase.Done?
      && s.verifiers[v].decided == Some(s.outcomes[o].outcome.completed)
  }

  predicate ByCallbackOf(s: State, o: nat, i: nat)
    requires o < |s.outcomes|
  {
    s.outcomes[o].source.ByCallback? && s.outcomes[o].outcome.payment == i
  }

  predicate ToldOnce(s: State, i: nat) {
    forall o, q :: 0 <= o < q < |s.outcomes| && ByCallbackOf(s, o, i) && ByCallbackOf(s, q, i) ==>
      s.outcomes[o].source != s.outcomes[q].source
  }

  ghost predicate Inv(s: State, i: nat) {
    && i < |s.payments| && i < |s.workers| && s.workers[i].phase.Finished?
    && (forall v :: 0 <= v < |s.verifiers| && s.verifiers[v].payment == i ==> VerifierShape(s.verifiers[v]))
    && Open(s, i)
    && (forall o :: 0 <= o < |s.outcomes| ==> ToldOk(s, o, i))
    && ToldOnce(s, i)
  }

  /** HandleOrderCreated is done with the payment, and no callback for it has come yet. */
  predicate Start(s: State, i: nat) {
    && i < |s.payments| && i < |s.workers| && s.workers[i].phase.Finished?
    && (forall v :: 0 <= v < |s.verifiers| ==> s.verifiers[v].payment != i)
    && (forall o :: 0 <= o < |s.outcomes| && s.outcomes[o].outcome.payment == i ==> s.outcomes[o].source.ByHandler?)
  }

  lemma StartHolds(s: State, i: nat)
    requires Start(s, i)
    ensures Inv(s, i) && Decisions(s, i) == 0 && Settled(s, i)
  {
    SumZero(s.verifiers, Decides(i));
  }

  // -------------------------------------------------------------------- steps

  lemma {:induction false} NoDecision(vs: seq<Verifier>, i: nat, v: nat)
    requires v < |vs| && Sum(vs, Decides(i)) <= 0
    ensures Decides(i)(vs[v]) == 0
  {
    SumPart(vs, v, Decides(i));
  }

  /** The same decisions, and perhaps some callbacks that have not decided yet. */
  predicate SameDecided(vs: seq<Verifier>, ws: seq<Verifier>) {
    && |vs| <= |ws|
    && (forall v :: 0 <= v < |vs| ==> ws[v].payment == vs[v].payment && ws[v].decided == vs[v].decided)
    && (forall v :: |vs| <= v < |ws| ==> ws[v].decided == None)
  }

  lemma {:induction false} SameDecisions(vs: seq<Verifier>, ws: seq<Verifier>, i: nat)
    requires SameDecided(vs, ws)
    ensures Sum(ws, Decides(i)) == Sum(vs, Decides(i))
    decreases |ws|
  {
    if |vs| < |ws| {
      SameDecisions(vs, ws[..|ws| - 1], i);
    } else if ws != [] {
      SameDecisions(vs[..|vs| - 1], ws[..|ws| - 1], i);
    }
  }

  lemma SameSettled(s: State, s': State, i: nat)
    requires i < |s.payments| && i < |s'.payments| && s'.payments[i] == s.payments[i]
    requires SameDecided(s.verifiers, s'.verifiers)
    ensures Decisions(s', i) == Decisions(s, i) && (Match(s', i) <==> Match(s, i))
  {
    SameDecisions(s.verifiers, s'.verifiers, i);
    if Match(s', i) {
      forall v | 0 <= v < |s.verifiers| && s.verifiers[v].payment == i && s.verifiers[v].decided.Some?
        ensures s.payments[i].status == StatusOf(s.verifiers[v].decided.value)
      {
        assert s'.verifiers[v].decided == s.verifiers[v].decided && s'.verifiers[v].payment == i;
      }
    }
  }

  /** Steps other than Store decide nothing and leave the row alone. */
  lemma QuietStep(s: State, step: Step, i: nat)
    requires i < |s.payments| && i < |s.workers| && s.workers[i].phase.Finished? && Enabled(s, step) && !step.Store?
    ensures var s' := Apply(s, step);
      i < |s'.payments| && s'.payments[i] == s.payments[i] && SameDecided(s.verifiers, s'.verifiers)
  {
  }

  /** So does a Store of another payment, or one that does not announce. */
  lemma OtherStore(s: State, v: nat, dbOk: bool, i: nat)
    requires i < |s.payments| && Enabled(s, Store(v, dbOk))
    requires s.verifiers[v].payment != i || !(s.verifiers[v].phase.StoringFailure? || Saved(s, v, dbOk))
    requires s.verifiers[v].payment == i ==> VerifierShape(s.verifiers[v])
    ensures var s' := Apply(s, Store(v, dbOk));
      && i < |s'.payments| && s'.payments[i] == s.payments[i]
      && Decisions(s', i) == Decisions(s, i) && (Match(s', i) <==> Match(s, i))
  {
    var s' := Apply(s, Store(v, dbOk));
    SumUpdate(s.verifiers, v, s'.verifiers[v], Decides(i));
    if Match(s', i) {
      forall u | 0 <= u < |s.verifiers| && s.verifiers[u].payment == i && s.verifiers[u].decided.Some?
        ensures s.payments[i].status == StatusOf(s.verifiers[u].decided.value)
      {
        assert s'.verifiers[u].payment == i && s'.verifiers[u].decided == s.verifiers[u].decided;
      }
    }
  }

  /** A Store that announces: one decision more, and the row is its own if it was saved. */
  lemma DecidingStore(s: State, v: nat, dbOk: bool, i: nat)
    requires Inv(s, i) && Enabled(s, Store(v, dbOk)) && s.verifiers[v].payment == i
    requires s.verifiers[v].phase.StoringFailure? || Saved(s, v, dbOk)
    ensures var s' := Apply(s, Store(v, dbOk));
      && i < |s'.payments| && Decisions(s', i) == Decisions(s, i) + 1
      && s'.verifiers[v].decided == Some(s.verifiers[v].phase.StoringSuccess?)
      && s'.payments[i].status == (if Saved(s, v, dbOk) then StatusOf(s.verifiers[v].phase.StoringSuccess?)
                                   else s.payments[i].status)
  {
    var s' := Apply(s, Store(v, dbOk));
    assert VerifierShape(s.verifiers[v]);
    SumUpdate(s.verifiers, v, s'.verifiers[v], Decides(i));
  }

  lemma DecidingStoreSettles(s: State, v: nat, dbOk: bool, i: nat)
    requires Inv(s, i) && Enabled(s, Store(v, dbOk)) && s.verifiers[v].payment == i
    requires s.verifiers[v].phase.StoringFailure? || Saved(s, v, dbOk)
    ensures i < |Apply(s, Store(v, dbOk)).payments|
    ensures Settled(Apply(s, Store(v, dbOk)), i) <==> Settled(s, i) && !Unguarded(s, Store(v, dbOk), i)
  {
    var s' := Apply(s, Store(v, dbOk));
    DecidingStore(s, v, dbOk, i);
    if Decisions(s, i) <= 0 {
      forall u | 0 <= u < |s.verifiers| ensures Decides(i)(s.verifiers[u]) == 0 { NoDecision(s.verifiers, i, u); }
      assert s.payments[i].status == Pending;
      assert Match(s, i);
      assert forall u :: 0 <= u < |s.verifiers| && u != v ==> s'.verifiers[u] == s.verifiers[u];
      assert Match(s', i) <==> s'.payments[i].status == StatusOf(s.verifiers[v].phase.StoringSuccess?) by {
        assert s'.verifiers[v].payment == i && s'.verifiers[v].decided.Some?;
      }
    } else if Settled(s, i) {
      assert s.payments[i].status != Pending by {
        if forall u :: 0 <= u < |s.verifiers| ==> Decides(i)(s.verifiers[u]) == 0 {
          SumZero(s.verifiers, Decides(i));
        }
      }
    }
  }

  /** Whatever the step, the payment is settled afterwards exactly if it was before and the step is guarded. */
  lemma StepSettles(s: State, step: Step, i: nat)
    requires Inv(s, i) && Enabled(s, step)
    ensures i < |Apply(s, step).payments|
    ensures Settled(Apply(s, step), i) <==> Settled(s, i) && !Unguarded(s, step, i)
  {
    if !step.Store? {
      QuietStep(s, step, i);
      SameSettled(s, Apply(s, step), i);
    } else if s.verifiers[step.verifier].payment == i
              && (s.verifiers[step.verifier].phase.StoringFailure? || Saved(s, step.verifier, step.dbOk)) {
      DecidingStoreSettles(s, step.verifier, step.dbOk, i);
    } else {
      OtherStore(s, step.verifier, step.dbOk, i);
    }
  }

  lemma VerifiersKeep(s: State, step: Step, i: nat)
    requires Inv(s, i) && Enabled(s, step)
    ensures var s' := Apply(s, step);
      && |s.verifiers| <= |s'.verifiers|
      && (forall v :: 0 <= v < |s'.verifiers| && s'.verifiers[v].payment == i ==> VerifierShape(s'.verifiers[v]))
      && (forall v :: 0 <= v < |s.verifiers| ==> s'.verifiers[v].payment == s.verifiers[v].payment)
      && (forall v :: 0 <= v < |s.verifiers| && s.verifiers[v].phase.Done? ==> s'.verifiers[v] == s.verifiers[v])
  {
    forall v | 0 <= v < |s.verifiers| && s.verifiers[v].payment == i
      ensures VerifierShape(Apply(s, step).verifiers[v])
    {
      assert VerifierShape(s.verifiers[v]);
    }
  }

  lemma WorkerStays(s: State, step: Step, i: nat)
    requires Enabled(s, step) && i < |s.workers| && s.workers[i].phase.Finished?
    ensures i < |Apply(s, step).workers| && Apply(s, step).workers[i].phase.Finished?
  {
  }

  /** Decisions are never taken back, and the row only changes with one. */
  lemma RowAndDecisions(s: State, step: Step, i: nat)
    requires Inv(s, i) && Enabled(s, step)
    ensures var s' := Apply(s, step);
      && i < |s'.payments|
      && (Decisions(s', i) > Decisions(s, i)
          || (Decisions(s', i) == Decisions(s, i) && s'.payments[i] == s.payments[i]))
  {
    if !step.Store? {
      QuietStep(s, step, i);
      SameSettled(s, Apply(s, step), i);
    } else if s.verifiers[step.verifier].payment == i
              && (s.verifiers[step.verifier].phase.StoringFailure? || Saved(s, step.verifier, step.dbOk)) {
      DecidingStore(s, step.verifier, step.dbOk, i);
    } else {
      OtherStore(s, step.verifier, step.dbOk, i);
    }
  }

  lemma DecisionsNonNegative(s: State, i: nat)
    ensures 0 <= Decisions(s, i)
  {
    SumNonNegative(s.verifiers, Decides(i));
  }

  lemma OpenKeeps(s: State, step: Step, i: nat)
    requires Inv(s, i) && Enabled(s, step)
    ensures i < |Apply(s, step).payments| && Open(Apply(s, step), i)
  {
    var s' := Apply(s, step);
    RowAndDecisions(s, step, i);
    DecisionsNonNegative(s, i);
    forall v | 0 <= v < |s'.verifiers| && s'.verifiers[v].payment == i && BeforeStore(s'.verifiers[v].phase)
      ensures s'.payments[i].status == Pending || Decisions(s', i) > 0
    {
      if v < |s.verifiers| {
        assert s.verifiers[v].payment == i && BeforeStore(s.verifiers[v].phase);
      }
    }
  }

  lemma ToldKeeps(s: State, step: Step, i: nat)
    requires Inv(s, i) && Enabled(s, step)
    ensures forall o :: 0 <= o < |Apply(s, step).outcomes| ==> ToldOk(Apply(s, step), o, i)
    ensures ToldOnce(Apply(s, step), i)
  {
    var s' := Apply(s, step);
    VerifiersKeep(s, step, i);
    assert forall o :: 0 <= o < |s.outcomes| ==> s'.outcomes[o] == s.outcomes[o];
    forall o | 0 <= o < |s'.outcomes| ensures ToldOk(s', o, i) {
      if o < |s.outcomes| {
        assert ToldOk(s, o, i);
      } else if step.Tell? && s.verifiers[step.verifier].payment == i {
        assert VerifierShape(s.verifiers[step.verifier]);
      }
    }
    forall o, q | 0 <= o < q < |s'.outcomes| && ByCallbackOf(s', o, i) && ByCallbackOf(s', q, i)
      ensures s'.outcomes[o].source != s'.outcomes[q].source
    {
      assert ToldOk(s, o, i);
      if q < |s.outcomes| {
        assert ByCallbackOf(s, o, i) && ByCallbackOf(s, q, i);
      }
    }
  }

  lemma StepKeeps(s: State, step: Step, i: nat)
    requires Inv(s, i) && Enabled(s, step)
    ensures Inv(Apply(s, step), i)
  {
    VerifiersKeep(s, step, i);
    WorkerStays(s, step, i);
    OpenKeeps(s, step, i);
    ToldKeeps(s, step, i);
  }

  lemma {:induction false} RunSettles(s: State, run: seq<Step>, i: nat)
    requires Inv(s, i) && Legal(s, run)
    ensures Inv(Run(s, run), i)
    ensures Settled(Run(s, run), i) <==> Settled(s, i) && !EverUnguarded(s, run, i)
    decreases |run|
  {
    if run != [] {
      StepSettles(s, run[0], i);
      StepKeeps(s, run[0], i);
      RunSettles(Apply(s, run[0]), run[1..], i);
    }
  }

  // ----------------------------------------------------------------- theorems

  /** Of a settled payment one outcome at most has been published by callbacks, and it is the stored status. */
  lemma SettledMeansOne(s: State, i: nat, o: nat)
    requires Inv(s, i) && Settled(s, i) && o < |s.outcomes| && ByCallbackOf(s, o, i)
    ensures s.payments[i].status == StatusOf(s.outcomes[o].outcome.completed)
    ensures forall q :: 0 <= q < |s.outcomes| && ByCallbackOf(s, q, i) ==> q == o
  {
    assert ToldOk(s, o, i);
    var v := s.outcomes[o].source.verifier;
    forall q | 0 <= q < |s.outcomes| && ByCallbackOf(s, q, i) ensures q == o {
      assert ToldOk(s, q, i);
      var u := s.outcomes[q].source.verifier;
      if u < v {
        SumTwoParts(s.verifiers, u, v, Decides(i));
      } else if v < u {
        SumTwoParts(s.verifiers, v, u, Decides(i));
      }
    }
  }

  /**
   One outcome per payment, exactly: whatever else goes on, callbacks come to at most one outcome for a payment,
   and the stored status is that outcome's, if and only if none of them went on to announce an outcome although the
   payment was no longer pending or although its failure was not saved.
   */
  lemma OneOutcomeExactlyWhenGuarded(s: State, run: seq<Step>, i: nat)
    requires Start(s, i) && Legal(s, run)
    ensures i < |Run(s, run).payments|
    ensures Settled(Run(s, run), i) <==> !EverUnguarded(s, run, i)
  {
    StartHolds(s, i);
    RunSettles(s, run, i);
  }
}
