/** What a run's steps say, and what the state shows for it: nothing is lost between the two. */
module SagaLabels {
  import opened Basics
  import opened Saga
  import C = SagaControl
  import L = StockLedger
  import T = SagaStatus

  // ------------------------------------------------------------ order status

  function RowOf(s: State, a: nat): Option<Status> {
    if a < |s.attempts| then s.attempts[a].row else None
  }

  /** The status a step gives order `a`, if it is the first to decide it. */
  function DecidedBy(s: State, step: Step, a: nat): Option<Status>
    requires Enabled(s, step)
  {
    if step == MarkFailed(a, true) then Some(Failed)
    else if step.UpdateStatus? && s.handlers[step.h].order == a then
      Some(if s.handlers[step.h].outcome == PaymentCompleted then Confirmed else Cancelled)
    else None
  }

  /** The first decision of a run about order `a`. */
  function FirstDecision(s: State, run: seq<Step>, a: nat): Option<Status>
    requires Legal(s, run)
    decreases |run|
  {
    if run == [] then None
    else if DecidedBy(s, run[0], a).Some? then DecidedBy(s, run[0], a)
    else FirstDecision(Apply(s, run[0]), run[1..], a)
  }

  predicate RowFollows(s: State, step: Step, a: nat)
    requires Enabled(s, step)
  {
    var row := RowOf(s, a);
    RowOf(Apply(s, step), a) ==
      (if T.Final(row) then row
       else if DecidedBy(s, step, a).Some? then DecidedBy(s, step, a)
       else if step == Persist(a, true) then Some(Pending)
       else row)
  }

  lemma AttemptRowStep(s: State, step: Step, a: nat)
    requires T.Inv(s) && Enabled(s, step)
    requires step.Reserve? || step.Persist? || step.Announce? || step.Compensate? || step.MarkFailed? || step.Crash?
    ensures RowFollows(s, step, a)
  {
    assert T.RowOk(s.attempts[step.a]);
  }

  lemma UpdateRowStep(s: State, h: nat, a: nat)
    requires T.Inv(s) && Enabled(s, UpdateStatus(h))
    ensures RowFollows(s, UpdateStatus(h), a)
  {
    assert T.HandlerRow(s, s.handlers[h]);
    assert T.RowOk(s.attempts[s.handlers[h].order]);
  }

  lemma OtherRowStep(s: State, step: Step, a: nat)
    requires Enabled(s, step) && !step.UpdateStatus?
    requires !(step.Reserve? || step.Persist? || step.Announce? || step.Compensate? || step.MarkFailed? || step.Crash?)
    ensures RowOf(Apply(s, step), a) == RowOf(s, a)
  {
  }

  lemma RowStep(s: State, step: Step, a: nat)
    requires T.Inv(s) && Enabled(s, step)
    ensures RowFollows(s, step, a)
  {
    if step.UpdateStatus? {
      UpdateRowStep(s, step.h, a);
    } else if step.Reserve? || step.Persist? || step.Announce? || step.Compensate? || step.MarkFailed? || step.Crash? {
      AttemptRowStep(s, step, a);
    } else {
      OtherRowStep(s, step, a);
    }
  }

  lemma {:induction false} RowRun(s: State, run: seq<Step>, a: nat)
    requires C.Inv(s) && T.Inv(s) && Legal(s, run)
    ensures var row := RowOf(s, a);
      RowOf(Run(s, run), a) ==
        (if T.Final(row) then row
         else if FirstDecision(s, run, a).Some? then FirstDecision(s, run, a)
         else if Persist(a, true) in run then Some(Pending)
         else row)
    decreases |run|
  {
    if run != [] {
      RowStep(s, run[0], a);
      C.StepKeeps(s, run[0]);
      T.StepKeeps(s, run[0]);
      RowRun(Apply(s, run[0]), run[1..], a);
      assert Persist(a, true) in run <==> Persist(a, true) == run[0] || Persist(a, true) in run[1..];
    }
  }

  /** UpdateStatus(failed) always finds its order pending. */
  lemma {:induction false} MarkedRun(s: State, run: seq<Step>, a: nat)
    requires C.Inv(s) && T.Inv(s) && Legal(s, run)
    ensures RowOf(Run(s, run), a) == Some(Failed) <==> RowOf(s, a) == Some(Failed) || MarkFailed(a, true) in run
    decreases |run|
  {
    if run != [] {
      RowStep(s, run[0], a);
      if run[0] == MarkFailed(a, true) {
        assert T.RowOk(s.attempts[a]);
      }
      C.StepKeeps(s, run[0]);
      T.StepKeeps(s, run[0]);
      MarkedRun(Apply(s, run[0]), run[1..], a);
      assert MarkFailed(a, true) in run <==> MarkFailed(a, true) == run[0] || MarkFailed(a, true) in run[1..];
    }
  }

  /**
   The status of an order, by the steps of the run alone: nothing before its insert succeeds, pending until the
   first decision, and that decision from then on; `failed` exactly if some UpdateStatus(failed) went through.
   */
  lemma StatusByLabels(s: State, run: seq<Step>, a: nat)
    requires Initial(s) && Legal(s, run)
    ensures RowOf(Run(s, run), a) ==
      (if FirstDecision(s, run, a).Some? then FirstDecision(s, run, a)
       else if Persist(a, true) in run then Some(Pending)
       else None)
    ensures RowOf(Run(s, run), a) == Some(Failed) <==> MarkFailed(a, true) in run
  {
    C.InitialHolds(s);
    RowRun(s, run, a);
    MarkedRun(s, run, a);
  }

  /** The call ended with an error although its order was stored. */
  predicate EndedStored(s: State, a: nat) {
    a < |s.attempts| && s.attempts[a].phase.Rejected? && s.attempts[a].row.Some?
  }

  predicate Marks(step: Step, a: nat) {
    step == MarkFailed(a, true) || step == MarkFailed(a, false)
  }

  lemma EndedStep(s: State, step: Step, a: nat)
    requires C.Attempts(s) && T.Inv(s) && Enabled(s, step)
    requires step.Reserve? || step.Persist? || step.Announce? || step.Compensate? || step.MarkFailed? || step.Crash?
    ensures EndedStored(Apply(s, step), a) <==> EndedStored(s, a) || Marks(step, a)
  {
    assert T.RowOk(s.attempts[step.a]) && C.AttemptOk(s.stock.lines, step.a, s.attempts[step.a]);
  }

  lemma OtherEndedStep(s: State, step: Step, a: nat)
    requires C.Attempts(s) && C.Handlers(s) && Enabled(s, step)
    requires !(step.Reserve? || step.Persist? || step.Announce? || step.Compensate? || step.MarkFailed? || step.Crash?)
    ensures EndedStored(Apply(s, step), a) <==> EndedStored(s, a)
  {
    if step.UpdateStatus? {
      assert C.HandlerOk(s, s.handlers[step.h]);
    }
  }

  lemma {:induction false} EndedRun(s: State, run: seq<Step>, a: nat)
    requires C.Inv(s) && T.Inv(s) && Legal(s, run)
    ensures EndedStored(Run(s, run), a) <==> EndedStored(s, a) || MarkFailed(a, true) in run || MarkFailed(a, false) in run
    decreases |run|
  {
    if run != [] {
      if run[0].Reserve? || run[0].Persist? || run[0].Announce? || run[0].Compensate? || run[0].MarkFailed?
         || run[0].Crash? {
        EndedStep(s, run[0], a);
      } else {
        OtherEndedStep(s, run[0], a);
      }
      C.StepKeeps(s, run[0]);
      T.StepKeeps(s, run[0]);
      EndedRun(Apply(s, run[0]), run[1..], a);
      assert forall step :: step in run <==> step == run[0] || step in run[1..];
    }
  }

  /** No call ends with an error over a stored order without having tried to mark it failed. */
  lemma EndedStoredMeansMarked(s: State, run: seq<Step>, a: nat)
    requires Initial(s) && Legal(s, run)
    ensures EndedStored(Run(s, run), a) <==> MarkFailed(a, true) in run || MarkFailed(a, false) in run
  {
    C.InitialHolds(s);
    EndedRun(s, run, a);
  }

  // ------------------------------------------------------- what was asked for

  /** The item lists of the CreateOrder calls a run starts. */
  function Begun(run: seq<Step>): seq<seq<Item>> {
    if run == [] then []
    else (if run[0].Begin? then [run[0].items] else []) + Begun(run[1..])
  }

  predicate LineFor(lines: seq<L.Line>, i: nat, item: Item) {
    i < |lines| && lines[i].product == item.product && lines[i].quantity == item.quantity
  }

  /** Attempt `a` is about these items. */
  predicate Asks(s: State, a: nat, items: seq<Item>) {
    && a < |s.attempts| && s.attempts[a].size == |items| && s.attempts[a].first + |items| <= |s.stock.lines|
    && forall k :: 0 <= k < |items| ==> LineFor(s.stock.lines, s.attempts[a].first + k, items[k])
  }

  lemma GoodsStay(s: State, step: Step, a: nat)
    requires Enabled(s, step) && a < |s.attempts|
    ensures var s' := Apply(s, step);
      && a < |s'.attempts| && s'.attempts[a].first == s.attempts[a].first && s'.attempts[a].size == s.attempts[a].size
      && |s.stock.lines| <= |s'.stock.lines|
      && forall i :: 0 <= i < |s.stock.lines| ==>
           s'.stock.lines[i].product == s.stock.lines[i].product && s'.stock.lines[i].quantity == s.stock.lines[i].quantity
  {
  }

  lemma AsksStep(s: State, step: Step, a: nat, items: seq<Item>)
    requires Enabled(s, step) && Asks(s, a, items)
    ensures Asks(Apply(s, step), a, items)
  {
    var s' := Apply(s, step);
    GoodsStay(s, step, a);
    forall k | 0 <= k < |items| ensures LineFor(s'.stock.lines, s'.attempts[a].first + k, items[k]) {
      assert LineFor(s.stock.lines, s.attempts[a].first + k, items[k]);
    }
  }

  lemma BeginAsks(s: State, items: seq<Item>)
    requires Enabled(s, Begin(items))
    ensures Asks(Apply(s, Begin(items)), |s.attempts|, items)
    ensures |Apply(s, Begin(items)).attempts| == |s.attempts| + 1
  {
  }

  lemma AttemptsStay(s: State, step: Step)
    requires Enabled(s, step) && !step.Begin?
    ensures |Apply(s, step).attempts| == |s.attempts|
  {
  }

  lemma {:induction false} AsksRun(s: State, run: seq<Step>, a: nat, items: seq<Item>)
    requires Legal(s, run) && Asks(s, a, items)
    ensures Asks(Run(s, run), a, items)
    decreases |run|
  {
    if run != [] {
      AsksStep(s, run[0], a, items);
      AsksRun(Apply(s, run[0]), run[1..], a, items);
    }
  }

  lemma {:induction false} BegunRun(s: State, run: seq<Step>, b: nat)
    requires Legal(s, run) && b < |Begun(run)|
    ensures Asks(Run(s, run), |s.attempts| + b, Begun(run)[b])
    decreases |run|
  {
    if run[0].Begin? {
      BeginAsks(s, run[0].items);
      if b == 0 {
        AsksRun(Apply(s, run[0]), run[1..], |s.attempts|, run[0].items);
      } else {
        BegunRun(Apply(s, run[0]), run[1..], b - 1);
      }
    } else {
      AttemptsStay(s, run[0]);
      BegunRun(Apply(s, run[0]), run[1..], b);
    }
  }

  lemma {:induction false} AttemptsRun(s: State, run: seq<Step>)
    requires Legal(s, run)
    ensures |Run(s, run).attempts| == |s.attempts| + |Begun(run)|
    decreases |run|
  {
    if run != [] {
      if run[0].Begin? { BeginAsks(s, run[0].items); } else { AttemptsStay(s, run[0]); }
      AttemptsRun(Apply(s, run[0]), run[1..]);
    }
  }

  /** The calls in the state are the calls the run started, and their lines carry what each was asked for. */
  lemma LinesAsAsked(s: State, run: seq<Step>, a: nat)
    requires Initial(s) && Legal(s, run)
    ensures |Run(s, run).attempts| == |Begun(run)|
    ensures a < |Begun(run)| ==> Asks(Run(s, run), a, Begun(run)[a])
  {
    AttemptsRun(s, run);
    if a < |Begun(run)| {
      BegunRun(s, run, a);
    }
  }
}
