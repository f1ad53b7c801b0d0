/** Order status: one winner, then frozen; and what the handlers publish agrees with it. */
module SagaStatus {
  import opened Basics
  import opened Saga
  import C = SagaControl
  import E = StockEvents
  import L = StockLedger

  predicate Final(row: Option<Status>) {
    row.Some? && row.value != Pending
  }

  predicate RowOk(at: Attempt) {
    && at.wins == (if Final(at.row) then 1 else 0)
    && match at.phase
       case Reserving(_) => at.row == None
       case Persisting => at.row == None
       case Announcing => at.row == Some(Pending)
       case Compensating(_, _, placed) => at.row == (if placed then Some(Pending) else None)
       case MarkingFailed => at.row == Some(Pending)
       case Accepted => at.row.Some? && at.row.value != Failed
       case Rejected => !Final(at.row) || at.row == Some(Failed)
       case Abandoned => !Final(at.row)
  }

  predicate Wins(h: Handler, a: nat, status: Status) {
    h.order == a && StatusOf(h.outcome) == status && (h.phase.Sending? || h.phase.Returned?)
  }

  /** Who moved the order out of pending. */
  ghost predicate HasWinner(s: State, a: nat)
    requires a < |s.attempts|
  {
    s.attempts[a].phase.Accepted? && Final(s.attempts[a].row) ==>
      exists h :: 0 <= h < |s.handlers| && Wins(s.handlers[h], a, s.attempts[a].row.value)
  }

  predicate HandlerRow(s: State, h: Handler) {
    && h.order < |s.attempts| && s.attempts[h.order].phase.Accepted?
    && (h.phase.Updating? ==> h.done == {})
    && (h.phase.Sending? || h.done != {} ==> Final(s.attempts[h.order].row))
  }

  predicate Traced(s: State, m: L.Message) {
    match m.source
    case FromCompensation => m.kind == E.StockRelease
    case FromHandler(h) =>
      && h < |s.handlers| && s.handlers[h].done != {}
      && m.kind == KindOf(s.handlers[h].outcome)
      && m.line < |s.stock.lines| && s.stock.lines[m.line].owner == s.handlers[h].order
  }

  ghost predicate Inv(s: State) {
    && (forall a :: 0 <= a < |s.attempts| ==> RowOk(s.attempts[a]) && HasWinner(s, a))
    && (forall h :: 0 <= h < |s.handlers| ==> HandlerRow(s, s.handlers[h]))
    && (forall m :: 0 <= m < |s.stock.messages| ==> Traced(s, s.stock.messages[m]))
  }

  // ------------------------------------------------------------------ frames

  predicate HandlerGrows(h: Handler, h': Handler) {
    && h'.order == h.order && h'.outcome == h.outcome && h.done <= h'.done
    && (h'.phase.Updating? ==> h.phase.Updating?)
  }

  /** Everything the invariant reads only grows. */
  ghost predicate Grows(s: State, s': State) {
    && |s.attempts| <= |s'.attempts| && |s.handlers| <= |s'.handlers| && |s.stock.lines| <= |s'.stock.lines|
    && (forall a :: 0 <= a < |s.attempts| && s.attempts[a].phase.Accepted? ==>
          s'.attempts[a].phase.Accepted? && (Final(s.attempts[a].row) ==> s'.attempts[a].row == s.attempts[a].row))
    && (forall h :: 0 <= h < |s.handlers| ==> HandlerGrows(s.handlers[h], s'.handlers[h]))
    && (forall i :: 0 <= i < |s.stock.lines| ==> s'.stock.lines[i].owner == s.stock.lines[i].owner)
  }

  /** What is left to check of a step once the invariant's own growth is known. */
  lemma Framed(s: State, s': State)
    requires Inv(s) && Grows(s, s')
    requires forall a :: 0 <= a < |s'.attempts| ==> RowOk(s'.attempts[a])
    requires forall a :: 0 <= a < |s'.attempts| ==>
               HasWinner(s', a) || (a < |s.attempts| && s.attempts[a].phase.Accepted? && Final(s.attempts[a].row))
    requires forall h :: 0 <= h < |s'.handlers| ==> HandlerRow(s', s'.handlers[h])
    requires forall m :: 0 <= m < |s'.stock.messages| ==>
               Traced(s', s'.stock.messages[m])
               || (m < |s.stock.messages| && s'.stock.messages[m].(applied := 0) == s.stock.messages[m].(applied := 0))
    ensures Inv(s')
  {
  }

  // ------------------------------------------------------------------- steps

  /** A CreateOrder call moves on; it may add compensation messages. */
  lemma Moved(s: State, s': State, a: nat)
    requires Inv(s) && a < |s.attempts| == |s'.attempts| && s'.attempts == s.attempts[a := s'.attempts[a]]
    requires !s.attempts[a].phase.Accepted? && RowOk(s'.attempts[a])
    requires s'.attempts[a].phase.Accepted? ==> !Final(s'.attempts[a].row)
    requires s'.handlers == s.handlers && |s'.stock.lines| == |s.stock.lines|
    requires forall i :: 0 <= i < |s.stock.lines| ==> s'.stock.lines[i].owner == s.stock.lines[i].owner
    requires s.stock.messages <= s'.stock.messages
    requires forall m :: |s.stock.messages| <= m < |s'.stock.messages| ==>
               s'.stock.messages[m].source.FromCompensation? && s'.stock.messages[m].kind.StockRelease?
    ensures Inv(s')
  {
  }

  /** Each step of CreateOrder leaves a row that fits the new phase. */
  lemma AttemptRow(s: State, step: Step)
    requires Enabled(s, step)
    requires step.Reserve? || step.Persist? || step.Announce? || step.Compensate? || step.MarkFailed? || step.Crash?
    requires RowOk(s.attempts[step.a])
    ensures RowOk(Apply(s, step).attempts[step.a])
  {
  }

  /** The steps of CreateOrder. */
  lemma AttemptStep(s: State, step: Step)
    requires Inv(s) && Enabled(s, step)
    requires step.Reserve? || step.Persist? || step.Announce? || step.Compensate? || step.MarkFailed? || step.Crash?
    ensures Inv(Apply(s, step))
  {
    AttemptRow(s, step);
    Moved(s, Apply(s, step), step.a);
  }

  lemma UpdateStep(s: State, h: nat)
    requires Inv(s) && Enabled(s, UpdateStatus(h))
    ensures Inv(Apply(s, UpdateStatus(h)))
  {
    var s' := Apply(s, UpdateStatus(h));
    var a := s.handlers[h].order;
    assert HandlerRow(s, s.handlers[h]) && RowOk(s.attempts[a]);
    assert Grows(s, s');
    assert RowOk(s'.attempts[a]);
    if !Final(s.attempts[a].row) {
      assert s'.attempts[a].row == Some(StatusOf(s.handlers[h].outcome));
      assert Wins(s'.handlers[h], a, s'.attempts[a].row.value);
    }
    forall g | 0 <= g < |s'.handlers| ensures HandlerRow(s', s'.handlers[g]) {
      assert HandlerRow(s, s.handlers[g]);
    }
    Framed(s, s');
  }

  lemma PublishStep(s: State, h: nat, item: nat)
    requires C.Attempts(s) && Inv(s) && Enabled(s, Publish(h, item))
    ensures Inv(Apply(s, Publish(h, item)))
  {
    var s' := Apply(s, Publish(h, item));
    var hd := s.handlers[h];
    assert HandlerRow(s, hd) && C.AttemptOk(s.stock.lines, hd.order, s.attempts[hd.order]);
    assert Grows(s, s');
    assert Traced(s', s'.stock.messages[|s.stock.messages|]);
    forall g | 0 <= g < |s'.handlers| ensures HandlerRow(s', s'.handlers[g]) {
      assert HandlerRow(s, s.handlers[g]);
    }
    Framed(s, s');
  }

  lemma BeginStep(s: State, items: seq<Item>)
    requires Inv(s) && Enabled(s, Begin(items))
    ensures Inv(Apply(s, Begin(items)))
  {
  }

  lemma DeliveryStep(s: State, step: Step)
    requires Inv(s) && Enabled(s, step) && (step.Receive? || step.Return?)
    ensures Inv(Apply(s, step))
  {
    var s' := Apply(s, step);
    assert Grows(s, s');
    forall g | 0 <= g < |s'.handlers| ensures HandlerRow(s', s'.handlers[g]) {
      assert g < |s.handlers| ==> HandlerRow(s, s.handlers[g]);
    }
    Framed(s, s');
  }

  /** Broker and administration steps: messages may be applied, nothing else moves. */
  lemma SameRows(s: State, s': State)
    requires Inv(s) && s'.attempts == s.attempts && s'.handlers == s.handlers && s'.stock.lines == s.stock.lines
    requires |s'.stock.messages| == |s.stock.messages|
    requires forall m :: 0 <= m < |s.stock.messages| ==>
               s'.stock.messages[m].(applied := 0) == s.stock.messages[m].(applied := 0)
    ensures Inv(s')
  {
  }

  lemma StepKeeps(s: State, step: Step)
    requires C.Attempts(s) && Inv(s) && Enabled(s, step)
    ensures Inv(Apply(s, step))
  {
    if step.Begin? {
      BeginStep(s, step.items);
    } else if step.UpdateStatus? {
      UpdateStep(s, step.h);
    } else if step.Publish? {
      PublishStep(s, step.h, step.item);
    } else if step.Receive? || step.Return? {
      DeliveryStep(s, step);
    } else if step.Reserve? || step.Persist? || step.Announce? || step.Compensate? || step.MarkFailed? || step.Crash? {
      AttemptStep(s, step);
    } else {
      SameRows(s, Apply(s, step));
    }
  }

  lemma {:induction false} RunKeeps(s: State, run: seq<Step>)
    requires C.Inv(s) && Inv(s) && Legal(s, run)
    ensures Inv(Run(s, run))
    decreases |run|
  {
    if run != [] {
      StepKeeps(s, run[0]);
      C.StepKeeps(s, run[0]);
      RunKeeps(Apply(s, run[0]), run[1..]);
    }
  }

  // ---------------------------------------------------------------- theorems

  /**
   Single winner: in every interleaving an order is reported changed to at most one updater, exactly
   when it has left pending; `failed` is only ever the fate of an order that was never announced.
   */
  lemma SingleWinner(s: State, run: seq<Step>, a: nat)
    requires Initial(s) && Legal(s, run) && a < |Run(s, run).attempts|
    ensures var at := Run(s, run).attempts[a];
      && at.wins <= 1 && (at.wins == 1 <==> Final(at.row))
      && (at.row == Some(Failed) ==> at.phase == Rejected)
      && (at.row == Some(Confirmed) || at.row == Some(Cancelled) ==> at.phase == Accepted)
  {
    C.InitialHolds(s);
    RunKeeps(s, run);
    assert RowOk(Run(s, run).attempts[a]);
  }

  lemma FrozenStep(s: State, step: Step, a: nat)
    requires Inv(s) && Enabled(s, step) && a < |s.attempts| && Final(s.attempts[a].row)
    ensures a < |Apply(s, step).attempts| && Apply(s, step).attempts[a].row == s.attempts[a].row
  {
    assert RowOk(s.attempts[a]);
  }

  lemma {:induction false} FrozenRun(s: State, run: seq<Step>, a: nat)
    requires C.Inv(s) && Inv(s) && Legal(s, run) && a < |s.attempts| && Final(s.attempts[a].row)
    ensures a < |Run(s, run).attempts| && Run(s, run).attempts[a].row == s.attempts[a].row
    decreases |run|
  {
    if run != [] {
      FrozenStep(s, run[0], a);
      StepKeeps(s, run[0]);
      C.StepKeeps(s, run[0]);
      FrozenRun(Apply(s, run[0]), run[1..], a);
    }
  }

  /** A status that has left pending in some reachable state is the same in every later one. */
  lemma StatusIsFrozen(s: State, run: seq<Step>, more: seq<Step>, a: nat)
    requires Initial(s) && Legal(s, run) && Legal(Run(s, run), more)
    requires a < |Run(s, run).attempts| && Final(Run(s, run).attempts[a].row)
    ensures a < |Run(Run(s, run), more).attempts|
    ensures Run(Run(s, run), more).attempts[a].row == Run(s, run).attempts[a].row
  {
    C.InitialHolds(s);
    C.RunKeeps(s, run);
    RunKeeps(s, run);
    FrozenRun(Run(s, run), more, a);
  }
}
