/** Compensation over whole runs: which holds are left behind for good, and by which steps. */
module SagaCompensation {
  import opened Basics
  import opened Sums
  import opened Saga
  import C = SagaControl
  import K = SagaConservation
  import L = StockLedger

  /** The attempt will not come to line `i` again, neither to compensate it nor through an outcome. */
  predicate WalkedPast(at: Attempt, i: nat) {
    match at.phase
    case Compensating(j, upTo, _) => i < at.first + j || at.first + upTo <= i
    case MarkingFailed => true
    case Rejected => true
    case Abandoned => true
    case _ => false
  }

  /** Reserved, never messaged, and never to be. */
  predicate Forgotten(s: State, i: nat) {
    && i < |s.stock.lines| && s.stock.lines[i].held && s.stock.lines[i].sent == 0
    && s.stock.lines[i].owner < |s.attempts| && WalkedPast(s.attempts[s.stock.lines[i].owner], i)
  }

  ghost predicate AnyForgotten(s: State, p: Id) {
    exists i :: 0 <= i < |s.stock.lines| && s.stock.lines[i].product == p && Forgotten(s, i)
  }

  /** A reply to a committed reservation is lost, a compensation publish fails, or the process dies holding the item. */
  predicate LosesLine(s: State, step: Step, i: nat)
    requires Enabled(s, step) && i < |s.stock.lines|
  {
    match step
    case Reserve(a, reply) => reply.ReplyLost? && i == Current(s.attempts[a])
    case Compensate(a, ok) => !ok && i == Current(s.attempts[a])
    case Crash(a) => s.stock.lines[i].owner == a && s.stock.lines[i].held && s.stock.lines[i].sent == 0
    case _ => false
  }

  function LostBy(s: State, step: Step): set<nat>
    requires Enabled(s, step)
  {
    set i | 0 <= i < |s.stock.lines| && LosesLine(s, step, i)
  }

  ghost predicate Loses(s: State, step: Step, p: Id)
    requires Enabled(s, step)
  {
    exists i :: i in LostBy(s, step) && s.stock.lines[i].product == p
  }

  ghost predicate EverLoses(s: State, run: seq<Step>, p: Id)
    requires Legal(s, run)
    decreases |run|
  {
    run != [] && (Loses(s, run[0], p) || EverLoses(Apply(s, run[0]), run[1..], p))
  }

  // ------------------------------------------------------------------ steps

  lemma ReserveForgets(s: State, a: nat, reply: Reply, i: nat)
    requires C.Attempts(s) && Enabled(s, Reserve(a, reply)) && i < |s.stock.lines|
    ensures Forgotten(Apply(s, Reserve(a, reply)), i) <==> Forgotten(s, i) || LosesLine(s, Reserve(a, reply), i)
  {
    assert C.AttemptOk(s.stock.lines, a, s.attempts[a]) && C.Owned(s, i);
  }

  lemma CompensateForgets(s: State, a: nat, ok: bool, i: nat)
    requires C.Attempts(s) && Enabled(s, Compensate(a, ok)) && i < |s.stock.lines|
    ensures Forgotten(Apply(s, Compensate(a, ok)), i) <==> Forgotten(s, i) || LosesLine(s, Compensate(a, ok), i)
  {
    assert C.AttemptOk(s.stock.lines, a, s.attempts[a]) && C.Owned(s, i);
  }

  lemma MoveForgets(s: State, step: Step, i: nat)
    requires C.Attempts(s) && Enabled(s, step) && i < |s.stock.lines|
    requires step.Persist? || step.Announce? || step.MarkFailed? || step.Crash?
    ensures Forgotten(Apply(s, step), i) <==> Forgotten(s, i) || LosesLine(s, step, i)
  {
    assert C.AttemptOk(s.stock.lines, step.a, s.attempts[step.a]) && C.Owned(s, i);
  }

  lemma PublishForgets(s: State, h: nat, item: nat, i: nat)
    requires C.Attempts(s) && C.Handlers(s) && Enabled(s, Publish(h, item)) && i < |s.stock.lines|
    ensures Forgotten(Apply(s, Publish(h, item)), i) <==> Forgotten(s, i)
  {
    var hd := s.handlers[h];
    assert C.HandlerOk(s, hd) && C.AttemptOk(s.stock.lines, hd.order, s.attempts[hd.order]);
  }

  lemma BeginForgets(s: State, items: seq<Item>, i: nat)
    requires C.Attempts(s) && Enabled(s, Begin(items)) && i < |s.stock.lines|
    ensures Forgotten(Apply(s, Begin(items)), i) <==> Forgotten(s, i)
  {
    assert C.Owned(s, i);
  }

  predicate MovesNothing(step: Step) {
    && !step.Begin? && !step.Reserve? && !step.Compensate? && !step.Persist? && !step.Announce? && !step.MarkFailed?
    && !step.Crash? && !step.Publish?
  }

  lemma NothingMoves(s: State, step: Step, a: nat)
    requires Enabled(s, step) && MovesNothing(step)
    ensures Apply(s, step).stock.lines == s.stock.lines && |Apply(s, step).attempts| == |s.attempts|
    ensures a < |s.attempts| ==> Apply(s, step).attempts[a].phase == s.attempts[a].phase
    ensures a < |s.attempts| ==> Apply(s, step).attempts[a].first == s.attempts[a].first
  {
  }

  /** A step forgets a line exactly if it loses it; what is forgotten stays forgotten. */
  lemma StepForgets(s: State, step: Step, i: nat)
    requires C.Attempts(s) && C.Handlers(s) && Enabled(s, step) && i < |s.stock.lines|
    ensures Forgotten(Apply(s, step), i) <==> Forgotten(s, i) || LosesLine(s, step, i)
  {
    if step.Reserve? {
      ReserveForgets(s, step.a, step.reply, i);
    } else if step.Compensate? {
      CompensateForgets(s, step.a, step.ok, i);
    } else if step.Persist? || step.Announce? || step.MarkFailed? || step.Crash? {
      MoveForgets(s, step, i);
    } else if step.Publish? {
      PublishForgets(s, step.h, step.item, i);
    } else if step.Begin? {
      BeginForgets(s, step.items, i);
    } else {
      NothingMoves(s, step, s.stock.lines[i].owner);
    }
  }

  lemma LinesStay(s: State, step: Step)
    requires Enabled(s, step)
    ensures |s.stock.lines| <= |Apply(s, step).stock.lines|
    ensures forall i :: 0 <= i < |s.stock.lines| ==> Apply(s, step).stock.lines[i].product == s.stock.lines[i].product
    ensures forall i :: |s.stock.lines| <= i < |Apply(s, step).stock.lines| ==> !Apply(s, step).stock.lines[i].held
  {
  }

  lemma AnyFromEach(s: State, s': State, lost: set<nat>, p: Id)
    requires |s.stock.lines| <= |s'.stock.lines|
    requires forall i :: 0 <= i < |s.stock.lines| ==> s'.stock.lines[i].product == s.stock.lines[i].product
    requires forall i :: |s.stock.lines| <= i < |s'.stock.lines| ==> !s'.stock.lines[i].held
    requires forall i :: 0 <= i < |s.stock.lines| ==> (Forgotten(s', i) <==> Forgotten(s, i) || i in lost)
    requires forall i :: i in lost ==> i < |s.stock.lines|
    ensures AnyForgotten(s', p) <==> AnyForgotten(s, p) || exists i :: i in lost && s.stock.lines[i].product == p
  {
    if AnyForgotten(s', p) {
      var i :| 0 <= i < |s'.stock.lines| && s'.stock.lines[i].product == p && Forgotten(s', i);
      assert i < |s.stock.lines| && s.stock.lines[i].product == p;
    }
    if AnyForgotten(s, p) {
      var i :| 0 <= i < |s.stock.lines| && s.stock.lines[i].product == p && Forgotten(s, i);
      assert s'.stock.lines[i].product == p && Forgotten(s', i);
    }
    if i :| i in lost && s.stock.lines[i].product == p {
      assert s'.stock.lines[i].product == p && Forgotten(s', i);
    }
  }

  lemma StepForgetsAny(s: State, step: Step, p: Id)
    requires C.Attempts(s) && C.Handlers(s) && Enabled(s, step)
    ensures AnyForgotten(Apply(s, step), p) <==> AnyForgotten(s, p) || Loses(s, step, p)
  {
    var s' := Apply(s, step);
    var lost := LostBy(s, step);
    LinesStay(s, step);
    forall i | 0 <= i < |s.stock.lines| ensures Forgotten(s', i) <==> Forgotten(s, i) || i in lost {
      StepForgets(s, step, i);
    }
    AnyFromEach(s, s', lost, p);
  }

  lemma {:induction false} RunForgetsAny(s: State, run: seq<Step>, p: Id)
    requires C.Inv(s) && Legal(s, run)
    ensures AnyForgotten(Run(s, run), p) <==> AnyForgotten(s, p) || EverLoses(s, run, p)
    decreases |run|
  {
    if run != [] {
      StepForgetsAny(s, run[0], p);
      C.StepKeeps(s, run[0]);
      RunForgetsAny(Apply(s, run[0]), run[1..], p);
    }
  }

  // --------------------------------------------------------------- theorems

  /**
   Compensation leaves nothing behind, over every run: a reserved item is forgotten if and only if a
   committed reservation's reply, a compensation message or a process holding it was lost.
   */
  lemma ForgottenExactlyWhenLost(s: State, run: seq<Step>, p: Id)
    requires Initial(s) && Legal(s, run)
    ensures AnyForgotten(Run(s, run), p) <==> EverLoses(s, run, p)
  {
    C.InitialHolds(s);
    RunForgetsAny(s, run, p);
  }

  lemma StrandedIsForgotten(s: State, p: Id)
    requires C.Inv(s)
    ensures !AnyForgotten(s, p) ==> K.Stranded(s, p) == 0
  {
    if !AnyForgotten(s, p) {
      var lost := K.OpenIn(s.attempts, p, (x: Phase) => !InFlight(x) && !x.Accepted?);
      forall i | 0 <= i < |s.stock.lines| ensures lost(s.stock.lines[i]) == 0 {
        var l := s.stock.lines[i];
        assert C.Owned(s, i);
        assert L.OpenQty(p)(l) == 0 || !WalkedPast(s.attempts[l.owner], i);
      }
      SumZero(s.stock.lines, lost);
      assert K.Stranded(s, p) == Sum(s.stock.lines, lost);
    }
  }

  /**
   So if nothing was lost and nothing was published again, reserved stock is to the last item the initial
   reservation, what calls in progress hold, what orders awaiting their outcome hold, and the messages in flight.
   */
  lemma EveryItemAccountedFor(s: State, run: seq<Step>, p: Id)
    requires Initial(s) && Legal(s, run) && p in Run(s, run).stock.products
    requires !EverLoses(s, run, p) && !K.EverRepublishes(s, run, p)
    ensures var end := Run(s, run);
      && p in end.stock.base
      && end.stock.products[p].reservedStock
         == end.stock.base[p].reservedStock + K.HeldInFlight(end, p) + K.HeldByOrders(end, p) + L.Waiting(end.stock, p)
  {
    C.InitialHolds(s);
    C.RunKeeps(s, run);
    var end := Run(s, run);
    K.ConservationOverEveryRun(s, run, p);
    L.ExcessOfAll(end.stock, p);
    ForgottenExactlyWhenLost(s, run, p);
    StrandedIsForgotten(end, p);
    K.OpenHoldsSplit(end, p);
  }
}
