/** More of what a run's steps say: who was announced, which outcomes came, where messages are, and what is over. */
module SagaSteps {
  import opened Saga
  import P = Products

  // -------------------------------------------------------------- acceptance

  predicate Accepts(s: State, a: nat) {
    a < |s.attempts| && s.attempts[a].phase.Accepted?
  }

  predicate CallStep(step: Step) {
    step.Reserve? || step.Persist? || step.Announce? || step.Compensate? || step.MarkFailed? || step.Crash?
  }

  lemma CallAccepts(s: State, step: Step, a: nat)
    requires Enabled(s, step) && CallStep(step)
    ensures Accepts(Apply(s, step), a) <==> Accepts(s, a) || step == Announce(a, true)
  {
  }

  lemma OtherAccepts(s: State, step: Step, a: nat)
    requires Enabled(s, step) && !CallStep(step)
    ensures Accepts(Apply(s, step), a) <==> Accepts(s, a)
  {
  }

  lemma AcceptStep(s: State, step: Step, a: nat)
    requires Enabled(s, step)
    ensures Accepts(Apply(s, step), a) <==> Accepts(s, a) || step == Announce(a, true)
  {
    if CallStep(step) {
      CallAccepts(s, step, a);
    } else {
      OtherAccepts(s, step, a);
    }
  }

  lemma {:induction false} AcceptRun(s: State, run: seq<Step>, a: nat)
    requires Legal(s, run)
    ensures Accepts(Run(s, run), a) <==> Accepts(s, a) || Announce(a, true) in run
    decreases |run|
  {
    if run != [] {
      AcceptStep(s, run[0], a);
      AcceptRun(Apply(s, run[0]), run[1..], a);
      assert Announce(a, true) in run <==> Announce(a, true) == run[0] || Announce(a, true) in run[1..];
    }
  }

  /** An order is accepted exactly if its order.created was published. */
  lemma AcceptedExactlyWhenAnnounced(s: State, run: seq<Step>, a: nat)
    requires Initial(s) && Legal(s, run)
    ensures Accepts(Run(s, run), a) <==> Announce(a, true) in run
  {
    AcceptRun(s, run, a);
  }

  // ---------------------------------------------------------------- outcomes

  /** The deliveries of payment outcomes in a run: order and outcome of each. */
  function Received(run: seq<Step>): seq<(nat, Outcome)> {
    if run == [] then []
    else (if run[0].Receive? then [(run[0].order, run[0].outcome)] else []) + Received(run[1..])
  }

  predicate Serves(s: State, h: nat, delivery: (nat, Outcome)) {
    h < |s.handlers| && s.handlers[h].order == delivery.0 && s.handlers[h].outcome == delivery.1
  }

  lemma ServesStep(s: State, step: Step, h: nat, delivery: (nat, Outcome))
    requires Enabled(s, step) && Serves(s, h, delivery)
    ensures Serves(Apply(s, step), h, delivery)
  {
  }

  lemma HandlersStep(s: State, step: Step)
    requires Enabled(s, step)
    ensures |Apply(s, step).handlers| == |s.handlers| + (if step.Receive? then 1 else 0)
    ensures step.Receive? ==> Serves(Apply(s, step), |s.handlers|, (step.order, step.outcome))
  {
  }

  lemma {:induction false} ServesRun(s: State, run: seq<Step>, h: nat, delivery: (nat, Outcome))
    requires Legal(s, run) && Serves(s, h, delivery)
    ensures Serves(Run(s, run), h, delivery)
    decreases |run|
  {
    if run != [] {
      ServesStep(s, run[0], h, delivery);
      ServesRun(Apply(s, run[0]), run[1..], h, delivery);
    }
  }

  lemma {:induction false} ReceivedRun(s: State, run: seq<Step>)
    requires Legal(s, run)
    ensures |Run(s, run).handlers| == |s.handlers| + |Received(run)|
    ensures forall r :: 0 <= r < |Received(run)| ==> Serves(Run(s, run), |s.handlers| + r, Received(run)[r])
    decreases |run|
  {
    if run != [] {
      HandlersStep(s, run[0]);
      ReceivedRun(Apply(s, run[0]), run[1..]);
      if run[0].Receive? {
        ServesRun(Apply(s, run[0]), run[1..], |s.handlers|, Received(run)[0]);
        forall r | 0 <= r < |Received(run)| ensures Serves(Run(s, run), |s.handlers| + r, Received(run)[r]) {
          if r > 0 {
            assert Received(run)[r] == Received(run[1..])[r - 1];
          }
        }
      }
    }
  }

  /** The handler runs in the state are the deliveries of the run, each for its order and its outcome. */
  lemma HandlersAsReceived(s: State, run: seq<Step>, h: nat)
    requires Initial(s) && Legal(s, run)
    ensures |Run(s, run).handlers| == |Received(run)|
    ensures h < |Received(run)| ==> Serves(Run(s, run), h, Received(run)[h])
  {
    ReceivedRun(s, run);
  }

  // ----------------------------------------------------------- what is over

  predicate StepOf(step: Step, a: nat) {
    || (step.Reserve? && step.a == a) || (step.Persist? && step.a == a) || (step.Announce? && step.a == a)
    || (step.Compensate? && step.a == a) || (step.MarkFailed? && step.a == a) || (step.Crash? && step.a == a)
  }

  predicate HandlerStepOf(step: Step, h: nat) {
    (step.UpdateStatus? && step.h == h) || (step.Publish? && step.h == h) || (step.Return? && step.h == h)
  }

  /** A call that has returned, or whose process has died, takes no step any more. */
  lemma {:induction false} OverIsOver(s: State, run: seq<Step>, a: nat)
    requires Legal(s, run) && a < |s.attempts| && !InFlight(s.attempts[a].phase)
    ensures forall i :: 0 <= i < |run| ==> !StepOf(run[i], a)
    decreases |run|
  {
    if run != [] {
      OverIsOver(Apply(s, run[0]), run[1..], a);
      assert forall i :: 1 <= i < |run| ==> run[i] == run[1..][i - 1];
    }
  }

  /** Likewise a handler run. */
  lemma {:induction false} ReturnedIsOver(s: State, run: seq<Step>, h: nat)
    requires Legal(s, run) && h < |s.handlers| && s.handlers[h].phase.Returned?
    ensures forall i :: 0 <= i < |run| ==> !HandlerStepOf(run[i], h)
    decreases |run|
  {
    if run != [] {
      ReturnedIsOver(Apply(s, run[0]), run[1..], h);
      assert forall i :: 1 <= i < |run| ==> run[i] == run[1..][i - 1];
    }
  }

  /** And these steps end a call or a handler run. */
  lemma CrashAndReturnEnd(s: State, step: Step)
    requires Enabled(s, step) && (step.Crash? || step.MarkFailed? || step.Return? || (step.Announce? && step.ok))
    ensures step.Return? ==> Apply(s, step).handlers[step.h].phase.Returned?
    ensures !step.Return? ==> !InFlight(Apply(s, step).attempts[step.a].phase)
  {
  }

  // ---------------------------------------------------------- where messages are

  function Copies(s: State, m: nat): nat { s.queued[m] + s.unacked[m] + s.settled[m] }

  predicate Enqueues(s: State, step: Step, m: nat)
    requires Enabled(s, step)
  {
    m == |s.stock.messages| && (step.Publish? || (step.Compensate? && step.ok))
  }

  function One(b: bool): int { if b then 1 else 0 }

  /** Processing a delivery of `m` ends with nil, hence an ack; otherwise the message goes back. */
  predicate Acknowledges(s: State, step: Step, m: nat)
    requires Enabled(s, step)
  {
    step == Process(m) && m in Apply(s, step).stock.inbox
  }

  predicate BagsFollow(s: State, step: Step, m: nat)
    requires Enabled(s, step)
  {
    var s' := Apply(s, step);
    && s'.unacked[m] == s.unacked[m] + One(step == Deliver(m)) - One(step == Process(m)) - One(step == Abort(m))
    && s'.settled[m] == s.settled[m] + One(Acknowledges(s, step, m)) - One(step == Ack(m)) - One(step == Requeue(m))
    && Copies(s', m) == Copies(s, m) + One(Enqueues(s, step, m)) + One(step == Duplicate(m)) - One(step == Ack(m))
  }

  predicate BrokerStep(step: Step) {
    step.Deliver? || step.Process? || step.Abort? || step.Ack? || step.Requeue? || step.Duplicate?
  }

  lemma Moves(from: multiset<nat>, to: multiset<nat>, x: nat, m: nat)
    ensures (to + multiset{x})[m] == to[m] + One(x == m)
    ensures x in from ==> (from - multiset{x})[m] == from[m] - One(x == m)
  {
  }

  lemma OutwardBags(s: State, step: Step, m: nat)
    requires Enabled(s, step) && (step.Deliver? || step.Ack?)
    ensures BagsFollow(s, step, m)
  {
    Moves(if step.Deliver? then s.queued else s.settled, s.unacked, step.m, m);
  }

  lemma BackwardBags(s: State, step: Step, m: nat)
    requires Enabled(s, step) && (step.Abort? || step.Requeue? || step.Duplicate?)
    ensures BagsFollow(s, step, m)
  {
    Moves(if step.Abort? then s.unacked else s.settled, s.queued, step.m, m);
  }

  lemma ProcessBags(s: State, x: nat, m: nat)
    requires Enabled(s, Process(x))
    ensures BagsFollow(s, Process(x), m)
  {
  }

  lemma SendingBags(s: State, step: Step, m: nat)
    requires Enabled(s, step) && (step.Publish? || step.Compensate?)
    ensures BagsFollow(s, step, m)
  {
  }

  lemma OtherBags(s: State, step: Step)
    requires Enabled(s, step) && !BrokerStep(step) && !step.Publish? && !step.Compensate?
    ensures var s' := Apply(s, step); s'.queued == s.queued && s'.unacked == s.unacked && s'.settled == s.settled
  {
  }

  /** How each step moves the copies of a message between the broker's three bags. */
  lemma BagsStep(s: State, step: Step, m: nat)
    requires Enabled(s, step)
    ensures BagsFollow(s, step, m)
  {
    if step.Process? {
      ProcessBags(s, step.m, m);
    } else if step.Deliver? || step.Ack? {
      OutwardBags(s, step, m);
    } else if BrokerStep(step) {
      BackwardBags(s, step, m);
    } else if step.Publish? || step.Compensate? {
      SendingBags(s, step, m);
    } else {
      OtherBags(s, step);
    }
  }

  lemma MessagesStep(s: State, step: Step)
    requires Enabled(s, step)
    ensures |Apply(s, step).stock.messages| == |s.stock.messages| + One(Enqueues(s, step, |s.stock.messages|))
  {
  }

  lemma {:induction false} CopiesRun(s: State, run: seq<Step>, m: nat)
    requires Legal(s, run)
    ensures |s.stock.messages| <= |Run(s, run).stock.messages|
    ensures Copies(Run(s, run), m) == Copies(s, m) + One(|s.stock.messages| <= m < |Run(s, run).stock.messages|)
      + multiset(run)[Duplicate(m)] - multiset(run)[Ack(m)]
    ensures Run(s, run).unacked[m] + multiset(run)[Process(m)] + multiset(run)[Abort(m)]
      == s.unacked[m] + multiset(run)[Deliver(m)]
    decreases |run|
  {
    if run != [] {
      BagsStep(s, run[0], m);
      MessagesStep(s, run[0]);
      CopiesRun(Apply(s, run[0]), run[1..], m);
      assert run == [run[0]] + run[1..];
      assert multiset(run) == multiset{run[0]} + multiset(run[1..]);
    }
  }

  /**
   The broker neither loses nor invents copies: there is one for each message enqueued, one more for each duplicate
   and one less for each ack, and those out for processing are those delivered and not yet done with.
   */
  lemma CopiesByLabels(s: State, run: seq<Step>, m: nat)
    requires Initial(s) && Legal(s, run)
    ensures Copies(Run(s, run), m)
      == One(m < |Run(s, run).stock.messages|) + multiset(run)[Duplicate(m)] - multiset(run)[Ack(m)]
    ensures Run(s, run).unacked[m] + multiset(run)[Process(m)] + multiset(run)[Abort(m)] == multiset(run)[Deliver(m)]
  {
    CopiesRun(s, run, m);
  }

  // ------------------------------------------------------------ administration

  /** Creating a product stores that row; editing one writes its details and active flag, and no stock column. */
  lemma AdministrationWrites(s: State, step: Step)
    requires Enabled(s, step) && P.TableOk(s.stock.products) && (step.CreateProduct? || step.EditProduct?)
    ensures var t, t' := s.stock.products, Apply(s, step).stock.products;
      && step.row.id in t'
      && t'[step.row.id].details == step.row.details && t'[step.row.id].isActive == step.row.isActive
      && (step.CreateProduct? ==> t'[step.row.id] == step.row)
      && (step.EditProduct? ==>
            && step.row.id in t && t'[step.row.id].totalStock == t[step.row.id].totalStock
            && t'[step.row.id].reservedStock == t[step.row.id].reservedStock)
      && forall x :: x != step.row.id ==> (x in t' <==> x in t) && (x in t ==> t'[x] == t[x])
  {
  }
}
