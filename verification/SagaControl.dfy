/**
 Control-flow invariants of the saga: which items of an attempt are reserved and messaged in each
 phase, and how many handler runs have got past each item.
 */
module SagaControl {
  import opened Sums
  import opened Saga
  import E = StockEvents
  import L = StockLedger

  predicate AllHeld(lines: seq<L.Line>, lo: nat, hi: nat)
    requires hi <= |lines|
  {
    forall i :: lo <= i < hi ==> lines[i].held
  }

  predicate NoneHeld(lines: seq<L.Line>, lo: nat, hi: nat)
    requires hi <= |lines|
  {
    forall i :: lo <= i < hi ==> !lines[i].held
  }

  predicate SentUpTo(lines: seq<L.Line>, lo: nat, hi: nat, bound: nat)
    requires hi <= |lines|
  {
    forall i :: lo <= i < hi ==> lines[i].sent <= bound
  }

  predicate PhaseOk(lines: seq<L.Line>, at: Attempt)
    requires at.first + at.size <= |lines|
  {
    var lo, hi := at.first, at.first + at.size;
    match at.phase
    case Reserving(k) =>
      k < at.size && AllHeld(lines, lo, lo + k) && NoneHeld(lines, lo + k, hi) && SentUpTo(lines, lo, hi, 0)
    case Persisting => AllHeld(lines, lo, hi) && SentUpTo(lines, lo, hi, 0)
    case Announcing => AllHeld(lines, lo, hi) && SentUpTo(lines, lo, hi, 0)
    case Compensating(j, upTo, placed) =>
      && j < upTo <= at.size && (placed ==> upTo == at.size)
      && AllHeld(lines, lo, lo + upTo) && SentUpTo(lines, lo, lo + j, 1) && SentUpTo(lines, lo + j, hi, 0)
    case Accepted => AllHeld(lines, lo, hi)
    case _ => SentUpTo(lines, lo, hi, 1)
  }

  predicate AttemptOk(lines: seq<L.Line>, a: nat, at: Attempt) {
    && 0 < at.size && at.first + at.size <= |lines|
    && (forall i :: at.first <= i < at.first + at.size ==> lines[i].owner == a)
    && PhaseOk(lines, at)
  }

  predicate Owned(s: State, i: nat)
    requires i < |s.stock.lines|
  {
    var a := s.stock.lines[i].owner;
    a < |s.attempts| && s.attempts[a].first <= i < s.attempts[a].first + s.attempts[a].size
  }

  predicate HandlerOk(s: State, h: Handler) {
    && h.order < |s.attempts| && s.attempts[h.order].phase.Accepted?
    && (h.phase.Updating? ==> h.done == {})
  }

  /** Handler runs for order `a` that have published its item number `k`. */
  function Passed(a: nat, k: nat): Handler -> int {
    (h: Handler) => if h.order == a && k in h.done then 1 else 0
  }

  predicate SentByHandlers(s: State, a: nat, k: nat)
    requires a < |s.attempts| && s.attempts[a].first + k < |s.stock.lines|
  {
    s.stock.lines[s.attempts[a].first + k].sent == Sum(s.handlers, Passed(a, k))
  }

  ghost predicate Attempts(s: State) {
    && (forall a :: 0 <= a < |s.attempts| ==> AttemptOk(s.stock.lines, a, s.attempts[a]))
    && (forall i :: 0 <= i < |s.stock.lines| ==> Owned(s, i))
  }

  ghost predicate Handlers(s: State)
    requires Attempts(s)
  {
    && (forall h :: 0 <= h < |s.handlers| ==> HandlerOk(s, s.handlers[h]))
    && (forall a, k :: 0 <= a < |s.attempts| && 0 <= k < s.attempts[a].size && s.attempts[a].phase.Accepted?
                       ==> SentByHandlers(s, a, k))
  }

  ghost predicate Inv(s: State) {
    L.Inv(s.stock) && Attempts(s) && Handlers(s)
  }

  // ------------------------------------------------------------------ frames

  /** Changing a line or an attempt leaves the other attempts as they were. */
  lemma OtherAttempt(lines: seq<L.Line>, i: nat, l: L.Line, b: nat, at: Attempt)
    requires AttemptOk(lines, b, at)
    requires i < |lines| && lines[i].owner != b && l.owner == lines[i].owner
    ensures AttemptOk(lines[i := l], b, at)
  {
  }

  lemma MoreLines(lines: seq<L.Line>, more: seq<L.Line>, b: nat, at: Attempt)
    requires AttemptOk(lines, b, at)
    ensures AttemptOk(lines + more, b, at)
  {
  }

  /** One attempt moves to a new phase and at most one of its lines changes. */
  lemma StepAttempts(s: State, s': State, a: nat, i: nat)
    requires Attempts(s) && a < |s.attempts| == |s'.attempts|
    requires forall b :: 0 <= b < |s.attempts| && b != a ==> s'.attempts[b] == s.attempts[b]
    requires s'.attempts[a].first == s.attempts[a].first && s'.attempts[a].size == s.attempts[a].size
    requires i < |s.stock.lines| && s.stock.lines[i].owner == a
    requires |s'.stock.lines| == |s.stock.lines| && s'.stock.lines == s.stock.lines[i := s'.stock.lines[i]]
    requires s'.stock.lines[i].owner == a
    requires PhaseOk(s'.stock.lines, s'.attempts[a])
    ensures Attempts(s')
  {
    assert AttemptOk(s.stock.lines, a, s.attempts[a]);
    forall b | 0 <= b < |s'.attempts| ensures AttemptOk(s'.stock.lines, b, s'.attempts[b]) {
      if b != a {
        OtherAttempt(s.stock.lines, i, s'.stock.lines[i], b, s.attempts[b]);
      }
    }
    forall j | 0 <= j < |s'.stock.lines| ensures Owned(s', j) {
      assert Owned(s, j);
    }
  }

  /** Handlers only look at accepted attempts. */
  lemma SameHandlers(s: State, s': State, a: nat)
    requires Attempts(s) && Handlers(s) && Attempts(s') && s'.handlers == s.handlers
    requires a < |s.attempts| == |s'.attempts| && |s.stock.lines| == |s'.stock.lines|
    requires forall b :: 0 <= b < |s.attempts| && b != a ==> s'.attempts[b] == s.attempts[b]
    requires !s.attempts[a].phase.Accepted? && !s'.attempts[a].phase.Accepted?
    requires forall i :: 0 <= i < |s.stock.lines| && s.stock.lines[i].owner != a ==>
                           s'.stock.lines[i] == s.stock.lines[i]
    ensures Handlers(s')
  {
    forall h | 0 <= h < |s'.handlers| ensures HandlerOk(s', s'.handlers[h]) {
      assert HandlerOk(s, s.handlers[h]);
    }
    forall b, k | 0 <= b < |s'.attempts| && 0 <= k < s'.attempts[b].size && s'.attempts[b].phase.Accepted?
      ensures SentByHandlers(s', b, k)
    {
      assert AttemptOk(s.stock.lines, b, s.attempts[b]) && SentByHandlers(s, b, k);
    }
  }

  /** No handler has touched an attempt that was never accepted. */
  lemma NotYetHandled(s: State, a: nat, k: nat)
    requires Attempts(s) && Handlers(s) && a < |s.attempts| && !s.attempts[a].phase.Accepted?
    ensures Sum(s.handlers, Passed(a, k)) == 0
  {
    forall h | 0 <= h < |s.handlers| ensures Passed(a, k)(s.handlers[h]) == 0 {
      assert HandlerOk(s, s.handlers[h]);
    }
    SumZero(s.handlers, Passed(a, k));
  }

  // --------------------------------------------------- steps of an attempt

  lemma BeginAttempts(s: State, items: seq<Item>)
    requires Attempts(s) && Enabled(s, Begin(items))
    ensures Attempts(Apply(s, Begin(items)))
  {
    var s' := Apply(s, Begin(items));
    forall b | 0 <= b < |s'.attempts| ensures AttemptOk(s'.stock.lines, b, s'.attempts[b]) {
      if b < |s.attempts| {
        MoreLines(s.stock.lines, NewLines(|s.attempts|, items), b, s.attempts[b]);
      }
    }
    forall j | 0 <= j < |s'.stock.lines| ensures Owned(s', j) {
      if j < |s.stock.lines| {
        assert Owned(s, j);
      }
    }
  }

  lemma BeginHandlers(s: State, items: seq<Item>)
    requires Attempts(s) && Handlers(s) && Enabled(s, Begin(items)) && Attempts(Apply(s, Begin(items)))
    ensures Handlers(Apply(s, Begin(items)))
  {
    var s' := Apply(s, Begin(items));
    forall h | 0 <= h < |s'.handlers| ensures HandlerOk(s', s'.handlers[h]) {
      assert HandlerOk(s, s.handlers[h]);
    }
    forall b, k | 0 <= b < |s'.attempts| && 0 <= k < s'.attempts[b].size && s'.attempts[b].phase.Accepted?
      ensures SentByHandlers(s', b, k)
    {
      assert AttemptOk(s.stock.lines, b, s.attempts[b]) && SentByHandlers(s, b, k);
    }
  }

  lemma ReserveControl(s: State, a: nat, reply: Reply)
    requires Attempts(s) && Handlers(s) && Enabled(s, Reserve(a, reply))
    ensures Attempts(Apply(s, Reserve(a, reply))) && Handlers(Apply(s, Reserve(a, reply)))
  {
    var s' := Apply(s, Reserve(a, reply));
    assert AttemptOk(s.stock.lines, a, s.attempts[a]);
    StepAttempts(s, s', a, Current(s.attempts[a]));
    SameHandlers(s, s', a);
  }

  lemma CompensateControl(s: State, a: nat, ok: bool)
    requires Attempts(s) && Handlers(s) && Enabled(s, Compensate(a, ok))
    ensures Attempts(Apply(s, Compensate(a, ok))) && Handlers(Apply(s, Compensate(a, ok)))
  {
    var s' := Apply(s, Compensate(a, ok));
    assert AttemptOk(s.stock.lines, a, s.attempts[a]);
    StepAttempts(s, s', a, Current(s.attempts[a]));
    SameHandlers(s, s', a);
  }

  /** An attempt moves to another phase, other than acceptance, without touching stock. */
  lemma MoveControl(s: State, a: nat, at: Attempt)
    requires Attempts(s) && Handlers(s) && a < |s.attempts|
    requires at.first == s.attempts[a].first && at.size == s.attempts[a].size
    requires !s.attempts[a].phase.Accepted? && !at.phase.Accepted?
    requires at.first + at.size <= |s.stock.lines| && PhaseOk(s.stock.lines, at)
    ensures Attempts(SetAttempt(s, a, at)) && Handlers(SetAttempt(s, a, at))
  {
    var s' := SetAttempt(s, a, at);
    assert AttemptOk(s.stock.lines, a, s.attempts[a]);
    StepAttempts(s, s', a, at.first);
    SameHandlers(s, s', a);
  }

  lemma QuietAttemptControl(s: State, step: Step)
    requires Attempts(s) && Handlers(s) && Enabled(s, step)
    requires step.Persist? || (step.Announce? && !step.ok) || step.MarkFailed? || step.Crash?
    ensures Attempts(Apply(s, step)) && Handlers(Apply(s, step))
  {
    assert AttemptOk(s.stock.lines, step.a, s.attempts[step.a]);
    MoveControl(s, step.a, Apply(s, step).attempts[step.a]);
  }

  lemma AcceptHandlers(s: State, s': State, a: nat)
    requires Attempts(s) && Handlers(s) && Attempts(s') && s'.handlers == s.handlers
    requires a < |s.attempts| && s.attempts[a].phase.Announcing? && s'.stock.lines == s.stock.lines
    requires s'.attempts == s.attempts[a := s.attempts[a].(phase := Accepted)]
    ensures Handlers(s')
  {
    forall h | 0 <= h < |s'.handlers| ensures HandlerOk(s', s'.handlers[h]) {
      assert HandlerOk(s, s.handlers[h]);
    }
    forall b, k | 0 <= b < |s'.attempts| && 0 <= k < s'.attempts[b].size && s'.attempts[b].phase.Accepted?
      ensures SentByHandlers(s', b, k)
    {
      if b == a {
        NotYetHandled(s, a, k);
        assert AttemptOk(s.stock.lines, a, s.attempts[a]);
      } else {
        assert SentByHandlers(s, b, k);
      }
    }
  }

  lemma AcceptControl(s: State, a: nat)
    requires Attempts(s) && Handlers(s) && Enabled(s, Announce(a, true))
    ensures Attempts(Apply(s, Announce(a, true))) && Handlers(Apply(s, Announce(a, true)))
  {
    var s' := Apply(s, Announce(a, true));
    assert AttemptOk(s.stock.lines, a, s.attempts[a]);
    StepAttempts(s, s', a, s.attempts[a].first);
    AcceptHandlers(s, s', a);
  }

  // ----------------------------------------------------- steps of a handler

  lemma ReceiveControl(s: State, order: nat, outcome: Outcome)
    requires Attempts(s) && Handlers(s) && Enabled(s, Receive(order, outcome))
    ensures Attempts(Apply(s, Receive(order, outcome))) && Handlers(Apply(s, Receive(order, outcome)))
  {
    var s' := Apply(s, Receive(order, outcome));
    forall j | 0 <= j < |s'.stock.lines| ensures Owned(s', j) {
      assert Owned(s, j);
    }
    forall h | 0 <= h < |s'.handlers| ensures HandlerOk(s', s'.handlers[h]) {
      if h < |s.handlers| {
        assert HandlerOk(s, s.handlers[h]);
      }
    }
    forall b, k | 0 <= b < |s'.attempts| && 0 <= k < s'.attempts[b].size && s'.attempts[b].phase.Accepted?
      ensures SentByHandlers(s', b, k)
    {
      assert SentByHandlers(s, b, k);
      SumSnoc(s.handlers, Handler(order, outcome, Updating, {}), Passed(b, k));
    }
  }

  /** One handler moves on; the messages it added are what the sent counters gained. */
  lemma StepHandlers(s: State, s': State, h: nat)
    requires Attempts(s) && Handlers(s) && Attempts(s')
    requires |s'.attempts| == |s.attempts| && |s'.stock.lines| == |s.stock.lines|
    requires forall b :: 0 <= b < |s.attempts| ==>
               && s'.attempts[b].first == s.attempts[b].first && s'.attempts[b].size == s.attempts[b].size
               && s'.attempts[b].phase == s.attempts[b].phase
    requires h < |s.handlers| == |s'.handlers| && s'.handlers == s.handlers[h := s'.handlers[h]]
    requires HandlerOk(s', s'.handlers[h])
    requires forall b, k :: 0 <= b < |s.attempts| && 0 <= k < s.attempts[b].size ==>
               s'.stock.lines[s.attempts[b].first + k].sent - s.stock.lines[s.attempts[b].first + k].sent
               == Passed(b, k)(s'.handlers[h]) - Passed(b, k)(s.handlers[h])
    ensures Handlers(s')
  {
    forall g | 0 <= g < |s'.handlers| ensures HandlerOk(s', s'.handlers[g]) {
      assert HandlerOk(s, s.handlers[g]);
    }
    forall b, k | 0 <= b < |s'.attempts| && 0 <= k < s'.attempts[b].size && s'.attempts[b].phase.Accepted?
      ensures SentByHandlers(s', b, k)
    {
      assert SentByHandlers(s, b, k);
      SumUpdate(s.handlers, h, s'.handlers[h], Passed(b, k));
    }
  }

  /** A handler changes phase without publishing. */
  lemma QuietHandlerControl(s: State, step: Step)
    requires Attempts(s) && Handlers(s) && Enabled(s, step) && (step.UpdateStatus? || step.Return?)
    ensures Attempts(Apply(s, step)) && Handlers(Apply(s, step))
  {
    var s' := Apply(s, step);
    var hd := s.handlers[step.h];
    assert HandlerOk(s, hd) && AttemptOk(s.stock.lines, hd.order, s.attempts[hd.order]);
    StepAttempts(s, s', hd.order, s.attempts[hd.order].first);
    StepHandlers(s, s', step.h);
  }

  /** Publishing an item adds one to that item's counter and to no other. */
  lemma PublishCounts(s: State, h: nat, item: nat, b: nat, k: nat)
    requires Attempts(s) && Handlers(s) && Enabled(s, Publish(h, item))
    requires b < |s.attempts| && k < s.attempts[b].size
    ensures s.attempts[b].first + k < |s.stock.lines|
    ensures var s' := Apply(s, Publish(h, item));
            s'.stock.lines[s.attempts[b].first + k].sent - s.stock.lines[s.attempts[b].first + k].sent
            == Passed(b, k)(s'.handlers[h]) - Passed(b, k)(s.handlers[h])
  {
  }

  lemma PublishAttempts(s: State, h: nat, item: nat)
    requires Attempts(s) && Handlers(s) && Enabled(s, Publish(h, item))
    ensures Attempts(Apply(s, Publish(h, item)))
  {
    var hd := s.handlers[h];
    assert HandlerOk(s, hd) && AttemptOk(s.stock.lines, hd.order, s.attempts[hd.order]);
    StepAttempts(s, Apply(s, Publish(h, item)), hd.order, s.attempts[hd.order].first + item);
  }

  lemma PublishHandlers(s: State, h: nat, item: nat)
    requires Attempts(s) && Handlers(s) && Enabled(s, Publish(h, item)) && Attempts(Apply(s, Publish(h, item)))
    ensures Handlers(Apply(s, Publish(h, item)))
  {
    var s' := Apply(s, Publish(h, item));
    assert HandlerOk(s, s.handlers[h]);
    forall b, k | 0 <= b < |s.attempts| && 0 <= k < s.attempts[b].size
      ensures s.attempts[b].first + k < |s.stock.lines|
      ensures s'.stock.lines[s.attempts[b].first + k].sent - s.stock.lines[s.attempts[b].first + k].sent
           == Passed(b, k)(s'.handlers[h]) - Passed(b, k)(s.handlers[h])
    {
      PublishCounts(s, h, item, b, k);
    }
    StepHandlers(s, s', h);
  }

  lemma SameControl(s: State, s': State)
    requires Attempts(s) && Handlers(s)
    requires s'.attempts == s.attempts && s'.handlers == s.handlers && s'.stock.lines == s.stock.lines
    ensures Attempts(s') && Handlers(s')
  {
    forall j | 0 <= j < |s'.stock.lines| ensures Owned(s', j) {
      assert Owned(s, j);
    }
    forall g | 0 <= g < |s'.handlers| ensures HandlerOk(s', s'.handlers[g]) {
      assert HandlerOk(s, s.handlers[g]);
    }
    forall b, k | 0 <= b < |s'.attempts| && 0 <= k < s'.attempts[b].size && s'.attempts[b].phase.Accepted?
      ensures SentByHandlers(s', b, k)
    {
      assert SentByHandlers(s, b, k);
    }
  }

  lemma ControlKeeps(s: State, step: Step)
    requires Attempts(s) && Handlers(s) && Enabled(s, step)
    ensures Attempts(Apply(s, step)) && Handlers(Apply(s, step))
  {
    match step {
      case Begin(items) => BeginAttempts(s, items); BeginHandlers(s, items);
      case Reserve(a, reply) => ReserveControl(s, a, reply);
      case Persist(a, ok) => QuietAttemptControl(s, step);
      case Announce(a, ok) => if ok { AcceptControl(s, a); } else { QuietAttemptControl(s, step); }
      case Compensate(a, ok) => CompensateControl(s, a, ok);
      case MarkFailed(a, ok) => QuietAttemptControl(s, step);
      case Crash(a) => QuietAttemptControl(s, step);
      case Receive(order, outcome) => ReceiveControl(s, order, outcome);
      case UpdateStatus(h) => QuietHandlerControl(s, step);
      case Publish(h, item) => PublishAttempts(s, h, item); PublishHandlers(s, h, item);
      case Return(h) => QuietHandlerControl(s, step);
      case _ => SameControl(s, Apply(s, step));
    }
  }

  // -------------------------------------------------------------- the books

  lemma ReserveBooks(s: State, a: nat, reply: Reply)
    requires L.Inv(s.stock) && Attempts(s) && Enabled(s, Reserve(a, reply))
    ensures L.Inv(Apply(s, Reserve(a, reply)).stock)
  {
    assert AttemptOk(s.stock.lines, a, s.attempts[a]);
    if !reply.Refused? {
      L.HoldKeeps(s.stock, Current(s.attempts[a]));
    }
  }

  lemma CompensateBooks(s: State, a: nat, ok: bool)
    requires L.Inv(s.stock) && Attempts(s) && Enabled(s, Compensate(a, ok))
    ensures L.Inv(Apply(s, Compensate(a, ok)).stock)
  {
    assert AttemptOk(s.stock.lines, a, s.attempts[a]);
    if ok {
      L.SendKeeps(s.stock, Current(s.attempts[a]), E.StockRelease, L.FromCompensation);
    }
  }

  /** A handler only publishes for reserved items. */
  lemma PublishesHeld(s: State, h: nat, item: nat)
    requires Attempts(s) && Handlers(s) && Enabled(s, Publish(h, item))
    ensures s.stock.lines[s.attempts[s.handlers[h].order].first + item].held
  {
  }

  lemma PublishIsSend(s: State, h: nat, item: nat)
    requires Enabled(s, Publish(h, item))
    ensures var hd := s.handlers[h];
      Apply(s, Publish(h, item)).stock
        == L.Send(s.stock, s.attempts[hd.order].first + item, KindOf(hd.outcome), L.FromHandler(h))
  {
  }

  lemma PublishBooks(s: State, h: nat, item: nat)
    requires L.Inv(s.stock) && Enabled(s, Publish(h, item))
    requires s.stock.lines[s.attempts[s.handlers[h].order].first + item].held
    ensures L.Inv(Apply(s, Publish(h, item)).stock)
  {
    var hd := s.handlers[h];
    var line := s.attempts[hd.order].first + item;
    L.SendKeeps(s.stock, line, KindOf(hd.outcome), L.FromHandler(h));
    PublishIsSend(s, h, item);
  }

  lemma OutsideBooks(s: State, step: Step)
    requires L.Inv(s.stock) && Enabled(s, step)
    requires step.Begin? || step.Process? || step.CreateProduct? || step.EditProduct?
    ensures L.Inv(Apply(s, step).stock)
  {
    match step {
      case Begin(items) => L.AddLinesKeeps(s.stock, NewLines(|s.attempts|, items));
      case Process(m) =>
        if m !in s.stock.inbox && L.Statement(s.stock, m).Ok? { L.CommitKeeps(s.stock, m); }
      case CreateProduct(row) => L.PutNewKeeps(s.stock, row);
      case EditProduct(row) => L.EditKeeps(s.stock, row);
    }
  }

  lemma UntouchedBooks(s: State, step: Step)
    requires Enabled(s, step)
    requires !step.Begin? && !step.Process? && !step.CreateProduct? && !step.EditProduct?
          && !step.Reserve? && !step.Compensate? && !step.Publish?
    ensures Apply(s, step).stock == s.stock
  {
  }

  /** The only steps that touch the books do so through one of the effects, in the right phase. */
  lemma BooksKeep(s: State, step: Step)
    requires Inv(s) && Enabled(s, step)
    ensures L.Inv(Apply(s, step).stock)
  {
    match step {
      case Reserve(a, reply) => ReserveBooks(s, a, reply);
      case Compensate(a, ok) => CompensateBooks(s, a, ok);
      case Publish(h, item) => PublishesHeld(s, h, item); PublishBooks(s, h, item);
      case Begin(_) => OutsideBooks(s, step);
      case Process(_) => OutsideBooks(s, step);
      case CreateProduct(_) => OutsideBooks(s, step);
      case EditProduct(_) => OutsideBooks(s, step);
      case _ => UntouchedBooks(s, step);
    }
  }

  lemma StepKeeps(s: State, step: Step)
    requires Inv(s) && Enabled(s, step)
    ensures Inv(Apply(s, step))
  {
    ControlKeeps(s, step);
    BooksKeep(s, step);
  }

  lemma InitialHolds(s: State)
    requires Initial(s)
    ensures Inv(s)
  {
  }

  lemma {:induction false} RunKeeps(s: State, run: seq<Step>)
    requires Inv(s) && Legal(s, run)
    ensures Inv(Run(s, run))
    decreases |run|
  {
    if run != [] {
      StepKeeps(s, run[0]);
      RunKeeps(Apply(s, run[0]), run[1..]);
    }
  }
}
