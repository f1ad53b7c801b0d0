/** When answers of the product cache are current, exactly: over every interleaving of readers and writers. */
module CacheCurrency {
  import opened Basics
  import opened CacheStaleness

  /** The answer was out of date when it was given. */
  predicate Stale(s: State, a: Answer)
    requires a.newest < |Versions(s, a.id)|
  {
    s.history[a.id][a.newest].row != a.row
  }

  predicate EntryTracked(s: State, id: Id)
    requires id in s.cache
  {
    var e, h := s.cache[id], Versions(s, id);
    && e.version < |h| && h[e.version].row == e.row
    // with no invalidation due, the row is as it was when the entry was stored
    && (id !in s.owed ==> (e.late <==> e.row != Current(s, id)))
  }

  predicate ReaderTracked(s: State, r: Reader) {
    r.version < |Versions(s, r.id)| && Versions(s, r.id)[r.version].row == r.row
  }

  predicate AnswerTracked(s: State, a: Answer) {
    var h := Versions(s, a.id);
    && a.version <= a.newest < |h| && h[a.version].row == a.row
    && CurrentAt(h, a.newest, a.at) && a.at <= s.now
    && (!a.owed ==> (a.late <==> Stale(s, a)))
  }

  ghost predicate Tracked(s: State) {
    && (forall id :: id in s.history ==> Chronological(s.history[id], s.now))
    && (forall id :: id in s.cache ==> EntryTracked(s, id))
    && (forall r :: 0 <= r < |s.readers| ==> ReaderTracked(s, s.readers[r]))
    && (forall i :: 0 <= i < |s.answers| ==> AnswerTracked(s, s.answers[i]))
  }

  lemma EntriesKeep(s: State, step: Step)
    requires Tracked(s) && Enabled(s, step)
    ensures forall id :: id in Apply(s, step).cache ==> EntryTracked(Apply(s, step), id)
  {
    var s' := Apply(s, step);
    forall id | id in s'.cache ensures EntryTracked(s', id) {
      if step.Fill? && s.readers[step.reader].id == id && step.stored {
        assert ReaderTracked(s, s.readers[step.reader]);
      } else {
        assert EntryTracked(s, id);
      }
    }
  }

  lemma ReadersKeep(s: State, step: Step)
    requires Tracked(s) && Enabled(s, step)
    ensures forall r :: 0 <= r < |Apply(s, step).readers| ==> ReaderTracked(Apply(s, step), Apply(s, step).readers[r])
  {
    var s' := Apply(s, step);
    forall r | 0 <= r < |s'.readers| ensures ReaderTracked(s', s'.readers[r]) {
      if r < |s.readers| {
        assert ReaderTracked(s, s.readers[r]);
      }
    }
  }

  lemma AnswersKeep(s: State, step: Step)
    requires Tracked(s) && Enabled(s, step)
    ensures forall i :: 0 <= i < |Apply(s, step).answers| ==> AnswerTracked(Apply(s, step), Apply(s, step).answers[i])
  {
    var s' := Apply(s, step);
    forall i | 0 <= i < |s'.answers| ensures AnswerTracked(s', s'.answers[i]) {
      if i < |s.answers| {
        assert AnswerTracked(s, s.answers[i]);
      } else if step.Fill? {
        assert ReaderTracked(s, s.readers[step.reader]);
      } else {
        assert EntryTracked(s, step.id);
      }
    }
  }

  lemma StepKeeps(s: State, step: Step)
    requires Tracked(s) && Enabled(s, step)
    ensures Tracked(Apply(s, step))
  {
    EntriesKeep(s, step);
    ReadersKeep(s, step);
    AnswersKeep(s, step);
  }

  lemma {:induction false} RunKeeps(s: State, run: seq<Step>)
    requires Tracked(s) && Legal(s, run)
    ensures Tracked(Run(s, run))
    decreases |run|
  {
    if run != [] {
      StepKeeps(s, run[0]);
      RunKeeps(Apply(s, run[0]), run[1..]);
    }
  }

  /** What is cached, and what a reader has in hand, are rows that exist: the steps' demand for one excludes nothing. */
  lemma CachedRowsExist(s: State, run: seq<Step>, id: Id, r: nat)
    requires Initial(s) && Legal(s, run)
    ensures id in Run(s, run).cache ==> Versions(Run(s, run), id) != []
    ensures r < |Run(s, run).readers| ==> Versions(Run(s, run), Run(s, run).readers[r].id) != []
  {
    RunKeeps(s, run);
    assert r < |Run(s, run).readers| ==> ReaderTracked(Run(s, run), Run(s, run).readers[r]);
  }

  /**
   Over every run, an answer is stale if and only if a commit to its row lies after the read it came from and
   the newest such commit at the time of the answer has another value.
   */
  lemma StaleExactlyWhenOvertaken(s: State, run: seq<Step>, i: nat)
    requires Initial(s) && Legal(s, run) && i < |Run(s, run).answers|
    ensures var end := Run(s, run); var a := end.answers[i]; var h := Versions(end, a.id);
      && a.version <= a.newest < |h| && h[a.version].row == a.row && CurrentAt(h, a.newest, a.at)
      && (Stale(end, a) <==> a.version < a.newest && h[a.newest].row != h[a.version].row)
  {
    RunKeeps(s, run);
    assert AnswerTracked(Run(s, run), Run(s, run).answers[i]);
  }

  // --------------------------------------------- when invalidations succeed

  /** Each commit to the row is followed by a drop of its key before the key is next hit. */
  predicate Prompt(s: State, run: seq<Step>, id: Id)
    requires Legal(s, run)
    decreases |run|
  {
    run == [] || ((run[0] == Hit(id) ==> id !in s.owed) && Prompt(Apply(s, run[0]), run[1..], id))
  }

  /** A reader answers, and possibly fills the cache, with a row that has been changed since it read it. */
  predicate LateFill(s: State, step: Step, id: Id)
    requires Enabled(s, step)
  {
    step.Fill? && s.readers[step.reader].id == id && s.readers[step.reader].row != Current(s, id)
  }

  predicate EverLate(s: State, run: seq<Step>, id: Id)
    requires Legal(s, run)
    decreases |run|
  {
    run != [] && (LateFill(s, run[0], id) || EverLate(Apply(s, run[0]), run[1..], id))
  }

  predicate EverStoresLate(s: State, run: seq<Step>, id: Id)
    requires Legal(s, run)
    decreases |run|
  {
    run != [] && ((LateFill(s, run[0], id) && run[0].stored) || EverStoresLate(Apply(s, run[0]), run[1..], id))
  }

  /** No answer for the row was given while an invalidation was due. */
  predicate NoneOwed(s: State, id: Id) {
    forall i :: 0 <= i < |s.answers| && s.answers[i].id == id ==> !s.answers[i].owed
  }

  predicate AnyLate(s: State, id: Id) {
    exists i :: 0 <= i < |s.answers| && s.answers[i].id == id && s.answers[i].late
  }

  /** Whoever cached a late row was told it, too. */
  predicate LateWasTold(s: State, id: Id) {
    id in s.cache && s.cache[id].late ==> AnyLate(s, id)
  }

  lemma LateStep(s: State, step: Step, id: Id)
    requires Enabled(s, step) && LateWasTold(s, id)
    ensures LateWasTold(Apply(s, step), id)
    ensures AnyLate(Apply(s, step), id) <==> AnyLate(s, id) || LateFill(s, step, id)
  {
    var s' := Apply(s, step);
    if AnyLate(s, id) {
      var i :| 0 <= i < |s.answers| && s.answers[i].id == id && s.answers[i].late;
      assert s'.answers[i] == s.answers[i];
    }
    if LateFill(s, step, id) {
      assert s'.answers[|s.answers|].id == id && s'.answers[|s.answers|].late;
    }
  }

  lemma {:induction false} LateRun(s: State, run: seq<Step>, id: Id)
    requires Legal(s, run) && LateWasTold(s, id) && NoneOwed(s, id) && Prompt(s, run, id)
    ensures NoneOwed(Run(s, run), id)
    ensures AnyLate(Run(s, run), id) <==> AnyLate(s, id) || EverLate(s, run, id)
    decreases |run|
  {
    if run != [] {
      LateStep(s, run[0], id);
      LateRun(Apply(s, run[0]), run[1..], id);
    }
  }

  /**
   If each commit to a row is followed by a drop of its key before the next hit, then every answer about the row
   is current if and only if no reader came back with a row changed since it had read it.
   */
  lemma CurrentExactlyUnlessLate(s: State, run: seq<Step>, id: Id)
    requires Initial(s) && Legal(s, run) && Prompt(s, run, id)
    ensures var end := Run(s, run);
      && (forall i :: 0 <= i < |end.answers| ==> end.answers[i].newest < |Versions(end, end.answers[i].id)|)
      && ((forall i :: 0 <= i < |end.answers| && end.answers[i].id == id ==> !Stale(end, end.answers[i]))
          <==> !EverLate(s, run, id))
  {
    RunKeeps(s, run);
    LateRun(s, run, id);
    var end := Run(s, run);
    forall i | 0 <= i < |end.answers|
      ensures end.answers[i].newest < |Versions(end, end.answers[i].id)|
      ensures end.answers[i].id == id ==> (Stale(end, end.answers[i]) <==> end.answers[i].late)
    {
      assert AnswerTracked(end, end.answers[i]);
    }
  }

  // ------------------------------------------------------------ hits alone

  /** No late row is cached, and no hit has given one. */
  predicate NoLateHit(s: State, id: Id) {
    && (id in s.cache ==> !s.cache[id].late)
    && (forall i :: 0 <= i < |s.answers| && s.answers[i].id == id && !s.answers[i].own ==> !s.answers[i].late)
  }

  lemma {:induction false} NoLateHitRun(s: State, run: seq<Step>, id: Id)
    requires Legal(s, run) && NoLateHit(s, id) && !EverStoresLate(s, run, id)
    ensures NoLateHit(Run(s, run), id)
    decreases |run|
  {
    if run != [] {
      NoLateHitRun(Apply(s, run[0]), run[1..], id);
    }
  }

  /** Then every cache hit is current if no late row is ever stored. */
  lemma HitsAreCurrent(s: State, run: seq<Step>, id: Id, i: nat)
    requires Initial(s) && Legal(s, run) && Prompt(s, run, id) && !EverStoresLate(s, run, id)
    requires i < |Run(s, run).answers| && Run(s, run).answers[i].id == id && !Run(s, run).answers[i].own
    ensures var end := Run(s, run);
      end.answers[i].newest < |Versions(end, id)| && !Stale(end, end.answers[i])
  {
    RunKeeps(s, run);
    LateRun(s, run, id);
    NoLateHitRun(s, run, id);
    assert AnswerTracked(Run(s, run), Run(s, run).answers[i]);
  }

  /** And not otherwise: the hit that follows a stored row is stale if and only if that row was late. */
  lemma HitAfterFill(s: State, r: nat)
    requires Tracked(s) && Enabled(s, Fill(r, true)) && s.ttl > 0
    ensures var filled, id := Apply(s, Fill(r, true)), s.readers[r].id;
      && Enabled(filled, Hit(id))
      && var end := Apply(filled, Hit(id)); var a := end.answers[|end.answers| - 1];
         && a.id == id && !a.own && a.newest < |Versions(end, id)|
         && (Stale(end, a) <==> LateFill(s, Fill(r, true), id))
  {
  }
}
