/**
 The product cache under concurrency: a reader's database read and its cache write are separate
 steps, a writer's commit and its invalidation are separate steps, and the latter may never happen.
 */
module CacheStaleness {
  import opened Basics
  import P = Products

  /** A committed version of a row. */
  datatype Version = Version(at: nat, row: P.Product)

  /**
   What Redis holds for a product key.  All but `row` is history: when and in which version the row was read,
   when it was cached, and whether the row had changed in between.
   */
  datatype Entry = Entry(row: P.Product, readAt: nat, filledAt: nat, version: nat, late: bool)

  /** A GetByID that missed the cache and has read the database. */
  datatype Reader = Reader(id: Id, row: P.Product, readAt: nat, version: nat, done: bool)

  /**
   An answer given to a caller, with the history that explains it.  `newest` is the version current when it was
   given; `own` tells the answer of the reader itself from a cache hit; `owed` says that an invalidation was due.
   */
  datatype Answer = Answer(id: Id, row: P.Product, at: nat, readAt: nat, filledAt: nat,
                           version: nat, newest: nat, late: bool, owed: bool, own: bool)

  datatype State = State(
    ttl: nat,
    now: nat,
    history: map<Id, seq<Version>>,   // the last version is the current row
    owed: set<Id>,                    // rows changed since their key was last dropped
    cache: map<Id, Entry>,
    readers: seq<Reader>,
    answers: seq<Answer>)

  datatype Step =
    | Tick(d: nat)
    | Commit(id: Id, row: P.Product)     // insert or update of a row
    | Drop(id: Id)                       // invalidation, expiry or eviction of a key
    | Hit(id: Id)                        // cached GetByID finds the key and returns
    | Read(id: Id)                       // cached GetByID misses and reads the database
    | Fill(reader: nat, stored: bool)    // ... writes the cache (or fails to) and returns

  function Versions(s: State, id: Id): seq<Version> {
    if id in s.history then s.history[id] else []
  }

  function Current(s: State, id: Id): P.Product
    requires Versions(s, id) != []
  {
    s.history[id][|s.history[id]| - 1].row
  }

  predicate Enabled(s: State, step: Step) {
    match step
    case Tick(_) => true
    case Commit(_, _) => true
    case Drop(_) => true
    case Hit(id) => id in s.cache && s.now < s.cache[id].filledAt + s.ttl && Versions(s, id) != []
    case Read(id) => Versions(s, id) != []
    case Fill(r, _) => r < |s.readers| && !s.readers[r].done && Versions(s, s.readers[r].id) != []
  }

  function Apply(s: State, step: Step): State
    requires Enabled(s, step)
  {
    match step
    case Tick(d) => s.(now := s.now + d)
    case Commit(id, row) =>
      s.(history := s.history[id := Versions(s, id) + [Version(s.now, row)]],
         owed := if Versions(s, id) == [] then s.owed else s.owed + {id})
    case Drop(id) => s.(cache := s.cache - {id}, owed := s.owed - {id})
    case Hit(id) =>
      var e := s.cache[id];
      s.(answers := s.answers + [Answer(id, e.row, s.now, e.readAt, e.filledAt, e.version, |s.history[id]| - 1,
                                        e.late, id in s.owed, false)])
    case Read(id) =>
      s.(readers := s.readers + [Reader(id, Current(s, id), s.now, |s.history[id]| - 1, false)])
    case Fill(r, stored) =>
      var rd := s.readers[r];
      var late := rd.row != Current(s, rd.id);
      s.(readers := s.readers[r := rd.(done := true)],
         cache := if stored then s.cache[rd.id := Entry(rd.row, rd.readAt, s.now, rd.version, late)] else s.cache,
         answers := s.answers + [Answer(rd.id, rd.row, s.now, rd.readAt, s.now, rd.version, |s.history[rd.id]| - 1,
                                        late, false, true)])
  }

  predicate Legal(s: State, run: seq<Step>)
    decreases |run|
  {
    run == [] || (Enabled(s, run[0]) && Legal(Apply(s, run[0]), run[1..]))
  }

  function Run(s: State, run: seq<Step>): State
    requires Legal(s, run)
    decreases |run|
  {
    if run == [] then s else Run(Apply(s, run[0]), run[1..])
  }

  predicate Chronological(h: seq<Version>, now: nat) {
    && (forall i :: 0 <= i < |h| ==> h[i].at <= now)
    && (forall i, j :: 0 <= i < j < |h| ==> h[i].at <= h[j].at)
  }

  predicate Initial(s: State) {
    && s.cache == map[] && s.readers == [] && s.answers == [] && s.owed == {}
    && forall id :: id in s.history ==> Chronological(s.history[id], s.now)
  }

  // -------------------------------------------------------------- invariant

  predicate CurrentAt(h: seq<Version>, i: nat, t: nat)
    requires i < |h|
  {
    h[i].at <= t && (i + 1 < |h| ==> t <= h[i + 1].at)
  }

  /** The row really had this value at time `t`. */
  ghost predicate HadAt(h: seq<Version>, row: P.Product, t: nat) {
    exists i :: 0 <= i < |h| && h[i].row == row && CurrentAt(h, i, t)
  }

  ghost predicate WasRead(s: State, id: Id, row: P.Product, t: nat) {
    t <= s.now && id in s.history && HadAt(s.history[id], row, t)
  }

  ghost predicate AnswerOk(s: State, a: Answer) {
    && WasRead(s, a.id, a.row, a.readAt)
    && a.readAt <= a.filledAt <= a.at <= s.now
    && (a.at == a.filledAt || a.at < a.filledAt + s.ttl)
  }

  ghost predicate Inv(s: State) {
    && (forall id :: id in s.history ==> Chronological(s.history[id], s.now))
    && (forall id :: id in s.cache ==>
          && WasRead(s, id, s.cache[id].row, s.cache[id].readAt)
          && s.cache[id].readAt <= s.cache[id].filledAt <= s.now)
    && (forall r :: 0 <= r < |s.readers| ==> WasRead(s, s.readers[r].id, s.readers[r].row, s.readers[r].readAt))
    && (forall i :: 0 <= i < |s.answers| ==> AnswerOk(s, s.answers[i]))
  }

  /** Later commits do not change what the row was at an earlier time. */
  lemma PastIsFixed(h: seq<Version>, v: Version, row: P.Product, t: nat)
    requires HadAt(h, row, t) && t <= v.at
    ensures HadAt(h + [v], row, t)
  {
    var i :| 0 <= i < |h| && h[i].row == row && CurrentAt(h, i, t);
    assert (h + [v])[i] == h[i];
    assert CurrentAt(h + [v], i, t);
  }

  lemma StillRead(s: State, step: Step, id: Id, row: P.Product, t: nat)
    requires Enabled(s, step) && WasRead(s, id, row, t)
    ensures WasRead(Apply(s, step), id, row, t)
  {
    if step.Commit? && step.id == id {
      PastIsFixed(s.history[id], Version(s.now, step.row), row, t);
    }
  }

  lemma HistoryKeeps(s: State, step: Step)
    requires Inv(s) && Enabled(s, step)
    ensures forall id :: id in Apply(s, step).history ==> Chronological(Apply(s, step).history[id], Apply(s, step).now)
  {
  }

  lemma JustRead(s: State, id: Id)
    requires Inv(s) && Enabled(s, Read(id))
    ensures WasRead(s, id, Current(s, id), s.now)
  {
  }

  lemma CacheKeeps(s: State, step: Step)
    requires Inv(s) && Enabled(s, step)
    ensures var s' := Apply(s, step);
      forall id :: id in s'.cache ==>
        WasRead(s', id, s'.cache[id].row, s'.cache[id].readAt) && s'.cache[id].readAt <= s'.cache[id].filledAt <= s'.now
  {
    var s' := Apply(s, step);
    forall id | id in s'.cache
      ensures WasRead(s', id, s'.cache[id].row, s'.cache[id].readAt)
      ensures s'.cache[id].readAt <= s'.cache[id].filledAt <= s'.now
    {
      if id in s.cache && s'.cache[id] == s.cache[id] {
        StillRead(s, step, id, s.cache[id].row, s.cache[id].readAt);
      } else {
        var rd := s.readers[step.reader];
        StillRead(s, step, rd.id, rd.row, rd.readAt);
      }
    }
  }

  lemma ReadersKeep(s: State, step: Step)
    requires Inv(s) && Enabled(s, step)
    ensures var s' := Apply(s, step);
      forall r :: 0 <= r < |s'.readers| ==> WasRead(s', s'.readers[r].id, s'.readers[r].row, s'.readers[r].readAt)
  {
    var s' := Apply(s, step);
    forall r | 0 <= r < |s'.readers|
      ensures WasRead(s', s'.readers[r].id, s'.readers[r].row, s'.readers[r].readAt)
    {
      if r < |s.readers| {
        StillRead(s, step, s.readers[r].id, s.readers[r].row, s.readers[r].readAt);
      } else {
        JustRead(s, step.id);
      }
    }
  }

  lemma AnswersKeep(s: State, step: Step)
    requires Inv(s) && Enabled(s, step)
    ensures var s' := Apply(s, step); forall i :: 0 <= i < |s'.answers| ==> AnswerOk(s', s'.answers[i])
  {
    var s' := Apply(s, step);
    forall i | 0 <= i < |s'.answers| ensures AnswerOk(s', s'.answers[i]) {
      if i < |s.answers| {
        var a := s.answers[i];
        assert AnswerOk(s, a);
        StillRead(s, step, a.id, a.row, a.readAt);
      } else if step.Fill? {
        var rd := s.readers[step.reader];
        StillRead(s, step, rd.id, rd.row, rd.readAt);
      } else {
        StillRead(s, step, step.id, s.cache[step.id].row, s.cache[step.id].readAt);
      }
    }
  }

  lemma {:induction false} RunKeeps(s: State, run: seq<Step>)
    requires Inv(s) && Legal(s, run)
    ensures Inv(Run(s, run)) && Run(s, run).ttl == s.ttl
    decreases |run|
  {
    if run != [] {
      HistoryKeeps(s, run[0]);
      CacheKeeps(s, run[0]);
      ReadersKeep(s, run[0]);
      AnswersKeep(s, run[0]);
      RunKeeps(Apply(s, run[0]), run[1..]);
    }
  }

  /**
   Bounded staleness: in every interleaving, even if no invalidation ever succeeds, every product
   returned is a value its row really had at some time `t`, and by the time it is returned that is
   less than the TTL plus the filling reader's own delay ago (exactly that delay, for the reader itself).
   */
  lemma BoundedStaleness(s: State, run: seq<Step>, i: nat)
    requires Initial(s) && Legal(s, run) && i < |Run(s, run).answers|
    ensures var a := Run(s, run).answers[i];
      && a.id in Run(s, run).history && HadAt(Run(s, run).history[a.id], a.row, a.readAt)
      && a.readAt <= a.at
      && (a.at - a.readAt == a.filledAt - a.readAt || a.at - a.readAt < s.ttl + (a.filledAt - a.readAt))
  {
    RunKeeps(s, run);
    assert AnswerOk(Run(s, run), Run(s, run).answers[i]);
  }

  // ------------------------------------------------- the bound is needed

  function Row(name: string): P.Product {
    P.Product(1, P.Details(name, "", "books", 500), 2, 0, true)
  }

  lemma {:induction false} RunSnoc(s: State, run: seq<Step>, step: Step)
    requires Legal(s, run) && Enabled(Run(s, run), step)
    ensures Legal(s, run + [step]) && Run(s, run + [step]) == Apply(Run(s, run), step)
    decreases |run|
  {
    if run == [] {
      assert [step][1..] == [];
    } else {
      RunSnoc(Apply(s, run[0]), run[1..], step);
      assert (run + [step])[1..] == run[1..] + [step];
    }
  }

  function Before(): State {
    State(60, 0, map[1 := [Version(0, Row("old"))]], {}, map[], [], [])
  }

  /** A reader has read the old row, a writer has committed and invalidated, the reader has filled the cache. */
  function Filled(): State {
    State(60, 0, map[1 := [Version(0, Row("old")), Version(0, Row("new"))]], {},
          map[1 := Entry(Row("old"), 0, 0, 0, true)],
          [Reader(1, Row("old"), 0, 0, true)], [Answer(1, Row("old"), 0, 0, 0, 0, 1, true, false, true)])
  }

  lemma Race() returns (run: seq<Step>)
    ensures Legal(Before(), run) && Run(Before(), run) == Filled()
  {
    var s := Before();
    RunSnoc(s, [], Read(1));
    run := [] + [Read(1)];
    assert Run(s, run).history == s.history && Run(s, run).now == 0;
    assert Run(s, run).owed == {};
    assert [Version(0, Row("old"))] + [Version(0, Row("new"))] == [Version(0, Row("old")), Version(0, Row("new"))];
    RunSnoc(s, run, Commit(1, Row("new")));
    run := run + [Commit(1, Row("new"))];
    assert Run(s, run).history == Filled().history;
    RunSnoc(s, run, Drop(1));
    run := run + [Drop(1)];
    assert Run(s, run).readers == [Reader(1, Row("old"), 0, 0, false)];
    RunSnoc(s, run, Fill(0, true));
    run := run + [Fill(0, true)];
    var end := Run(s, run);
    assert end.owed == {};
    assert end.cache == Filled().cache;
    assert end.readers == Filled().readers;
    assert end.answers == Filled().answers;
  }

  /**
   An answer can be out of date although the writer's invalidation succeeded before the cache was
   filled: ten ticks after the race, somebody is still given the old row.
   */
  lemma StaleAfterInvalidation() returns (s: State, run: seq<Step>)
    ensures Initial(s) && Legal(s, run)
    ensures var end := Run(s, run);
      && end.answers == Filled().answers + [Answer(1, Row("old"), 10, 0, 0, 0, 1, true, false, false)]
      && end.history == map[1 := [Version(0, Row("old")), Version(0, Row("new"))]]
  {
    s := Before();
    run := Race();
    RunSnoc(s, run, Tick(10));
    run := run + [Tick(10)];
    assert Run(s, run) == Filled().(now := 10);
    RunSnoc(s, run, Hit(1));
    run := run + [Hit(1)];
  }
}
