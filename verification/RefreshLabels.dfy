/** Refresh tokens by the steps of the run: which looks start a refresh, what is revoked, and that both work. */
module RefreshLabels {
  import opened Basics
  import opened RefreshTokens

  /** A look-up that RefreshToken goes on from: the row is not revoked and not expired. */
  predicate ValidLook(s: State, step: Step, t: nat) {
    step == Look(Refresh, t) && t < |s.tokens| && !s.tokens[t].revoked && s.now < s.tokens[t].expiresAt
  }

  predicate EverLooks(s: State, run: seq<Step>, t: nat)
    requires Legal(s, run)
    decreases |run|
  {
    run != [] && (ValidLook(s, run[0], t) || EverLooks(Apply(s, run[0]), run[1..], t))
  }

  /** Looking starts a call exactly for a logout, or for a row that is neither revoked nor expired. */
  lemma LookStartsExactly(s: State, kind: CallKind, t: nat)
    requires Enabled(s, Look(kind, t))
    ensures var s' := Apply(s, Look(kind, t));
      && (|s'.calls| == |s.calls| + 1 <==> kind == Logout || (!s.tokens[t].revoked && s.now < s.tokens[t].expiresAt))
      && (|s'.calls| == |s.calls| <==> s' == s)
      && s'.tokens == s.tokens
  {
  }

  // ---------------------------------------------------------------- refreshes

  ghost predicate RefreshCall(s: State, t: nat) {
    exists c :: 0 <= c < |s.calls| && s.calls[c].kind == Refresh && s.calls[c].token == t
  }

  ghost predicate Replaced(s: State, t: nat) {
    exists i :: 0 <= i < |s.tokens| && s.tokens[i].parent == Some(t)
  }

  /** A refresh of row `t` is or was under way, or has replaced it. */
  ghost predicate Touched(s: State, t: nat) {
    RefreshCall(s, t) || Replaced(s, t)
  }

  lemma CallStep(s: State, step: Step, t: nat)
    requires Enabled(s, step)
    ensures RefreshCall(Apply(s, step), t) <==> RefreshCall(s, t) || ValidLook(s, step, t)
  {
    var s' := Apply(s, step);
    assert forall c :: 0 <= c < |s.calls| ==> s'.calls[c].kind == s.calls[c].kind && s'.calls[c].token == s.calls[c].token;
    if ValidLook(s, step, t) {
      assert s'.calls[|s.calls|].kind == Refresh && s'.calls[|s.calls|].token == t;
    }
    if RefreshCall(s, t) {
      var c :| 0 <= c < |s.calls| && s.calls[c].kind == Refresh && s.calls[c].token == t;
      assert s'.calls[c].kind == Refresh && s'.calls[c].token == t;
    }
  }

  lemma ReplacedStep(s: State, step: Step, t: nat)
    requires Enabled(s, step) && (step.Issue? ==> CallOk(s, s.calls[step.call]))
    ensures Replaced(s, t) ==> Replaced(Apply(s, step), t)
    ensures Replaced(Apply(s, step), t) ==> Replaced(s, t) || RefreshCall(s, t)
  {
    var s' := Apply(s, step);
    assert forall i :: 0 <= i < |s.tokens| ==> s'.tokens[i].parent == s.tokens[i].parent;
    if Replaced(s, t) {
      var i :| 0 <= i < |s.tokens| && s.tokens[i].parent == Some(t);
      assert s'.tokens[i].parent == Some(t);
    }
  }

  lemma TouchedStep(s: State, step: Step, t: nat)
    requires Inv(s) && Enabled(s, step)
    ensures Touched(Apply(s, step), t) <==> Touched(s, t) || ValidLook(s, step, t)
  {
    if step.Issue? {
      assert CallOk(s, s.calls[step.call]);
    }
    CallStep(s, step, t);
    ReplacedStep(s, step, t);
  }

  lemma {:induction false} TouchedRun(s: State, run: seq<Step>, t: nat)
    requires Inv(s) && Legal(s, run)
    ensures Touched(Run(s, run), t) <==> Touched(s, t) || EverLooks(s, run, t)
    decreases |run|
  {
    if run != [] {
      TouchedStep(s, run[0], t);
      StepKeeps(s, run[0]);
      TouchedRun(Apply(s, run[0]), run[1..], t);
    }
  }

  /**
   A row is refreshed, successfully or not, exactly if in the run somebody looked it up while it was neither revoked
   nor expired.
   */
  lemma RefreshedExactlyWhenValid(s: State, run: seq<Step>, t: nat)
    requires Initial(s) && Legal(s, run)
    ensures Touched(Run(s, run), t) <==> EverLooks(s, run, t)
  {
    InitialHolds(s);
    TouchedRun(s, run, t);
  }

  // --------------------------------------------------------------- revocation

  predicate Revokes(s: State, step: Step, t: nat)
    requires Enabled(s, step)
  {
    step.Revoke? && step.ok && s.calls[step.call].token == t
  }

  predicate EverRevokes(s: State, run: seq<Step>, t: nat)
    requires Legal(s, run)
    decreases |run|
  {
    run != [] && (Revokes(s, run[0], t) || EverRevokes(Apply(s, run[0]), run[1..], t))
  }

  predicate IsRevoked(s: State, t: nat) { t < |s.tokens| && s.tokens[t].revoked }

  lemma {:induction false} RevokedRun(s: State, run: seq<Step>, t: nat)
    requires Legal(s, run)
    ensures IsRevoked(Run(s, run), t) <==> IsRevoked(s, t) || EverRevokes(s, run, t)
    decreases |run|
  {
    if run != [] {
      RevokedRun(Apply(s, run[0]), run[1..], t);
    }
  }

  /** A row is revoked exactly if some call's UPDATE on it reached the database. */
  lemma RevokedExactly(s: State, run: seq<Step>, t: nat)
    requires Initial(s) && Legal(s, run)
    ensures IsRevoked(Run(s, run), t) <==> EverRevokes(s, run, t)
  {
    RevokedRun(s, run, t);
  }

  // ------------------------------------------------------------- and they work

  lemma RunCons(s: State, step: Step, rest: seq<Step>)
    requires Enabled(s, step) && Legal(Apply(s, step), rest)
    ensures Legal(s, [step] + rest) && Run(s, [step] + rest) == Run(Apply(s, step), rest)
  {
    assert ([step] + rest)[1..] == rest;
  }

  /** A login gives a row that is valid until its time is over. */
  lemma LoginWorks(s: State, ttl: nat)
    requires Enabled(s, Login(ttl))
    ensures var s' := Apply(s, Login(ttl)); var row := s'.tokens[|s.tokens|];
      && s'.tokens == s.tokens + [row] && s'.sessions == s.sessions + 1
      && row.session == s.sessions && row.parent == None && !row.revoked && row.expiresAt == s.now + ttl
  {
  }

  /** An uninterrupted refresh of a valid row revokes it and issues its successor, valid and in the same session. */
  lemma RefreshWorks(s: State, t: nat, ttl: nat)
    requires t < |s.tokens| && !s.tokens[t].revoked && s.now < s.tokens[t].expiresAt && ttl > 0
    ensures var c := |s.calls|; var run := [Look(Refresh, t), Revoke(c, true), Issue(c, true, ttl)];
      && Legal(s, run)
      && var end := Run(s, run);
         && |end.tokens| == |s.tokens| + 1 && end.tokens[t].revoked
         && (forall i :: 0 <= i < |s.tokens| && i != t ==> end.tokens[i] == s.tokens[i])
         && var next := end.tokens[|s.tokens|];
            && next.session == s.tokens[t].session && next.parent == Some(t) && !next.revoked
            && next.expiresAt == s.now + ttl
  {
    var c := |s.calls|;
    var s1 := Apply(s, Look(Refresh, t));
    var s2 := Apply(s1, Revoke(c, true));
    RunCons(s2, Issue(c, true, ttl), []);
    RunCons(s1, Revoke(c, true), [Issue(c, true, ttl)] + []);
    RunCons(s, Look(Refresh, t), [Revoke(c, true)] + ([Issue(c, true, ttl)] + []));
    assert [Look(Refresh, t)] + ([Revoke(c, true)] + ([Issue(c, true, ttl)] + []))
        == [Look(Refresh, t), Revoke(c, true), Issue(c, true, ttl)];
  }

  /** An uninterrupted logout, valid or not, revokes the row, issues nothing, and can issue nothing later. */
  lemma LogoutWorks(s: State, t: nat)
    requires t < |s.tokens|
    ensures var c := |s.calls|; var run := [Look(Logout, t), Revoke(c, true)];
      && Legal(s, run)
      && var end := Run(s, run);
         && |end.tokens| == |s.tokens| && |end.calls| == c + 1 && end.tokens[t].revoked && end.calls[c].phase.Over?
         && forall i :: 0 <= i < |s.tokens| && i != t ==> end.tokens[i] == s.tokens[i]
  {
    var c := |s.calls|;
    var s1 := Apply(s, Look(Logout, t));
    RunCons(s1, Revoke(c, true), []);
    RunCons(s, Look(Logout, t), [Revoke(c, true)] + []);
    assert [Look(Logout, t)] + ([Revoke(c, true)] + []) == [Look(Logout, t), Revoke(c, true)];
  }

  /** A call that is over revokes and issues nothing any more. */
  lemma {:induction false} OverIsOver(s: State, run: seq<Step>, c: nat)
    requires Legal(s, run) && c < |s.calls| && s.calls[c].phase.Over?
    ensures forall i :: 0 <= i < |run| && (run[i].Revoke? || run[i].Issue?) ==> run[i].call != c
    decreases |run|
  {
    if run != [] {
      OverIsOver(Apply(s, run[0]), run[1..], c);
      assert forall i :: 1 <= i < |run| ==> run[i] == run[1..][i - 1];
    }
  }

  lemma QuitAndIssueEnd(s: State, step: Step)
    requires Enabled(s, step) && (step.Quit? || step.Issue?)
    ensures Apply(s, step).calls[step.call].phase.Over?
    ensures step.Quit? ==> Apply(s, step).tokens == s.tokens
    ensures step.Issue? && !step.ok ==> Apply(s, step).tokens == s.tokens
  {
  }

  // -------------------------------------------------------------------- time

  /** The time a run takes. */
  function Elapsed(run: seq<Step>): nat {
    if run == [] then 0 else (if run[0].Tick? then run[0].d else 0) + Elapsed(run[1..])
  }

  lemma {:induction false} ClockRun(s: State, run: seq<Step>, t: nat)
    requires Legal(s, run) && t < |s.tokens|
    ensures Run(s, run).now == s.now + Elapsed(run)
    ensures t < |Run(s, run).tokens| && Run(s, run).tokens[t].expiresAt == s.tokens[t].expiresAt
    decreases |run|
  {
    if run != [] {
      ClockRun(Apply(s, run[0]), run[1..], t);
    }
  }

  /** The row of a login can be refreshed exactly until its time is over or somebody revokes it. */
  lemma LoginLastsItsTime(s: State, ttl: nat, run: seq<Step>)
    requires Enabled(s, Login(ttl)) && Legal(Apply(s, Login(ttl)), run)
    ensures var loggedIn := Apply(s, Login(ttl)); var end := Run(loggedIn, run);
      && |s.tokens| < |end.tokens|
      && (IsValid(end.tokens[|s.tokens|], end.now) <==> Elapsed(run) < ttl && !EverRevokes(loggedIn, run, |s.tokens|))
  {
    ClockRun(Apply(s, Login(ttl)), run, |s.tokens|);
    RevokedRun(Apply(s, Login(ttl)), run, |s.tokens|);
  }
}
