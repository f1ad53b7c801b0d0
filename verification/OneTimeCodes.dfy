/** One-time login codes with concurrent verifiers. */
module OneTimeCodes {
  import opened Sums

  /** VerifyOTP calls whose code matched: about to delete the challenge, past a successful delete, issued, or over. */
  datatype Phase = Matched | Consumed | Issued | Over

  datatype Verifier = Verifier(challenge: nat, code: string, phase: Phase)

  datatype State = State(
    codes: seq<string>,        // the code of every challenge ever created; its id is its position
    stored: set<nat>,          // challenges present in Redis
    verifiers: seq<Verifier>)

  datatype DeleteReply = Deleted | Failed | ReplyLost

  datatype Step =
    | Challenge(code: string)                     // OTPLogin: SaveChallenge
    | Expire(challenge: nat)
    | Verify(challenge: nat, code: string)        // GetChallenge and the comparison
    | Delete(verifier: nat, reply: DeleteReply)   // DeleteChallenge: DEL and its count
    | Issue(verifier: nat, ok: bool)              // GetByID and issueTokens

  predicate Enabled(s: State, step: Step) {
    match step
    case Challenge(code) => code != ""
    case Expire(_) => true
    case Verify(_, _) => true
    case Delete(v, _) => v < |s.verifiers| && s.verifiers[v].phase.Matched?
    case Issue(v, _) => v < |s.verifiers| && s.verifiers[v].phase.Consumed?
  }

  function SetPhase(s: State, v: nat, phase: Phase): State
    requires v < |s.verifiers|
  {
    s.(verifiers := s.verifiers[v := s.verifiers[v].(phase := phase)])
  }

  function Apply(s: State, step: Step): State
    requires Enabled(s, step)
  {
    match step
    case Challenge(code) => s.(codes := s.codes + [code], stored := s.stored + {|s.codes|})
    case Expire(c) => s.(stored := s.stored - {c})
    case Verify(c, code) =>
      if c in s.stored && c < |s.codes| && s.codes[c] == code then
        s.(verifiers := s.verifiers + [Verifier(c, code, Matched)])
      else s
    case Delete(v, reply) =>
      var c := s.verifiers[v].challenge;
      if reply.Failed? then SetPhase(s, v, Over)
      else
        // the caller goes on only if it learns that its DEL removed a key
        SetPhase(s, v, if reply.Deleted? && c in s.stored then Consumed else Over).(stored := s.stored - {c})
    case Issue(v, ok) => SetPhase(s, v, if ok then Issued else Over)
  }

  predicate Legal(s: State, run: seq<Step>)
    decreases |run|
  {
    run == [] || (Enabled(s, run[0]) && Legal(Apply(s, run[0]), run[1..]))
  }

  function Run(s: State, run: seq<Step>): State
    requires Legal(s, run)
    decreases |run|
  {
    if run == [] then s else Run(Apply(s, run[0]), run[1..])
  }

  predicate Initial(s: State) {
    s == State([], {}, [])
  }

  /** A verifier that has used the challenge up: past the delete, or done issuing. */
  function Used(c: nat): Verifier -> int {
    (v: Verifier) => if v.challenge == c && (v.phase.Consumed? || v.phase.Issued?) then 1 else 0
  }

  /** (challenge still stored) + (verifiers past the delete but not yet issued) + (token pairs issued for it). */
  function Uses(s: State, c: nat): int {
    (if c in s.stored then 1 else 0) + Sum(s.verifiers, Used(c))
  }

  ghost predicate Inv(s: State) {
    && (forall c :: Uses(s, c) <= 1)
    && (forall c :: c in s.stored ==> c < |s.codes|)
    && (forall v :: 0 <= v < |s.verifiers| ==>
          s.verifiers[v].challenge < |s.codes| && s.verifiers[v].code == s.codes[s.verifiers[v].challenge])
  }

  lemma FreshChallenge(s: State)
    requires Inv(s)
    ensures Uses(s, |s.codes|) == 0
  {
    SumZero(s.verifiers, Used(|s.codes|));
  }

  /** A verifier's next phase and what it does to the challenge, as one move. */
  lemma MoveUses(s: State, v: nat, phase: Phase, stored: set<nat>, c: nat)
    requires v < |s.verifiers|
    ensures Uses(SetPhase(s, v, phase).(stored := stored), c) - Uses(s, c)
         == Used(c)(s.verifiers[v].(phase := phase)) - Used(c)(s.verifiers[v])
            + (if c in stored then 1 else 0) - (if c in s.stored then 1 else 0)
  {
    SumUpdate(s.verifiers, v, s.verifiers[v].(phase := phase), Used(c));
  }

  /** A delete that reports success takes the challenge's place; any other can only lower the count. */
  lemma DeleteUses(s: State, v: nat, reply: DeleteReply, c: nat)
    requires Enabled(s, Delete(v, reply))
    ensures Uses(Apply(s, Delete(v, reply)), c) <= Uses(s, c)
  {
    var s' := Apply(s, Delete(v, reply));
    MoveUses(s, v, s'.verifiers[v].phase, s'.stored, c);
    assert s' == SetPhase(s, v, s'.verifiers[v].phase).(stored := s'.stored);
  }

  lemma IssueUses(s: State, v: nat, ok: bool, c: nat)
    requires Enabled(s, Issue(v, ok))
    ensures Uses(Apply(s, Issue(v, ok)), c) <= Uses(s, c)
  {
    var s' := Apply(s, Issue(v, ok));
    MoveUses(s, v, s'.verifiers[v].phase, s.stored, c);
    assert s' == SetPhase(s, v, s'.verifiers[v].phase).(stored := s.stored);
  }

  lemma VerifyUses(s: State, x: nat, code: string, c: nat)
    ensures Uses(Apply(s, Verify(x, code)), c) == Uses(s, c)
  {
    SumSnoc(s.verifiers, Verifier(x, code, Matched), Used(c));
  }

  lemma StepUses(s: State, step: Step, c: nat)
    requires Enabled(s, step) && Uses(s, c) <= 1
    requires c == |s.codes| ==> Uses(s, c) == 0
    ensures Uses(Apply(s, step), c) <= 1
  {
    match step {
      case Challenge(code) =>
        assert Apply(s, step).verifiers == s.verifiers;
      case Expire(_) =>
      case Verify(x, code) => VerifyUses(s, x, code, c);
      case Delete(v, reply) => DeleteUses(s, v, reply, c);
      case Issue(v, ok) => IssueUses(s, v, ok, c);
    }
  }

  lemma {:induction false} RunKeeps(s: State, run: seq<Step>)
    requires Inv(s) && Legal(s, run)
    ensures Inv(Run(s, run))
    decreases |run|
  {
    if run != [] {
      FreshChallenge(s);
      forall c ensures Uses(Apply(s, run[0]), c) <= 1 { StepUses(s, run[0], c); }
      RunKeeps(Apply(s, run[0]), run[1..]);
    }
  }

  /**
   In every interleaving of logins and verifications, each challenge is still stored, or held by one
   verifier, or has produced one token pair, never two of these; and whoever used it knew its code.
   */
  lemma UsedAtMostOnce(s: State, run: seq<Step>, c: nat, v: nat)
    requires Initial(s) && Legal(s, run)
    ensures Uses(Run(s, run), c) <= 1
    ensures v < |Run(s, run).verifiers| && Used(c)(Run(s, run).verifiers[v]) == 1 ==>
              && c < |Run(s, run).codes| && Run(s, run).verifiers[v].code == Run(s, run).codes[c]
              && c !in Run(s, run).stored
  {
    forall x ensures Uses(s, x) <= 1 { }
    RunKeeps(s, run);
    var end := Run(s, run);
    assert Uses(end, c) <= 1;
    if v < |end.verifiers| && Used(c)(end.verifiers[v]) == 1 {
      SumPart(end.verifiers, v, Used(c));
    }
  }

  // ---------------------------------------------------- by the steps of the run

  /** The codes of the challenges a run creates. */
  function Created(run: seq<Step>): seq<string> {
    if run == [] then []
    else (if run[0].Challenge? then [run[0].code] else []) + Created(run[1..])
  }

  /** The step takes challenge `c` out of Redis, whether or not its caller learns of it. */
  predicate Removes(s: State, step: Step, c: nat)
    requires Enabled(s, step)
  {
    && c < |s.codes|
    && (step == Expire(c) || (step.Delete? && step.reply != Failed && s.verifiers[step.verifier].challenge == c))
  }

  predicate EverRemoved(s: State, run: seq<Step>, c: nat)
    requires Legal(s, run)
    decreases |run|
  {
    run != [] && (Removes(s, run[0], c) || EverRemoved(Apply(s, run[0]), run[1..], c))
  }

  lemma StoredStep(s: State, step: Step, c: nat)
    requires Enabled(s, step) && forall x :: x in s.stored ==> x < |s.codes|
    ensures var s' := Apply(s, step);
      && s'.codes == s.codes + (if step.Challenge? then [step.code] else [])
      && (forall x :: x in s'.stored ==> x < |s'.codes|)
      && (c in s'.stored <==> (c in s.stored || (step.Challenge? && c == |s.codes|)) && !Removes(s, step, c))
  {
  }

  lemma {:induction false} CodesRun(s: State, run: seq<Step>)
    requires Legal(s, run)
    ensures Run(s, run).codes == s.codes + Created(run)
    decreases |run|
  {
    if run != [] {
      CodesRun(Apply(s, run[0]), run[1..]);
    }
  }

  lemma {:induction false} StoredRun(s: State, run: seq<Step>, c: nat)
    requires Legal(s, run) && forall x :: x in s.stored ==> x < |s.codes|
    ensures c in Run(s, run).stored <==>
      (c in s.stored || |s.codes| <= c < |s.codes| + |Created(run)|) && !EverRemoved(s, run, c)
    decreases |run|
  {
    if run != [] {
      StoredStep(s, run[0], c);
      StoredRun(Apply(s, run[0]), run[1..], c);
    }
  }

  /** A challenge is in Redis, with the code it was made with, exactly if it was created and nothing has removed it. */
  lemma StoredExactlyUntilRemoved(s: State, run: seq<Step>, c: nat)
    requires Initial(s) && Legal(s, run)
    ensures Run(s, run).codes == Created(run)
    ensures c in Run(s, run).stored <==> c < |Created(run)| && !EverRemoved(s, run, c)
  {
    CodesRun(s, run);
    StoredRun(s, run, c);
  }

  /** A verification goes on exactly if the challenge is stored and the code is the stored one. */
  lemma MatchesExactly(s: State, c: nat, code: string)
    requires Inv(s)
    ensures var s' := Apply(s, Verify(c, code));
      && (|s'.verifiers| == |s.verifiers| + 1 <==> c in s.stored && s.codes[c] == code)
      && (s' != s <==> c in s.stored && s.codes[c] == code)
  {
  }

  /** A verifier gets past its delete exactly if the challenge was there and the reply says so. */
  lemma PassesExactly(s: State, v: nat, reply: DeleteReply)
    requires Enabled(s, Delete(v, reply))
    ensures Apply(s, Delete(v, reply)).verifiers[v].phase.Consumed?
       <==> reply == Deleted && s.verifiers[v].challenge in s.stored
  {
  }

  lemma RunCons(s: State, step: Step, rest: seq<Step>)
    requires Enabled(s, step) && Legal(Apply(s, step), rest)
    ensures Legal(s, [step] + rest) && Run(s, [step] + rest) == Run(Apply(s, step), rest)
  {
    assert ([step] + rest)[1..] == rest;
  }

  /** Whoever knows the code of a stored challenge, and is not interrupted, gets a token pair and uses the challenge up. */
  lemma RightCodeLogsIn(s: State, c: nat)
    requires Inv(s) && c in s.stored
    ensures var v := |s.verifiers|; var run := [Verify(c, s.codes[c]), Delete(v, Deleted), Issue(v, true)];
      && Legal(s, run)
      && var end := Run(s, run);
         && |end.verifiers| == |s.verifiers| + 1 && end.verifiers[v].phase.Issued? && end.verifiers[v].challenge == c
         && end.stored == s.stored - {c}
  {
    var v := |s.verifiers|;
    var s1 := Apply(s, Verify(c, s.codes[c]));
    var s2 := Apply(s1, Delete(v, Deleted));
    RunCons(s2, Issue(v, true), []);
    RunCons(s1, Delete(v, Deleted), [Issue(v, true)] + []);
    RunCons(s, Verify(c, s.codes[c]), [Delete(v, Deleted)] + ([Issue(v, true)] + []));
    assert [Verify(c, s.codes[c])] + ([Delete(v, Deleted)] + ([Issue(v, true)] + []))
        == [Verify(c, s.codes[c]), Delete(v, Deleted), Issue(v, true)];
  }
}
