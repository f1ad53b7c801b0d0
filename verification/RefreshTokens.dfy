/**
 Refresh-token rotation (RFC 6749, section 10.4) with concurrent callers.

 A token row's primary key and its secret are its position in the table.  `session`, `parent` and `looked`
 are history: which login a row descends from, which row it replaced, and when that row had been looked up.
 */
module RefreshTokens {
  import opened Basics
  import opened Sums

  datatype Token = Token(session: nat, parent: Option<nat>, expiresAt: nat, revoked: bool, looked: Option<nat>)

  datatype CallKind = Refresh | Logout

  /** A RefreshToken or Logout call that found its row: about to revoke, past a successful revoke, or over. */
  datatype CallPhase = Checked | Won | Over

  datatype Call = Call(kind: CallKind, token: nat, session: nat, phase: CallPhase, at: nat)

  datatype State = State(tokens: seq<Token>, calls: seq<Call>, sessions: nat, now: nat)

  datatype Step =
    | Tick(d: nat)
    | Login(ttl: nat)               // issueTokens after Register, PasswordLogin or VerifyOTP
    | Look(kind: CallKind, token: nat)
    | Revoke(call: nat, ok: bool)   // ok: the statement reached the database
    | Issue(call: nat, ok: bool, ttl: nat)
    | Quit(call: nat)               // error or crash

  /** RefreshToken.IsValid */
  predicate IsValid(t: Token, now: nat) {
    !t.revoked && now < t.expiresAt
  }

  predicate Enabled(s: State, step: Step) {
    match step
    case Tick(_) => true
    case Login(ttl) => ttl > 0
    case Look(_, t) => t < |s.tokens|
    case Revoke(c, _) => c < |s.calls| && s.calls[c].phase.Checked? && s.calls[c].token < |s.tokens|
    case Issue(c, _, ttl) => c < |s.calls| && s.calls[c].phase.Won? && ttl > 0
    case Quit(c) => c < |s.calls|
  }

  function SetPhase(s: State, c: nat, phase: CallPhase): State
    requires c < |s.calls|
  {
    s.(calls := s.calls[c := s.calls[c].(phase := phase)])
  }

  function Apply(s: State, step: Step): State
    requires Enabled(s, step)
  {
    match step
    case Tick(d) => s.(now := s.now + d)
    case Login(ttl) =>
      s.(tokens := s.tokens + [Token(s.sessions, None, s.now + ttl, false, None)], sessions := s.sessions + 1)
    case Look(kind, t) =>
      // RefreshToken checks validity on the row it read; Logout does not
      if kind.Logout? || IsValid(s.tokens[t], s.now) then
        s.(calls := s.calls + [Call(kind, t, s.tokens[t].session, Checked, s.now)])
      else s
    case Revoke(c, ok) =>
      // UPDATE ... SET revoked = true WHERE id = $1 AND revoked = false
      var t := s.calls[c].token;
      if ok && !s.tokens[t].revoked then
        SetPhase(s, c, if s.calls[c].kind.Refresh? then Won else Over)
        .(tokens := s.tokens[t := s.tokens[t].(revoked := true)])
      else SetPhase(s, c, Over)
    case Issue(c, ok, ttl) =>
      var k := s.calls[c];
      if ok then
        SetPhase(s, c, Over)
        .(tokens := s.tokens + [Token(k.session, Some(k.token), s.now + ttl, false, Some(k.at))])
      else SetPhase(s, c, Over)
    case Quit(c) => SetPhase(s, c, Over)
  }

  predicate Legal(s: State, run: seq<Step>)
    decreases |run|
  {
    run == [] || (Enabled(s, run[0]) && Legal(Apply(s, run[0]), run[1..]))
  }

  function Run(s: State, run: seq<Step>): State
    requires Legal(s, run)
    decreases |run|
  {
    if run == [] then s else Run(Apply(s, run[0]), run[1..])
  }

  predicate Initial(s: State) {
    s.tokens == [] && s.calls == [] && s.sessions == 0
  }

  // --------------------------------------------------------------- counting

  function LiveIn(x: nat): Token -> int { (t: Token) => if t.session == x && !t.revoked then 1 else 0 }
  function WonIn(x: nat): Call -> int { (c: Call) => if c.session == x && c.phase.Won? then 1 else 0 }
  function ChildOf(p: nat): Token -> int { (t: Token) => if t.parent == Some(p) then 1 else 0 }
  function WonOn(p: nat): Call -> int { (c: Call) => if c.token == p && c.phase.Won? then 1 else 0 }

  /** Unrevoked rows of a session, plus refreshes that have revoked but not yet issued. */
  function Live(s: State, x: nat): int { Sum(s.tokens, LiveIn(x)) + Sum(s.calls, WonIn(x)) }

  /** Rows issued in exchange for token `p`, plus refreshes about to issue one. */
  function Successors(s: State, p: nat): int { Sum(s.tokens, ChildOf(p)) + Sum(s.calls, WonOn(p)) }

  predicate TokenOk(s: State, i: nat)
    requires i < |s.tokens|
  {
    var t := s.tokens[i];
    && t.session < s.sessions
    && (t.parent.Some? ==>
          && t.parent.value < i && s.tokens[t.parent.value].session == t.session
          && t.looked.Some? && t.looked.value < s.tokens[t.parent.value].expiresAt)
  }

  predicate CallOk(s: State, c: Call) {
    && c.token < |s.tokens| && c.session == s.tokens[c.token].session
    && (c.phase.Won? ==> s.tokens[c.token].revoked && c.kind.Refresh?)
    && (c.kind.Refresh? ==> c.at < s.tokens[c.token].expiresAt)
  }

  ghost predicate Inv(s: State) {
    && (forall i :: 0 <= i < |s.tokens| ==> TokenOk(s, i))
    && (forall c :: 0 <= c < |s.calls| ==> CallOk(s, s.calls[c]))
    && (forall x :: Live(s, x) <= 1)
    && (forall p :: 0 <= p < |s.tokens| ==> Successors(s, p) <= (if s.tokens[p].revoked then 1 else 0))
  }

  // ------------------------------------------------------------------ steps

  lemma FreshSession(s: State)
    requires Inv(s)
    ensures Live(s, s.sessions) == 0
  {
    forall i | 0 <= i < |s.tokens| ensures LiveIn(s.sessions)(s.tokens[i]) == 0 { assert TokenOk(s, i); }
    forall c | 0 <= c < |s.calls| ensures WonIn(s.sessions)(s.calls[c]) == 0 {
      assert CallOk(s, s.calls[c]) && TokenOk(s, s.calls[c].token);
    }
    SumZero(s.tokens, LiveIn(s.sessions));
    SumZero(s.calls, WonIn(s.sessions));
  }

  /** A row just added has no successor yet. */
  lemma NoSuccessorYet(s: State)
    requires Inv(s)
    ensures Successors(s, |s.tokens|) == 0
  {
    var p := |s.tokens|;
    forall i | 0 <= i < |s.tokens| ensures ChildOf(p)(s.tokens[i]) == 0 { assert TokenOk(s, i); }
    forall c | 0 <= c < |s.calls| ensures WonOn(p)(s.calls[c]) == 0 { assert CallOk(s, s.calls[c]); }
    SumZero(s.tokens, ChildOf(p));
    SumZero(s.calls, WonOn(p));
  }

  lemma LoginKeeps(s: State, ttl: nat)
    requires Inv(s) && Enabled(s, Login(ttl))
    ensures Inv(Apply(s, Login(ttl)))
  {
    var s' := Apply(s, Login(ttl));
    var t := Token(s.sessions, None, s.now + ttl, false, None);
    forall i | 0 <= i < |s'.tokens| ensures TokenOk(s', i) {
      assert i < |s.tokens| ==> TokenOk(s, i);
    }
    forall c | 0 <= c < |s'.calls| ensures CallOk(s', s'.calls[c]) {
      assert CallOk(s, s.calls[c]);
    }
    forall x ensures Live(s', x) <= 1 {
      SumSnoc(s.tokens, t, LiveIn(x));
      assert Live(s, x) <= 1;
      FreshSession(s);
    }
    forall p | 0 <= p < |s'.tokens| ensures Successors(s', p) <= (if s'.tokens[p].revoked then 1 else 0) {
      SumSnoc(s.tokens, t, ChildOf(p));
      NoSuccessorYet(s);
      assert p < |s.tokens| ==> Successors(s, p) <= (if s.tokens[p].revoked then 1 else 0);
    }
  }

  lemma LookKeeps(s: State, kind: CallKind, t: nat)
    requires Inv(s) && Enabled(s, Look(kind, t))
    ensures Inv(Apply(s, Look(kind, t)))
  {
    var s' := Apply(s, Look(kind, t));
    if s' != s {
      var k := s'.calls[|s.calls|];
      forall i | 0 <= i < |s'.tokens| ensures TokenOk(s', i) { assert TokenOk(s, i); }
      forall c | 0 <= c < |s'.calls| ensures CallOk(s', s'.calls[c]) {
        assert c < |s.calls| ==> CallOk(s, s.calls[c]);
      }
      forall x ensures Live(s', x) <= 1 {
        SumSnoc(s.calls, k, WonIn(x));
        assert Live(s, x) <= 1;
      }
      forall p | 0 <= p < |s'.tokens| ensures Successors(s', p) <= (if s'.tokens[p].revoked then 1 else 0) {
        SumSnoc(s.calls, k, WonOn(p));
        assert Successors(s, p) <= (if s.tokens[p].revoked then 1 else 0);
      }
    }
  }

  /** A call ends without touching the table. */
  lemma EndKeeps(s: State, c: nat)
    requires Inv(s) && c < |s.calls|
    ensures Inv(SetPhase(s, c, Over))
  {
    var s' := SetPhase(s, c, Over);
    forall i | 0 <= i < |s'.tokens| ensures TokenOk(s', i) { assert TokenOk(s, i); }
    forall d | 0 <= d < |s'.calls| ensures CallOk(s', s'.calls[d]) { assert CallOk(s, s.calls[d]); }
    forall x ensures Live(s', x) <= 1 {
      SumUpdate(s.calls, c, s'.calls[c], WonIn(x));
      assert Live(s, x) <= 1;
    }
    forall p | 0 <= p < |s'.tokens| ensures Successors(s', p) <= (if s'.tokens[p].revoked then 1 else 0) {
      SumUpdate(s.calls, c, s'.calls[c], WonOn(p));
      assert Successors(s, p) <= (if s.tokens[p].revoked then 1 else 0);
    }
  }

  /** The guarded UPDATE succeeds: one live row becomes, at most, one winner. */
  lemma RevokeKeeps(s: State, c: nat)
    requires Inv(s) && Enabled(s, Revoke(c, true)) && !s.tokens[s.calls[c].token].revoked
    ensures Inv(Apply(s, Revoke(c, true)))
  {
    var s' := Apply(s, Revoke(c, true));
    var t := s.calls[c].token;
    assert CallOk(s, s.calls[c]);
    forall i | 0 <= i < |s'.tokens| ensures TokenOk(s', i) { assert TokenOk(s, i); }
    forall d | 0 <= d < |s'.calls| ensures CallOk(s', s'.calls[d]) { assert CallOk(s, s.calls[d]); }
    forall x ensures Live(s', x) <= 1 {
      SumUpdate(s.calls, c, s'.calls[c], WonIn(x));
      SumUpdate(s.tokens, t, s'.tokens[t], LiveIn(x));
      assert Live(s, x) <= 1;
    }
    forall p | 0 <= p < |s'.tokens| ensures Successors(s', p) <= (if s'.tokens[p].revoked then 1 else 0) {
      SumUpdate(s.calls, c, s'.calls[c], WonOn(p));
      SumUpdate(s.tokens, t, s'.tokens[t], ChildOf(p));
      assert Successors(s, p) <= (if s.tokens[p].revoked then 1 else 0);
    }
  }

  /** The new row takes the place of the refresh that was about to issue it. */
  lemma IssueSuccessors(s: State, c: nat, ttl: nat, p: nat)
    requires Enabled(s, Issue(c, true, ttl))
    ensures Successors(Apply(s, Issue(c, true, ttl)), p) == Successors(s, p)
  {
    var s' := Apply(s, Issue(c, true, ttl));
    SumUpdate(s.calls, c, s'.calls[c], WonOn(p));
    SumSnoc(s.tokens, s'.tokens[|s.tokens|], ChildOf(p));
  }

  /** The winner turns into the one new live row. */
  lemma IssueKeeps(s: State, c: nat, ttl: nat)
    requires Inv(s) && Enabled(s, Issue(c, true, ttl))
    ensures Inv(Apply(s, Issue(c, true, ttl)))
  {
    var s' := Apply(s, Issue(c, true, ttl));
    var k := s.calls[c];
    var t := s'.tokens[|s.tokens|];
    assert CallOk(s, k) && TokenOk(s, k.token);
    forall i | 0 <= i < |s'.tokens| ensures TokenOk(s', i) {
      assert i < |s.tokens| ==> TokenOk(s, i);
    }
    forall d | 0 <= d < |s'.calls| ensures CallOk(s', s'.calls[d]) { assert CallOk(s, s.calls[d]); }
    forall x ensures Live(s', x) <= 1 {
      SumUpdate(s.calls, c, s'.calls[c], WonIn(x));
      SumSnoc(s.tokens, t, LiveIn(x));
      assert Live(s, x) <= 1;
    }
    forall p | 0 <= p < |s'.tokens| ensures Successors(s', p) <= (if s'.tokens[p].revoked then 1 else 0) {
      IssueSuccessors(s, c, ttl, p);
      NoSuccessorYet(s);
    }
  }

  lemma TickKeeps(s: State, d: nat)
    requires Inv(s)
    ensures Inv(s.(now := s.now + d))
  {
    var s' := s.(now := s.now + d);
    forall i | 0 <= i < |s'.tokens| ensures TokenOk(s', i) { assert TokenOk(s, i); }
    forall c | 0 <= c < |s'.calls| ensures CallOk(s', s'.calls[c]) { assert CallOk(s, s.calls[c]); }
    forall x ensures Live(s', x) <= 1 { assert Live(s, x) <= 1; }
    forall p | 0 <= p < |s'.tokens| ensures Successors(s', p) <= (if s'.tokens[p].revoked then 1 else 0) {
      assert Successors(s, p) <= (if s.tokens[p].revoked then 1 else 0);
    }
  }

  lemma StepKeeps(s: State, step: Step)
    requires Inv(s) && Enabled(s, step)
    ensures Inv(Apply(s, step))
  {
    match step {
      case Tick(d) => TickKeeps(s, d);
      case Login(ttl) => LoginKeeps(s, ttl);
      case Look(kind, t) => LookKeeps(s, kind, t);
      case Revoke(c, ok) =>
        if ok && !s.tokens[s.calls[c].token].revoked { RevokeKeeps(s, c); } else { EndKeeps(s, c); }
      case Issue(c, ok, ttl) => if ok { IssueKeeps(s, c, ttl); } else { EndKeeps(s, c); }
      case Quit(c) => EndKeeps(s, c);
    }
  }

  lemma {:induction false} RunKeeps(s: State, run: seq<Step>)
    requires Inv(s) && Legal(s, run)
    ensures Inv(Run(s, run))
    decreases |run|
  {
    if run != [] {
      StepKeeps(s, run[0]);
      RunKeeps(Apply(s, run[0]), run[1..]);
    }
  }

  lemma InitialHolds(s: State)
    requires Initial(s)
    ensures Inv(s)
  {
  }

  lemma CountsNonNegative(s: State, p: nat)
    ensures 0 <= Successors(s, p)
  {
    SumNonNegative(s.tokens, ChildOf(p));
    SumNonNegative(s.calls, WonOn(p));
  }

  // --------------------------------------------------------------- theorems

  /**
   Rotation is linear: in every interleaving of refreshes, logouts and logins, each session has at
   most one of {an unrevoked row, a refresh past its revoke}, no token was exchanged twice, and only a
   revoked one was exchanged at all.
   */
  lemma RotationIsLinear(s: State, run: seq<Step>, x: nat, p: nat)
    requires Initial(s) && Legal(s, run) && p < |Run(s, run).tokens|
    ensures Live(Run(s, run), x) <= 1
    ensures Successors(Run(s, run), p) <= 1
    ensures !Run(s, run).tokens[p].revoked ==> Successors(Run(s, run), p) == 0
  {
    InitialHolds(s);
    RunKeeps(s, run);
    CountsNonNegative(Run(s, run), p);
  }

  /** Two rows of one session are never both unrevoked, and two rows never replace the same one. */
  lemma AtMostOneLiveRow(s: State, run: seq<Step>, i: nat, j: nat)
    requires Initial(s) && Legal(s, run) && i < j < |Run(s, run).tokens|
    ensures var a, b := Run(s, run).tokens[i], Run(s, run).tokens[j];
      && (a.session == b.session ==> a.revoked || b.revoked)
      && (a.parent.Some? ==> a.parent != b.parent)
  {
    var end := Run(s, run);
    var a, b := end.tokens[i], end.tokens[j];
    InitialHolds(s);
    RunKeeps(s, run);
    assert Live(end, a.session) <= 1;
    SumNonNegative(end.calls, WonIn(a.session));
    SumTwoParts(end.tokens, i, j, LiveIn(a.session));
    if a.parent.Some? {
      var p := a.parent.value;
      assert TokenOk(end, i) && Successors(end, p) <= 1;
      SumNonNegative(end.calls, WonOn(p));
      SumTwoParts(end.tokens, i, j, ChildOf(p));
    }
  }

  /** A revoked row stays revoked, so it is never valid again. */
  lemma {:induction false} RevokedForever(s: State, run: seq<Step>, t: nat)
    requires Legal(s, run) && t < |s.tokens| && s.tokens[t].revoked
    ensures t < |Run(s, run).tokens| && Run(s, run).tokens[t].revoked
    ensures !IsValid(Run(s, run).tokens[t], Run(s, run).now)
    decreases |run|
  {
    if run != [] {
      RevokedForever(Apply(s, run[0]), run[1..], t);
    }
  }

  /** Every row issued in exchange for another came from a look at that one strictly before it expired. */
  lemma ExchangedBeforeExpiry(s: State, run: seq<Step>, t: nat)
    requires Initial(s) && Legal(s, run) && t < |Run(s, run).tokens| && Run(s, run).tokens[t].parent.Some?
    ensures var row := Run(s, run).tokens[t];
      && row.parent.value < t && row.looked.Some?
      && row.looked.value < Run(s, run).tokens[row.parent.value].expiresAt
  {
    InitialHolds(s);
    RunKeeps(s, run);
    assert TokenOk(Run(s, run), t);
  }
}
