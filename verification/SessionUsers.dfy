/** Whose sessions they are: whatever is lost, and with or without locks, a refresh goes on with
    the session of the same user, and presenting a token that has been rotated revokes every
    token that was ever rotated from it. */
module SessionUsers {
  import opened AttemptResults
  import opened SessionRefresh

  /** Any history from a start: responses may be lost, and tabs may race. */
  ghost predicate IsHistory(states: seq<System>, steps: seq<Step>) {
    && |states| == |steps| + 1
    && Initial(states[0])
    && forall i :: 0 <= i < |steps| ==> Enabled(states[i], steps[i]) && states[i + 1] == Do(states[i], steps[i])
  }

  predicate Known(s: System, token: Option<nat>) {
    token.Some? ==> token.value < |s.tokens|
  }

  predicate PhaseKnown(s: System, phase: Phase) {
    match phase
    case Presenting(token) => Known(s, token)
    case Responding(presented, issued) =>
      && Known(s, presented) && Known(s, issued)
      && (issued.Some? ==> presented.Some? && s.tokens[issued.value].user == s.tokens[presented.value].user)
    case _ => true
  }

  /** The server knows every token that is anywhere, and answers a token with one of its user. */
  ghost predicate Owned(s: System) {
    && Known(s, s.refresh)
    && (forall i :: 0 <= i < |s.arriving| ==> s.arriving[i] < |s.tokens|)
    && (forall token :: token in s.strays ==> token < |s.tokens|)
    && (forall tab :: 0 <= tab < |s.tabs| ==> PhaseKnown(s, s.tabs[tab]))
  }

  /** Tokens are never forgotten and never change hands. */
  predicate Keeps(before: seq<Token>, after: seq<Token>) {
    && |before| <= |after|
    && forall t :: 0 <= t < |before| ==> after[t].user == before[t].user && (before[t].revoked ==> after[t].revoked)
  }

  lemma AnsweredKeeps(s: System, presented: Option<nat>)
    requires Known(s, presented)
    ensures var (t, issued) := Answered(s, presented);
            && Keeps(s.tokens, t.tokens) && t == s.(tokens := t.tokens, reuse := t.reuse, rotations := t.rotations)
            && Known(t, issued)
            && (issued.Some? ==> presented.Some? && t.tokens[issued.value].user == s.tokens[presented.value].user)
  {
  }

  lemma StepKeeps(s: System, step: Step)
    requires Owned(s) && Enabled(s, step)
    ensures Keeps(s.tokens, Do(s, step).tokens)
  {
    match step
    case Serve(tab) =>
      assert PhaseKnown(s, s.tabs[tab]);
      AnsweredKeeps(s, s.tabs[tab].token);
    case ServeStray(token) => AnsweredKeeps(s, Some(token));
    case _ =>
  }

  lemma OthersKnown(s: System, s': System, tab: nat)
    requires Owned(s) && Keeps(s.tokens, s'.tokens) && |s.tabs| <= |s'.tabs|
    requires forall other :: 0 <= other < |s'.tabs| && other != tab ==>
               (other < |s.tabs| && s'.tabs[other] == s.tabs[other]) || s'.tabs[other] == Idle
    requires tab < |s'.tabs| ==> PhaseKnown(s', s'.tabs[tab])
    ensures forall other :: 0 <= other < |s'.tabs| ==> PhaseKnown(s', s'.tabs[other])
  {
    forall other | 0 <= other < |s'.tabs| && other != tab && other < |s.tabs| && s'.tabs[other] == s.tabs[other]
      ensures PhaseKnown(s', s'.tabs[other])
    {
      assert PhaseKnown(s, s.tabs[other]);
    }
  }

  /** The one tab a step moves. */
  function Mover(s: System, step: Step): nat {
    match step
    case Unauthorized(tab) => tab
    case Acquire(tab) => tab
    case Probe(tab) => tab
    case Present(tab) => tab
    case Serve(tab) => tab
    case Arrive(tab) => tab
    case Close(tab) => tab
    case Drop(tab) => tab
    case _ => |s.tabs|
  }

  lemma MoverKnown(s: System, step: Step)
    requires Owned(s) && Enabled(s, step)
    ensures Mover(s, step) < |Do(s, step).tabs| ==> PhaseKnown(Do(s, step), Do(s, step).tabs[Mover(s, step)])
  {
    match step
    case Unauthorized(tab) => assert PhaseKnown(s, s.tabs[tab]);
    case Serve(tab) =>
      assert PhaseKnown(s, s.tabs[tab]);
      AnsweredKeeps(s, s.tabs[tab].token);
    case _ =>
  }

  lemma AnsweredTabs(s: System, presented: Option<nat>)
    ensures Answered(s, presented).0.tabs == s.tabs
  {
  }

  lemma MovesOne(s: System, step: Step)
    requires Enabled(s, step)
    ensures var s', tab := Do(s, step), Mover(s, step);
            s'.tabs == s.tabs || s'.tabs == s.tabs + [Idle]
            || (tab < |s.tabs| && |s'.tabs| == |s.tabs| && s'.tabs == s.tabs[tab := s'.tabs[tab]])
    ensures |Do(s, step).tabs| == |s.tabs| + 1 ==> Mover(s, step) == |s.tabs|
  {
    match step
    case Serve(tab) => AnsweredTabs(s, s.tabs[tab].token);
    case ServeStray(token) => AnsweredTabs(s, Some(token));
    case _ =>
  }

  lemma OnlyMoverMoves(s: System, step: Step, other: nat)
    requires Enabled(s, step) && other < |Do(s, step).tabs| && other != Mover(s, step)
    ensures other < |s.tabs| && Do(s, step).tabs[other] == s.tabs[other]
  {
    MovesOne(s, step);
  }

  lemma RestOwned(s: System, step: Step)
    requires Owned(s) && Enabled(s, step)
    ensures var s' := Do(s, step);
            && Known(s', s'.refresh) && |s.tabs| <= |s'.tabs|
            && (forall i :: 0 <= i < |s'.arriving| ==> s'.arriving[i] < |s'.tokens|)
            && (forall token :: token in s'.strays ==> token < |s'.tokens|)
  {
    StepKeeps(s, step);
    if Mover(s, step) < |s.tabs| {
      assert PhaseKnown(s, s.tabs[Mover(s, step)]);
    }
  }

  lemma StepOwned(s: System, step: Step)
    requires Owned(s) && Enabled(s, step)
    ensures Owned(Do(s, step))
  {
    var s', tab := Do(s, step), Mover(s, step);
    StepKeeps(s, step);
    MoverKnown(s, step);
    RestOwned(s, step);
    forall other: nat | other < |s'.tabs| && other != tab
      ensures other < |s.tabs| && s'.tabs[other] == s.tabs[other]
    {
      OnlyMoverMoves(s, step, other);
    }
    OthersKnown(s, s', tab);
  }

  lemma {:induction false} HistoryOwned(states: seq<System>, steps: seq<Step>, i: nat)
    requires IsHistory(states, steps) && i < |states|
    ensures Owned(states[i])
  {
    if i > 0 {
      HistoryOwned(states, steps, i - 1);
      StepOwned(states[i - 1], steps[i - 1]);
    }
  }

  lemma KeepsNext(states: seq<System>, steps: seq<Step>, k: nat)
    requires IsHistory(states, steps) && k < |steps|
    ensures Keeps(states[k].tokens, states[k + 1].tokens)
  {
    HistoryOwned(states, steps, k);
    StepKeeps(states[k], steps[k]);
  }

  lemma {:induction false} KeepsChain(states: seq<System>, i: nat, j: nat)
    requires i <= j < |states|
    requires forall k :: i <= k < j ==> Keeps(states[k].tokens, states[k + 1].tokens)
    ensures Keeps(states[i].tokens, states[j].tokens)
    decreases j - i
  {
    if i < j {
      KeepsChain(states, i, j - 1);
    }
  }

  lemma HistoryKeeps(states: seq<System>, steps: seq<Step>, i: nat, j: nat)
    requires IsHistory(states, steps) && i <= j < |states|
    ensures Keeps(states[i].tokens, states[j].tokens)
  {
    forall k | i <= k < j
      ensures Keeps(states[k].tokens, states[k + 1].tokens)
    {
      KeepsNext(states, steps, k);
    }
    KeepsChain(states, i, j);
  }

  /** Every answered refresh issues a session of the user whose session was presented. */
  lemma RefreshKeepsUser(states: seq<System>, steps: seq<Step>, i: nat, tab: nat)
    requires IsHistory(states, steps) && i < |states| && tab < |states[i].tabs|
    requires states[i].tabs[tab].Responding? && states[i].tabs[tab].issued.Some?
    ensures var s, phase := states[i], states[i].tabs[tab];
            && phase.presented.Some? && phase.presented.value < |s.tokens| && phase.issued.value < |s.tokens|
            && s.tokens[phase.issued.value].user == s.tokens[phase.presented.value].user
  {
    HistoryOwned(states, steps, i);
    assert PhaseKnown(states[i], states[i].tabs[tab]);
  }

  // --- the jar's user -------------------------------------------------------------------------

  predicate IsOf(s: System, token: Option<nat>, user: nat) {
    token.Some? ==> token.value < |s.tokens| && s.tokens[token.value].user == user
  }

  /** The jar holds a token of `user`, and so will every answer on its way make it. */
  ghost predicate BelongsTo(s: System, user: nat) {
    && s.refresh.Some? && IsOf(s, s.refresh, user)
    && forall tab :: 0 <= tab < |s.tabs| ==>
         (s.tabs[tab].Presenting? ==> IsOf(s, s.tabs[tab].token, user))
         && (s.tabs[tab].Responding? ==> IsOf(s, s.tabs[tab].issued, user))
  }

  lemma StepBelongs(s: System, step: Step, user: nat)
    requires Owned(s) && BelongsTo(s, user) && Enabled(s, step) && !step.LoginArrives?
    ensures BelongsTo(Do(s, step), user)
  {
    var s', mover := Do(s, step), Mover(s, step);
    StepKeeps(s, step);
    if step.Serve? {
      AnsweredKeeps(s, s.tabs[mover].token);
    }
    forall tab: nat | tab < |s'.tabs| && tab != mover
      ensures (s'.tabs[tab].Presenting? ==> IsOf(s', s'.tabs[tab].token, user))
              && (s'.tabs[tab].Responding? ==> IsOf(s', s'.tabs[tab].issued, user))
    {
      OnlyMoverMoves(s, step, tab);
    }
  }

  lemma BelongsNext(states: seq<System>, steps: seq<Step>, k: nat, user: nat)
    requires IsHistory(states, steps) && k < |steps| && BelongsTo(states[k], user) && !steps[k].LoginArrives?
    ensures BelongsTo(states[k + 1], user)
  {
    HistoryOwned(states, steps, k);
    StepBelongs(states[k], steps[k], user);
  }

  /** Until a login arrives, the jar stays with its user, whatever is refreshed, lost or revoked
      meanwhile. */
  lemma {:induction false} JarKeepsUser(states: seq<System>, steps: seq<Step>, i: nat, j: nat, user: nat)
    requires IsHistory(states, steps) && i <= j < |states| && BelongsTo(states[i], user)
    requires forall k :: i <= k < j ==> !steps[k].LoginArrives?
    ensures BelongsTo(states[j], user)
    decreases j - i
  {
    if i < j {
      JarKeepsUser(states, steps, i, j - 1, user);
      BelongsNext(states, steps, j - 1, user);
    }
  }

  // --- families of tokens ---------------------------------------------------------------------

  /** The token a step has the server answer. */
  function Served(s: System, step: Step): Option<nat> {
    match step
    case Serve(tab) => if tab < |s.tabs| && s.tabs[tab].Presenting? then s.tabs[tab].token else None
    case ServeStray(token) => Some(token)
    case _ => None
  }

  /** This step rotates `a` into the new token `b`. */
  ghost predicate Issues(s: System, step: Step, a: nat, b: nat) {
    && Enabled(s, step) && Served(s, step) == Some(a)
    && b == |s.tokens| && |Do(s, step).tokens| == |s.tokens| + 1
  }

  /** By the moment `m`, `b` has been rotated from `a`, over any number of rotations. */
  ghost predicate Descends(states: seq<System>, steps: seq<Step>, m: nat, a: nat, b: nat)
    requires |states| == |steps| + 1 && m <= |steps|
    decreases b
  {
    a == b || exists k: nat, c: nat :: k < m && c < b && Issues(states[k], steps[k], c, b)
                                       && Descends(states, steps, m, a, c)
  }

  lemma IssuesSameUser(s: System, step: Step, a: nat, b: nat)
    requires Owned(s) && Issues(s, step, a, b)
    ensures a < |s.tokens| && Do(s, step).tokens[b].user == s.tokens[a].user
  {
    if step.Serve? {
      assert PhaseKnown(s, s.tabs[step.tab]);
    }
    AnsweredKeeps(s, Some(a));
  }

  lemma {:induction false} FamilySharesUser(states: seq<System>, steps: seq<Step>, m: nat, a: nat, b: nat)
    requires IsHistory(states, steps) && m <= |steps| && a < |states[m].tokens| && Descends(states, steps, m, a, b)
    ensures b < |states[m].tokens| && states[m].tokens[b].user == states[m].tokens[a].user
    decreases b
  {
    if a != b {
      var k: nat, c: nat :| k < m && c < b && Issues(states[k], steps[k], c, b) && Descends(states, steps, m, a, c);
      FamilySharesUser(states, steps, m, a, c);
      HistoryOwned(states, steps, k);
      IssuesSameUser(states[k], steps[k], c, b);
      HistoryKeeps(states, steps, k, k + 1);
      HistoryKeeps(states, steps, k + 1, m);
    }
  }

  lemma ServedReuse(s: System, step: Step, a: nat)
    requires Owned(s) && Enabled(s, step) && Served(s, step) == Some(a) && a < |s.tokens| && s.tokens[a].revoked
    ensures Do(s, step).reuse && AllRevoked(Do(s, step).tokens, s.tokens[a].user)
    ensures |Do(s, step).tokens| == |s.tokens|
    ensures forall t :: 0 <= t < |s.tokens| ==> Do(s, step).tokens[t].user == s.tokens[t].user
    ensures forall t :: 0 <= t < |s.tokens| && s.tokens[t].user != s.tokens[a].user ==>
              Do(s, step).tokens[t] == s.tokens[t]
  {
  }

  /** A rotated token that comes back takes its whole family with it, and leaves the sessions
      of other users alone. */
  lemma ReuseRevokesFamily(states: seq<System>, steps: seq<Step>, m: nat, a: nat)
    requires IsHistory(states, steps) && m < |steps| && Served(states[m], steps[m]) == Some(a)
    requires a < |states[m].tokens| && states[m].tokens[a].revoked
    ensures states[m + 1].reuse && |states[m + 1].tokens| == |states[m].tokens|
    ensures forall b: nat :: Descends(states, steps, m, a, b) ==>
              b < |states[m + 1].tokens| && states[m + 1].tokens[b].revoked
    ensures forall t :: 0 <= t < |states[m].tokens| && states[m].tokens[t].user != states[m].tokens[a].user ==>
              states[m + 1].tokens[t] == states[m].tokens[t]
  {
    HistoryOwned(states, steps, m);
    ServedReuse(states[m], steps[m], a);
    forall b: nat | Descends(states, steps, m, a, b)
      ensures b < |states[m + 1].tokens| && states[m + 1].tokens[b].revoked
    {
      FamilySharesUser(states, steps, m, a, b);
    }
  }

  // --- sessions last ----------------------------------------------------------------------------

  predicate AnswersToken(phase: Phase) {
    phase.Responding? && phase.presented.Some? ==> phase.issued.Some?
  }

  ghost predicate NoneExpired(s: System) {
    && (forall t :: 0 <= t < |s.tokens| ==> !s.tokens[t].expired)
    && (forall tab :: 0 <= tab < |s.tabs| ==> AnswersToken(s.tabs[tab]))
  }

  lemma AnsweredUnexpired(s: System, presented: Option<nat>)
    requires Known(s, presented) && forall t :: 0 <= t < |s.tokens| ==> !s.tokens[t].expired
    ensures var (t, issued) := Answered(s, presented);
            && (forall i :: 0 <= i < |t.tokens| ==> !t.tokens[i].expired)
            && (presented.Some? && !s.tokens[presented.value].revoked ==> issued.Some?)
  {
  }

  lemma TokensUnexpired(s: System, step: Step)
    requires Owned(s) && NoneExpired(s) && Enabled(s, step) && !step.ExpireToken?
    ensures forall t :: 0 <= t < |Do(s, step).tokens| ==> !Do(s, step).tokens[t].expired
  {
    match step
    case Serve(tab) =>
      assert PhaseKnown(s, s.tabs[tab]);
      AnsweredUnexpired(s, s.tabs[tab].token);
    case ServeStray(token) => AnsweredUnexpired(s, Some(token));
    case _ =>
  }

  lemma ServeIssues(s: System, tab: nat)
    requires Owned(s) && TokensOk(s) && NoneExpired(s) && Enabled(s, Serve(tab))
    ensures AnswersToken(Do(s, Serve(tab)).tabs[tab])
  {
    assert PhaseKnown(s, s.tabs[tab]) && PhaseOk(s, s.tabs[tab]);
    AnsweredUnexpired(s, s.tabs[tab].token);
  }

  lemma StepUnexpired(s: System, step: Step)
    requires Owned(s) && TokensOk(s) && NoneExpired(s) && Enabled(s, step) && !step.ExpireToken?
    ensures NoneExpired(Do(s, step))
  {
    TokensUnexpired(s, step);
    forall tab: nat | tab < |Do(s, step).tabs|
      ensures AnswersToken(Do(s, step).tabs[tab])
    {
      if tab != Mover(s, step) {
        OnlyMoverMoves(s, step, tab);
      } else if step.Serve? {
        ServeIssues(s, tab);
      }
    }
  }

  lemma UnexpiredNext(states: seq<System>, steps: seq<Step>, k: nat)
    requires IsRun(states, steps) && k < |steps| && NoneExpired(states[k]) && !steps[k].ExpireToken?
    ensures NoneExpired(states[k + 1])
  {
    RunInv(states, steps, k);
    HistoryOwned(states, steps, k);
    StepUnexpired(states[k], steps[k]);
  }

  lemma {:induction false} UnexpiredChain(states: seq<System>, i: nat)
    requires i < |states| && NoneExpired(states[0])
    requires forall k :: 0 <= k < i && NoneExpired(states[k]) ==> NoneExpired(states[k + 1])
    ensures NoneExpired(states[i])
  {
    if i > 0 {
      UnexpiredChain(states, i - 1);
    }
  }

  /** While no session runs out on the server, each refresh that carries one is granted: with
      locks, or one tab open at a time, and no cookies lost, nobody is ever logged out. */
  lemma SessionsLast(states: seq<System>, steps: seq<Step>, i: nat)
    requires IsRun(states, steps) && i < |states|
    requires forall t :: 0 <= t < |states[0].tokens| ==> !states[0].tokens[t].expired
    requires forall k :: 0 <= k < i ==> !steps[k].ExpireToken?
    ensures forall tab :: 0 <= tab < |states[i].tabs| && states[i].tabs[tab].Responding? ==>
              (states[i].tabs[tab].presented.Some? ==> states[i].tabs[tab].issued.Some?)
  {
    forall k | 0 <= k < i && NoneExpired(states[k])
      ensures NoneExpired(states[k + 1])
    {
      UnexpiredNext(states, steps, k);
    }
    UnexpiredChain(states, i);
    forall tab | 0 <= tab < |states[i].tabs|
      ensures AnswersToken(states[i].tabs[tab])
    {
    }
  }

  /** A tab that meets a 401 while nobody else refreshes comes back with an access token that
      is accepted, and a new refresh token of the same user. */
  lemma RefreshWorks(alone: bool, s: System, tab: nat) returns (steps: seq<Step>, s': System)
    requires Owned(s) && tab < |s.tabs| && s.tabs[tab].Idle? && (s.locks ==> s.holder.None?) && !s.live
    requires alone ==> OneOpen(s)
    requires s.refresh.Some? && !s.tokens[s.refresh.value].revoked && !s.tokens[s.refresh.value].expired
    ensures Leads(alone, s, steps, s') && s'.live && s'.tabs == s.tabs && s'.reuse == s.reuse
    ensures s'.refresh == Some(|s.tokens|) && |s'.tokens| == |s.tokens| + 1
    ensures s'.tokens[|s.tokens|] == Token(s.tokens[s.refresh.value].user, false, false)
    ensures forall t :: 0 <= t < |s.tokens| && Some(t) != s.refresh ==> s'.tokens[t] == s.tokens[t]
    ensures s'.tokens[s.refresh.value].revoked
  {
    var probed := s.(tabs := s.tabs[tab := Probed], holder := Some(tab));
    var a := Probes(alone, s, tab);
    var b;
    b, s' := Refreshes(alone, probed, tab);
    LeadsFurther(alone, s, a, probed, b, s');
    steps := a + b;
  }

  lemma Probes(alone: bool, s: System, tab: nat) returns (steps: seq<Step>)
    requires tab < |s.tabs| && s.tabs[tab].Idle? && (s.locks ==> s.holder.None?) && !s.live && (alone ==> OneOpen(s))
    ensures Leads(alone, s, steps, s.(tabs := s.tabs[tab := Probed], holder := Some(tab)))
  {
    var waiting := Do(s, Unauthorized(tab));
    var probing := Do(waiting, Acquire(tab));
    var probed := Do(probing, Probe(tab));
    StepLeads(alone, probing, Probe(tab), [], probed);
    StepLeads(alone, waiting, Acquire(tab), [Probe(tab)] + [], probed);
    StepLeads(alone, s, Unauthorized(tab), [Acquire(tab)] + ([Probe(tab)] + []), probed);
    steps := [Unauthorized(tab)] + ([Acquire(tab)] + ([Probe(tab)] + []));
    assert probed.tabs == s.tabs[tab := Probed];
  }

  lemma Refreshes(alone: bool, s: System, tab: nat) returns (steps: seq<Step>, s': System)
    requires tab < |s.tabs| && s.tabs[tab].Probed? && s.holder == Some(tab) && (alone ==> OneOpen(s))
    requires s.refresh.Some? && s.refresh.value < |s.tokens|
    requires !s.tokens[s.refresh.value].revoked && !s.tokens[s.refresh.value].expired
    ensures Leads(alone, s, steps, s') && s'.live && s'.tabs == s.tabs[tab := Idle] && s'.reuse == s.reuse
    ensures s'.refresh == Some(|s.tokens|)
    ensures s'.tokens == s.tokens[s.refresh.value := s.tokens[s.refresh.value].(revoked := true)]
                         + [Token(s.tokens[s.refresh.value].user, false, false)]
  {
    var presenting := Do(s, Present(tab));
    Granted(presenting, tab);
    var responding := Do(presenting, Serve(tab));
    s' := Do(responding, Arrive(tab));
    StepLeads(alone, responding, Arrive(tab), [], s');
    StepLeads(alone, presenting, Serve(tab), [Arrive(tab)] + [], s');
    StepLeads(alone, s, Present(tab), [Serve(tab)] + ([Arrive(tab)] + []), s');
    steps := [Present(tab)] + ([Serve(tab)] + ([Arrive(tab)] + []));
    assert s'.tabs == s.tabs[tab := Idle];
  }

  lemma Granted(s: System, tab: nat)
    requires tab < |s.tabs| && s.refresh.Some? && s.refresh.value < |s.tokens| && s.tabs[tab] == Presenting(s.refresh)
    requires !s.tokens[s.refresh.value].revoked && !s.tokens[s.refresh.value].expired
    ensures Do(s, Serve(tab)) == s.(
            tabs := s.tabs[tab := Responding(s.refresh, Some(|s.tokens|))],
            tokens := s.tokens[s.refresh.value := s.tokens[s.refresh.value].(revoked := true)]
                      + [Token(s.tokens[s.refresh.value].user, false, false)],
            rotations := s.rotations + 1)
  {
  }
}
