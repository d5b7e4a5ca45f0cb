/** Session refresh: any number of tabs share one cookie jar; on a 401 a tab refreshes once,
    under a cross-tab lock where the browser has one, after probing whether another tab
    already did. The server rotates the refresh token, and treats a rotated token that comes
    back as stolen: every session of that user is revoked. Tabs may open and close, and any
    request may fail, at any moment. */
module SessionRefresh {
  import opened AttemptResults

  datatype Token = Token(user: nat, revoked: bool, expired: bool)

  /** What a tab's `refresh` is doing. At most one runs in a tab: later 401s await the same
      promise. */
  datatype Phase =
    | Idle
    | Waiting                                                   // for the lock
    | Probing                                                   // inside it, about to GET /auth/me
    | Probed                                                    // got a 401, about to POST /auth/refresh
    | Presenting(token: Option<nat>)                            // sent, with the jar's token
    | Responding(presented: Option<nat>, issued: Option<nat>)   // processed, the response on its way
    | Closed

  /** `live` says whether the jar's access token is accepted. `arriving` holds the tokens of
      login responses on their way, and `strays` those of refresh requests on their way that
      no tab waits for any more. `seen`, `rotations` and `expiries` are histories: tokens
      the jar has held, successful refreshes, and times the access token died. */
  datatype System = System(
    locks: bool,
    tabs: seq<Phase>,
    holder: Option<nat>,
    tokens: seq<Token>,
    refresh: Option<nat>,
    live: bool,
    arriving: seq<nat>,
    strays: multiset<nat>,
    reuse: bool,
    seen: set<nat>,
    rotations: nat,
    expiries: nat)

  datatype Step =
    | Unauthorized(tab: nat)
    | Acquire(tab: nat)
    | Probe(tab: nat)
    | Present(tab: nat)
    | Serve(tab: nat)
    | Arrive(tab: nat)
    | Open
    | Close(tab: nat)
    | Drop(tab: nat)              // the request fails on its way, or its response does
    | ServeStray(token: nat)
    | Expire
    | ExpireToken(token: nat)
    | Login(user: nat)
    | LoginArrives(index: nat)

  predicate Inside(phase: Phase) {
    phase.Probing? || phase.Probed? || phase.Presenting? || phase.Responding?
  }

  predicate Enabled(s: System, step: Step) {
    match step
    case Unauthorized(tab) => tab < |s.tabs| && !s.tabs[tab].Closed?
    case Acquire(tab) => tab < |s.tabs| && s.tabs[tab].Waiting? && (s.locks ==> s.holder.None?)
    case Probe(tab) => tab < |s.tabs| && s.tabs[tab].Probing?
    case Present(tab) => tab < |s.tabs| && s.tabs[tab].Probed?
    case Serve(tab) => tab < |s.tabs| && s.tabs[tab].Presenting?
    case Arrive(tab) => tab < |s.tabs| && s.tabs[tab].Responding?
    case Open => true
    case Close(tab) => tab < |s.tabs| && !s.tabs[tab].Closed?
    case Drop(tab) => tab < |s.tabs| && Inside(s.tabs[tab])
    case ServeStray(token) => token in s.strays
    case Expire => s.live
    case ExpireToken(token) => token < |s.tokens|
    case Login(_) => true
    case LoginArrives(index) => index < |s.arriving|
  }

  function At(s: System, tab: nat, phase: Phase): System
    requires tab < |s.tabs|
  {
    s.(tabs := s.tabs[tab := phase])
  }

  /** The tab's `refresh` ends, or the tab does: the browser hands the lock on. */
  function Leave(s: System, tab: nat, phase: Phase): System
    requires tab < |s.tabs|
  {
    At(s, tab, phase).(holder := if s.holder == Some(tab) then None else s.holder)
  }

  /** It ends without an answer: a request it has sent goes on alone. */
  function BreakOff(s: System, tab: nat, phase: Phase): System
    requires tab < |s.tabs|
  {
    var sent := s.tabs[tab].Presenting? && s.tabs[tab].token.Some?;
    Leave(s, tab, phase).(strays := if sent then s.strays + multiset{s.tabs[tab].token.value} else s.strays)
  }

  function Do(s: System, step: Step): System
    requires Enabled(s, step)
  {
    match step
    case Unauthorized(tab) => if s.tabs[tab].Idle? then At(s, tab, Waiting) else s
    case Acquire(tab) => At(s, tab, Probing).(holder := Some(tab))
    case Probe(tab) => if s.live then Leave(s, tab, Idle) else At(s, tab, Probed)
    case Present(tab) => At(s, tab, Presenting(s.refresh))
    case Serve(tab) => ServeRefresh(s, tab)
    case Arrive(tab) =>
      var issued := s.tabs[tab].issued;
      if issued.None? then Leave(s, tab, Idle)
      else Leave(s, tab, Idle).(refresh := issued, live := true, seen := s.seen + {issued.value})
    case Open => s.(tabs := s.tabs + [Idle])
    case Close(tab) => BreakOff(s, tab, Closed)
    case Drop(tab) => BreakOff(s, tab, Idle)
    case ServeStray(token) => Answered(s, Some(token)).0.(strays := s.strays - multiset{token})
    case Expire => s.(live := false, expiries := s.expiries + 1)
    case ExpireToken(token) => s.(tokens := s.tokens[token := s.tokens[token].(expired := true)])
    case Login(user) => s.(tokens := s.tokens + [Token(user, false, false)], arriving := s.arriving + [|s.tokens|])
    case LoginArrives(index) =>
      var token := s.arriving[index];
      s.(arriving := s.arriving[..index] + s.arriving[index + 1..], refresh := Some(token), live := true,
          seen := s.seen + {token})
  }

  function ServeRefresh(s: System, tab: nat): System
    requires tab < |s.tabs| && s.tabs[tab].Presenting?
  {
    var presented := s.tabs[tab].token;
    var (after, issued) := Answered(s, presented);
    At(after, tab, Responding(presented, issued))
  }

  /** `POST /auth/refresh` on the server: what it leaves, and the token it issues. */
  function Answered(s: System, presented: Option<nat>): (System, Option<nat>) {
    if presented.None? || presented.value >= |s.tokens| then (s, None)
    else
      var token := s.tokens[presented.value];
      if token.revoked then (s.(tokens := RevokeUser(s.tokens, token.user), reuse := true), None)
      else if token.expired then (s, None)
      else
        var tokens := s.tokens[presented.value := token.(revoked := true)] + [Token(token.user, false, false)];
        (s.(tokens := tokens, rotations := s.rotations + 1), Some(|s.tokens|))
  }

  function RevokeUser(tokens: seq<Token>, user: nat): (revoked: seq<Token>)
    ensures |revoked| == |tokens|
    ensures forall t :: 0 <= t < |tokens| ==>
              revoked[t] == if tokens[t].user == user then tokens[t].(revoked := true) else tokens[t]
  {
    seq(|tokens|, t requires 0 <= t < |tokens| =>
      if tokens[t].user == user then tokens[t].(revoked := true) else tokens[t])
  }

  /** Some tabs, with or without a session. */
  ghost predicate Initial(s: System) {
    && (forall tab :: 0 <= tab < |s.tabs| ==> s.tabs[tab].Idle?)
    && s.holder.None? && s.arriving == [] && s.strays == multiset{} && !s.reuse && s.rotations == 0 && s.expiries == 0
    && (forall t :: 0 <= t < |s.tokens| ==> !s.tokens[t].revoked)
    && (forall t :: t in s.seen ==> t < |s.tokens|)
    && (s.refresh.Some? ==> s.refresh.value in s.seen)
  }

  /** The server has rotated, or is going to rotate, the token this phase presented. */
  predicate Rotates(s: System, phase: Phase) {
    match phase
    case Presenting(token) =>
      && token.Some? && token.value < |s.tokens|
      && !s.tokens[token.value].revoked && !s.tokens[token.value].expired
    case Responding(_, issued) => issued.Some?
    case _ => false
  }

  /** The new cookies of such a refresh can no longer reach the jar: its tab is closed, or the
      network fails and the tab stays. */
  predicate LosesResponse(s: System, step: Step) {
    (step.Close? || step.Drop?) && step.tab < |s.tabs| && Rotates(s, s.tabs[step.tab])
  }

  function Presented(phase: Phase): Option<nat>
    requires phase.Presenting? || phase.Responding?
  {
    if phase.Presenting? then phase.token else phase.presented
  }

  /** A response is lost while the jar still holds the token that was presented. */
  predicate LosesCookies(s: System, step: Step) {
    LosesResponse(s, step) && s.refresh == Presented(s.tabs[step.tab])
  }

  predicate OneOpen(s: System) {
    forall a, b :: 0 <= a < |s.tabs| && 0 <= b < |s.tabs| && !s.tabs[a].Closed? && !s.tabs[b].Closed? ==> a == b
  }

  // --- the invariant --------------------------------------------------------------------

  ghost predicate Exclusive(s: System) {
    && (s.locks || OneOpen(s))
    && (s.holder.Some? ==> s.holder.value < |s.tabs|)
    && (forall a, b :: 0 <= a < |s.tabs| && 0 <= b < |s.tabs| && Inside(s.tabs[a]) && Inside(s.tabs[b]) ==> a == b)
    && (s.locks ==> forall a :: 0 <= a < |s.tabs| ==> (Inside(s.tabs[a]) <==> s.holder == Some(a)))
  }

  /** The tab whose answered refresh will replace `token` in the jar. */
  ghost predicate Replacing(s: System, token: nat) {
    exists tab :: 0 <= tab < |s.tabs| && s.tabs[tab].Responding?
                  && s.tabs[tab].presented == Some(token) && s.tabs[tab].issued.Some?
  }

  ghost predicate PhaseOk(s: System, phase: Phase) {
    match phase
    case Presenting(token) => token.Some? ==>
        token.value < |s.tokens| && token.value in s.seen && !s.tokens[token.value].revoked
    case Responding(presented, issued) =>
      issued.Some? ==>
        && issued.value < |s.tokens| && issued.value !in s.seen && issued.value !in s.arriving
        && presented.Some? && presented.value < |s.tokens| && s.tokens[presented.value].revoked
    case _ => true
  }

  /** The server knows a stray's token and has not rotated it; and it never will, or neither
      the jar nor anyone else has that token. */
  ghost predicate StrayOk(s: System, token: nat) {
    && token < |s.tokens| && token in s.seen && !s.tokens[token].revoked
    && (!s.tokens[token].expired ==>
          && s.strays[token] == 1 && s.refresh != Some(token)
          && forall tab :: 0 <= tab < |s.tabs| && s.tabs[tab].Presenting? ==> s.tabs[tab].token != Some(token))
  }

  ghost predicate TokensOk(s: System) {
    && !s.reuse
    && (forall t :: t in s.seen ==> t < |s.tokens|)
    && (forall t :: 0 <= t < |s.tokens| && s.tokens[t].revoked ==> t in s.seen)
    && (s.refresh.Some? ==> s.refresh.value in s.seen)
    && (s.refresh.Some? && s.tokens[s.refresh.value].revoked ==> Replacing(s, s.refresh.value))
    && Distinct(s.arriving)
    && (forall i :: 0 <= i < |s.arriving| ==> s.arriving[i] < |s.tokens| && s.arriving[i] !in s.seen)
    && (forall tab :: 0 <= tab < |s.tabs| ==> PhaseOk(s, s.tabs[tab]))
    && (forall token :: token in s.strays ==> StrayOk(s, token))
  }

  ghost predicate Claimed(s: System) {
    exists tab :: 0 <= tab < |s.tabs| && (s.tabs[tab].Probed? || s.tabs[tab].Presenting?)
  }

  ghost predicate Rotated(s: System) {
    exists tab :: 0 <= tab < |s.tabs| && s.tabs[tab].Responding? && s.tabs[tab].issued.Some?
  }

  /** Each rotation is paid for by a death of the access token; a jar that starts without a
      live one has the first for free. */
  ghost predicate Paid(s: System, first: nat) {
    s.rotations + (if Claimed(s) || (!s.live && !Rotated(s)) then 1 else 0) <= s.expiries + first
  }

  ghost predicate Inv(s: System, first: nat) {
    Exclusive(s) && TokensOk(s) && Paid(s, first)
  }

  lemma InitialInv(s: System)
    requires Initial(s) && (s.locks || OneOpen(s))
    ensures Inv(s, if s.live then 0 else 1)
  {
  }

  /** A tab's phase and the lock change together. */
  lemma TabExclusive(s: System, s': System, tab: nat, phase: Phase)
    requires Exclusive(s) && tab < |s.tabs| && (s.tabs[tab].Closed? ==> phase.Closed?)
    requires s'.locks == s.locks && s'.tabs == s.tabs[tab := phase]
    requires Inside(phase) && !Inside(s.tabs[tab]) ==> (s.locks ==> s.holder.None?) && s'.holder == Some(tab)
    requires Inside(phase) && Inside(s.tabs[tab]) ==> s'.holder == s.holder
    requires !Inside(phase) ==>
               || s'.holder == (if s.holder == Some(tab) then None else s.holder)
               || (!Inside(s.tabs[tab]) && s'.holder == s.holder)
    ensures Exclusive(s')
  {
  }

  lemma EnterExclusive(s: System, step: Step, tab: nat)
    requires Exclusive(s) && Enabled(s, step)
    requires step == Unauthorized(tab) || step == Acquire(tab) || step == Present(tab)
    ensures Exclusive(Do(s, step))
  {
    if !(step.Unauthorized? && !s.tabs[tab].Idle?) {
      TabExclusive(s, Do(s, step), tab, Do(s, step).tabs[tab]);
    }
  }

  lemma AnswerExclusive(s: System, step: Step, tab: nat)
    requires Exclusive(s) && Enabled(s, step) && (step == Probe(tab) || step == Serve(tab) || step == Arrive(tab))
    ensures Exclusive(Do(s, step))
  {
    var s' := Do(s, step);
    assert s'.tabs == s.tabs[tab := s'.tabs[tab]];
    TabExclusive(s, s', tab, s'.tabs[tab]);
  }

  lemma BreakOffExclusive(s: System, tab: nat, phase: Phase)
    requires Exclusive(s) && tab < |s.tabs| && (phase.Closed? || (phase.Idle? && Inside(s.tabs[tab])))
    ensures Exclusive(BreakOff(s, tab, phase))
  {
    TabExclusive(s, BreakOff(s, tab, phase), tab, phase);
  }

  lemma StepExclusive(s: System, step: Step)
    requires Exclusive(s) && Enabled(s, step) && (s.locks || OneOpen(Do(s, step)))
    ensures Exclusive(Do(s, step))
  {
    match step
    case Unauthorized(tab) => EnterExclusive(s, step, tab);
    case Acquire(tab) => EnterExclusive(s, step, tab);
    case Present(tab) => EnterExclusive(s, step, tab);
    case Probe(tab) => AnswerExclusive(s, step, tab);
    case Serve(tab) => AnswerExclusive(s, step, tab);
    case Arrive(tab) => AnswerExclusive(s, step, tab);
    case Open => OpenExclusive(s);
    case Close(tab) => BreakOffExclusive(s, tab, Closed);
    case Drop(tab) => BreakOffExclusive(s, tab, Idle);
    case _ =>
      var s' := Do(s, step);
      assert s'.tabs == s.tabs && s'.holder == s.holder && s'.locks == s.locks;
  }

  lemma OpenExclusive(s: System)
    requires Exclusive(s) && (s.locks || OneOpen(Do(s, Open)))
    ensures Exclusive(Do(s, Open))
  {
  }

  /** A tab's step that leaves the tokens and the jar alone. */
  lemma TabMoves(s: System, s': System, tab: nat, phase: Phase)
    requires TokensOk(s) && tab < |s.tabs| && PhaseOk(s, phase) && (phase.Presenting? ==> phase.token == s.refresh)
    requires s' == s.(tabs := s.tabs[tab := phase], holder := s'.holder)
    requires !(s.tabs[tab].Responding? && s.tabs[tab].issued.Some?)
    ensures TokensOk(s')
  {
    forall token | token in s.strays
      ensures StrayOk(s', token)
    {
      assert StrayOk(s, token);
    }
    if s.refresh.Some? && s.tokens[s.refresh.value].revoked {
      var other :| 0 <= other < |s.tabs| && s.tabs[other].Responding?
                   && s.tabs[other].presented == Some(s.refresh.value) && s.tabs[other].issued.Some?;
      assert s'.tabs[other] == s.tabs[other];
    }
  }

  lemma PresentTokens(s: System, tab: nat)
    requires Exclusive(s) && TokensOk(s) && Enabled(s, Present(tab))
    ensures TokensOk(Do(s, Present(tab)))
  {
    if s.refresh.Some? && s.tokens[s.refresh.value].revoked {
      var other :| 0 <= other < |s.tabs| && s.tabs[other].Responding?;
      assert Inside(s.tabs[other]) && Inside(s.tabs[tab]);
    }
    TabMoves(s, Do(s, Present(tab)), tab, Presenting(s.refresh));
  }

  /** What a tab presents has not been rotated, so the server never sees reuse. */
  lemma ServeTokens(s: System, tab: nat)
    requires Exclusive(s) && TokensOk(s) && Enabled(s, Serve(tab))
    ensures TokensOk(Do(s, Serve(tab)))
  {
    var s', presented := Do(s, Serve(tab)), s.tabs[tab].token;
    assert PhaseOk(s, s.tabs[tab]) && Inside(s.tabs[tab]);
    if presented.None? || s.tokens[presented.value].expired {
      TabMoves(s, s', tab, Responding(presented, None));
    } else {
      assert s'.tabs[tab] == Responding(presented, Some(|s.tokens|));
      forall token | token in s'.strays
        ensures StrayOk(s', token)
      {
        assert StrayOk(s, token);
      }
      forall other | 0 <= other < |s.tabs| && other != tab
        ensures PhaseOk(s', s'.tabs[other])
      {
        assert PhaseOk(s, s.tabs[other]) && !Inside(s.tabs[other]);
      }
      if s'.refresh.Some? && s'.tokens[s'.refresh.value].revoked && s'.refresh != presented {
        assert Replacing(s, s.refresh.value);
        var other :| 0 <= other < |s.tabs| && s.tabs[other].Responding?;
        assert Inside(s.tabs[other]);
      }
    }
  }

  lemma ArriveTokens(s: System, tab: nat)
    requires Exclusive(s) && TokensOk(s) && Enabled(s, Arrive(tab))
    ensures TokensOk(Do(s, Arrive(tab)))
  {
    var s' := Do(s, Arrive(tab));
    assert PhaseOk(s, s.tabs[tab]) && Inside(s.tabs[tab]);
    if s.tabs[tab].issued.None? {
      TabMoves(s, s', tab, Idle);
    } else {
      forall token | token in s'.strays
        ensures StrayOk(s', token)
      {
        assert StrayOk(s, token);
      }
      forall other | 0 <= other < |s.tabs| && other != tab
        ensures PhaseOk(s', s'.tabs[other])
      {
        assert PhaseOk(s, s.tabs[other]) && !Inside(s.tabs[other]);
      }
    }
  }

  lemma OpenTokens(s: System)
    requires TokensOk(s)
    ensures TokensOk(Do(s, Open))
  {
    var s' := Do(s, Open);
    forall token | token in s'.strays
      ensures StrayOk(s', token)
    {
      assert StrayOk(s, token);
    }
    forall tab | 0 <= tab < |s.tabs|
      ensures PhaseOk(s', s'.tabs[tab])
    {
      assert PhaseOk(s, s.tabs[tab]);
    }
    if s.refresh.Some? && s.tokens[s.refresh.value].revoked {
      var tab :| 0 <= tab < |s.tabs| && s.tabs[tab].Responding?
                 && s.tabs[tab].presented == Some(s.refresh.value) && s.tabs[tab].issued.Some?;
      assert s'.tabs[tab] == s.tabs[tab];
    }
  }

  /** Breaking off is safe unless the jar still holds a token that is rotated: another one of
      the user's logins has replaced it, or the server refuses it anyway. */
  lemma BreakOffTokens(s: System, tab: nat, phase: Phase)
    requires Exclusive(s) && TokensOk(s) && tab < |s.tabs| && (phase == Idle || phase == Closed)
    requires Rotates(s, s.tabs[tab]) ==> s.refresh != Presented(s.tabs[tab])
    ensures TokensOk(BreakOff(s, tab, phase))
  {
    var s' := BreakOff(s, tab, phase);
    assert PhaseOk(s, s.tabs[tab]);
    forall other | 0 <= other < |s.tabs|
      ensures PhaseOk(s', s'.tabs[other])
    {
      assert PhaseOk(s, s.tabs[other]);
    }
    forall other | 0 <= other < |s.tabs| && Inside(s.tabs[tab])
      ensures !Inside(s'.tabs[other])
    {
    }
    forall token | token in s'.strays
      ensures StrayOk(s', token)
    {
      assert token in s.strays ==> StrayOk(s, token);
    }
    if s.refresh.Some? && s.tokens[s.refresh.value].revoked {
      var other :| 0 <= other < |s.tabs| && s.tabs[other].Responding?
                   && s.tabs[other].presented == Some(s.refresh.value) && s.tabs[other].issued.Some?;
      assert s'.tabs[other] == s.tabs[other];
    }
  }

  /** What the server makes of a stray: nothing the jar depends on. */
  lemma ServeStrayTokens(s: System, token: nat)
    requires TokensOk(s) && token in s.strays
    ensures TokensOk(Do(s, ServeStray(token)))
  {
    var s' := Do(s, ServeStray(token));
    assert StrayOk(s, token);
    forall tab | 0 <= tab < |s.tabs|
      ensures PhaseOk(s', s'.tabs[tab])
    {
      assert PhaseOk(s, s.tabs[tab]);
    }
    forall token | token in s'.strays
      ensures StrayOk(s', token)
    {
      assert StrayOk(s, token);
    }
    if s.refresh.Some? && s.tokens[s.refresh.value].revoked {
      assert Replacing(s, s.refresh.value);
      assert Replacing(s', s.refresh.value);
    }
  }

  lemma LoginTokens(s: System, user: nat)
    requires TokensOk(s)
    ensures TokensOk(Do(s, Login(user)))
  {
    var s' := Do(s, Login(user));
    forall token | token in s'.strays
      ensures StrayOk(s', token)
    {
      assert StrayOk(s, token);
    }
    forall tab | 0 <= tab < |s.tabs|
      ensures PhaseOk(s', s'.tabs[tab])
    {
      assert PhaseOk(s, s.tabs[tab]);
    }
    if s.refresh.Some? && s.tokens[s.refresh.value].revoked {
      assert Replacing(s, s.refresh.value);
      assert Replacing(s', s.refresh.value);
    }
  }

  lemma LoginArrivesTokens(s: System, index: nat)
    requires TokensOk(s) && index < |s.arriving|
    ensures TokensOk(Do(s, LoginArrives(index)))
  {
    var s' := Do(s, LoginArrives(index));
    forall token | token in s'.strays
      ensures StrayOk(s', token)
    {
      assert StrayOk(s, token);
    }
    forall tab | 0 <= tab < |s.tabs|
      ensures PhaseOk(s', s'.tabs[tab])
    {
      assert PhaseOk(s, s.tabs[tab]);
      assert s.arriving[index] in s.arriving;
    }
  }

  lemma ExpireTokenTokens(s: System, token: nat)
    requires TokensOk(s) && token < |s.tokens|
    ensures TokensOk(Do(s, ExpireToken(token)))
  {
    var s' := Do(s, ExpireToken(token));
    forall token | token in s'.strays
      ensures StrayOk(s', token)
    {
      assert StrayOk(s, token);
    }
    forall tab | 0 <= tab < |s.tabs|
      ensures PhaseOk(s', s'.tabs[tab])
    {
      assert PhaseOk(s, s.tabs[tab]);
    }
    if s.refresh.Some? && s.tokens[s.refresh.value].revoked {
      assert Replacing(s, s.refresh.value);
      assert Replacing(s', s.refresh.value);
    }
  }

  lemma StepTokens(s: System, step: Step)
    requires Exclusive(s) && TokensOk(s) && Enabled(s, step) && !LosesCookies(s, step)
    ensures TokensOk(Do(s, step))
  {
    match step
    case Unauthorized(tab) => if s.tabs[tab].Idle? { TabMoves(s, Do(s, step), tab, Waiting); }
    case Acquire(tab) => TabMoves(s, Do(s, step), tab, Probing);
    case Probe(tab) => TabMoves(s, Do(s, step), tab, if s.live then Idle else Probed);
    case Present(tab) => PresentTokens(s, tab);
    case Serve(tab) => ServeTokens(s, tab);
    case Arrive(tab) => ArriveTokens(s, tab);
    case Open => OpenTokens(s);
    case Close(tab) => BreakOffTokens(s, tab, Closed);
    case Drop(tab) => BreakOffTokens(s, tab, Idle);
    case ServeStray(token) => ServeStrayTokens(s, token);
    case Expire => ExpireStays(s);
    case ExpireToken(token) => ExpireTokenTokens(s, token);
    case Login(user) => LoginTokens(s, user);
    case LoginArrives(index) => LoginArrivesTokens(s, index);
  }

  lemma ExpireStays(s: System)
    requires TokensOk(s) && s.live
    ensures TokensOk(Do(s, Expire))
  {
    var s' := Do(s, Expire);
    forall token | token in s'.strays
      ensures StrayOk(s', token)
    {
      assert StrayOk(s, token);
    }
    forall tab | 0 <= tab < |s.tabs|
      ensures PhaseOk(s', s'.tabs[tab])
    {
      assert PhaseOk(s, s.tabs[tab]);
    }
    if s.refresh.Some? && s.tokens[s.refresh.value].revoked {
      assert Replacing(s, s.refresh.value);
      assert Replacing(s', s.refresh.value);
    }
  }

  /** `Claimed` and `Rotated` before and after one tab moves, when no other tab is inside. */
  lemma ClaimsMove(s: System, s': System, tab: nat)
    requires tab < |s.tabs| == |s'.tabs| && s'.tabs == s.tabs[tab := s'.tabs[tab]]
    ensures Claimed(s') ==> Claimed(s) || s'.tabs[tab].Probed? || s'.tabs[tab].Presenting?
    ensures s'.tabs[tab].Probed? || s'.tabs[tab].Presenting? ==> Claimed(s')
    ensures s.tabs[tab].Probed? || s.tabs[tab].Presenting? ==> Claimed(s)
    ensures Rotated(s') ==> Rotated(s) || (s'.tabs[tab].Responding? && s'.tabs[tab].issued.Some?)
    ensures s'.tabs[tab].Responding? && s'.tabs[tab].issued.Some? ==> Rotated(s')
    ensures Rotated(s) ==> Rotated(s') || (s.tabs[tab].Responding? && s.tabs[tab].issued.Some?)
    ensures Exclusive(s) && Inside(s.tabs[tab]) && !(s'.tabs[tab].Probed? || s'.tabs[tab].Presenting?) ==> !Claimed(s')
    ensures Exclusive(s) && Inside(s.tabs[tab]) && !(s.tabs[tab].Responding? && s.tabs[tab].issued.Some?) ==>
            !Rotated(s)
  {
    if Claimed(s') {
      var a :| 0 <= a < |s'.tabs| && (s'.tabs[a].Probed? || s'.tabs[a].Presenting?);
      assert a == tab || s.tabs[a] == s'.tabs[a];
    }
    if Rotated(s') {
      var a :| 0 <= a < |s'.tabs| && s'.tabs[a].Responding? && s'.tabs[a].issued.Some?;
      assert a == tab || s.tabs[a] == s'.tabs[a];
    }
    if Rotated(s) {
      var a :| 0 <= a < |s.tabs| && s.tabs[a].Responding? && s.tabs[a].issued.Some?;
      assert a == tab || s.tabs[a] == s'.tabs[a];
    }
  }

  lemma QuietPaid(s: System, step: Step, tab: nat, first: nat)
    requires Exclusive(s) && Paid(s, first) && Enabled(s, step) && !LosesResponse(s, step)
    requires step == Unauthorized(tab) || step == Acquire(tab) || step == Present(tab)
             || step == Close(tab) || step == Drop(tab)
    ensures Paid(Do(s, step), first)
  {
    ClaimsMove(s, Do(s, step), tab);
  }

  lemma ProbePaid(s: System, tab: nat, first: nat)
    requires Exclusive(s) && Paid(s, first) && Enabled(s, Probe(tab))
    ensures Paid(Do(s, Probe(tab)), first)
  {
    ClaimsMove(s, Do(s, Probe(tab)), tab);
  }

  lemma ServePaid(s: System, tab: nat, first: nat)
    requires Exclusive(s) && Paid(s, first) && Enabled(s, Serve(tab))
    ensures Paid(Do(s, Serve(tab)), first)
  {
    ClaimsMove(s, Do(s, Serve(tab)), tab);
  }

  lemma ArrivePaid(s: System, tab: nat, first: nat)
    requires Exclusive(s) && Paid(s, first) && Enabled(s, Arrive(tab))
    ensures Paid(Do(s, Arrive(tab)), first)
  {
    ClaimsMove(s, Do(s, Arrive(tab)), tab);
  }

  lemma StepPaid(s: System, step: Step, first: nat)
    requires Exclusive(s) && TokensOk(s) && AllSpent(s) && Paid(s, first)
    requires Enabled(s, step) && !LosesResponse(s, step)
    ensures Paid(Do(s, step), first)
  {
    match step
    case Unauthorized(tab) => QuietPaid(s, step, tab, first);
    case Acquire(tab) => QuietPaid(s, step, tab, first);
    case Present(tab) => QuietPaid(s, step, tab, first);
    case Close(tab) => QuietPaid(s, step, tab, first);
    case Drop(tab) => QuietPaid(s, step, tab, first);
    case Probe(tab) => ProbePaid(s, tab, first);
    case Serve(tab) => ServePaid(s, tab, first);
    case Arrive(tab) => ArrivePaid(s, tab, first);
    case Open => OpenPaid(s, first);
    case _ =>
      assert Claimed(Do(s, step)) <==> Claimed(s);
      assert Rotated(Do(s, step)) <==> Rotated(s);
  }

  lemma OpenPaid(s: System, first: nat)
    requires Paid(s, first)
    ensures Paid(Do(s, Open), first)
  {
    var s' := Do(s, Open);
    assert forall tab :: 0 <= tab < |s.tabs| ==> s'.tabs[tab] == s.tabs[tab];
    assert s'.tabs[|s.tabs|] == Idle;
    if Rotated(s) {
      var tab :| 0 <= tab < |s.tabs| && s.tabs[tab].Responding? && s.tabs[tab].issued.Some?;
      assert s'.tabs[tab].Responding?;
    }
  }

  /** Without a loss, the server refuses every stray. */
  ghost predicate AllSpent(s: System) {
    forall token :: token in s.strays ==> token < |s.tokens| && s.tokens[token].expired
  }

  lemma StepSpent(s: System, step: Step)
    requires TokensOk(s) && AllSpent(s) && Enabled(s, step) && !LosesResponse(s, step)
    ensures AllSpent(Do(s, step))
  {
    match step
    case Close(tab) => BreakOffSpent(s, tab, Closed);
    case Drop(tab) => BreakOffSpent(s, tab, Idle);
    case Serve(tab) => AnsweredSpent(s, s.tabs[tab].token);
    case ServeStray(token) => AnsweredSpent(s, Some(token));
    case _ =>
  }

  lemma BreakOffSpent(s: System, tab: nat, phase: Phase)
    requires TokensOk(s) && AllSpent(s) && tab < |s.tabs| && !Rotates(s, s.tabs[tab])
    ensures AllSpent(BreakOff(s, tab, phase))
  {
    assert PhaseOk(s, s.tabs[tab]);
  }

  lemma AnsweredSpent(s: System, presented: Option<nat>)
    requires AllSpent(s)
    ensures AllSpent(Answered(s, presented).0) && Answered(s, presented).0.strays == s.strays
  {
  }

  // --- whole histories ----------------------------------------------------------------------

  /** A history from a start, in a browser with locks or with one tab open at a time, that
      never loses the jar's own cookies. */
  ghost predicate IsRun(states: seq<System>, steps: seq<Step>) {
    && |states| == |steps| + 1
    && Initial(states[0])
    && (forall i :: 0 <= i < |states| ==> states[i].locks || OneOpen(states[i]))
    && forall i :: 0 <= i < |steps| ==>
         Enabled(states[i], steps[i]) && !LosesCookies(states[i], steps[i]) && states[i + 1] == Do(states[i], steps[i])
  }

  ghost predicate Lossless(states: seq<System>, steps: seq<Step>)
    requires |states| == |steps| + 1
  {
    forall i :: 0 <= i < |steps| ==> !LosesResponse(states[i], steps[i])
  }

  lemma StepSafe(s: System, step: Step, s': System)
    requires Exclusive(s) && TokensOk(s) && Enabled(s, step) && !LosesCookies(s, step)
    requires s' == Do(s, step) && (s'.locks || OneOpen(s'))
    ensures Exclusive(s') && TokensOk(s')
  {
    StepExclusive(s, step);
    StepTokens(s, step);
  }

  lemma {:induction false} RunInv(states: seq<System>, steps: seq<Step>, i: nat)
    requires IsRun(states, steps) && i < |states|
    ensures Exclusive(states[i]) && TokensOk(states[i])
  {
    if i == 0 {
      InitialInv(states[0]);
    } else {
      RunInv(states, steps, i - 1);
      StepSafe(states[i - 1], steps[i - 1], states[i]);
    }
  }

  lemma {:induction false} RunPaid(states: seq<System>, steps: seq<Step>, i: nat)
    requires IsRun(states, steps) && Lossless(states, steps) && i < |states|
    ensures AllSpent(states[i]) && Paid(states[i], if states[0].live then 0 else 1)
  {
    if i == 0 {
      InitialInv(states[0]);
    } else {
      RunPaid(states, steps, i - 1);
      RunInv(states, steps, i - 1);
      StepSpent(states[i - 1], steps[i - 1]);
      StepPaid(states[i - 1], steps[i - 1], if states[0].live then 0 else 1);
    }
  }

  /** What a tab presents is a token the server knows and has not rotated. */
  predicate PresentsGood(s: System, phase: Phase) {
    phase.Presenting? && phase.token.Some? ==> phase.token.value < |s.tokens| && !s.tokens[phase.token.value].revoked
  }

  /** With a lock, or with one tab open at a time, and no response lost while the jar holds
      the token it answers: nothing a tab presents has been rotated, the server never takes a
      refresh for theft, and no session is mass-revoked. */
  lemma NeverTakenForTheft(states: seq<System>, steps: seq<Step>, i: nat)
    requires IsRun(states, steps) && i < |states|
    ensures !states[i].reuse
    ensures forall tab :: 0 <= tab < |states[i].tabs| ==> PresentsGood(states[i], states[i].tabs[tab])
  {
    RunInv(states, steps, i);
    forall tab | 0 <= tab < |states[i].tabs|
      ensures PresentsGood(states[i], states[i].tabs[tab])
    {
      assert PhaseOk(states[i], states[i].tabs[tab]);
    }
  }

  /** If no response is lost, tabs refresh at most once for each time the access token dies,
      however many requests meet a 401 in however many tabs. */
  lemma OneRefreshPerExpiry(states: seq<System>, steps: seq<Step>, i: nat)
    requires IsRun(states, steps) && Lossless(states, steps) && i < |states|
    ensures states[i].rotations <= states[i].expiries + if states[0].live then 0 else 1
  {
    RunPaid(states, steps, i);
  }

  // --- where the guarantee ends ---------------------------------------------------------------

  /** Taking `steps` one after another, losing no response, leads from `s` to `s'`. With
      `alone`, never more than one tab is open. */
  ghost predicate Leads(alone: bool, s: System, steps: seq<Step>, s': System)
    decreases |steps|
  {
    && (alone ==> OneOpen(s))
    && if steps == [] then s == s'
       else Enabled(s, steps[0]) && !LosesResponse(s, steps[0]) && Leads(alone, Do(s, steps[0]), steps[1..], s')
  }

  lemma {:induction false} LeadsOn(alone: bool, s: System, steps: seq<Step>, s': System, step: Step)
    requires Leads(alone, s, steps, s') && Enabled(s', step) && !LosesResponse(s', step)
    requires alone ==> OneOpen(Do(s', step))
    ensures Leads(alone, s, steps + [step], Do(s', step))
    decreases |steps|
  {
    if steps != [] {
      assert (steps + [step])[1..] == steps[1..] + [step];
      LeadsOn(alone, Do(s, steps[0]), steps[1..], s', step);
    }
  }

  lemma {:induction false} LeadsFurther(alone: bool, s: System, a: seq<Step>, t: System, b: seq<Step>, u: System)
    requires Leads(alone, s, a, t) && Leads(alone, t, b, u)
    ensures Leads(alone, s, a + b, u)
    decreases |a|
  {
    if a == [] {
      assert a + b == b;
    } else {
      assert (a + b)[1..] == a[1..] + b;
      LeadsFurther(alone, Do(s, a[0]), a[1..], t, b, u);
    }
  }

  /** Some continuation that loses no response is taken for theft. */
  ghost predicate CanLookLikeTheft(alone: bool, s: System) {
    exists steps, s' :: Leads(alone, s, steps, s') && s'.reuse
  }

  lemma {:induction false} SafeLeads(alone: bool, s: System, steps: seq<Step>, s': System)
    requires (alone || s.locks) && Exclusive(s) && TokensOk(s) && Leads(alone, s, steps, s')
    ensures Exclusive(s') && TokensOk(s')
    decreases |steps|
  {
    if steps != [] {
      StepSafe(s, steps[0], Do(s, steps[0]));
      SafeLeads(alone, Do(s, steps[0]), steps[1..], s');
    }
  }

  ghost predicate AllRevoked(tokens: seq<Token>, user: nat) {
    forall t :: 0 <= t < |tokens| && tokens[t].user == user ==> tokens[t].revoked
  }

  ghost predicate JarRevoked(s: System, user: nat) {
    && s.refresh.Some? && s.refresh.value < |s.tokens|
    && s.tokens[s.refresh.value].revoked && s.tokens[s.refresh.value].user == user
  }

  /** The jar's token is revoked, and the lock is free. */
  ghost predicate Spoilt(s: System, user: nat) {
    JarRevoked(s, user) && (s.locks ==> s.holder.None?)
  }

  lemma StepLeads(alone: bool, s: System, step: Step, rest: seq<Step>, s': System)
    requires Enabled(s, step) && !LosesResponse(s, step) && (alone ==> OneOpen(s))
    requires Leads(alone, Do(s, step), rest, s')
    ensures Leads(alone, s, [step] + rest, s')
  {
    assert ([step] + rest)[1..] == rest;
  }

  /** A tab that meets a 401 with a spoilt jar makes the server revoke every session. */
  lemma SpoiltIsTheft(alone: bool, s: System, tab: nat, user: nat) returns (steps: seq<Step>, s': System)
    requires Spoilt(s, user) && tab < |s.tabs| && (s.tabs[tab].Idle? || s.tabs[tab].Waiting?)
    requires !s.live && (alone ==> OneOpen(s))
    ensures Leads(alone, s, steps, s') && s'.reuse && AllRevoked(s'.tokens, user)
  {
    var waiting := Do(s, Unauthorized(tab));
    var probing := Do(waiting, Acquire(tab));
    steps, s' := ProbingIsTheft(alone, probing, tab, user);
    StepLeads(alone, waiting, Acquire(tab), steps, s');
    StepLeads(alone, s, Unauthorized(tab), [Acquire(tab)] + steps, s');
    steps := [Unauthorized(tab)] + ([Acquire(tab)] + steps);
  }

  lemma ProbingIsTheft(alone: bool, s: System, tab: nat, user: nat) returns (steps: seq<Step>, s': System)
    requires JarRevoked(s, user) && tab < |s.tabs| && s.tabs[tab].Probing?
    requires !s.live && (alone ==> OneOpen(s))
    ensures Leads(alone, s, steps, s') && s'.reuse && AllRevoked(s'.tokens, user)
  {
    var probed := Do(s, Probe(tab));
    var presenting := Do(probed, Present(tab));
    s' := Do(presenting, Serve(tab));
    StepLeads(alone, presenting, Serve(tab), [], s');
    StepLeads(alone, probed, Present(tab), [Serve(tab)] + [], s');
    StepLeads(alone, s, Probe(tab), [Present(tab)] + ([Serve(tab)] + []), s');
    steps := [Probe(tab)] + ([Present(tab)] + ([Serve(tab)] + []));
  }

  /** So it does once its access token has died. */
  lemma SpoiltExpires(alone: bool, s: System, tab: nat, user: nat) returns (steps: seq<Step>, s': System)
    requires Spoilt(s, user) && tab < |s.tabs| && (s.tabs[tab].Idle? || s.tabs[tab].Waiting?)
    requires alone ==> OneOpen(s)
    ensures Leads(alone, s, steps, s') && s'.reuse && AllRevoked(s'.tokens, user)
  {
    if s.live {
      steps, s' := SpoiltIsTheft(alone, Do(s, Expire), tab, user);
      StepLeads(alone, s, Expire, steps, s');
      steps := [Expire] + steps;
    } else {
      steps, s' := SpoiltIsTheft(alone, s, tab, user);
    }
  }

  /** If the tab is gone, another one is opened: it has no more to go on than the jar. */
  lemma SpoiltAgain(alone: bool, s: System, tab: nat, user: nat) returns (steps: seq<Step>, s': System)
    requires Spoilt(s, user) && tab < |s.tabs| && (s.tabs[tab].Idle? || s.tabs[tab].Closed?)
    requires alone ==> OneOpen(s) && (s.tabs[tab].Closed? ==> OneOpen(Do(s, Open)))
    ensures Leads(alone, s, steps, s') && s'.reuse && AllRevoked(s'.tokens, user)
  {
    if s.tabs[tab].Closed? {
      steps, s' := SpoiltExpires(alone, Do(s, Open), |s.tabs|, user);
      StepLeads(alone, s, Open, steps, s');
      steps := [Open] + steps;
    } else {
      steps, s' := SpoiltExpires(alone, s, tab, user);
    }
  }

  /** What is left of the tab's refresh spoils the jar, at the latest when the server gets to
      its request. */
  lemma LostInFlight(s: System, tab: nat, phase: Phase)
    requires Exclusive(s) && TokensOk(s) && tab < |s.tabs| && (phase == Idle || phase == Closed)
    requires s.tabs[tab].Presenting? && Rotates(s, s.tabs[tab]) && s.refresh == s.tabs[tab].token
    ensures var lost, token := BreakOff(s, tab, phase), s.refresh.value;
            && Enabled(lost, ServeStray(token)) && lost.tabs == s.tabs[tab := phase]
            && Do(lost, ServeStray(token)).tabs == lost.tabs
            && Spoilt(Do(lost, ServeStray(token)), s.tokens[token].user)
  {
    assert Inside(s.tabs[tab]);
  }

  lemma LostOnTheWayBack(s: System, tab: nat, phase: Phase)
    requires Exclusive(s) && TokensOk(s) && tab < |s.tabs| && (phase == Idle || phase == Closed)
    requires s.tabs[tab].Responding? && Rotates(s, s.tabs[tab]) && s.refresh == s.tabs[tab].presented
    ensures BreakOff(s, tab, phase).tabs == s.tabs[tab := phase]
    ensures Spoilt(BreakOff(s, tab, phase), s.tokens[s.refresh.value].user)
  {
    assert PhaseOk(s, s.tabs[tab]) && Inside(s.tabs[tab]);
  }

  lemma BrokenOffAlone(s: System, t: System, tab: nat, phase: Phase)
    requires OneOpen(s) && tab < |s.tabs| && !s.tabs[tab].Closed? && t.tabs == s.tabs[tab := phase]
    ensures OneOpen(t) && (phase.Closed? ==> OneOpen(Do(t, Open)))
  {
  }

  /** After such a loss, some tab's next refresh can revoke every session of the user: the
      tab's own if it stays, and that of a tab opened later if it was closed. */
  lemma LossRevokesEverything(alone: bool, s: System, step: Step) returns (steps: seq<Step>, s': System)
    requires Exclusive(s) && TokensOk(s) && Enabled(s, step) && LosesCookies(s, step)
    requires alone ==> OneOpen(s)
    ensures Leads(alone, Do(s, step), steps, s') && s'.reuse
    ensures AllRevoked(s'.tokens, s.tokens[s.refresh.value].user)
  {
    var tab, lost, phase := step.tab, Do(s, step), if step.Close? then Closed else Idle;
    if s.tabs[tab].Presenting? {
      var serve := ServeStray(s.refresh.value);
      LostInFlight(s, tab, phase);
      if alone { BrokenOffAlone(s, Do(lost, serve), tab, phase); }
      steps, s' := SpoiltAgain(alone, Do(lost, serve), tab, s.tokens[s.refresh.value].user);
      StepLeads(alone, lost, serve, steps, s');
      steps := [serve] + steps;
    } else {
      LostOnTheWayBack(s, tab, phase);
      if alone { BrokenOffAlone(s, lost, tab, phase); }
      steps, s' := SpoiltAgain(alone, lost, tab, s.tokens[s.refresh.value].user);
    }
  }

  /** When a lost response can lead to a mass revocation: exactly when the jar still holds the
      token that was presented; a login that came in between has replaced it. It makes no
      difference how the response is lost, or whether another tab is open. */
  lemma LossIsHarmfulExactly(alone: bool, s: System, step: Step)
    requires (s.locks || alone) && (alone ==> OneOpen(s))
    requires Exclusive(s) && TokensOk(s) && Enabled(s, step) && LosesResponse(s, step)
    ensures CanLookLikeTheft(alone, Do(s, step)) <==> s.refresh == Presented(s.tabs[step.tab])
  {
    if s.refresh == Presented(s.tabs[step.tab]) {
      var steps, s' := LossRevokesEverything(alone, s, step);
    } else {
      StepExclusive(s, step);
      StepTokens(s, step);
      forall steps, s' | Leads(alone, Do(s, step), steps, s')
        ensures !s'.reuse
      {
        SafeLeads(alone, Do(s, step), steps, s');
      }
    }
  }

  lemma OnlyTabSends(s: System) returns (steps: seq<Step>)
    requires |s.tabs| == 1 && s.tabs[0].Idle? && s.holder.None? && !s.live
    ensures Leads(true, s, steps, s.(tabs := [Presenting(s.refresh)], holder := Some(0)))
  {
    var waiting := Do(s, Unauthorized(0));
    var probing := Do(waiting, Acquire(0));
    var probed := Do(probing, Probe(0));
    var sent := Do(probed, Present(0));
    StepLeads(true, probed, Present(0), [], sent);
    StepLeads(true, probing, Probe(0), [Present(0)] + [], sent);
    StepLeads(true, waiting, Acquire(0), [Probe(0)] + ([Present(0)] + []), sent);
    StepLeads(true, s, Unauthorized(0), [Acquire(0)] + ([Probe(0)] + ([Present(0)] + [])), sent);
    steps := [Unauthorized(0)] + ([Acquire(0)] + ([Probe(0)] + ([Present(0)] + [])));
    assert sent.tabs == [Presenting(s.refresh)];
  }

  /** The only tab of a browser can lose its cookies, by staying or by closing, before the
      server gets to its request and after. */
  lemma OneTabCanLose(s: System) returns (before: seq<Step>, sent: System, after: seq<Step>, served: System)
    requires Initial(s) && |s.tabs| == 1 && !s.live
    requires s.refresh.Some? && !s.tokens[s.refresh.value].expired
    ensures Leads(true, s, before, sent) && Exclusive(sent) && TokensOk(sent) && sent.tabs == [Presenting(s.refresh)]
    ensures LosesCookies(sent, Drop(0)) && LosesCookies(sent, Close(0))
    ensures Leads(true, s, after, served) && Exclusive(served) && TokensOk(served)
    ensures served.tabs == [Responding(s.refresh, Some(|s.tokens|))]
    ensures LosesCookies(served, Drop(0)) && LosesCookies(served, Close(0))
  {
    before := OnlyTabSends(s);
    sent := s.(tabs := [Presenting(s.refresh)], holder := Some(0));
    served := Do(sent, Serve(0));
    LeadsOn(true, s, before, sent, Serve(0));
    after := before + [Serve(0)];
    InitialInv(s);
    SafeLeads(true, s, before, sent);
    SafeLeads(true, s, after, served);
  }

  // --- without locks --------------------------------------------------------------------------

  /** Two tabs of a browser without locks: both probe, both present the same token, and the
      second is taken for theft. */
  lemma WithoutLocksTheftIsSeen(s: System) returns (steps: seq<Step>, s': System)
    requires Initial(s) && !s.locks && |s.tabs| >= 2
    requires s.refresh.Some? && !s.tokens[s.refresh.value].expired
    ensures Leads(false, s, steps, s') && s'.reuse
    ensures AllRevoked(s'.tokens, s.tokens[s.refresh.value].user)
  {
    if s.live {
      steps, s' := DeadIsSeen(Do(s, Expire));
      StepLeads(false, s, Expire, steps, s');
      steps := [Expire] + steps;
    } else {
      steps, s' := DeadIsSeen(s);
    }
  }

  lemma DeadIsSeen(s: System) returns (steps: seq<Step>, s': System)
    requires !s.locks && |s.tabs| >= 2 && !s.live && s.tabs[0].Idle? && s.tabs[1].Idle?
    requires s.refresh.Some? && s.refresh.value < |s.tokens|
    requires !s.tokens[s.refresh.value].revoked && !s.tokens[s.refresh.value].expired
    ensures Leads(false, s, steps, s') && s'.reuse
    ensures AllRevoked(s'.tokens, s.tokens[s.refresh.value].user)
  {
    var probed := s.(tabs := s.tabs[0 := Probed][1 := Probed], holder := Some(1));
    var a, b;
    a := BothProbe(s);
    b, s' := BothPresent(probed);
    LeadsFurther(false, s, a, probed, b, s');
    steps := a + b;
  }

  lemma BothProbe(s: System) returns (steps: seq<Step>)
    requires !s.locks && |s.tabs| >= 2 && !s.live && s.tabs[0].Idle? && s.tabs[1].Idle?
    ensures Leads(false, s, steps, s.(tabs := s.tabs[0 := Probed][1 := Probed], holder := Some(1)))
  {
    var s1 := Do(s, Unauthorized(0));
    LeadsOn(false, s, [], s, Unauthorized(0));
    var s2 := Do(s1, Unauthorized(1));
    LeadsOn(false, s, [] + [Unauthorized(0)], s1, Unauthorized(1));
    var s3 := Do(s2, Acquire(0));
    LeadsOn(false, s, [] + [Unauthorized(0)] + [Unauthorized(1)], s2, Acquire(0));
    var s4 := Do(s3, Acquire(1));
    LeadsOn(false, s, [] + [Unauthorized(0)] + [Unauthorized(1)] + [Acquire(0)], s3, Acquire(1));
    var a := [] + [Unauthorized(0)] + [Unauthorized(1)] + [Acquire(0)] + [Acquire(1)];
    var s5 := Do(s4, Probe(0));
    LeadsOn(false, s, a, s4, Probe(0));
    var s6 := Do(s5, Probe(1));
    LeadsOn(false, s, a + [Probe(0)], s5, Probe(1));
    steps := a + [Probe(0)] + [Probe(1)];
    assert s6.tabs == s.tabs[0 := Probed][1 := Probed];
  }

  lemma BothPresent(s: System) returns (steps: seq<Step>, s': System)
    requires |s.tabs| >= 2 && s.tabs[0].Probed? && s.tabs[1].Probed? && s.refresh.Some? && s.refresh.value < |s.tokens|
    requires !s.tokens[s.refresh.value].revoked && !s.tokens[s.refresh.value].expired
    ensures Leads(false, s, steps, s') && s'.reuse
    ensures AllRevoked(s'.tokens, s.tokens[s.refresh.value].user)
  {
    var s1 := Do(s, Present(0));
    LeadsOn(false, s, [], s, Present(0));
    var s2 := Do(s1, Present(1));
    LeadsOn(false, s, [] + [Present(0)], s1, Present(1));
    var s3 := Do(s2, Serve(0));
    LeadsOn(false, s, [] + [Present(0)] + [Present(1)], s2, Serve(0));
    s' := Do(s3, Serve(1));
    LeadsOn(false, s, [] + [Present(0)] + [Present(1)] + [Serve(0)], s3, Serve(1));
    steps := [] + [Present(0)] + [Present(1)] + [Serve(0)] + [Serve(1)];
  }

  lemma LoginsIn(s: System) returns (s': System)
    requires Initial(s)
    ensures Leads(false, s, [Login(0), LoginArrives(0)], s') && Initial(s') && s'.tabs == s.tabs && s'.locks == s.locks
    ensures s'.refresh.Some? && !s'.tokens[s'.refresh.value].expired
  {
    var s1 := Do(s, Login(0));
    s' := Do(s1, LoginArrives(0));
    assert s1.arriving == [|s.tokens|] && s'.arriving == [];
    assert [Login(0), LoginArrives(0)][1..] == [LoginArrives(0)] && [LoginArrives(0)][1..] == [];
    assert Leads(false, s1, [LoginArrives(0)], s');
  }

  /** Tabs can be opened until there are two. */
  lemma OpensTwo(s: System) returns (steps: seq<Step>, s': System)
    requires Initial(s)
    ensures Leads(false, s, steps, s') && Initial(s') && |s'.tabs| >= 2 && s'.locks == s.locks
    decreases 2 - |s.tabs|
  {
    if |s.tabs| >= 2 {
      steps, s' := [], s;
    } else {
      steps, s' := OpensTwo(Do(s, Open));
      StepLeads(false, s, Open, steps, s');
      steps := [Open] + steps;
    }
  }

  /** The assumption of `NeverTakenForTheft` is exact: from any start, some history that loses
      no response is taken for theft if and only if there are no locks and more than one tab
      may be open at a time. */
  lemma LocksOrOneTabExactly(alone: bool, s: System)
    requires Initial(s) && (alone ==> OneOpen(s))
    ensures CanLookLikeTheft(alone, s) <==> !s.locks && !alone
  {
    if !s.locks && !alone {
      var opens, two := OpensTwo(s);
      var t := LoginsIn(two);
      var steps, s' := WithoutLocksTheftIsSeen(t);
      LeadsFurther(false, two, [Login(0), LoginArrives(0)], t, steps, s');
      LeadsFurther(false, s, opens, two, [Login(0), LoginArrives(0)] + steps, s');
    } else {
      InitialInv(s);
      forall steps, s' | Leads(alone, s, steps, s')
        ensures !s'.reuse
      {
        SafeLeads(alone, s, steps, s');
      }
    }
  }
}
