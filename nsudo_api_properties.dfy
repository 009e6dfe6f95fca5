/**
 * What every run of `NSudoCreateProcess` asks of the kernel, whatever each
 * fallible call returns: the run stops at the first failing token step, the
 * session flows from the caller's token into the primary token before the
 * label is raised, the process is resumed only after its priority is set, and
 * each handle opened is closed once, except the first process token, which is
 * never closed once the thread token has been opened into the same variable.
 */
module NSudoApiProperties {
  import opened Wrappers
  import opened NSudoApi

  /** The fallible calls in a log, in order. */
  function CallsOf(events: seq<Event>): (ops: seq<Op>)
    ensures |ops| <= |events|
  {
    if events == [] then []
    else (if events[0].Call? then [events[0].op] else []) + CallsOf(events[1..])
  }

  /** How often `e` occurs in `events`. */
  function Count(events: seq<Event>, e: Event): (n: nat)
    ensures n <= |events|
  {
    if events == [] then 0 else (if events[0] == e then 1 else 0) + Count(events[1..], e)
  }

  lemma {:induction false} CountAppend(a: seq<Event>, b: seq<Event>, e: Event)
    ensures Count(a + b, e) == Count(a, e) + Count(b, e)
  {
    if a == [] {
      assert a + b == b;
    } else {
      assert (a + b)[0] == a[0] && (a + b)[1..] == a[1..] + b;
      CountAppend(a[1..], b, e);
    }
  }

  /** An event occurs iff its count is positive. */
  lemma {:induction false} CountPositive(events: seq<Event>, e: Event)
    ensures Count(events, e) > 0 <==> e in events
  {
    if events != [] {
      CountPositive(events[1..], e);
      assert events == [events[0]] + events[1..];
    }
  }

  lemma {:induction false} CallsOfAppend(a: seq<Event>, b: seq<Event>)
    ensures CallsOf(a + b) == CallsOf(a) + CallsOf(b)
  {
    if a == [] {
      assert a + b == b;
    } else {
      assert (a + b)[0] == a[0] && (a + b)[1..] == a[1..] + b;
      CallsOfAppend(a[1..], b);
    }
  }

  lemma {:induction false} CallsOfNoCalls(events: seq<Event>)
    requires forall e :: e in events ==> !e.Call?
    ensures CallsOf(events) == []
  {
    if events != [] {
      assert events[0] in events;
      CallsOfNoCalls(events[1..]);
    }
  }

  /** The i-th event of the token phase is the i-th planned step, with its status. */
  lemma {:induction false} TokenEventsAt(w: World, n: nat, i: nat)
    requires i < n <= TOKEN_STEPS
    ensures TokenEvents(w, n)[i] == Call(TokenPlan(w)[i], w.Status(i))
  {
    if i < n - 1 {
      TokenEventsAt(w, n - 1, i);
    }
  }

  /** The token phase makes exactly the first n planned calls and nothing else. */
  lemma {:induction false} TokenEventsCalls(w: World, n: nat)
    requires n <= TOKEN_STEPS
    ensures CallsOf(TokenEvents(w, n)) == TokenPlan(w)[..n]
    ensures forall e :: e in TokenEvents(w, n) ==> e.Call?
  {
    if n > 0 {
      TokenEventsCalls(w, n - 1);
      var plan := TokenPlan(w);
      var last := Call(plan[n - 1], w.Status(n - 1));
      assert TokenEvents(w, n) == TokenEvents(w, n - 1) + [last];
      CallsOfAppend(TokenEvents(w, n - 1), [last]);
      assert CallsOf([last]) == [last.op];
      assert plan[..n] == plan[..n - 1] + [plan[n - 1]];
    }
  }

  /** The handler only closes handles that are not INVALID_HANDLE_VALUE, then clears the thread token. */
  lemma CleanupHasNoCalls(v: TokenVars)
    ensures forall e :: e in TokenCloses(v) ==> e.CloseHandle? && e.handle != InvalidHandle
    ensures forall e :: e in CleanupEvents(v) ==> e.CloseHandle? || e.ClearThreadToken?
    ensures CallsOf(CleanupEvents(v)) == []
  {
    CallsOfNoCalls(CleanupEvents(v));
  }

  /** 1 if `x` is `h`, else 0. */
  function Hit(x: Handle, h: Handle): nat {
    if x == h then 1 else 0
  }

  /** How many token variables hold `h`. */
  function Holders(v: TokenVars, h: Handle): nat {
    Hit(v.currentProcessToken, h) + Hit(v.duplicatedCurrentProcessToken, h)
    + Hit(v.originalLsassProcessToken, h) + Hit(v.systemToken, h)
    + Hit(v.hToken, h) + Hit(v.originalToken, h)
  }

  lemma CloseIfValidCount(x: Handle, h: Handle)
    requires h != InvalidHandle
    ensures Count(CloseIfValid(x), CloseHandle(h)) == Hit(x, h)
  {
    if x != InvalidHandle {
      assert CloseIfValid(x)[1..] == [];
    }
  }

  /**
   * The guard's handler closes each token variable that is not
   * INVALID_HANDLE_VALUE, once per variable holding it, never
   * INVALID_HANDLE_VALUE, and ends by clearing the thread token.
   */
  lemma CleanupClosesHeldTokens(v: TokenVars, h: Handle)
    ensures var e := CleanupEvents(v);
      && e[|e| - 1] == ClearThreadToken
      && (forall i :: 0 <= i < |e| - 1 ==> e[i].CloseHandle? && e[i].handle != InvalidHandle)
      && Count(e, CloseHandle(h)) == (if h == InvalidHandle then 0 else Holders(v, h))
  {
    var e := CleanupEvents(v);
    var closes := TokenCloses(v);
    CleanupHasNoCalls(v);
    forall i | 0 <= i < |e| - 1
      ensures e[i].CloseHandle? && e[i].handle != InvalidHandle
    {
      assert e[i] == closes[i] && closes[i] in closes;
    }
    if h == InvalidHandle {
      CountPositive(e, CloseHandle(h));
    } else {
      var ch := CloseHandle(h);
      var c5 := CloseIfValid(v.originalToken);
      var c4 := CloseIfValid(v.hToken) + c5;
      var c3 := CloseIfValid(v.systemToken) + c4;
      var c2 := CloseIfValid(v.originalLsassProcessToken) + c3;
      var c1 := CloseIfValid(v.duplicatedCurrentProcessToken) + c2;
      CountAppend(closes, [ClearThreadToken], ch);
      CountAppend(CloseIfValid(v.currentProcessToken), c1, ch);
      CountAppend(CloseIfValid(v.duplicatedCurrentProcessToken), c2, ch);
      CountAppend(CloseIfValid(v.originalLsassProcessToken), c3, ch);
      CountAppend(CloseIfValid(v.systemToken), c4, ch);
      CountAppend(CloseIfValid(v.hToken), c5, ch);
      CloseIfValidCount(v.currentProcessToken, h);
      CloseIfValidCount(v.duplicatedCurrentProcessToken, h);
      CloseIfValidCount(v.originalLsassProcessToken, h);
      CloseIfValidCount(v.systemToken, h);
      CloseIfValidCount(v.hToken, h);
      CloseIfValidCount(v.originalToken, h);
      assert Count([ClearThreadToken], ch) == 0;
    }
  }

  /** The first `StepsRun` events of any run are the planned token steps. */
  lemma RunEventsAt(w: World, commandLine: string, directory: Option<string>, i: nat)
    requires i < StepsRun(w)
    ensures RunEvents(w, commandLine, directory)[i] == Call(TokenPlan(w)[i], w.Status(i))
  {
    TokenEventsAt(w, StepsRun(w), i);
  }

  /**
   * Injecting a failure at token step i (all earlier ones succeeding): the run
   * returns that status, makes exactly the steps up to i and no later call,
   * creates no process and still clears the thread token last.
   */
  lemma ShortCircuit(w: World, commandLine: string, directory: Option<string>, i: nat)
    requires i < TOKEN_STEPS && AllOk(w, i) && w.Status(i) != S_OK
    ensures RunStatus(w) == w.Status(i) != S_OK
    ensures var e := RunEvents(w, commandLine, directory);
      && CallsOf(e) == TokenPlan(w)[..i + 1]
      && (forall x :: x in e ==> !x.SetPriorityClass? && !x.ResumeThread?)
      && e[|e| - 1] == ClearThreadToken
  {
    assert FirstFailure(w) == i;
    var n := StepsRun(w);
    var v := VarsAfter(w, n);
    TokenEventsCalls(w, n);
    CleanupHasNoCalls(v);
    CallsOfAppend(TokenEvents(w, n), CleanupEvents(v));
    assert BodyEvents(w, commandLine, directory) == TokenEvents(w, n);
  }

  /** Every run, successful or not, ends with the handler clearing the thread token. */
  lemma RunEndsClearing(w: World, commandLine: string, directory: Option<string>)
    ensures var e := RunEvents(w, commandLine, directory);
      |e| > 0 && e[|e| - 1] == ClearThreadToken
  {
    CleanupClosesHeldTokens(VarsAfter(w, StepsRun(w)), InvalidHandle);
  }

  /**
   * The session id written into the primary token is the one read from the
   * thread token (the caller's duplicated token) at step 6; the read comes
   * first, and the privileges and the mandatory label follow the write.
   */
  lemma SessionFlowsToPrimaryToken(w: World, commandLine: string, directory: Option<string>)
    requires AllOk(w, 13)
    ensures var e := RunEvents(w, commandLine, directory);
      && e[5] == Call(OpenCurrentThreadToken, S_OK)
      && e[6] == Call(GetTokenSessionId(w.H(5)), S_OK)
      && e[12] == Call(DuplicateToken(w.H(11), SecurityIdentification, TokenPrimary), S_OK)
      && e[13] == Call(SetTokenSessionId(w.H(12), w.sessionOf(w.H(5))), w.Status(13))
      && (w.Status(13) == S_OK ==> e[14] == Call(AdjustTokenAllPrivileges(w.H(12)), w.Status(14)))
      && (AllOk(w, 15) ==>
            e[15] == Call(SetTokenMandatoryLabel(w.H(12), SECURITY_MANDATORY_SYSTEM_RID), w.Status(15)))
  {
    assert StepsRun(w) > 13;
    RunEventsAt(w, commandLine, directory, 5);
    RunEventsAt(w, commandLine, directory, 6);
    RunEventsAt(w, commandLine, directory, 12);
    RunEventsAt(w, commandLine, directory, 13);
    if w.Status(13) == S_OK {
      assert StepsRun(w) > 14;
      RunEventsAt(w, commandLine, directory, 14);
    }
    if AllOk(w, 15) {
      RunEventsAt(w, commandLine, directory, 15);
    }
  }

  /** The calls of the launch phase, none of which is a token step. */
  predicate LaunchOp(op: Op) {
    op.CreateEnvironmentBlock? || op.ExpandEnvironmentStrings? || op.CreateProcessAsUser?
  }

  /** The token plan makes no launch call, and labels the token only at its last step. */
  lemma PlanStepKinds(w: World)
    ensures forall i :: 0 <= i < TOKEN_STEPS ==> !LaunchOp(TokenPlan(w)[i])
    ensures forall i :: 0 <= i < TOKEN_STEPS && TokenPlan(w)[i].SetTokenMandatoryLabel? ==> i == 15
  {
  }

  /** Every call of the launch phase is a launch call. */
  lemma LaunchEventsOps(w: World, commandLine: string, directory: Option<string>)
    ensures forall x :: x in LaunchEvents(w, commandLine, directory) && x.Call? ==> LaunchOp(x.op)
  {
    assert forall x :: x in StartedEvents(w) ==> !x.Call?;
  }

  /** What follows the token steps in a run makes no token call. */
  lemma AfterTokensNoTokenCall(w: World, commandLine: string, directory: Option<string>)
    ensures var e := RunEvents(w, commandLine, directory);
      forall x :: x in e[StepsRun(w)..] && x.Call? ==> LaunchOp(x.op)
  {
    var n := StepsRun(w);
    var v := VarsAfter(w, n);
    var t := TokenEvents(w, n);
    var launch := if FirstFailure(w) == TOKEN_STEPS then LaunchEvents(w, commandLine, directory) else [];
    AppendAssoc(t, launch, CleanupEvents(v));
    assert RunEvents(w, commandLine, directory) == t + (launch + CleanupEvents(v));
    assert (t + (launch + CleanupEvents(v)))[|t|..] == launch + CleanupEvents(v);
    LaunchEventsOps(w, commandLine, directory);
    CleanupHasNoCalls(v);
  }

  /** The primary token is never labelled unless its session was written and its privileges enabled first. */
  lemma LabelOnlyAfterSession(w: World, commandLine: string, directory: Option<string>)
    ensures var e := RunEvents(w, commandLine, directory);
      forall i :: 0 <= i < |e| && e[i].Call? && e[i].op.SetTokenMandatoryLabel? ==>
        i == 15 && AllOk(w, 15)
        && e[13] == Call(SetTokenSessionId(w.H(12), w.Session()), S_OK)
        && e[14] == Call(AdjustTokenAllPrivileges(w.H(12)), S_OK)
  {
    var e := RunEvents(w, commandLine, directory);
    var n := StepsRun(w);
    PlanStepKinds(w);
    AfterTokensNoTokenCall(w, commandLine, directory);
    forall i | 0 <= i < |e| && e[i].Call? && e[i].op.SetTokenMandatoryLabel?
      ensures i == 15 && AllOk(w, 15)
      ensures e[13] == Call(SetTokenSessionId(w.H(12), w.Session()), S_OK)
      ensures e[14] == Call(AdjustTokenAllPrivileges(w.H(12)), S_OK)
    {
      if i < n {
        RunEventsAt(w, commandLine, directory, i);
        RunEventsAt(w, commandLine, directory, 13);
        RunEventsAt(w, commandLine, directory, 14);
      }
    }
  }

  /** The launch phase of a run whose token steps all succeeded. */
  lemma LaunchEventsOf(w: World, commandLine: string, directory: Option<string>)
    requires FirstFailure(w) == TOKEN_STEPS
    ensures RunEvents(w, commandLine, directory)
      == TokenEvents(w, TOKEN_STEPS) + LaunchEvents(w, commandLine, directory) + CleanupEvents(VarsAfter(w, TOKEN_STEPS))
  {
  }

  /** Which releases the launch phase makes: the string iff it was expanded, the block iff it was built. */
  lemma LaunchReleases(w: World, commandLine: string, directory: Option<string>)
    ensures var l := LaunchEvents(w, commandLine, directory);
      && (FreeMemory(w.H(17)) in l <==> w.Status(16) == S_OK && w.Status(17) == S_OK)
      && (DestroyEnvironmentBlock(w.H(16)) in l <==> w.Status(16) == S_OK)
      && (forall x :: x in l && x.Call? && x.op.CreateProcessAsUser? ==>
            && w.Status(16) == S_OK && w.Status(17) == S_OK
            && x == Call(CreateProcessAsUser(w.H(12), w.H(17), w.H(16), directory, CREATION_FLAGS,
                                             DEFAULT_DESKTOP, SW_SHOWDEFAULT), w.Status(18)))
  {
    assert forall x :: x in StartedEvents(w) ==> !x.Call? && !x.FreeMemory? && !x.DestroyEnvironmentBlock?;
  }

  /**
   * Once the token steps succeed the run returns S_OK whatever the launch
   * returned; the expanded string is freed iff expansion succeeded, the
   * environment block destroyed iff it was created, and the process created
   * only if both succeeded, from exactly those two.
   */
  lemma LaunchReleasesWhatItBuilt(w: World, commandLine: string, directory: Option<string>)
    requires FirstFailure(w) == TOKEN_STEPS
    ensures RunStatus(w) == S_OK
    ensures var e := RunEvents(w, commandLine, directory);
      && (FreeMemory(w.H(17)) in e <==> w.Status(16) == S_OK && w.Status(17) == S_OK)
      && (DestroyEnvironmentBlock(w.H(16)) in e <==> w.Status(16) == S_OK)
      && (forall x :: x in e && x.Call? && x.op.CreateProcessAsUser? ==>
            && w.Status(16) == S_OK && w.Status(17) == S_OK
            && x.op.environment == w.H(16) && x.op.expanded == w.H(17) && x.op.token == w.H(12))
      && ((w.Status(16) == S_OK && w.Status(17) == S_OK) ==>
            Call(CreateProcessAsUser(w.H(12), w.H(17), w.H(16), directory, CREATION_FLAGS,
                                     DEFAULT_DESKTOP, SW_SHOWDEFAULT), w.Status(18)) in e)
  {
    var v := VarsAfter(w, TOKEN_STEPS);
    var t := TokenEvents(w, TOKEN_STEPS);
    LaunchEventsOf(w, commandLine, directory);
    LaunchReleases(w, commandLine, directory);
    TokenEventsCalls(w, TOKEN_STEPS);
    TokenEventsOps(w, TOKEN_STEPS);
    CleanupHasNoCalls(v);
  }

  /** Each token event is a call of a step of the plan. */
  lemma TokenEventsOps(w: World, n: nat)
    requires n <= TOKEN_STEPS
    ensures forall x :: x in TokenEvents(w, n) ==> x.Call? && !LaunchOp(x.op)
  {
    PlanStepKinds(w);
    forall x | x in TokenEvents(w, n)
      ensures x.Call? && !LaunchOp(x.op)
    {
      var i :| 0 <= i < n && TokenEvents(w, n)[i] == x;
      TokenEventsAt(w, n, i);
    }
  }

  /** The launch phase once the process is created, and what it holds otherwise. */
  lemma LaunchShape(w: World, commandLine: string, directory: Option<string>)
    ensures var l := LaunchEvents(w, commandLine, directory);
      if w.Status(16) == S_OK && w.Status(17) == S_OK && w.Status(18) == S_OK then
        && |l| == 9
        && l[3..7] == StartedEvents(w)
        && (forall j :: 0 <= j < 9 && j !in {3, 4, 5, 6} ==> !l[j].SetPriorityClass? && !l[j].ResumeThread?)
      else forall x :: x in l ==> !x.SetPriorityClass? && !x.ResumeThread? && !x.CloseHandle?
  {
  }

  /** Where the launch phase sits in a run whose token steps all succeeded. */
  lemma LaunchAt(w: World, commandLine: string, directory: Option<string>, j: nat)
    requires FirstFailure(w) == TOKEN_STEPS && j < |LaunchEvents(w, commandLine, directory)|
    ensures RunEvents(w, commandLine, directory)[TOKEN_STEPS + j] == LaunchEvents(w, commandLine, directory)[j]
  {
    var t := TokenEvents(w, TOKEN_STEPS);
    var l := LaunchEvents(w, commandLine, directory);
    var c := CleanupEvents(VarsAfter(w, TOKEN_STEPS));
    LaunchEventsOf(w, commandLine, directory);
    AppendAssoc(t, l, c);
    assert RunEvents(w, commandLine, directory) == t + (l + c);
    assert (l + c)[j] == l[j];
  }

  /** A created process gets its priority, then its thread resumed, then both handles closed. */
  lemma CreatedProcessStarted(w: World, commandLine: string, directory: Option<string>)
    requires FirstFailure(w) == TOKEN_STEPS
    requires w.Status(16) == S_OK && w.Status(17) == S_OK && w.Status(18) == S_OK
    ensures var e := RunEvents(w, commandLine, directory);
      && e[19] == SetPriorityClass(w.H(18), ABOVE_NORMAL_PRIORITY_CLASS)
      && e[20] == ResumeThread(PrimaryThread(w.base + 18))
      && e[21] == CloseHandle(w.H(18))
      && e[22] == CloseHandle(PrimaryThread(w.base + 18))
  {
    var l := LaunchEvents(w, commandLine, directory);
    LaunchShape(w, commandLine, directory);
    assert l[3] == l[3..7][0] && l[4] == l[3..7][1] && l[5] == l[3..7][2] && l[6] == l[3..7][3];
    LaunchAt(w, commandLine, directory, 3);
    LaunchAt(w, commandLine, directory, 4);
    LaunchAt(w, commandLine, directory, 5);
    LaunchAt(w, commandLine, directory, 6);
  }

  /** Priority is set and the thread resumed nowhere but at those two places, and only for a created process. */
  lemma ResumeOnlyWhenCreated(w: World, commandLine: string, directory: Option<string>)
    requires FirstFailure(w) == TOKEN_STEPS
    ensures var e := RunEvents(w, commandLine, directory);
      var created := w.Status(16) == S_OK && w.Status(17) == S_OK && w.Status(18) == S_OK;
      && (forall i :: 0 <= i < |e| && e[i].ResumeThread? ==> created && i == 20)
      && (forall i :: 0 <= i < |e| && e[i].SetPriorityClass? ==> created && i == 19)
  {
    var v := VarsAfter(w, TOKEN_STEPS);
    var e := RunEvents(w, commandLine, directory);
    var t := TokenEvents(w, TOKEN_STEPS);
    var l := LaunchEvents(w, commandLine, directory);
    var c := CleanupEvents(v);
    LaunchEventsOf(w, commandLine, directory);
    AppendAssoc(t, l, c);
    assert e == t + (l + c);
    LaunchShape(w, commandLine, directory);
    TokenEventsCalls(w, TOKEN_STEPS);
    CleanupHasNoCalls(v);
    forall i | 0 <= i < |e|
      ensures e[i].ResumeThread? || e[i].SetPriorityClass? ==>
        w.Status(16) == S_OK && w.Status(17) == S_OK && w.Status(18) == S_OK
      ensures e[i].ResumeThread? ==> i == 20
      ensures e[i].SetPriorityClass? ==> i == 19
    {
      if i < |t| {
        assert e[i] == t[i] && t[i] in t;
      } else if i < |t| + |l| {
        assert e[i] == (l + c)[i - |t|] == l[i - |t|] && l[i - |t|] in l;
      } else {
        assert e[i] == (l + c)[i - |t|] == c[i - |t| - |l|];
        assert e[i] in c;
      }
    }
  }

  /**
   * When the process is created its priority is set, then its primary thread
   * resumed, then both handles closed; resuming happens nowhere else, and
   * without a created process neither happens.
   */
  lemma PriorityBeforeResume(w: World, commandLine: string, directory: Option<string>)
    requires FirstFailure(w) == TOKEN_STEPS
    ensures var e := RunEvents(w, commandLine, directory);
      var created := w.Status(16) == S_OK && w.Status(17) == S_OK && w.Status(18) == S_OK;
      && (created ==>
            && e[19] == SetPriorityClass(w.H(18), ABOVE_NORMAL_PRIORITY_CLASS)
            && e[20] == ResumeThread(PrimaryThread(w.base + 18))
            && e[21] == CloseHandle(w.H(18))
            && e[22] == CloseHandle(PrimaryThread(w.base + 18)))
      && (forall i :: 0 <= i < |e| && e[i].ResumeThread? ==> created && i == 20)
      && (forall i :: 0 <= i < |e| && e[i].SetPriorityClass? ==> created && i == 19)
  {
    if w.Status(16) == S_OK && w.Status(17) == S_OK && w.Status(18) == S_OK {
      CreatedProcessStarted(w, commandLine, directory);
    }
    ResumeOnlyWhenCreated(w, commandLine, directory);
  }

  /** Step j, one that yields a handle, ran and succeeded, and `h` is what it yielded. */
  predicate TokenHandleOpened(w: World, h: Handle) {
    var n := StepsRun(w);
    || (Succeeded(w, n, 0) && h == w.H(0))
    || (Succeeded(w, n, 1) && h == w.H(1))
    || (Succeeded(w, n, 5) && h == w.H(5))
    || (Succeeded(w, n, 7) && h == w.H(7))
    || (Succeeded(w, n, 8) && h == w.H(8))
    || (Succeeded(w, n, 11) && h == w.H(11))
    || (Succeeded(w, n, 12) && h == w.H(12))
  }

  /** Every token step succeeded and so did the three launch calls. */
  predicate ProcessCreated(w: World) {
    FirstFailure(w) == TOKEN_STEPS && w.Status(16) == S_OK && w.Status(17) == S_OK && w.Status(18) == S_OK
  }

  /** The handles the run opens: the token steps' objects, and the created process and its thread. */
  predicate Opened(w: World, h: Handle) {
    TokenHandleOpened(w, h) || (ProcessCreated(w) && (h == w.H(18) || h == PrimaryThread(w.base + 18)))
  }

  /** The process token of step 0, once step 5 has stored the thread token in the same variable. */
  predicate Leaked(w: World, h: Handle) {
    h == w.H(0) && Succeeded(w, StepsRun(w), 5)
  }

  lemma TokenEventsCloseNothing(w: World, n: nat, h: Handle)
    requires n <= TOKEN_STEPS
    ensures Count(TokenEvents(w, n), CloseHandle(h)) == 0
  {
    TokenEventsCalls(w, n);
    CountPositive(TokenEvents(w, n), CloseHandle(h));
  }

  lemma StartedCloses(w: World, h: Handle)
    ensures Count(StartedEvents(w), CloseHandle(h))
      == if h == w.H(18) || h == PrimaryThread(w.base + 18) then 1 else 0
  {
    var started := StartedEvents(w);
    var ch := CloseHandle(h);
    assert started == [started[0], started[1]] + [started[2]] + [started[3]];
    CountAppend([started[0], started[1]] + [started[2]], [started[3]], ch);
    CountAppend([started[0], started[1]], [started[2]], ch);
    CountPositive([started[0], started[1]], ch);
    assert [started[2]][1..] == [] && [started[3]][1..] == [];
  }

  lemma ExpandedCloses(w: World, directory: Option<string>, h: Handle)
    ensures Count(ExpandedEvents(w, directory), CloseHandle(h))
      == if w.Status(18) == S_OK && (h == w.H(18) || h == PrimaryThread(w.base + 18)) then 1 else 0
  {
    var ch := CloseHandle(h);
    var first := ExpandedEvents(w, directory)[..1];
    var started := if w.Status(18) == S_OK then StartedEvents(w) else [];
    var freed := [FreeMemory(w.H(17))];
    assert ExpandedEvents(w, directory) == first + started + freed;
    CountAppend(first + started, freed, ch);
    CountAppend(first, started, ch);
    CountPositive(first, ch);
    CountPositive(freed, ch);
    if w.Status(18) == S_OK {
      StartedCloses(w, h);
    }
  }

  lemma EnvironmentCloses(w: World, commandLine: string, directory: Option<string>, h: Handle)
    ensures Count(EnvironmentEvents(w, commandLine, directory), CloseHandle(h))
      == if w.Status(17) == S_OK && w.Status(18) == S_OK && (h == w.H(18) || h == PrimaryThread(w.base + 18))
         then 1 else 0
  {
    var ch := CloseHandle(h);
    var first := EnvironmentEvents(w, commandLine, directory)[..1];
    var expanded := if w.Status(17) == S_OK then ExpandedEvents(w, directory) else [];
    var destroyed := [DestroyEnvironmentBlock(w.H(16))];
    assert EnvironmentEvents(w, commandLine, directory) == first + expanded + destroyed;
    CountAppend(first + expanded, destroyed, ch);
    CountAppend(first, expanded, ch);
    CountPositive(first, ch);
    CountPositive(destroyed, ch);
    if w.Status(17) == S_OK {
      ExpandedCloses(w, directory, h);
    }
  }

  /** The launch phase closes the process and thread handles once each when it creates them, and nothing else. */
  lemma LaunchCloses(w: World, commandLine: string, directory: Option<string>, h: Handle)
    ensures Count(LaunchEvents(w, commandLine, directory), CloseHandle(h))
      == if w.Status(16) == S_OK && w.Status(17) == S_OK && w.Status(18) == S_OK
            && (h == w.H(18) || h == PrimaryThread(w.base + 18)) then 1 else 0
  {
    var ch := CloseHandle(h);
    var first := LaunchEvents(w, commandLine, directory)[..1];
    var rest := if w.Status(16) == S_OK then EnvironmentEvents(w, commandLine, directory) else [];
    assert LaunchEvents(w, commandLine, directory) == first + rest;
    CountAppend(first, rest, ch);
    CountPositive(first, ch);
    if w.Status(16) == S_OK {
      EnvironmentCloses(w, commandLine, directory, h);
    }
  }

  /** The handler closes each opened token handle once, except the leaked one, and nothing else. */
  lemma CleanupCloses(w: World, h: Handle)
    ensures Count(CleanupEvents(VarsAfter(w, StepsRun(w))), CloseHandle(h))
      == if TokenHandleOpened(w, h) && !Leaked(w, h) then 1 else 0
  {
    CleanupClosesHeldTokens(VarsAfter(w, StepsRun(w)), h);
  }

  /** The process and thread handles are none of the token handles. */
  lemma LaunchHandlesApart(w: World, h: Handle)
    requires h == w.H(18) || h == PrimaryThread(w.base + 18)
    ensures !TokenHandleOpened(w, h) && !Leaked(w, h)
  {
  }

  /**
   * Every handle the run opens is closed exactly once, and nothing else is
   * closed, with one exception: the process token opened by the first step is
   * never closed once the thread token has been opened into the same
   * variable.
   */
  lemma ClosedOnceExceptProcessToken(w: World, commandLine: string, directory: Option<string>, h: Handle)
    ensures Count(RunEvents(w, commandLine, directory), CloseHandle(h))
      == if Opened(w, h) && !Leaked(w, h) then 1 else 0
  {
    var n := StepsRun(w);
    var t := TokenEvents(w, n);
    var launch := if FirstFailure(w) == TOKEN_STEPS then LaunchEvents(w, commandLine, directory) else [];
    var cleanup := CleanupEvents(VarsAfter(w, n));
    var ch := CloseHandle(h);
    assert RunEvents(w, commandLine, directory) == t + launch + cleanup;
    CountAppend(t + launch, cleanup, ch);
    CountAppend(t, launch, ch);
    TokenEventsCloseNothing(w, n, h);
    CleanupCloses(w, h);
    var launchHandle := h == w.H(18) || h == PrimaryThread(w.base + 18);
    assert Count(launch, ch) == if ProcessCreated(w) && launchHandle then 1 else 0 by {
      if FirstFailure(w) == TOKEN_STEPS {
        LaunchCloses(w, commandLine, directory, h);
      }
    }
    if launchHandle {
      LaunchHandlesApart(w, h);
      assert Opened(w, h) == ProcessCreated(w);
    } else {
      assert Opened(w, h) == TokenHandleOpened(w, h);
    }
  }

  /**
   * The leak: when the first six token steps succeed, the process token
   * opened by the first step is acquired and never closed on any path.
   */
  lemma ProcessTokenLeaks(w: World, commandLine: string, directory: Option<string>)
    requires AllOk(w, 6)
    ensures var e := RunEvents(w, commandLine, directory);
      && e[0] == Call(OpenCurrentProcessToken, S_OK)
      && Opened(w, w.H(0))
      && CloseHandle(w.H(0)) !in e
  {
    assert StepsRun(w) > 5;
    RunEventsAt(w, commandLine, directory, 0);
    ClosedOnceExceptProcessToken(w, commandLine, directory, w.H(0));
    CountPositive(RunEvents(w, commandLine, directory), CloseHandle(w.H(0)));
  }
}
