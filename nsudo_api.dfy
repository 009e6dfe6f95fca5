/**
 * `NSudoCreateProcess` and its scope guard `Mile::ScopeExitEventHandler`.
 *
 * Every `Mile*` call is an opaque step of a `Kernel`: the n-th fallible call
 * returns `status(n)` and, when it succeeds, yields the fresh object
 * `Acquired(n)`. What tokens, privileges, sessions and labels mean is not
 * modelled; only which calls are made, in which order, on which handles, and
 * what is closed, is.
 */
module NSudoApi {
  import opened Wrappers

  /** HRESULT, as a signed 32-bit value. */
  type HResult = int

  const S_OK: HResult := 0

  const SECURITY_MANDATORY_SYSTEM_RID: int := 0x4000
  const ABOVE_NORMAL_PRIORITY_CLASS: int := 0x8000
  const SW_SHOWDEFAULT: int := 10
  const CREATE_SUSPENDED: int := 0x4
  const CREATE_NEW_CONSOLE: int := 0x10
  const CREATE_UNICODE_ENVIRONMENT: int := 0x400
  /** CREATE_SUSPENDED | CREATE_UNICODE_ENVIRONMENT | CREATE_NEW_CONSOLE. */
  const CREATION_FLAGS: int := 0x414

  /** The privilege, the service and the desktop the source names by string. */
  datatype Privilege = SE_DEBUG_NAME              // "SeDebugPrivilege"
  datatype Service = TRUSTED_INSTALLER            // L"TrustedInstaller"
  datatype Desktop = DEFAULT_DESKTOP              // L"WinSta0\\Default"

  /** The number of fallible token steps before the environment is built. */
  const TOKEN_STEPS: nat := 16

  /** A handle, pointer or buffer value: named by the kernel call that produced it. */
  datatype Handle =
    | InvalidHandle                 // INVALID_HANDLE_VALUE
    | NullHandle                    // nullptr
    | Acquired(call: nat)           // the object produced by the call-th fallible call
    | PrimaryThread(call: nat)      // the thread handle CreateProcessAsUser returns beside the process

  datatype ImpersonationLevel = SecurityIdentification | SecurityImpersonation
  datatype TokenType = TokenPrimary | TokenImpersonation

  /** The fallible `Mile*` calls, with the arguments that matter. */
  datatype Op =
    | OpenCurrentProcessToken
    | DuplicateToken(source: Handle, level: ImpersonationLevel, kind: TokenType)
    | GetPrivilegeValue(privilege: Privilege)
    | AdjustTokenPrivileges(token: Handle)
    | SetCurrentThreadToken(token: Handle)
    | OpenCurrentThreadToken
    | GetTokenSessionId(token: Handle)
    | OpenLsassProcessToken
    | AdjustTokenAllPrivileges(token: Handle)
    | OpenServiceProcessToken(service: Service)
    | SetTokenSessionId(token: Handle, session: int)
    | SetTokenMandatoryLabel(token: Handle, rid: int)
    | CreateEnvironmentBlock(token: Handle)
    | ExpandEnvironmentStrings(commandLine: string)
    | CreateProcessAsUser(token: Handle, expanded: Handle, environment: Handle,
                          directory: Option<string>, flags: int, desktop: Desktop, show: int)

  /** What the kernel observes, in order. */
  datatype Event =
    | Call(op: Op, hr: HResult)     // a fallible call and the status it returned
    | CloseHandle(handle: Handle)
    | SetPriorityClass(process: Handle, priority: int)
    | ResumeThread(thread: Handle)
    | FreeMemory(block: Handle)
    | DestroyEnvironmentBlock(block: Handle)
    | ClearThreadToken              // MileSetCurrentThreadToken(nullptr), status ignored

  /** The operating system: the outcome of each fallible call, and the log of what was asked of it. */
  class Kernel {
    const status: nat -> HResult
    const sessionOf: Handle -> int
    var calls: nat
    var log: seq<Event>

    constructor (status: nat -> HResult, sessionOf: Handle -> int)
      ensures this.status == status && this.sessionOf == sessionOf
      ensures calls == 0 && log == []
    {
      this.status, this.sessionOf := status, sessionOf;
      calls, log := 0, [];
    }

    /** A fallible call; on success its out-parameter receives `produced`. */
    method Invoke(op: Op) returns (hr: HResult, produced: Handle)
      modifies this
      ensures hr == status(old(calls)) && produced == Acquired(old(calls))
      ensures calls == old(calls) + 1 && log == old(log) + [Call(op, hr)]
    {
      hr, produced := status(calls), Acquired(calls);
      log := log + [Call(op, hr)];
      calls := calls + 1;
    }

    /** `MileGetTokenInformation(TokenSessionId)`. */
    method QuerySessionId(token: Handle) returns (hr: HResult, session: int)
      modifies this
      ensures hr == status(old(calls)) && session == sessionOf(token)
      ensures calls == old(calls) + 1 && log == old(log) + [Call(GetTokenSessionId(token), hr)]
    {
      hr, session := status(calls), sessionOf(token);
      log := log + [Call(GetTokenSessionId(token), hr)];
      calls := calls + 1;
    }

    /** `MileCreateProcessAsUser`: on success, the process and its primary thread. */
    method CreateProcess(op: Op) returns (hr: HResult, process: Handle, thread: Handle)
      modifies this
      ensures hr == status(old(calls))
      ensures process == Acquired(old(calls)) && thread == PrimaryThread(old(calls))
      ensures calls == old(calls) + 1 && log == old(log) + [Call(op, hr)]
    {
      hr, process, thread := status(calls), Acquired(calls), PrimaryThread(calls);
      log := log + [Call(op, hr)];
      calls := calls + 1;
    }

    /** A call whose status the caller ignores. */
    method Record(e: Event)
      modifies this
      ensures calls == old(calls) && log == old(log) + [e]
    {
      log := log + [e];
    }
  }

  /** `Mile::ScopeExitEventHandler`. The handler runs at scope exit unless `Cancel` was called. */
  class ScopeExitGuard {
    var canceled: bool
    ghost var exited: bool
    ghost var handlerRuns: nat

    /** The handler ran once if the scope was left uncanceled, and never otherwise. */
    ghost predicate Valid()
      reads this
    {
      handlerRuns == if exited && !canceled then 1 else 0
    }

    constructor ()
      ensures Valid() && !canceled && !exited && handlerRuns == 0
    {
      canceled, exited, handlerRuns := false, false, 0;
    }

    method Cancel()
      requires Valid() && !exited
      modifies this
      ensures Valid() && canceled && !exited && handlerRuns == 0
    {
      canceled := true;
    }

    /**
     * The destructor: `runHandler` tells the scope to run the handler, which
     * closes over the scope's own variables.
     */
    method Exit() returns (runHandler: bool)
      requires Valid() && !exited
      modifies this
      ensures Valid() && exited && canceled == old(canceled)
      ensures runHandler <==> !canceled
      ensures handlerRuns == if runHandler then 1 else 0
    {
      runHandler := !canceled;
      exited := true;
      if runHandler {
        handlerRuns := handlerRuns + 1;
      }
    }
  }

  /** The six token variables the cleanup handler closes, in the order it closes them. */
  datatype TokenVars = TokenVars(
    currentProcessToken: Handle,
    duplicatedCurrentProcessToken: Handle,
    originalLsassProcessToken: Handle,
    systemToken: Handle,
    hToken: Handle,
    originalToken: Handle)

  /** The kernel's oracle, and the number of calls made before this invocation. */
  datatype World = World(status: nat -> HResult, sessionOf: Handle -> int, base: nat) {
    /** The status of this invocation's i-th fallible call. */
    function Status(i: nat): HResult {
      status(base + i)
    }

    /** The object this invocation's i-th fallible call yields. */
    function H(i: nat): Handle {
      Acquired(base + i)
    }

    /** The session id read from the thread token opened by call 5. */
    function Session(): int {
      sessionOf(H(5))
    }
  }

  function WorldOf(k: Kernel, base: nat): World
    reads k
  {
    World(k.status, k.sessionOf, base)
  }

  /** The sixteen token steps, in the order the source makes them, on the handles they yield. */
  function TokenPlan(w: World): (plan: seq<Op>)
    ensures |plan| == TOKEN_STEPS
  {
    [ OpenCurrentProcessToken,
      DuplicateToken(w.H(0), SecurityImpersonation, TokenImpersonation),
      GetPrivilegeValue(SE_DEBUG_NAME),
      AdjustTokenPrivileges(w.H(1)),
      SetCurrentThreadToken(w.H(1)),
      OpenCurrentThreadToken,
      GetTokenSessionId(w.H(5)),
      OpenLsassProcessToken,
      DuplicateToken(w.H(7), SecurityImpersonation, TokenImpersonation),
      AdjustTokenAllPrivileges(w.H(8)),
      SetCurrentThreadToken(w.H(8)),
      OpenServiceProcessToken(TRUSTED_INSTALLER),
      DuplicateToken(w.H(11), SecurityIdentification, TokenPrimary),
      SetTokenSessionId(w.H(12), w.Session()),
      AdjustTokenAllPrivileges(w.H(12)),
      SetTokenMandatoryLabel(w.H(12), SECURITY_MANDATORY_SYSTEM_RID) ]
  }

  /** The first i calls all return S_OK. */
  ghost predicate AllOk(w: World, i: nat) {
    forall j :: 0 <= j < i ==> w.Status(j) == S_OK
  }

  /** The first token step that fails, or TOKEN_STEPS when none does. */
  function FirstFailure(w: World, from: nat := 0): (r: nat)
    requires from <= TOKEN_STEPS
    ensures from <= r <= TOKEN_STEPS
    ensures forall j :: from <= j < r ==> w.Status(j) == S_OK
    ensures r < TOKEN_STEPS ==> w.Status(r) != S_OK
    decreases TOKEN_STEPS - from
  {
    if from == TOKEN_STEPS || w.Status(from) != S_OK then from
    else FirstFailure(w, from + 1)
  }

  /** How many token steps run: up to and including the first failure. */
  function StepsRun(w: World): (n: nat)
    ensures n <= TOKEN_STEPS
  {
    if FirstFailure(w) < TOKEN_STEPS then FirstFailure(w) + 1 else TOKEN_STEPS
  }

  /** The status the function returns: the first failing token step's, else S_OK. */
  function RunStatus(w: World): HResult {
    if FirstFailure(w) < TOKEN_STEPS then w.Status(FirstFailure(w)) else S_OK
  }

  /** The events of the first n token steps. */
  function TokenEvents(w: World, n: nat): (events: seq<Event>)
    requires n <= TOKEN_STEPS
    ensures |events| == n
  {
    if n == 0 then [] else TokenEvents(w, n - 1) + [Call(TokenPlan(w)[n - 1], w.Status(n - 1))]
  }

  /** Step i ran and succeeded, given that n steps ran. */
  predicate Succeeded(w: World, n: nat, i: nat) {
    i < n && w.Status(i) == S_OK
  }

  /**
   * The token variables once n steps have run: a variable holds the object of
   * the last succeeded step that writes it, else INVALID_HANDLE_VALUE.
   */
  function VarsAfter(w: World, n: nat): TokenVars {
    TokenVars(
      if Succeeded(w, n, 5) then w.H(5) else if Succeeded(w, n, 0) then w.H(0) else InvalidHandle,
      if Succeeded(w, n, 1) then w.H(1) else InvalidHandle,
      if Succeeded(w, n, 7) then w.H(7) else InvalidHandle,
      if Succeeded(w, n, 8) then w.H(8) else InvalidHandle,
      if Succeeded(w, n, 12) then w.H(12) else InvalidHandle,
      if Succeeded(w, n, 11) then w.H(11) else InvalidHandle)
  }

  /** The created process (call 18): raise its priority, resume its thread, close both handles. */
  function StartedEvents(w: World): seq<Event> {
    var process, thread := w.H(18), PrimaryThread(w.base + 18);
    [SetPriorityClass(process, ABOVE_NORMAL_PRIORITY_CLASS), ResumeThread(thread),
     CloseHandle(process), CloseHandle(thread)]
  }

  /** Once the command line is expanded (call 17): create the process, start it if created, free the string. */
  function ExpandedEvents(w: World, directory: Option<string>): seq<Event> {
    [Call(CreateProcessAsUser(w.H(12), w.H(17), w.H(16), directory,
                              CREATION_FLAGS, DEFAULT_DESKTOP, SW_SHOWDEFAULT), w.Status(18))]
    + (if w.Status(18) == S_OK then StartedEvents(w) else [])
    + [FreeMemory(w.H(17))]
  }

  /** Once the environment block exists (call 16): expand the command line, go on if that worked, destroy the block. */
  function EnvironmentEvents(w: World, commandLine: string, directory: Option<string>): seq<Event> {
    [Call(ExpandEnvironmentStrings(commandLine), w.Status(17))]
    + (if w.Status(17) == S_OK then ExpandedEvents(w, directory) else [])
    + [DestroyEnvironmentBlock(w.H(16))]
  }

  /** The launch: build the environment block from the primary token and go on if that worked. */
  function LaunchEvents(w: World, commandLine: string, directory: Option<string>): seq<Event> {
    [Call(CreateEnvironmentBlock(w.H(12)), w.Status(16))]
    + (if w.Status(16) == S_OK then EnvironmentEvents(w, commandLine, directory) else [])
  }

  function CloseIfValid(h: Handle): seq<Event> {
    if h != InvalidHandle then [CloseHandle(h)] else []
  }

  /** The handler's six closes, in the order it tests the token variables. */
  function TokenCloses(v: TokenVars): seq<Event> {
    CloseIfValid(v.currentProcessToken)
    + (CloseIfValid(v.duplicatedCurrentProcessToken)
    + (CloseIfValid(v.originalLsassProcessToken)
    + (CloseIfValid(v.systemToken)
    + (CloseIfValid(v.hToken)
    + CloseIfValid(v.originalToken)))))
  }

  /** The scope guard's handler. */
  function CleanupEvents(v: TokenVars): seq<Event> {
    TokenCloses(v) + [ClearThreadToken]
  }

  /** Everything one invocation asks of the kernel before its guard runs. */
  function BodyEvents(w: World, commandLine: string, directory: Option<string>): seq<Event> {
    TokenEvents(w, StepsRun(w))
    + (if FirstFailure(w) == TOKEN_STEPS then LaunchEvents(w, commandLine, directory) else [])
  }

  /** Everything one invocation asks of the kernel, cleanup included. */
  function RunEvents(w: World, commandLine: string, directory: Option<string>): seq<Event> {
    BodyEvents(w, commandLine, directory) + CleanupEvents(VarsAfter(w, StepsRun(w)))
  }

  /** After i successful token steps: the call counter, the log and the token variables. */
  ghost predicate Progress(k: Kernel, w: World, log0: seq<Event>, i: nat, v: TokenVars)
    reads k
  {
    && i <= TOKEN_STEPS
    && k.status == w.status && k.sessionOf == w.sessionOf
    && k.calls == w.base + i
    && k.log == log0 + TokenEvents(w, i)
    && AllOk(w, i)
    && v == VarsAfter(w, i)
  }

  /** A token step failed: the status, the log and the token variables are those of the run. */
  ghost predicate Stopped(k: Kernel, w: World, log0: seq<Event>, hr: HResult, v: TokenVars)
    reads k
  {
    && FirstFailure(w) < TOKEN_STEPS && RunStatus(w) == hr
    && k.log == log0 + TokenEvents(w, StepsRun(w))
    && v == VarsAfter(w, StepsRun(w))
  }

  /** Token step i returned `hr`: either the run goes on, or it stops with that status. */
  lemma StepTaken(w: World, i: nat, hr: HResult)
    requires i < TOKEN_STEPS && AllOk(w, i) && hr == w.Status(i)
    ensures TokenEvents(w, i + 1) == TokenEvents(w, i) + [Call(TokenPlan(w)[i], hr)]
    ensures hr == S_OK ==> AllOk(w, i + 1)
    ensures hr != S_OK ==>
      && FirstFailure(w) == i && StepsRun(w) == i + 1 && RunStatus(w) == hr
      && VarsAfter(w, i + 1) == VarsAfter(w, i)
  {
  }

  /** Token step i, planned as `op`, was made from `Progress(i)` and returned `hr`. */
  lemma Stepped(k: Kernel, w: World, log0: seq<Event>, i: nat, v: TokenVars, op: Op, hr: HResult)
    requires i < TOKEN_STEPS && op == TokenPlan(w)[i] && hr == w.Status(i)
    requires k.status == w.status && k.sessionOf == w.sessionOf && k.calls == w.base + i + 1
    requires k.log == log0 + TokenEvents(w, i) + [Call(op, hr)]
    requires AllOk(w, i) && v == VarsAfter(w, i)
    ensures hr != S_OK ==> Stopped(k, w, log0, hr, v)
    ensures hr == S_OK ==> k.log == log0 + TokenEvents(w, i + 1) && AllOk(w, i + 1)
  {
    StepTaken(w, i, hr);
  }

  const NO_SESSION: int := 0xFFFF_FFFF  // static_cast<DWORD>(-1)

  /** CallerIdentity, first part: open the process token and duplicate it as an impersonation token. */
  method CallerIdentity(k: Kernel, ghost w: World, ghost log0: seq<Event>, v0: TokenVars)
    returns (hr: HResult, v: TokenVars)
    requires Progress(k, w, log0, 0, v0)
    modifies k
    ensures hr == S_OK ==> Progress(k, w, log0, 2, v)
    ensures hr != S_OK ==> Stopped(k, w, log0, hr, v)
  {
    v := v0;
    var produced: Handle;

    hr, produced := k.Invoke(OpenCurrentProcessToken);
    Stepped(k, w, log0, 0, v, OpenCurrentProcessToken, hr);
    if hr != S_OK { return; }
    v := v.(currentProcessToken := produced);
    assert Progress(k, w, log0, 1, v);

    hr, produced := k.Invoke(DuplicateToken(v.currentProcessToken, SecurityImpersonation, TokenImpersonation));
    Stepped(k, w, log0, 1, v, DuplicateToken(v.currentProcessToken, SecurityImpersonation, TokenImpersonation), hr);
    if hr != S_OK { return; }
    v := v.(duplicatedCurrentProcessToken := produced);
  }

  /** CallerIdentity, second part: enable SeDebugPrivilege on the duplicate and impersonate it. */
  method ImpersonateCaller(k: Kernel, ghost w: World, ghost log0: seq<Event>, v0: TokenVars)
    returns (hr: HResult, v: TokenVars)
    requires Progress(k, w, log0, 2, v0)
    modifies k
    ensures hr == S_OK ==> Progress(k, w, log0, 5, v)
    ensures hr != S_OK ==> Stopped(k, w, log0, hr, v)
  {
    v := v0;
    var produced: Handle;

    hr, produced := k.Invoke(GetPrivilegeValue(SE_DEBUG_NAME));
    Stepped(k, w, log0, 2, v, GetPrivilegeValue(SE_DEBUG_NAME), hr);
    if hr != S_OK { return; }
    assert Progress(k, w, log0, 3, v);

    hr, produced := k.Invoke(AdjustTokenPrivileges(v.duplicatedCurrentProcessToken));
    Stepped(k, w, log0, 3, v, AdjustTokenPrivileges(v.duplicatedCurrentProcessToken), hr);
    if hr != S_OK { return; }
    assert Progress(k, w, log0, 4, v);

    hr, produced := k.Invoke(SetCurrentThreadToken(v.duplicatedCurrentProcessToken));
    Stepped(k, w, log0, 4, v, SetCurrentThreadToken(v.duplicatedCurrentProcessToken), hr);
  }

  /**
   * Still in CallerIdentity: open the thread token, now the impersonated
   * duplicate, and read its session id.
   */
  method CaptureSession(k: Kernel, ghost w: World, ghost log0: seq<Event>, v0: TokenVars)
    returns (hr: HResult, v: TokenVars, sessionId: int)
    requires Progress(k, w, log0, 5, v0)
    modifies k
    ensures hr == S_OK ==> Progress(k, w, log0, 7, v) && sessionId == w.Session()
    ensures hr != S_OK ==> Stopped(k, w, log0, hr, v)
  {
    v, sessionId := v0, NO_SESSION;
    var produced: Handle;

    // the out-parameter is CurrentProcessToken again: the handle it held is not closed
    hr, produced := k.Invoke(OpenCurrentThreadToken);
    Stepped(k, w, log0, 5, v, OpenCurrentThreadToken, hr);
    if hr != S_OK { return; }
    v := v.(currentProcessToken := produced);
    assert Progress(k, w, log0, 6, v);

    var session: int;
    hr, session := k.QuerySessionId(v.currentProcessToken);
    Stepped(k, w, log0, 6, v, GetTokenSessionId(v.currentProcessToken), hr);
    if hr != S_OK { return; }
    sessionId := session;
  }

  /**
   * RootServiceIdentity: open the lsass process token, duplicate it as an
   * impersonation token, enable all its privileges and impersonate it.
   */
  method RootServiceIdentity(k: Kernel, ghost w: World, ghost log0: seq<Event>, v0: TokenVars)
    returns (hr: HResult, v: TokenVars)
    requires Progress(k, w, log0, 7, v0)
    modifies k
    ensures hr == S_OK ==> Progress(k, w, log0, 11, v)
    ensures hr != S_OK ==> Stopped(k, w, log0, hr, v)
  {
    v := v0;
    var produced: Handle;

    hr, produced := k.Invoke(OpenLsassProcessToken);
    Stepped(k, w, log0, 7, v, OpenLsassProcessToken, hr);
    if hr != S_OK { return; }
    v := v.(originalLsassProcessToken := produced);
    assert Progress(k, w, log0, 8, v);

    hr, produced := k.Invoke(DuplicateToken(v.originalLsassProcessToken, SecurityImpersonation, TokenImpersonation));
    Stepped(k, w, log0, 8, v, DuplicateToken(v.originalLsassProcessToken, SecurityImpersonation, TokenImpersonation), hr);
    if hr != S_OK { return; }
    v := v.(systemToken := produced);
    assert Progress(k, w, log0, 9, v);

    hr, produced := k.Invoke(AdjustTokenAllPrivileges(v.systemToken));
    Stepped(k, w, log0, 9, v, AdjustTokenAllPrivileges(v.systemToken), hr);
    if hr != S_OK { return; }
    assert Progress(k, w, log0, 10, v);

    hr, produced := k.Invoke(SetCurrentThreadToken(v.systemToken));
    Stepped(k, w, log0, 10, v, SetCurrentThreadToken(v.systemToken), hr);
  }

  /**
   * TargetServiceIdentity: open the TrustedInstaller service's token, duplicate
   * it as a primary token, write the caller's session id into it, enable all
   * its privileges and set its mandatory label to the system level.
   */
  method TargetServiceIdentity(k: Kernel, ghost w: World, ghost log0: seq<Event>, v0: TokenVars, sessionId: int)
    returns (hr: HResult, v: TokenVars)
    requires Progress(k, w, log0, 11, v0) && sessionId == w.Session()
    modifies k
    ensures hr == S_OK ==> Progress(k, w, log0, TOKEN_STEPS, v)
    ensures hr != S_OK ==> Stopped(k, w, log0, hr, v)
  {
    v := v0;
    var produced: Handle;

    hr, produced := k.Invoke(OpenServiceProcessToken(TRUSTED_INSTALLER));
    Stepped(k, w, log0, 11, v, OpenServiceProcessToken(TRUSTED_INSTALLER), hr);
    if hr != S_OK { return; }
    v := v.(originalToken := produced);
    assert Progress(k, w, log0, 12, v);

    hr, produced := k.Invoke(DuplicateToken(v.originalToken, SecurityIdentification, TokenPrimary));
    Stepped(k, w, log0, 12, v, DuplicateToken(v.originalToken, SecurityIdentification, TokenPrimary), hr);
    if hr != S_OK { return; }
    v := v.(hToken := produced);
    assert Progress(k, w, log0, 13, v);

    hr, produced := k.Invoke(SetTokenSessionId(v.hToken, sessionId));
    Stepped(k, w, log0, 13, v, SetTokenSessionId(v.hToken, sessionId), hr);
    if hr != S_OK { return; }
    assert Progress(k, w, log0, 14, v);

    hr, produced := k.Invoke(AdjustTokenAllPrivileges(v.hToken));
    Stepped(k, w, log0, 14, v, AdjustTokenAllPrivileges(v.hToken), hr);
    if hr != S_OK { return; }
    assert Progress(k, w, log0, 15, v);

    hr, produced := k.Invoke(SetTokenMandatoryLabel(v.hToken, SECURITY_MANDATORY_SYSTEM_RID));
    Stepped(k, w, log0, 15, v, SetTokenMandatoryLabel(v.hToken, SECURITY_MANDATORY_SYSTEM_RID), hr);
  }

  /** The follow-up of a created process: priority, resume, then both handles closed. */
  method StartProcess(k: Kernel, ghost w: World, process: Handle, thread: Handle)
    requires process == w.H(18) && thread == PrimaryThread(w.base + 18)
    modifies k
    ensures k.calls == old(k.calls)
    ensures k.log == old(k.log) + StartedEvents(w)
  {
    k.Record(SetPriorityClass(process, ABOVE_NORMAL_PRIORITY_CLASS));
    k.Record(ResumeThread(thread));
    k.Record(CloseHandle(process));
    k.Record(CloseHandle(thread));
  }

  /** With the environment block and the expanded command line: create, start, free the string. */
  method LaunchExpanded(k: Kernel, ghost w: World, currentDirectory: Option<string>,
                        hToken: Handle, lpEnvironment: Handle, expandedString: Handle)
    requires k.status == w.status && k.calls == w.base + 18
    requires hToken == w.H(12) && lpEnvironment == w.H(16) && expandedString == w.H(17)
    modifies k
    ensures k.log == old(k.log) + ExpandedEvents(w, currentDirectory)
  {
    var hr, process, thread := k.CreateProcess(
      CreateProcessAsUser(hToken, expandedString, lpEnvironment, currentDirectory,
                          CREATION_FLAGS, DEFAULT_DESKTOP, SW_SHOWDEFAULT));
    if hr == S_OK {
      StartProcess(k, w, process, thread);
    }
    k.Record(FreeMemory(expandedString));
  }

  /**
   * The launch: build the environment block from the primary token,
   * expand the command line, create the process suspended, raise its priority,
   * resume it and close its handles; what was built is released.
   */
  method Launch(k: Kernel, ghost w: World, commandLine: string, currentDirectory: Option<string>, hToken: Handle)
    requires k.status == w.status && k.calls == w.base + TOKEN_STEPS && hToken == w.H(12)
    modifies k
    ensures k.log == old(k.log) + LaunchEvents(w, commandLine, currentDirectory)
  {
    var lpEnvironment := NullHandle;
    var expandedString := NullHandle;
    var hr, produced := k.Invoke(CreateEnvironmentBlock(hToken));
    if hr == S_OK {
      lpEnvironment := produced;
      hr, produced := k.Invoke(ExpandEnvironmentStrings(commandLine));
      if hr == S_OK {
        expandedString := produced;
        LaunchExpanded(k, w, currentDirectory, hToken, lpEnvironment, expandedString);
      }
      k.Record(DestroyEnvironmentBlock(lpEnvironment));
    }
  }

  lemma AppendAssoc<T>(a: seq<T>, b: seq<T>, c: seq<T>)
    ensures a + b + c == a + (b + c)
  {
  }

  /** A stopped run's body is its token steps alone. */
  lemma StoppedBody(k: Kernel, w: World, log0: seq<Event>, hr: HResult, v: TokenVars,
                    commandLine: string, directory: Option<string>)
    requires Stopped(k, w, log0, hr, v)
    ensures RunStatus(w) == hr && v == VarsAfter(w, StepsRun(w))
    ensures k.log == log0 + BodyEvents(w, commandLine, directory)
  {
  }

  /** When all sixteen token steps succeed, the run goes on to the launch and returns S_OK. */
  lemma Finished(w: World, commandLine: string, directory: Option<string>)
    requires AllOk(w, TOKEN_STEPS)
    ensures FirstFailure(w) == TOKEN_STEPS && StepsRun(w) == TOKEN_STEPS && RunStatus(w) == S_OK
    ensures BodyEvents(w, commandLine, directory)
      == TokenEvents(w, TOKEN_STEPS) + LaunchEvents(w, commandLine, directory)
  {
  }

  /** The sixteen token steps, stopping at the first that fails. */
  method TokenSteps(k: Kernel, ghost w: World, ghost log0: seq<Event>) returns (hr: HResult, v: TokenVars)
    requires w == WorldOf(k, k.calls) && log0 == k.log
    modifies k
    ensures hr == S_OK ==> Progress(k, w, log0, TOKEN_STEPS, v)
    ensures hr != S_OK ==> Stopped(k, w, log0, hr, v)
  {
    v := TokenVars(InvalidHandle, InvalidHandle, InvalidHandle, InvalidHandle, InvalidHandle, InvalidHandle);
    assert Progress(k, w, log0, 0, v);
    hr, v := CallerIdentity(k, w, log0, v);
    if hr != S_OK { return; }
    hr, v := ImpersonateCaller(k, w, log0, v);
    if hr != S_OK { return; }
    var sessionId;
    hr, v, sessionId := CaptureSession(k, w, log0, v);
    if hr != S_OK { return; }
    hr, v := RootServiceIdentity(k, w, log0, v);
    if hr != S_OK { return; }
    hr, v := TargetServiceIdentity(k, w, log0, v, sessionId);
  }

  /**
   * The body of `NSudoCreateProcess` up to each of its returns; the scope
   * guard's handler runs after it. Once the token steps succeed the status of
   * the launch is discarded.
   */
  method EscalateAndLaunch(k: Kernel, commandLine: string, currentDirectory: Option<string>)
    returns (hr: HResult, v: TokenVars)
    modifies k
    ensures var w := WorldOf(k, old(k.calls));
      && hr == RunStatus(w)
      && v == VarsAfter(w, StepsRun(w))
      && k.log == old(k.log) + BodyEvents(w, commandLine, currentDirectory)
  {
    ghost var w := WorldOf(k, k.calls);
    ghost var log0 := k.log;
    hr, v := TokenSteps(k, w, log0);
    if hr != S_OK {
      StoppedBody(k, w, log0, hr, v, commandLine, currentDirectory);
      return;
    }
    Finished(w, commandLine, currentDirectory);
    Launch(k, w, commandLine, currentDirectory, v.hToken);
    AppendAssoc(log0, TokenEvents(w, TOKEN_STEPS), LaunchEvents(w, commandLine, currentDirectory));
  }

  /** One close of the guard's handler. */
  method CloseIfNotInvalid(k: Kernel, h: Handle)
    modifies k
    ensures k.calls == old(k.calls)
    ensures k.log == old(k.log) + CloseIfValid(h)
  {
    if h != InvalidHandle {
      k.Record(CloseHandle(h));
    }
  }

  /** The guard's handler: closes every token variable that is not invalid, then clears the thread token. */
  method Cleanup(k: Kernel, v: TokenVars)
    modifies k
    ensures k.calls == old(k.calls)
    ensures k.log == old(k.log) + CleanupEvents(v)
  {
    ghost var log0 := k.log;
    // after each close, `k.log + rest` is what the handler will have logged
    ghost var rest := TokenCloses(v);
    CloseIfNotInvalid(k, v.currentProcessToken);
    AppendAssoc(log0, CloseIfValid(v.currentProcessToken), rest[|CloseIfValid(v.currentProcessToken)|..]);
    rest := rest[|CloseIfValid(v.currentProcessToken)|..];
    assert log0 + TokenCloses(v) == k.log + rest;
    ghost var log1 := k.log;
    CloseIfNotInvalid(k, v.duplicatedCurrentProcessToken);
    AppendAssoc(log1, CloseIfValid(v.duplicatedCurrentProcessToken), rest[|CloseIfValid(v.duplicatedCurrentProcessToken)|..]);
    rest := rest[|CloseIfValid(v.duplicatedCurrentProcessToken)|..];
    assert log0 + TokenCloses(v) == k.log + rest;
    ghost var log2 := k.log;
    CloseIfNotInvalid(k, v.originalLsassProcessToken);
    AppendAssoc(log2, CloseIfValid(v.originalLsassProcessToken), rest[|CloseIfValid(v.originalLsassProcessToken)|..]);
    rest := rest[|CloseIfValid(v.originalLsassProcessToken)|..];
    assert log0 + TokenCloses(v) == k.log + rest;
    ghost var log3 := k.log;
    CloseIfNotInvalid(k, v.systemToken);
    AppendAssoc(log3, CloseIfValid(v.systemToken), rest[|CloseIfValid(v.systemToken)|..]);
    rest := rest[|CloseIfValid(v.systemToken)|..];
    assert log0 + TokenCloses(v) == k.log + rest;
    ghost var log4 := k.log;
    CloseIfNotInvalid(k, v.hToken);
    AppendAssoc(log4, CloseIfValid(v.hToken), rest[|CloseIfValid(v.hToken)|..]);
    rest := rest[|CloseIfValid(v.hToken)|..];
    assert log0 + TokenCloses(v) == k.log + rest;
    CloseIfNotInvalid(k, v.originalToken);
    assert log0 + TokenCloses(v) == k.log;
    k.Record(ClearThreadToken);
    AppendAssoc(log0, TokenCloses(v), [ClearThreadToken]);
  }

  /** `NSudoCreateProcess`: the body under a scope guard that is never canceled. */
  method NSudoCreateProcess(k: Kernel, commandLine: string, currentDirectory: Option<string>)
    returns (hr: HResult)
    modifies k
    ensures var w := WorldOf(k, old(k.calls));
      && hr == RunStatus(w)
      && k.log == old(k.log) + RunEvents(w, commandLine, currentDirectory)
  {
    ghost var w, log0 := WorldOf(k, k.calls), k.log;
    var handler := new ScopeExitGuard();
    var v;
    hr, v := EscalateAndLaunch(k, commandLine, currentDirectory);
    var runHandler := handler.Exit();
    if runHandler {
      Cleanup(k, v);
      AppendAssoc(log0, BodyEvents(w, commandLine, currentDirectory), CleanupEvents(v));
    }
  }
}
