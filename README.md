# NSudo launcher core, modelled in Dafny

NSudo starts a program as TrustedInstaller. `NSudoCreateProcess` impersonates
SYSTEM through the caller's duplicated process token and the duplicated
token of `lsass.exe`, opens the TrustedInstaller service token, turns it into
a primary token carrying the caller's session, enables every privilege, raises
its mandatory label to System, and starts the expanded command line under it.
A scope guard closes every token handle that is not `INVALID_HANDLE_VALUE` and
clears the thread token, on every path out of the function. `NSudoMain`
initialises the launcher's resource manager and hands the part of the command
line after the program name to `NSudoCreateProcess`, with the launcher's own
directory as the working directory.

The model has these modules:

- `CString`: `wcslen` and `wcsrchr` over a character buffer.
- `WindowsHelpers`: the owning wrapper `M2::CObject` and its `CMemory`
  specialisation, as classes. Ghost logs record each value acquired, released,
  detached or overwritten through `operator&`. Also `M2PathFindFileName`, as a
  loop.
- `NSudoApi`: `Mile::ScopeExitEventHandler` and `NSudoCreateProcess`. Every
  `Mile*` call is an opaque step of a `Kernel`. The n-th fallible call returns
  `status(n)` and, on success, yields the fresh object `Acquired(n)`. Each
  call and each close is appended to the kernel's log. The function is proved
  to produce exactly `RunEvents`, a specification of its whole log as a
  function of the call outcomes.
- `NSudoApiProperties`: lemmas about `RunEvents`, namely:
  - the short circuit at the first failing step;
  - the flow of the session id into the primary token;
  - the order of priority and resume;
  - what the launch releases;
  - how often each handle is closed.
- `NSudoApp`: `CNSudoResourceManagement::Initialize`, the argument handling of
  `M2LoadResource`, and `NSudoMain`.

The proofs expose a handle leak in `NSudoCreateProcess`. The process token that
`MileOpenCurrentProcessToken` stores in `CurrentProcessToken` (line 155) is
overwritten by `MileOpenCurrentThreadToken` into the same variable (line 199)
without being closed. When the first six steps succeed, that handle is never
closed on any path. `ClosedOnceExceptProcessToken` shows that every other
handle the run opens is closed exactly once. `ProcessTokenLeaks` shows that
this one is never closed.

## Model

| member | source | states |
|---|---|---|
| CString.Wcslen | NSudo/NSudo.cpp:150 | the length is the index of the first NUL, or the buffer length if it has none |
| CString.Wcsrchr | NSudo/NSudo.cpp:149 | the last occurrence of a non-NUL character before the terminator, or none iff it does not occur there |
| WindowsHelpers.CObject.constructor | NSudo/M2WindowsHelpers.h:72-76 | holds the given value, invalid iff it is the definer's invalid value; owns it unless invalid |
| WindowsHelpers.CObject.IsInvalid | NSudo/M2WindowsHelpers.h:103-106 | true iff the held value is the definer's invalid value, that is iff the wrapper owns nothing |
| WindowsHelpers.CObject.Close | NSudo/M2WindowsHelpers.h:115-122 | releases the held value exactly when it is not invalid, then holds the invalid value |
| WindowsHelpers.CObject.Detach | NSudo/M2WindowsHelpers.h:108-113 | returns the held value unreleased and leaves the invalid value |
| WindowsHelpers.CObject.Assign | NSudo/M2WindowsHelpers.h:88-96 | assigning the held value changes nothing; another value releases the old one first; returns the new value |
| WindowsHelpers.CObject.Store | NSudo/M2WindowsHelpers.h:83-86 | a write through the raw pointer overwrites the held value without releasing it |
| WindowsHelpers.CObject.Destroy | NSudo/M2WindowsHelpers.h:78-81 | releases the held value and leaves the acquired, detached and overwritten logs as they were; so every value acquired over the lifetime was released, detached or overwritten, and with fresh values none was released twice |
| WindowsHelpers.ReleasedAtMostOnce | NSudo/M2WindowsHelpers.h:115-122 | if no value is acquired twice and releases come from acquisitions, no value is released twice |
| WindowsHelpers.CMemory.constructor | NSudo/M2WindowsHelpers.h:202-206 | wraps the given block with the null pointer as the invalid value; it owns the block unless it is null, and nothing has yet been released, detached or overwritten |
| WindowsHelpers.CMemory.Alloc | NSudo/M2WindowsHelpers.h:208-213 | frees the held block, holds the new one, and succeeds iff it is not null |
| WindowsHelpers.CMemory.Free | NSudo/M2WindowsHelpers.h:215-218 | releases the held block if any and leaves null |
| WindowsHelpers.FileNameStart | NSudo/M2WindowsHelpers.h:786-803 | the file name starts just after the last `\` or `/`, or at 0, and contains no separator |
| WindowsHelpers.PathFindFileName | NSudo/M2WindowsHelpers.h:786-803 | a null path gives null; otherwise the offset is where the file name starts in the path scanned up to its NUL or `MAX_PATH` characters |
| WindowsHelpers.FileNameAfterLastBackslash | NSudo/M2WindowsHelpers.h:796-797 | on a path without `/`, the file name starts one past the last backslash |
| NSudoApi.ScopeExitGuard.constructor | NSudoLib/NSudoAPI.cpp:71-76 | a new guard is not canceled and its handler has not run |
| NSudoApi.ScopeExitGuard.Cancel | NSudoLib/NSudoAPI.cpp:86-89 | after `Cancel` the handler will not run |
| NSudoApi.ScopeExitGuard.Exit | NSudoLib/NSudoAPI.cpp:78-84 | the handler runs at scope exit iff the guard was not canceled, and then exactly once |
| NSudoApi.FirstFailure | NSudoLib/NSudoAPI.cpp:154-291 | every earlier token step succeeded and the step it names failed, or all sixteen succeeded |
| NSudoApi.CallerIdentity | NSudoLib/NSudoAPI.cpp:154-171 | opens and duplicates the process token; on failure stops with that status and the run's log and variables |
| NSudoApi.ImpersonateCaller | NSudoLib/NSudoAPI.cpp:173-196 | looks up SeDebugPrivilege, enables it on the duplicate and impersonates it, or stops |
| NSudoApi.CaptureSession | NSudoLib/NSudoAPI.cpp:198-214 | opens the thread token into `CurrentProcessToken` and reads its session id, or stops |
| NSudoApi.RootServiceIdentity | NSudoLib/NSudoAPI.cpp:216-248 | opens and duplicates the lsass token, enables all privileges and impersonates it, or stops |
| NSudoApi.TargetServiceIdentity | NSudoLib/NSudoAPI.cpp:250-291 | opens the TrustedInstaller token, makes it primary, writes the session, enables privileges, sets the System label, or stops |
| NSudoApi.TokenSteps | NSudoLib/NSudoAPI.cpp:154-291 | runs the sixteen token steps in order, returning the first failure's status with the log up to it, or S_OK with all sixteen logged |
| NSudoApi.StartProcess | NSudoLib/NSudoAPI.cpp:329-341 | raises the created process's priority, resumes its thread, then closes both handles |
| NSudoApi.LaunchExpanded | NSudoLib/NSudoAPI.cpp:317-343 | creates the process suspended from the primary token, expanded string and environment block; starts it if created; frees the string |
| NSudoApi.Launch | NSudoLib/NSudoAPI.cpp:293-347 | builds the environment block, expands the command line, launches, and releases what it built |
| NSudoApi.EscalateAndLaunch | NSudoLib/NSudoAPI.cpp:152-349 | returns the first failing token step's status, else S_OK whatever the launch returned; the log is the run's body |
| NSudoApi.CloseIfNotInvalid | NSudoLib/NSudoAPI.cpp:119-122 | closes a handle exactly when it is not `INVALID_HANDLE_VALUE` |
| NSudoApi.Cleanup | NSudoLib/NSudoAPI.cpp:117-150 | the handler closes the six token variables in order, skipping invalid ones, then clears the thread token |
| NSudoApi.NSudoCreateProcess | NSudoLib/NSudoAPI.cpp:96-350 | the status is `RunStatus` and the kernel log is exactly `RunEvents`, cleanup included, for every outcome of every call |
| NSudoApiProperties.TokenEventsCalls | NSudoLib/NSudoAPI.cpp:154-291 | the token phase makes exactly the first n planned calls, in order, and nothing else |
| NSudoApiProperties.ShortCircuit | NSudoLib/NSudoAPI.cpp:154-291 | when step i is the first to fail, the run returns its status, makes exactly the calls up to i, starts nothing, and clears the thread token last |
| NSudoApiProperties.RunEndsClearing | NSudoLib/NSudoAPI.cpp:117-150 | every run, successful or failed, ends with the handler clearing the thread token |
| NSudoApiProperties.SessionFlowsToPrimaryToken | NSudoLib/NSudoAPI.cpp:198-291 | the session id written into the primary token is the one read from the thread token, which is read first; privileges and the label follow |
| NSudoApiProperties.LabelOnlyAfterSession | NSudoLib/NSudoAPI.cpp:271-291 | the mandatory label is set only at step 15, after the session write and the privilege adjustment succeeded |
| NSudoApiProperties.AfterTokensNoTokenCall | NSudoLib/NSudoAPI.cpp:293-349 | after the token steps, every call the run makes is a launch call |
| NSudoApiProperties.CleanupHasNoCalls | NSudoLib/NSudoAPI.cpp:117-150 | the handler makes no fallible call; it only closes valid handles and clears the thread token |
| NSudoApiProperties.CleanupClosesHeldTokens | NSudoLib/NSudoAPI.cpp:117-150 | the handler closes a handle once per token variable holding it, never `INVALID_HANDLE_VALUE`, and clears the thread token last |
| NSudoApiProperties.LaunchReleases | NSudoLib/NSudoAPI.cpp:309-347 | the launch frees the expanded string iff expansion succeeded, destroys the block iff it was built, and creates the process only from both |
| NSudoApiProperties.LaunchReleasesWhatItBuilt | NSudoLib/NSudoAPI.cpp:293-349 | once the token steps succeed the run returns S_OK, releases exactly what it built, and calls `CreateProcessAsUser` exactly when both inputs exist |
| NSudoApiProperties.LaunchShape | NSudoLib/NSudoAPI.cpp:309-347 | a created process gives a nine-event launch with the start sequence at 3..6; otherwise no priority, resume or close |
| NSudoApiProperties.CreatedProcessStarted | NSudoLib/NSudoAPI.cpp:329-341 | a created process has its priority set, then its thread resumed, then both handles closed, at events 19-22 |
| NSudoApiProperties.ResumeOnlyWhenCreated | NSudoLib/NSudoAPI.cpp:329-341 | priority is set and a thread resumed only for a created process, and only at events 19 and 20 |
| NSudoApiProperties.PriorityBeforeResume | NSudoLib/NSudoAPI.cpp:329-341 | a created process gets its priority before its thread is resumed; neither happens anywhere else |
| NSudoApiProperties.LaunchCloses | NSudoLib/NSudoAPI.cpp:339-340 | the launch closes the process and thread handles once each when created, and nothing else |
| NSudoApiProperties.CleanupCloses | NSudoLib/NSudoAPI.cpp:117-150 | the handler closes every opened token handle once, except the overwritten process token |
| NSudoApiProperties.ClosedOnceExceptProcessToken | NSudoLib/NSudoAPI.cpp:96-350 | every handle the run opens is closed exactly once and nothing else is closed, except the process token of step 0 once step 5 succeeded |
| NSudoApiProperties.ProcessTokenLeaks | NSudoLib/NSudoAPI.cpp:154-203 | when the first six steps succeed, the process token opened at the first call is never closed |
| NSudoApp.AppDirectorySplit | NSudo/NSudo.cpp:148-150 | the module path is the directory, a backslash, and a name without a backslash; the directory holds no NUL |
| NSudoApp.FileNameFollowsAppDirectory | NSudo/NSudo.cpp:148-150 | on a backslash-only path shorter than `MAX_PATH`, `M2PathFindFileName` finds the file name one past the directory `Initialize` keeps |
| NSudoApp.ResourceManagement.constructor | NSudo/NSudo.cpp:111-116 | a new manager is uninitialised, with a null instance and empty paths |
| NSudoApp.ResourceManagement.Initialize | NSudo/NSudo.cpp:140-154 | the first call records the module handle and path and keeps the directory before the last backslash; later calls change nothing |
| NSudoApp.LoadResource | NSudo/NSudo.cpp:54-80 | a null output gives E_INVALIDARG and touches nothing; otherwise the size is set once found, the pointer once loaded, and the lookup's status is returned |
| NSudoApp.NSudoMain | NSudo/NSudo.cpp:164-190 | initialises the manager; an empty command line launches nothing; otherwise it runs `NSudoCreateProcess` from the launcher's directory; the exit code is 0 |

## Left out

- Windows semantics are not modelled. What tokens, privileges, sessions, labels, environment blocks and processes do is left to the opaque `Kernel`. The model tracks only which calls are made, in which order, on which handles, and what is released.
- A failing `Mile*` call is assumed to leave its out-parameter unchanged.
- `MileWaitForSingleObject` with a zero timeout has no effect on control flow, and it is not logged.
- `MileSetCurrentThreadToken(nullptr)` in the handler is logged as `ClearThreadToken`, and its status is ignored, as in the source.
- String constants are enumerations with one value each: `SE_DEBUG_NAME`, `L"TrustedInstaller"` and `L"WinSta0\\Default"`. The fields of `STARTUPINFOW` that are not set reduce to the desktop and the show-window mode.
- NSudoApi.NSudoCreateProcess: the guard's handler is a lambda over the function's locals. Here the guard reports that it must run, and the function then runs `Cleanup` on the token variables.
- WindowsHelpers.CObject.Store: `operator&` hands out a raw pointer. Only the use the source makes of it is modelled, a single store through it.
- `operator TObject` and `operator->` only read `m_Object`, which callers here read as the field `obj`.
- `CComObject`, `CM2Memory` and the other definers are not modelled. `CHandle` is a `CObject` whose invalid value is `INVALID_HANDLE_VALUE`.
- WindowsHelpers.PathFindFileName: a character pointer is modelled as an offset into the path. The path must hold a NUL or be at least `MAX_PATH` long, as the source requires of its callers.
- NSudoApp.ResourceManagement.Initialize: requires a backslash in the module path on its first call. Without one, the source writes through the null pointer `wcsrchr` returns.
- `GetModuleHandleW` and `M2GetCurrentProcessModulePath` become parameters of `Initialize`. `GetCommandLineW` and `M2SpiltCommandLineEx` are replaced by the unresolved command line, which is a parameter of `NSudoMain`.
- `CoInitializeEx` has no effect on the modelled state and is left out.
- `UnInitialize` is empty, and the destructor of `CNSudoResourceManagement` only calls it, so neither is modelled. The string-translation and shortcut maps are never filled in this core.
- NSudoApp.LoadResource: `FindResourceExW`, `SizeofResource`, `LoadResource`, `LockResource` and `GetLastError` are one lookup outcome, passed in as a parameter.
- `GetMessageByID` formats a system message; it is I/O and is not modelled.
- The process-token leak is shown, but it is not corrected; the model keeps the function as written.
- HRESULT values are unbounded integers, and the source only compares them with `S_OK`.
