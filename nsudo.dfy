/**
 * The NSudo launcher: the process-wide resource manager
 * `CNSudoResourceManagement`, the argument handling of `M2LoadResource`, and
 * `NSudoMain`, which launches the unresolved command line through
 * `NSudoCreateProcess` with the launcher's own directory as the working
 * directory.
 */
module NSudoApp {
  import opened Wrappers
  import opened CString
  import opened NSudoApi
  import WindowsHelpers

  /** E_INVALIDARG, 0x80070057 as a signed 32-bit HRESULT. */
  const E_INVALIDARG: HResult := -0x7FF8_FFA9

  /** The text of the C string whose buffer is `p`: everything before its first NUL. */
  function CText(p: seq<char>): (t: seq<char>)
    ensures |t| <= |p| && t == p[..|t|]
    ensures '\0' !in t
    ensures |t| < |p| ==> p[|t|] == '\0'
  {
    p[..Wcslen(p)]
  }

  /** The directory of a module path: its text up to, not including, its last backslash. */
  function AppDirectory(modulePath: seq<char>): (d: seq<char>)
    requires '\\' in CText(modulePath)
    ensures |d| < |CText(modulePath)|
  {
    var text := CText(modulePath);
    text[..LastIndexOf(text, '\\').value]
  }

  /**
   * The directory and the file name are separated by the last backslash: the
   * module path's text is the directory, a backslash, and a name without one.
   */
  lemma AppDirectorySplit(modulePath: seq<char>)
    requires '\\' in CText(modulePath)
    ensures var text, d := CText(modulePath), AppDirectory(modulePath);
      && text == d + ['\\'] + text[|d| + 1..]
      && '\\' !in text[|d| + 1..]
      && '\0' !in d
  {
    var text, d := CText(modulePath), AppDirectory(modulePath);
    var cut := LastIndexOf(text, '\\').value;
    assert text == text[..cut] + [text[cut]] + text[cut + 1..];
  }

  /**
   * `M2PathFindFileName` and `Initialize` cut a backslash-only module path in
   * the same place: the file name it finds starts one past the directory.
   */
  lemma FileNameFollowsAppDirectory(modulePath: seq<char>)
    requires '\\' in CText(modulePath) && '/' !in CText(modulePath)
    requires |CText(modulePath)| < WindowsHelpers.MAX_PATH
    ensures var n := WindowsHelpers.ScanLength(modulePath);
      WindowsHelpers.FileNameStart(modulePath[..n]) == |AppDirectory(modulePath)| + 1
  {
    WindowsHelpers.FileNameAfterLastBackslash(CText(modulePath));
  }


  /** `CNSudoResourceManagement`: the launcher's module handle, its path and its directory, set up once. */
  class ResourceManagement {
    var isInitialized: bool
    var instance: nat
    var exePath: seq<char>
    var appPath: seq<char>

    constructor ()
      ensures !isInitialized && instance == WindowsHelpers.NULL && exePath == [] && appPath == []
    {
      isInitialized := false;
      instance := WindowsHelpers.NULL;
      exePath := [];
      appPath := [];
    }

    /**
     * `Initialize`: on the first call only, records the module handle and the
     * module path (GetModuleHandleW and M2GetCurrentProcessModulePath, given
     * here as parameters) and derives the directory by writing a NUL over the
     * last backslash and shrinking the string to its C length.
     */
    method Initialize(moduleHandle: nat, modulePath: seq<char>)
      requires !isInitialized ==> '\\' in CText(modulePath)
      modifies this
      ensures isInitialized
      ensures old(isInitialized) ==> unchanged(this)
      ensures !old(isInitialized) ==>
        && instance == moduleHandle && exePath == modulePath
        && appPath == AppDirectory(modulePath)
    {
      if !isInitialized {
        instance := moduleHandle;
        exePath := modulePath;
        appPath := exePath;
        // the buffer behind `&m_AppPath[0]`, with its terminator
        var buffer := appPath + ['\0'];
        assert buffer[..|modulePath|] == modulePath;
        assert Wcslen(buffer) == |CText(modulePath)| by {
          WcslenPrefix(buffer, |modulePath|);
        }
        var cut := Wcsrchr(buffer, '\\').value;
        buffer := buffer[cut := '\0'];
        TerminatedAt(buffer[cut := modulePath[cut]], cut);
        assert buffer[cut := modulePath[cut]] == modulePath + ['\0'];
        appPath := buffer[..|appPath|];
        appPath := appPath[..Wcslen(buffer)];
        isInitialized := true;
      }
    }
  }


  /** `M2_RESOURCE_INFO`: the size and address of a loaded resource. */
  class ResourceInfo {
    var size: nat
    var pointer: nat

    constructor (size: nat, pointer: nat)
      ensures this.size == size && this.pointer == pointer
    {
      this.size := size;
      this.pointer := pointer;
    }
  }

  /**
   * What looking a resource up yields: not found, found but not loaded, or
   * loaded. A failure carries HRESULT_FROM_WIN32 of the last error.
   */
  datatype Lookup =
    | NotFound(error: HResult)
    | NotLoaded(foundSize: nat, error: HResult)
    | Loaded(loadedSize: nat, data: nat)

  /** The status `M2LoadResource` returns for an output structure that is present. */
  function LookupStatus(lookup: Lookup): HResult {
    match lookup
    case NotFound(error) => error
    case NotLoaded(_, error) => error
    case Loaded(_, _) => S_OK
  }

  /** The size it reports: zero until the resource is found. */
  function LookupSize(lookup: Lookup): (size: nat)
    ensures lookup.NotFound? ==> size == 0
  {
    match lookup
    case NotFound(_) => 0
    case NotLoaded(size, _) => size
    case Loaded(size, _) => size
  }

  /** The address it reports: null unless the resource was loaded. */
  function LookupPointer(lookup: Lookup): (pointer: nat)
    ensures !lookup.Loaded? ==> pointer == WindowsHelpers.NULL
  {
    if lookup.Loaded? then lookup.data else WindowsHelpers.NULL
  }

  /**
   * `M2LoadResource`: a null output structure is refused with E_INVALIDARG and
   * left alone; otherwise it is zeroed first, then filled from the lookup.
   */
  method LoadResource(info: ResourceInfo?, lookup: Lookup) returns (hr: HResult)
    modifies info
    ensures info == null ==> hr == E_INVALIDARG
    ensures info != null ==>
      && hr == LookupStatus(lookup)
      && info.size == LookupSize(lookup)
      && info.pointer == LookupPointer(lookup)
  {
    if info == null {
      return E_INVALIDARG;
    }
    info.size := 0;
    info.pointer := WindowsHelpers.NULL;
    match lookup {
      case NotFound(error) =>
        return error;
      case NotLoaded(size, error) =>
        info.size := size;
        return error;
      case Loaded(size, data) =>
        info.size := size;
        info.pointer := data;
        return S_OK;
    }
  }

  /**
   * `NSudoMain`: initialise the resource manager, then launch the unresolved
   * command line, if any, from the launcher's directory. The status of the
   * launch is discarded; the exit code is always 0.
   */
  method NSudoMain(rm: ResourceManagement, k: Kernel, moduleHandle: nat, modulePath: seq<char>,
                   unresolvedCommandLine: string)
    returns (exitCode: int)
    requires !rm.isInitialized ==> '\\' in CText(modulePath)
    modifies rm, k
    ensures exitCode == 0
    ensures rm.isInitialized
    ensures old(rm.isInitialized) ==> rm.appPath == old(rm.appPath)
    ensures !old(rm.isInitialized) ==> rm.appPath == AppDirectory(modulePath)
    ensures unresolvedCommandLine == [] ==> k.log == old(k.log) && k.calls == old(k.calls)
    ensures unresolvedCommandLine != [] ==>
      k.log == old(k.log) + RunEvents(WorldOf(k, old(k.calls)), unresolvedCommandLine, Some(rm.appPath))
  {
    rm.Initialize(moduleHandle, modulePath);

    if unresolvedCommandLine == [] {
      return 0;
    }

    if unresolvedCommandLine == [] {
      assert false;
      return -1;
    }

    var _ := NSudoCreateProcess(k, unresolvedCommandLine, Some(rm.appPath));
    return 0;
  }
}
