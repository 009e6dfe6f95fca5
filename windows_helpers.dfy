/**
 * The owned-value wrapper `M2::CObject`, its `CMemory` specialisation and the
 * path scanner `M2PathFindFileName` of the M2 Windows helpers.
 *
 * The definer's release function (`TObjectDefiner::Close`) is foreign code; a
 * wrapper records each call to it in the ghost log `released`. Every value the
 * wrapper comes to own is logged in `acquired`, and each one leaves exactly one
 * way: released, detached, or overwritten through the raw `operator&` pointer.
 */
module WindowsHelpers {
  import opened Wrappers
  import opened CString

  /** MAX_PATH of the Windows headers. */
  const MAX_PATH: nat := 260

  /** The null pointer, the invalid value of `CMemory`. */
  const NULL: nat := 0

  /** No value occurs twice in `s`. */
  ghost predicate NoDuplicates<T>(s: seq<T>) {
    forall i, j :: 0 <= i < j < |s| ==> s[i] != s[j]
  }

  lemma {:induction false} NoDuplicatesCount<T>(s: seq<T>, x: T)
    requires NoDuplicates(s)
    ensures multiset(s)[x] <= 1
  {
    if s != [] {
      assert s == [s[0]] + s[1..];
      NoDuplicatesCount(s[1..], x);
      if s[0] == x {
        assert x !in s[1..];
      }
    }
  }

  lemma {:induction false} DuplicateCount<T>(s: seq<T>, i: nat, j: nat)
    requires i < j < |s| && s[i] == s[j]
    ensures multiset(s)[s[i]] >= 2
  {
    assert s == s[..i] + [s[i]] + s[i + 1..j] + [s[j]] + s[j + 1..];
  }

  /**
   * If no value is acquired twice (each acquisition yields a fresh handle), and
   * the release log is part of what was acquired, no value is released twice.
   */
  lemma ReleasedAtMostOnce<T>(acquired: seq<T>, released: seq<T>)
    requires NoDuplicates(acquired)
    requires multiset(released) <= multiset(acquired)
    ensures NoDuplicates(released)
  {
    forall i, j | 0 <= i < j < |released|
      ensures released[i] != released[j]
    {
      if released[i] == released[j] {
        DuplicateCount(released, i, j);
        NoDuplicatesCount(acquired, released[i]);
        assert false;
      }
    }
  }

  /** `M2::CObject`: owns one value, `m_Object`, or holds the definer's invalid value. */
  class CObject<T(==)> {
    /** `TObjectDefiner::GetInvalidValue()`. */
    const invalid: T
    /** `m_Object`. */
    var obj: T

    ghost var acquired: seq<T>
    ghost var released: seq<T>
    ghost var detached: seq<T>
    ghost var overwritten: seq<T>

    /** The one-element log of owning `x`, empty for the invalid value. */
    function Owned(x: T): seq<T> {
      if x == invalid then [] else [x]
    }

    ghost function Held(): multiset<T>
      reads this
    {
      multiset(Owned(obj))
    }

    /** Every value acquired is still held or has left in exactly one way. */
    ghost predicate Valid()
      reads this
    {
      && invalid !in acquired
      && multiset(acquired) == Held() + multiset(released) + multiset(detached) + multiset(overwritten)
    }

    /** `IsInvalid`. */
    predicate IsInvalid(): (r: bool)
      reads this
      ensures r <==> Held() == multiset{}
    {
      obj == invalid
    }

    /** The constructor; its argument defaults to the invalid value. */
    constructor (invalid: T, value: T)
      ensures Valid()
      ensures this.invalid == invalid && obj == value
      ensures IsInvalid() <==> value == invalid
      ensures acquired == Owned(value) && released == [] && detached == [] && overwritten == []
    {
      this.invalid := invalid;
      obj := value;
      acquired := if value == invalid then [] else [value];
      released, detached, overwritten := [], [], [];
    }

    /** `Close`: releases the held value, if any, and leaves the invalid value. */
    method Close()
      requires Valid()
      modifies this
      ensures Valid() && IsInvalid()
      ensures released == old(released) + Owned(old(obj))
      ensures acquired == old(acquired) && detached == old(detached) && overwritten == old(overwritten)
    {
      if !IsInvalid() {
        released := released + [obj];
        obj := invalid;
      }
    }

    /** `Detach`: hands the held value to the caller without releasing it. */
    method Detach() returns (value: T)
      requires Valid()
      modifies this
      ensures Valid() && IsInvalid()
      ensures value == old(obj)
      ensures detached == old(detached) + Owned(old(obj))
      ensures acquired == old(acquired) && released == old(released) && overwritten == old(overwritten)
    {
      value := obj;
      detached := detached + Owned(obj);
      obj := invalid;
    }

    /** `operator=`: a different value closes the held one first; the same value changes nothing. */
    method Assign(value: T) returns (r: T)
      requires Valid()
      modifies this
      ensures Valid()
      ensures r == value && obj == value
      ensures value == old(obj) ==> unchanged(this)
      ensures value != old(obj) ==>
        && released == old(released) + Owned(old(obj))
        && acquired == old(acquired) + Owned(value)
      ensures detached == old(detached) && overwritten == old(overwritten)
    {
      if value != obj {
        Close();
        obj := value;
        acquired := acquired + Owned(value);
      }
      r := obj;
    }

    /**
     * A write through the pointer `operator&` returns (an out-parameter, or a
     * derived class's direct store): whatever was held is overwritten unreleased.
     */
    method Store(value: T)
      requires Valid()
      modifies this
      ensures Valid() && obj == value
      ensures overwritten == old(overwritten) + Owned(old(obj))
      ensures acquired == old(acquired) + Owned(value)
      ensures released == old(released) && detached == old(detached)
    {
      overwritten := overwritten + Owned(obj);
      acquired := acquired + Owned(value);
      obj := value;
    }

    /**
     * The destructor closes what is held, so at the end of a lifetime each
     * acquired value was released, detached or overwritten; when every acquired
     * value was fresh, none was released twice.
     */
    method Destroy()
      requires Valid()
      modifies this
      ensures Valid() && IsInvalid()
      ensures released == old(released) + Owned(old(obj))
      ensures acquired == old(acquired) && detached == old(detached) && overwritten == old(overwritten)
      ensures multiset(acquired) == multiset(released) + multiset(detached) + multiset(overwritten)
      ensures NoDuplicates(acquired) ==> NoDuplicates(released)
    {
      Close();
      if NoDuplicates(acquired) {
        ReleasedAtMostOnce(acquired, released);
      }
    }
  }

  /** `M2::CMemory`: a `CObject` over `malloc`ed blocks whose invalid value is the null pointer. */
  class CMemory {
    const block: CObject<nat>

    ghost predicate Valid()
      reads this, block
    {
      block.Valid() && block.invalid == NULL
    }

    constructor (value: nat)
      ensures Valid() && fresh(block)
      ensures block.obj == value && block.invalid == NULL
      ensures block.acquired == block.Owned(value) && block.released == []
      ensures block.detached == [] && block.overwritten == []
    {
      block := new CObject(NULL, value);
    }

    /**
     * `Alloc`: frees the held block, then holds `newBlock`, the pointer `malloc`
     * returned; succeeds iff that value is not null.
     */
    method Alloc(size: nat, newBlock: nat) returns (ok: bool)
      requires Valid()
      modifies block
      ensures Valid()
      ensures ok <==> newBlock != NULL
      ensures block.obj == newBlock
      ensures block.released == old(block.released) + block.Owned(old(block.obj))
      ensures block.acquired == old(block.acquired) + block.Owned(newBlock)
      ensures block.detached == old(block.detached) && block.overwritten == old(block.overwritten)
    {
      Free();
      block.Store(newBlock);
      ok := NULL != block.obj;
    }

    /** `Free`: closes the held block. */
    method Free()
      requires Valid()
      modifies block
      ensures Valid() && block.IsInvalid()
      ensures block.released == old(block.released) + block.Owned(old(block.obj))
      ensures block.acquired == old(block.acquired)
      ensures block.detached == old(block.detached) && block.overwritten == old(block.overwritten)
    {
      block.Close();
    }
  }

  predicate IsSeparator(c: char) {
    c == '\\' || c == '/'
  }

  /** Where the file name in `p` starts: just after its last separator, or at 0 without one. */
  function FileNameStart(p: seq<char>): (r: nat)
    ensures r <= |p|
    ensures r > 0 ==> IsSeparator(p[r - 1])
    ensures forall i :: r <= i < |p| ==> !IsSeparator(p[i])
  {
    if p == [] then 0
    else if IsSeparator(p[|p| - 1]) then |p|
    else FileNameStart(p[..|p| - 1])
  }

  /** The scanner may read `s` up to its first NUL or its `MAX_PATH`th character. */
  predicate Readable(s: seq<char>) {
    '\0' in s || MAX_PATH <= |s|
  }

  /** How many characters the scanner examines: up to the terminator, at most `MAX_PATH`. */
  function ScanLength(s: seq<char>): (n: nat)
    ensures n <= MAX_PATH && n <= Wcslen(s)
    ensures n == Wcslen(s) || n == MAX_PATH
  {
    if Wcslen(s) < MAX_PATH then Wcslen(s) else MAX_PATH
  }

  /**
   * `M2PathFindFileName`. The path is a pointer that may be null; a result
   * `Some(k)` stands for the pointer `Path + k`.
   */
  method PathFindFileName(path: Option<seq<char>>) returns (fileName: Option<nat>)
    requires path.Some? ==> Readable(path.value)
    ensures path.None? ==> fileName.None?
    ensures path.Some? ==> fileName == Some(FileNameStart(path.value[..ScanLength(path.value)]))
  {
    fileName := if path.None? then None else Some(0);
    // `cursor` is the offset of the advancing pointer `Path`
    var cursor := 0;
    for i := 0 to MAX_PATH
      invariant cursor == i
      invariant path.None? ==> fileName.None?
      invariant path.Some? ==> i <= Wcslen(path.value) && fileName == Some(FileNameStart(path.value[..i]))
    {
      if !(path.Some? && path.value[cursor] != '\0') {
        break;
      }
      if path.value[cursor] == '\\' || path.value[cursor] == '/' {
        fileName := Some(cursor + 1);
      }
      assert path.value[..cursor + 1][..cursor] == path.value[..cursor];
      cursor := cursor + 1;
    }
  }

  /**
   * On a path written with backslashes only, the file name starts just after
   * the last backslash, or at the start when there is none.
   */
  lemma {:induction false} FileNameAfterLastBackslash(p: seq<char>)
    requires '/' !in p
    ensures FileNameStart(p) == match LastIndexOf(p, '\\') case None => 0 case Some(i) => i + 1
  {
    if p != [] && p[|p| - 1] != '\\' {
      assert p[..|p| - 1] <= p;
      FileNameAfterLastBackslash(p[..|p| - 1]);
    }
  }
}
