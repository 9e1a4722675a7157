/**
  A model of YapDatabase's fault-injection shim over SQLite's virtual file
  system (YapDatabase/vfs_shim.c). The shim registers itself as the default
  VFS on top of the one that was the default before, forwards every call to
  it, and adds a little logic of its own: a write gate driven by the global
  gSQLiteWriteFail, a short display name kept per open file, the lifecycle
  of that name, the "vfsshim/" prefix on the VFS name reported through
  xFileControl, and the per-file allocation size.

  The wrapped VFS and its file handles are not part of this code: they are
  modelled as the classes OriginalVfs and OriginalFile, whose results (status
  codes, whether a handle got methods) are chosen by the caller and passed in
  as parameters, and which record every call the shim forwards to them.
*/
module VfsShim {

  // Result codes and the file-control opcode the shim uses, as sqlite3.h numbers them.
  const SQLITE_OK: int := 0
  const SQLITE_FULL: int := 13
  const SQLITE_FCNTL_VFSNAME: int := 12

  /** What the shim puts in front of the wrapped VFS's name (vfs_shim.c:227). */
  const SHIM_PREFIX: string := "vfsshim/"

  datatype Option<T> = None | Some(value: T)

  /** What pArg of xFileControl points at: a `char *` cell for
      SQLITE_FCNTL_VFSNAME (None is NULL), some other object for other ops. */
  datatype FcntlArg = NameCell(name: Option<string>) | OtherArg(raw: seq<bv8>)

  /** A call the shim forwarded to a wrapped file handle, with the arguments it passed. */
  datatype Call =
    | WriteCall(data: seq<bv8>, offset: nat)
    | CloseCall
    | FileControlCall(op: int, arg: FcntlArg)

  // ---------------------------------------------------------------------------
  // Display name (VFSShimOpen, vfs_shim.c:304-312)
  // ---------------------------------------------------------------------------

  /** k is where the display name of path starts: at the last '/', or at 0
      when no '/' follows position 0. The pointer walk stops ON the slash, so
      the slash belongs to the name. */
  ghost predicate IsNameStart(path: string, k: nat)
  {
    && k <= |path|
    && (k == 0 || (k < |path| && path[k] == '/'))
    && forall j :: k < j < |path| ==> path[j] != '/'
  }

  /** The name VFSShimOpen stores for a file opened at path: the suffix from
      the last '/' (included), or the whole path when it has no '/'. */
  function DisplayName(path: string): (name: string)
    ensures |name| <= |path|
    ensures |path| > 0 ==> |name| > 0
  {
    if |path| == 0 then path
    else if path[|path| - 1] == '/' then "/"
    else DisplayName(path[..|path| - 1]) + [path[|path| - 1]]
  }

  /** The display name is a suffix of the path that starts at a name start:
      it holds no '/' but, possibly, its first character. */
  lemma {:induction false} DisplayNameStart(path: string)
    ensures |DisplayName(path)| <= |path|
    ensures DisplayName(path) == path[|path| - |DisplayName(path)|..]
    ensures IsNameStart(path, |path| - |DisplayName(path)|)
  {
    if |path| > 0 && path[|path| - 1] != '/' {
      var init := path[..|path| - 1];
      DisplayNameStart(init);
      var k := |init| - |DisplayName(init)|;
      assert DisplayName(path) == DisplayName(init) + [path[|path| - 1]];
      assert |path| - |DisplayName(path)| == k;
      assert DisplayName(path) == path[k..];
      forall j | k < j < |path| ensures path[j] != '/' {
        if j < |init| {
          assert path[j] == init[j];
        }
      }
    }
  }

  /** Only one position of a path can start its display name. */
  lemma NameStartUnique(path: string, i: nat, k: nat)
    requires IsNameStart(path, i) && IsNameStart(path, k)
    ensures i == k
  {
  }

  /** The display name is exactly the suffix that starts at a name start. */
  lemma DisplayNameIsLastSegment(path: string, k: nat)
    requires k <= |path|
    ensures DisplayName(path) == path[k..] <==> IsNameStart(path, k)
  {
    var name := DisplayName(path);
    DisplayNameStart(path);
    if IsNameStart(path, k) {
      NameStartUnique(path, k, |path| - |name|);
    }
    if name == path[k..] {
      assert |path| - |name| == k;
    }
  }

  /** The two cases of the scan: a path without '/' is kept whole; otherwise
      the name begins with '/' and holds no other one. */
  lemma DisplayNameCases(path: string)
    ensures '/' !in path ==> DisplayName(path) == path
    ensures '/' in path ==> DisplayName(path)[0] == '/' && '/' !in DisplayName(path)[1..]
  {
    var name := DisplayName(path);
    var k := |path| - |name|;
    DisplayNameStart(path);
    if '/' in path {
      var j :| 0 <= j < |path| && path[j] == '/';
      assert j <= k;
      assert name[0] == path[k];
      forall c | 0 <= c < |name| - 1 ensures name[1..][c] != '/' {
        assert name[1..][c] == path[k + 1 + c];
      }
    }
  }

  /** The name of a file in a directory is "/" followed by the file's own
      name: the scan keeps the slash it stops on. */
  lemma DisplayNameInDirectory(dir: string, file: string)
    requires '/' !in file
    ensures DisplayName(dir + "/" + file) == "/" + file
  {
    var path := dir + "/" + file;
    var k := |dir|;
    assert path[k] == '/';
    forall j | k < j < |path| ensures path[j] != '/' {
      assert path[j] == file[j - k - 1];
    }
    DisplayNameIsLastSegment(path, k);
    assert path[k..] == "/" + file;
  }

  /** "/var/db/app.sqlite" is stored as "/app.sqlite", not "app.sqlite";
      "app.sqlite" is stored whole. */
  lemma DisplayNameExamples()
    ensures DisplayName("/var/db/app.sqlite") == "/app.sqlite"
    ensures DisplayName("app.sqlite") == "app.sqlite"
  {
    var file := "app.sqlite";
    assert '/' !in file;
    DisplayNameInDirectory("/var/db", file);
    assert "/var/db" + "/" + file == "/var/db/app.sqlite";
    DisplayNameCases(file);
  }

  /** The pointer walk of vfs_shim.c:304-308: nameEnd starts on the NUL that
      ends the C string and moves left until it sits on a '/' or on the first
      character. path holds the characters before the NUL, so it has none. */
  method ScanNameStart(path: string) returns (i: nat)
    requires '\0' !in path
    ensures IsNameStart(path, i)
    ensures path[i..] == DisplayName(path)
  {
    var cstr := path + ['\0'];
    i := |path|;
    while cstr[i] != '/' && i > 0
      invariant i <= |path|
      invariant forall j :: i < j < |path| ==> path[j] != '/'
      decreases i
    {
      i := i - 1;
    }
    DisplayNameIsLastSegment(path, i);
  }

  /** Bytes the source asks sqlite3_malloc for at vfs_shim.c:311: strlen(nameEnd). */
  function AllocSizeAsWritten(name: string): nat
  {
    |name|
  }

  /** Bytes strcpy stores at vfs_shim.c:312: the characters and the NUL. */
  function StrcpyBytes(name: string): nat
  {
    |name| + 1
  }

  /** A concrete overrun: opening "/var/db/app.sqlite" allocates 11 bytes
      for the name and strcpy stores 12. */
  lemma NameCopyOverrunExample()
    ensures AllocSizeAsWritten(DisplayName("/var/db/app.sqlite")) == 11
    ensures StrcpyBytes(DisplayName("/var/db/app.sqlite")) == 12
  {
    DisplayNameExamples();
  }

  /** The strcpy of vfs_shim.c:312: the buffer it fills holds the characters
      followed by the NUL, StrcpyBytes(src) characters in all. Whether that
      fits the allocation is ShimFile.NameFits. */
  method CopyName(src: string) returns (buf: array<char>)
    ensures fresh(buf)
    ensures buf.Length == StrcpyBytes(src)
    ensures buf[..] == src + ['\0']
  {
    buf := new char[StrcpyBytes(src)];
    var k := 0;
    while k < |src|
      invariant k <= |src|
      invariant buf[..k] == src[..k]
    {
      buf[k] := src[k];
      k := k + 1;
    }
    buf[|src|] := '\0';
    assert buf[..] == buf[..|src|] + [buf[|src|]];
  }

  // ---------------------------------------------------------------------------
  // The write gate (VFSShimWrite, vfs_shim.c:151-163)
  // ---------------------------------------------------------------------------

  datatype WriteStep = Reject(code: int) | Forward

  /** The branch at vfs_shim.c:151: any nonzero flag refuses the write. */
  function WriteGate(writeFail: int): (step: WriteStep)
    ensures step.Reject? <==> writeFail != 0
    ensures step.Reject? ==> step.code == SQLITE_FULL
  {
    if writeFail != 0 then Reject(SQLITE_FULL) else Forward
  }

  /** The wrapped file's contents after data is stored at offset, a gap past
      the old end reading as zeros (how SQLite's VFSes extend a file). */
  function Overlay(bytes: seq<bv8>, data: seq<bv8>, offset: nat): (r: seq<bv8>)
    ensures |r| == if offset + |data| > |bytes| then offset + |data| else |bytes|
    ensures r[offset..offset + |data|] == data
    ensures forall i :: 0 <= i < |bytes| && !(offset <= i < offset + |data|) ==> r[i] == bytes[i]
  {
    var padded := if |bytes| < offset then bytes + seq(offset - |bytes|, _ => 0 as bv8) else bytes;
    padded[..offset] + data + (if offset + |data| < |padded| then padded[offset + |data|..] else [])
  }

  // ---------------------------------------------------------------------------
  // The VFS-name rewrite (VFSShimFileControl, vfs_shim.c:224-230)
  // ---------------------------------------------------------------------------

  /** The string sqlite3_mprintf("vfsshim/%z", name) builds; %z prints a NULL
      string as nothing. */
  function ShimVfsName(inner: Option<string>): (r: string)
    ensures |SHIM_PREFIX| <= |r| && r[..|SHIM_PREFIX|] == SHIM_PREFIX
    ensures r[|SHIM_PREFIX|..] == if inner.Some? then inner.value else ""
  {
    SHIM_PREFIX + (if inner.Some? then inner.value else "")
  }

  /** The inverse of the rewrite: the wrapped VFS's name, for a name the shim reported. */
  function StripShimPrefix(s: string): Option<string>
  {
    if |SHIM_PREFIX| <= |s| && s[..|SHIM_PREFIX|] == SHIM_PREFIX then Some(s[|SHIM_PREFIX|..]) else None
  }

  /** Stripping the prefix recovers the wrapped VFS's name: "unix" is reported
      as "vfsshim/unix", and "vfsshim/unix" strips back to "unix". */
  lemma ShimVfsNameRoundTrip(inner: string)
    ensures StripShimPrefix(ShimVfsName(Some(inner))) == Some(inner)
    ensures ShimVfsName(Some("unix")) == "vfsshim/unix"
  {
    var s := ShimVfsName(Some(inner));
    assert s[..|SHIM_PREFIX|] == SHIM_PREFIX;
    assert s[|SHIM_PREFIX|..] == inner;
  }

  /** Every string that strips is the rewrite of what it strips to. */
  lemma StripShimPrefixSound(s: string, inner: string)
    requires StripShimPrefix(s) == Some(inner)
    ensures ShimVfsName(Some(inner)) == s
  {
    assert s == s[..|SHIM_PREFIX|] + s[|SHIM_PREFIX|..];
  }

  /** *pArg as the shim leaves it (vfs_shim.c:226-228): only a successful
      SQLITE_FCNTL_VFSNAME replaces it, by "vfsshim/" followed by the name the
      wrapped VFS returned; any other op or status leaves it as the wrapped
      VFS left it. */
  function VfsNameReply(op: int, rc: int, arg: FcntlArg): (r: FcntlArg)
    requires op == SQLITE_FCNTL_VFSNAME && rc == SQLITE_OK ==> arg.NameCell?
    ensures !(op == SQLITE_FCNTL_VFSNAME && rc == SQLITE_OK) ==> r == arg
    ensures op == SQLITE_FCNTL_VFSNAME && rc == SQLITE_OK ==>
      && r.NameCell? && r.name.Some?
      && StripShimPrefix(r.name.value) == Some(if arg.name.Some? then arg.name.value else "")
  {
    if op == SQLITE_FCNTL_VFSNAME && rc == SQLITE_OK then
      var reply := ShimVfsName(arg.name);
      ShimVfsNameRoundTrip(if arg.name.Some? then arg.name.value else "");
      NameCell(Some(reply))
    else
      arg
  }

  // ---------------------------------------------------------------------------
  // The wrapped VFS and its file handles (outside the shim)
  // ---------------------------------------------------------------------------

  /** A file handle of the wrapped VFS, living in the memory after the shim's
      own record (vfs_shim.c:310). */
  class OriginalFile {
    var hasMethods: bool        // pMethods != NULL
    var bytes: seq<bv8>         // the file's contents
    ghost var calls: seq<Call>  // every call forwarded to this handle, in order

    constructor (disk: seq<bv8>)
      ensures !hasMethods && bytes == disk && calls == []
    {
      hasMethods := false;
      bytes := disk;
      calls := [];
    }

    /** xWrite; status is what the wrapped VFS reports. */
    method XWrite(data: seq<bv8>, offset: nat, status: int) returns (rc: int)
      requires hasMethods
      modifies this
      ensures rc == status && hasMethods
      ensures bytes == if status == SQLITE_OK then Overlay(old(bytes), data, offset) else old(bytes)
      ensures calls == old(calls) + [WriteCall(data, offset)]
    {
      rc := status;
      if status == SQLITE_OK {
        bytes := Overlay(bytes, data, offset);
      }
      calls := calls + [WriteCall(data, offset)];
    }

    /** xClose; status is what the wrapped VFS reports. */
    method XClose(status: int) returns (rc: int)
      requires hasMethods
      modifies this
      ensures rc == status && hasMethods && bytes == old(bytes)
      ensures calls == old(calls) + [CloseCall]
    {
      rc := status;
      calls := calls + [CloseCall];
    }

    /** xFileControl; status is what the wrapped VFS reports and argAfter
        what it leaves in *pArg. */
    method XFileControl(op: int, arg: FcntlArg, status: int, argAfter: FcntlArg) returns (rc: int, argOut: FcntlArg)
      requires hasMethods
      modifies this
      ensures rc == status && argOut == argAfter
      ensures hasMethods && bytes == old(bytes)
      ensures calls == old(calls) + [FileControlCall(op, arg)]
    {
      rc, argOut := status, argAfter;
      calls := calls + [FileControlCall(op, arg)];
    }
  }

  /** The VFS that was the default when the shim registered. */
  class OriginalVfs {
    const szOsFile: nat             // bytes its file handles need
    ghost var openedPaths: seq<string>   // every path the shim asked it to open

    constructor (szOsFile: nat)
      ensures this.szOsFile == szOsFile && openedPaths == []
    {
      this.szOsFile := szOsFile;
      openedPaths := [];
    }

    /** xOpen; status is what it reports and installs whether it gives the
        handle methods. SQLite requires methods on every successful open. */
    method XOpen(path: string, file: OriginalFile, status: int, installs: bool) returns (rc: int)
      requires status == SQLITE_OK ==> installs
      modifies this, file
      ensures rc == status
      ensures file.hasMethods == installs && file.bytes == old(file.bytes) && file.calls == old(file.calls)
      ensures openedPaths == old(openedPaths) + [path]
    {
      rc := status;
      file.hasMethods := installs;
      openedPaths := openedPaths + [path];
    }
  }

  // ---------------------------------------------------------------------------
  // The shim
  // ---------------------------------------------------------------------------

  /** The process-wide state: the shim's VFS record `vfsShim` and the flag
      gSQLiteWriteFail. */
  class Shim {
    var writeFail: int             // gSQLiteWriteFail
    var original: OriginalVfs?     // vfsShim.original
    var szOsFile: nat              // vfsShim.shim.szOsFile
    const recordSize: nat          // sizeof(VFSShimFile)

    /** The static initialisers of vfs_shim.c:12 and 65-91. */
    constructor (recordSize: nat)
      ensures writeFail == 0 && original == null && szOsFile == 0
      ensures this.recordSize == recordSize
    {
      writeFail := 0;
      original := null;
      szOsFile := 0;
      this.recordSize := recordSize;
    }

    /** Every per-file allocation of szOsFile bytes holds the shim's record
        and, after it at offset recordSize, a whole handle of the wrapped VFS. */
    predicate OriginalFits()
      reads this
    {
      original != null && recordSize + original.szOsFile <= szOsFile
    }

    /** RegisterVFSShim (vfs_shim.c:457-465): wrap the current default VFS,
        size the per-file allocation for both records, and return the status
        sqlite3_vfs_register reports (registerStatus). */
    method Register(default: OriginalVfs, registerStatus: int) returns (rc: int)
      modifies this
      ensures original == default
      ensures szOsFile == recordSize + default.szOsFile
      ensures OriginalFits()
      ensures writeFail == old(writeFail)
      ensures rc == registerStatus
    {
      original := default;
      szOsFile := recordSize + original.szOsFile;
      rc := registerStatus;
    }
  }

  /** VFSShimFile: the handle SQLite allocates szOsFile bytes for and hands to xOpen. */
  class ShimFile {
    var hasMethods: bool          // pMethods == &vfsShimIOMethods (false: NULL)
    var original: OriginalFile?   // f->original
    var name: array<char>         // f->name
    ghost var nameLive: bool      // f->name is allocated and not yet freed
    ghost var nameAlloc: nat      // bytes sqlite3_malloc was asked for f->name

    constructor ()
      ensures !hasMethods && original == null && !nameLive
    {
      hasMethods := false;
      original := null;
      name := new char[0];
      nameLive := false;
      nameAlloc := 0;
    }

    /** No name buffer is stranded: SQLite calls xClose exactly on the handles
        whose pMethods is not NULL, so a live name needs installed methods. */
    ghost predicate NoLeak()
      reads this
    {
      nameLive ==> hasMethods
    }

    /** What strcpy stored into f->name, NUL included, fits the allocation. */
    ghost predicate NameFits()
      reads this
    {
      name.Length <= nameAlloc
    }

    /** VFSShimOpen as written (vfs_shim.c:299-321). The name buffer gets
        strlen(nameEnd) bytes, one fewer than strcpy stores into it. The name is
        kept even when the wrapped open fails, and the handle is then left
        without methods, so no xClose will free it. */
    method OpenAsWritten(vfs: Shim, path: string, region: OriginalFile, status: int, installs: bool)
      returns (rc: int)
      requires '\0' !in path
      requires vfs.original != null
      requires status == SQLITE_OK ==> installs
      modifies this, region, vfs.original
      ensures original == region && fresh(name) && nameLive
      ensures name[..] == DisplayName(path) + ['\0']
      ensures nameAlloc == AllocSizeAsWritten(DisplayName(path)) && !NameFits()
      ensures rc == status
      ensures hasMethods <==> rc == SQLITE_OK
      ensures region.hasMethods == installs && region.bytes == old(region.bytes) && region.calls == old(region.calls)
      ensures vfs.original.openedPaths == old(vfs.original.openedPaths) + [path]
      ensures rc != SQLITE_OK ==> !NoLeak()
    {
      var start := ScanNameStart(path);
      original := region;
      nameAlloc := AllocSizeAsWritten(path[start..]);
      name := CopyName(path[start..]);
      nameLive := true;
      rc := vfs.original.XOpen(path, original, status, installs);
      hasMethods := rc == SQLITE_OK;
    }

    /** VFSShimOpen corrected: the name buffer has room for the NUL, and it is
        released when the wrapped open fails. The methods are installed, and
        the name kept, exactly when the wrapped open succeeds; its status is
        returned unchanged. */
    method Open(vfs: Shim, path: string, region: OriginalFile, status: int, installs: bool)
      returns (rc: int)
      requires '\0' !in path
      requires vfs.original != null
      requires status == SQLITE_OK ==> installs
      modifies this, region, vfs.original
      ensures original == region && fresh(name)
      ensures name[..] == DisplayName(path) + ['\0']
      ensures nameAlloc == StrcpyBytes(DisplayName(path)) && NameFits()
      ensures rc == status
      ensures hasMethods <==> rc == SQLITE_OK
      ensures nameLive <==> rc == SQLITE_OK
      ensures hasMethods ==> region.hasMethods
      ensures region.hasMethods == installs && region.bytes == old(region.bytes) && region.calls == old(region.calls)
      ensures vfs.original.openedPaths == old(vfs.original.openedPaths) + [path]
      ensures NoLeak()
    {
      var start := ScanNameStart(path);
      original := region;
      nameAlloc := StrcpyBytes(path[start..]);
      name := CopyName(path[start..]);
      nameLive := true;
      rc := vfs.original.XOpen(path, original, status, installs);
      hasMethods := rc == SQLITE_OK;
      if rc != SQLITE_OK {
        nameLive := false;
      }
    }

    /** VFSShimClose (vfs_shim.c:117-131), reached only through the methods
        that a successful open installed: close the wrapped handle only if it
        has methods, and free the name on every path, whatever that close reports. */
    method Close(status: int) returns (rc: int)
      requires hasMethods && original != null && nameLive
      modifies this, original
      ensures !nameLive && NoLeak()
      ensures original == old(original) && name == old(name) && hasMethods == old(hasMethods)
      ensures nameAlloc == old(nameAlloc)
      ensures original.bytes == old(original.bytes) && original.hasMethods == old(original.hasMethods)
      ensures old(original.hasMethods) ==> rc == status && original.calls == old(original.calls) + [CloseCall]
      ensures !old(original.hasMethods) ==> rc == SQLITE_OK && original.calls == old(original.calls)
    {
      rc := SQLITE_OK;
      if original.hasMethods {
        rc := original.XClose(status);
      }
      nameLive := false;
    }

    /** VFSShimWrite (vfs_shim.c:147-164). With the flag set: SQLITE_FULL, no
        call to the wrapped handle, contents untouched. With it clear: the same
        data and offset go to the wrapped xWrite, whose status is returned. */
    method Write(vfs: Shim, data: seq<bv8>, offset: nat, status: int) returns (rc: int)
      requires original != null
      requires vfs.writeFail == 0 ==> original.hasMethods
      modifies original
      ensures original.hasMethods == old(original.hasMethods)
      ensures vfs.writeFail != 0 ==>
        rc == SQLITE_FULL && original.bytes == old(original.bytes) && original.calls == old(original.calls)
      ensures vfs.writeFail == 0 ==>
        && rc == status
        && original.calls == old(original.calls) + [WriteCall(data, offset)]
        && original.bytes == if status == SQLITE_OK then Overlay(old(original.bytes), data, offset) else old(original.bytes)
    {
      match WriteGate(vfs.writeFail)
      case Reject(code) =>
        rc := code;
      case Forward =>
        rc := original.XWrite(data, offset, status);
    }

    /** VFSShimFileControl (vfs_shim.c:221-231): forward op and pArg, return the
        wrapped status unchanged, and leave *pArg as VfsNameReply says. */
    method FileControl(op: int, arg: FcntlArg, status: int, argAfter: FcntlArg) returns (rc: int, argOut: FcntlArg)
      requires original != null && original.hasMethods
      requires op == SQLITE_FCNTL_VFSNAME && status == SQLITE_OK ==> argAfter.NameCell?
      modifies original
      ensures rc == status
      ensures argOut == VfsNameReply(op, status, argAfter)
      ensures original.hasMethods && original.bytes == old(original.bytes)
      ensures original.calls == old(original.calls) + [FileControlCall(op, arg)]
    {
      rc, argOut := original.XFileControl(op, arg, status, argAfter);
      argOut := VfsNameReply(op, rc, argOut);
    }
  }

  /** A harness run: register, open, write with the flag set, clear it and
      write again. The refused write reaches nothing; the flag is read anew on
      each call, so the next write reaches the wrapped handle. */
  method FlagToggleScenario(disk: seq<bv8>, data: seq<bv8>, status: int)
    returns (refused: int, retried: int, refusedLeft: seq<bv8>, retriedLeft: seq<bv8>)
    ensures refused == SQLITE_FULL && refusedLeft == disk
    ensures retried == status
    ensures retriedLeft == if status == SQLITE_OK then Overlay(disk, data, 0) else disk
  {
    var vfs := new OriginalVfs(64);
    var shim := new Shim(24);
    var _ := shim.Register(vfs, SQLITE_OK);
    var region := new OriginalFile(disk);
    var f := new ShimFile();
    var openStatus := f.Open(shim, "/var/db/app.sqlite", region, SQLITE_OK, true);
    shim.writeFail := 1;
    refused := f.Write(shim, data, 0, status);
    refusedLeft := region.bytes;
    shim.writeFail := 0;
    assert region.calls == [];
    retried := f.Write(shim, data, 0, status);
    assert region.calls == [WriteCall(data, 0)];
    retriedLeft := region.bytes;
  }

  /** A failed open as written: the handle keeps a live name but gets no
      methods. SQLite never calls xClose on such a handle, and Close, the only
      operation that frees the name, needs the methods; Write and FileControl
      change only the wrapped handle. The name is stranded: live on a handle
      without methods. */
  method FailedOpenAsWrittenScenario(path: string, status: int, installs: bool)
    returns (rc: int, closable: bool, ghost stranded: bool)
    requires '\0' !in path && status != SQLITE_OK
    ensures rc == status && !closable
    ensures stranded
  {
    var vfs := new OriginalVfs(64);
    var shim := new Shim(24);
    var _ := shim.Register(vfs, SQLITE_OK);
    var region := new OriginalFile([]);
    var f := new ShimFile();
    rc := f.OpenAsWritten(shim, path, region, status, installs);
    closable := f.hasMethods;
    stranded := f.nameLive && !f.hasMethods;
  }
}
