# YapDatabase VFS shim, modelled in Dafny

YapDatabase can be built with a shim over SQLite's virtual file system (VFS)
that makes database writes fail on demand. `RegisterVFSShim` puts the shim in
front of the VFS that was the default. From then on every VFS call and every
file-handle call goes through the shim, which forwards it to the wrapped VFS.
A test harness sets the global `gSQLiteWriteFail` to make every write report
`SQLITE_FULL` without touching the file.

`vfs_shim.dfy` (module `VfsShim`) models the part of the shim that has logic
of its own:

- the write gate;
- the display name that `VFSShimOpen` derives from the path and copies into
  a heap buffer;
- the lifecycle of a shim file handle: methods installed on open, the name
  freed on close;
- the `"vfsshim/"` prefix put on the VFS name that `SQLITE_FCNTL_VFSNAME`
  reports;
- the per-file allocation size set at registration.

The process-wide state (the `vfsShim` record and `gSQLiteWriteFail`) is the
class `Shim`. A shim file handle (`VFSShimFile`) is the class `ShimFile`. Its
ghost field `nameLive` says whether the name buffer is allocated and not yet
freed.

The wrapped VFS and its handles are the classes `OriginalVfs` and
`OriginalFile`. What they report is passed in by the caller: each call's
status, and whether `xOpen` gives the handle methods. Each handle keeps a
ghost log `calls` of every call the shim forwarded to it, with its
arguments. This log is how the model states "the write was not forwarded" and
"the same data and offset were forwarded". A forwarded write that succeeds
stores the data at the offset (`Overlay`).

The display name keeps the slash that the backwards scan stops on: the code
stores `/app.sqlite` for `/var/db/app.sqlite` (`DisplayNameExamples`).

## Model

| member | source | states |
|---|---|---|
| `VfsShim.DisplayName` | YapDatabase/vfs_shim.c:304-312 | The name stored for a path: never longer than the path, and not empty for a non-empty path. `DisplayNameStart` and `DisplayNameIsLastSegment` say which suffix it is. |
| `VfsShim.ScanNameStart` | YapDatabase/vfs_shim.c:304-308 | The backwards pointer walk from the terminating NUL stops at a name start: the last `/`, or 0 when there is none. The suffix from there is `DisplayName(path)`. |
| `VfsShim.DisplayNameStart` | YapDatabase/vfs_shim.c:304-308 | The stored name is a suffix of the path. It starts at the last `/`, with the slash included, or at 0, and holds no later `/`. |
| `VfsShim.NameStartUnique` | YapDatabase/vfs_shim.c:304-308 | Only one position of a path can be its name start. |
| `VfsShim.DisplayNameIsLastSegment` | YapDatabase/vfs_shim.c:304-312 | Both directions: the stored name is `path[k..]` exactly when `k` is a name start. |
| `VfsShim.DisplayNameCases` | YapDatabase/vfs_shim.c:304-308 | A path without `/` is stored whole. Otherwise the name begins with `/` and contains no other `/`. |
| `VfsShim.DisplayNameInDirectory` | YapDatabase/vfs_shim.c:304-312 | For `dir + "/" + file`, where `file` has no `/`, the name is `"/" + file`. |
| `VfsShim.DisplayNameExamples` | YapDatabase/vfs_shim.c:304-312 | `/var/db/app.sqlite` gives `/app.sqlite`, and `app.sqlite` gives `app.sqlite`. |
| `VfsShim.NameCopyOverrunExample` | YapDatabase/vfs_shim.c:311-312 | For `/var/db/app.sqlite` the malloc at line 311 asks for 11 bytes and the strcpy at line 312 stores 12. |
| `VfsShim.CopyName` | YapDatabase/vfs_shim.c:312 | The strcpy: the buffer it fills is fresh and holds `strlen + 1` characters, namely the name followed by its NUL. |
| `VfsShim.WriteGate` | YapDatabase/vfs_shim.c:151-155 | The write is refused exactly when the flag is nonzero, and a refusal carries `SQLITE_FULL`. |
| `VfsShim.ShimVfsName` | YapDatabase/vfs_shim.c:227 | The formatted string is `vfsshim/` followed by the old string, or by nothing when the old string is NULL. |
| `VfsShim.VfsNameReply` | YapDatabase/vfs_shim.c:224-230 | `*pArg` changes only for `SQLITE_FCNTL_VFSNAME` with status `SQLITE_OK`. It then holds a string that strips back to the wrapped VFS's name, or to the empty string for NULL. For any other op or status it stays as the wrapped VFS left it. |
| `VfsShim.ShimVfsNameRoundTrip` | YapDatabase/vfs_shim.c:226-228 | Removing the `vfsshim/` prefix from the rewritten name gives back the original name. `unix` is reported as `vfsshim/unix`. |
| `VfsShim.StripShimPrefixSound` | YapDatabase/vfs_shim.c:226-228 | Every name that strips to `inner` is the rewrite of `inner`, so the rewrite and the strip are inverses in both directions. |
| `VfsShim.Shim.constructor` | YapDatabase/vfs_shim.c:12-91 | Static initial state: flag 0, no original VFS, `szOsFile` 0. |
| `VfsShim.Shim.Register` | YapDatabase/vfs_shim.c:457-465 | `original` becomes the current default. `szOsFile` becomes `recordSize + original.szOsFile`, so the wrapped handle at offset `recordSize` (`&f[1]`) fits the per-file allocation. The flag is unchanged, and the status of `sqlite3_vfs_register` is returned. |
| `VfsShim.ShimFile.OpenAsWritten` | YapDatabase/vfs_shim.c:299-321 | Open as written: `original` is the trailing region and the name buffer holds `DisplayName(path)` and a NUL. The allocation requested is `strlen` bytes, one fewer than stored (`!NameFits()`). The wrapped `xOpen` gets the same path. Methods are installed exactly when it returns `SQLITE_OK`, and its status is returned unchanged. On failure the name stays live on a handle without methods, so it leaks (`!NoLeak()`). |
| `VfsShim.ShimFile.Open` | YapDatabase/vfs_shim.c:299-321 | Corrected open: the same as above, except the allocation is `strlen + 1` bytes (`NameFits()`), and the name stays live exactly when the wrapped open succeeds. `NoLeak()` holds, and installed methods imply the wrapped handle has methods. |
| `VfsShim.ShimFile.Close` | YapDatabase/vfs_shim.c:117-131 | Runs only on a handle whose methods were installed. The wrapped `xClose` is called, and its status returned, only when the wrapped handle has methods; otherwise the result is `SQLITE_OK` and nothing is forwarded. The name is freed on every path, once: Close requires it live and leaves it freed. Everything else about the handle is unchanged. |
| `VfsShim.ShimFile.Write` | YapDatabase/vfs_shim.c:147-164 | With the flag nonzero: `SQLITE_FULL`, no forwarded call, file bytes unchanged. With the flag zero: exactly one `xWrite` with the same data and offset, and its status returned. The bytes are what the wrapped write leaves. |
| `VfsShim.ShimFile.FileControl` | YapDatabase/vfs_shim.c:221-231 | Forwards `op` and `pArg` once and returns the wrapped status unchanged. `*pArg` ends as `VfsNameReply` describes. |
| `VfsShim.FailedOpenAsWrittenScenario` | YapDatabase/vfs_shim.c:311-318 | For every path and every failing status, the as-written open returns that status and leaves a handle without methods, so `Close` cannot be applied to it, and its name is stranded: still live on a handle without methods. |
| `VfsShim.FlagToggleScenario` | YapDatabase/vfs_shim.c:151-163 | Register, open, set the flag, write: `SQLITE_FULL` and the disk contents untouched. Clear the flag and write again: the wrapped status is returned and the data is stored. The flag is read anew on every call. |

## Findings

| source | as written | input that shows it | evidently intended | confidence | as-written member | corrected member |
|---|---|---|---|---|---|---|
| YapDatabase/vfs_shim.c:311-312 | The name buffer is allocated with `strlen(nameEnd)` bytes. The strcpy that fills it then writes the terminating NUL one byte past the end. | Any path. For `/var/db/app.sqlite`, 11 bytes are allocated and 12 written. | Allocate `strlen(nameEnd) + 1` bytes. | high; not executed | `VfsShim.ShimFile.OpenAsWritten` | `VfsShim.ShimFile.Open` |
| YapDatabase/vfs_shim.c:311-318 | The name is allocated before the wrapped `xOpen` runs. When that open fails, `pMethods` is set to NULL and the name is kept. SQLite calls `xClose` only on handles whose `pMethods` is not NULL, so the name is never freed. | The wrapped `xOpen` returns any status other than `SQLITE_OK`, for example for a path in a directory that does not exist. | Free the name when the wrapped open fails. | medium; not executed | `VfsShim.FailedOpenAsWrittenScenario` | `VfsShim.ShimFile.Open` |

Both findings appear together in `ShimFile.OpenAsWritten`, whose ensures
state `!NameFits()` and, on failure, `!NoLeak()`. `NameCopyOverrunExample`
gives the sizes for one path. `ShimFile.Open` corrects
both and proves `NameFits()` and `NoLeak()`.

## Left out

- The pure forwarding callbacks are not modelled. Each one forwards its
  arguments to the wrapped VFS and returns its result, with no logic of its
  own: Read, Truncate, Sync, FileSize, Lock, Unlock, CheckReservedLock,
  SectorSize, DeviceCharacteristics, ShmMap, ShmLock, ShmBarrier, ShmUnmap,
  Fetch, Unfetch, Delete, Access, FullPathname, DlOpen, DlError, DlSym,
  DlClose, Randomness, Sleep, CurrentTime, CurrentTimeInt64, GetLastError,
  SetSystemCall, GetSystemCall and NextSystemCall.
- ShimFile.OpenAsWritten: the overrun is recorded as the ghost allocation
  size `nameAlloc` being smaller than the number of characters stored. The
  memory past the allocation that strcpy overwrites is not modelled.
- ShimFile.Open, ShimFile.OpenAsWritten: `sqlite3_malloc` returning NULL when
  out of memory is not modelled. The source does not check for it, and the
  strcpy at line 312 would then write through NULL. In the model the
  allocation always succeeds.
- ShimFile.Open, ShimFile.OpenAsWritten: the open `flags` and `pOutFlags`
  that line 316 forwards to the wrapped `xOpen` are not modelled. Only the
  path is recorded (`OriginalVfs.openedPaths`).
- The `printf` diagnostics on open, close and write are console output.
- `VFSShimCurrentTime` works with a `double`, which is floating point.
- SQLite's list of registered VFSes is not modelled. This covers
  `sqlite3_vfs_find` and `sqlite3_vfs_register`. The current default VFS and
  the registration status are parameters of `Shim.Register`.
- Shim.Register: a missing default VFS is not modelled. vfs_shim.c:460
  dereferences the default without checking it for NULL, so `Shim.Register`
  takes a non-null default VFS.
- Shim.Register: VFS identity is not modelled. The model therefore does not
  show that a second `RegisterVFSShim` finds the shim itself as the default,
  which makes the shim wrap itself.
- The cross-thread, unsynchronised read of `gSQLiteWriteFail` is not
  modelled. The flag is a plain field, read once per write.
- ShimFile.Open, ShimFile.OpenAsWritten: the path must not be NULL. The
  source calls `strlen` on it, which is undefined for the NULL name SQLite
  passes for some temporary files. Paths are the characters before the
  terminating NUL, so they must not contain `'\0'`.
- VfsNameReply: `sqlite3_mprintf` running out of memory, which would leave
  `*pArg` NULL, is not modelled. Memory ownership under `%z` is modelled only
  as "the old string is consumed and the new string is the prefix plus the
  old one".
- `sizeof(VFSShimFile)` and the wrapped VFS's `szOsFile` are abstract
  naturals (`Shim.recordSize`, `OriginalVfs.szOsFile`). The address arithmetic
  of `&f[1]` appears only as the size relation `Shim.OriginalFits`.
- The wrapped VFS's own behaviour is a stand-in: a failed wrapped write
  leaves the bytes unchanged, and other calls return the status they are
  given. Partial writes are not modelled.
- The `HPY_SQLITE_VFS_SHIM` build switch and `vfs_shim.h`, which only
  declares `RegisterVFSShim`, are not modelled.
