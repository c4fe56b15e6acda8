/** The session log manager (internal/session/manager.go): where the log lives, how a new log is
    started, and the size-triggered rotation that moves the old log into the archive directory.

    The filesystem is abstract: what matters to the manager is whether `session.md` exists and what
    it holds, and which files the archive directory holds. The clock, the generated session id and
    the errors the operating system may report are parameters. */
module Session {
  import opened Wrappers

  newtype byte = b: int | 0 <= b < 256
  type Bytes = seq<byte>

  predicate IsAscii(s: string)
  {
    forall i | 0 <= i < |s| :: s[i] as int < 128
  }

  /** The strings the manager formats from the clock: digits, '-', ':', 'T', 'Z' and the like. */
  type Ascii = s: string | IsAscii(s)

  /** The bytes `[]byte(s)` gives for an ASCII string. */
  function AsciiBytes(s: Ascii): (b: Bytes)
    ensures |b| == |s|
    ensures forall i | 0 <= i < |s| :: b[i] as int == s[i] as int
  {
    seq(|s|, i requires 0 <= i < |s| => s[i] as int as byte)
  }

  // ---------------------------------------------------------------------------------------------
  // Paths

  /** What filepath.Join puts in front of a name inside `dir`: nothing for the empty and the
      current directory (written `.` or `./`), one '/' separator, not doubled after a directory
      that already ends in '/' (the root, say). */
  function DirPrefix(dir: string): string
  {
    if dir == "" || dir == "." || dir == "./" then "" else if dir[|dir| - 1] == '/' then dir else dir + "/"
  }

  /** filepath.Join of two elements: empty elements are dropped, the rest are joined with '/'. */
  function Join(dir: string, name: string): string
  {
    if name == "" then dir else DirPrefix(dir) + name
  }

  const SESSION_FILE := "session.md"
  const ARCHIVE_SUBDIR := "archive"

  function LogPath(dir: string): string
  {
    Join(dir, SESSION_FILE)
  }

  function ArchiveDirOf(dir: string): string
  {
    Join(dir, ARCHIVE_SUBDIR)
  }

  /** The archive file's name, from the time formatted as "2006-01-02-150405". */
  function ArchiveName(stamp: Ascii): string
  {
    "session-" + stamp + ".md"
  }

  function ArchivePath(dir: string, stamp: Ascii): string
  {
    Join(ArchiveDirOf(dir), ArchiveName(stamp))
  }

  /** The log and the archive directory are siblings in the session directory. */
  lemma PathsShareDirectory(dir: string)
    ensures LogPath(dir) == DirPrefix(dir) + SESSION_FILE
    ensures ArchiveDirOf(dir) == DirPrefix(dir) + ARCHIVE_SUBDIR
    ensures LogPath(dir) != ArchiveDirOf(dir)
  {
    assert LogPath(dir)[|DirPrefix(dir)|] == 's';
    assert ArchiveDirOf(dir)[|DirPrefix(dir)|] == 'a';
  }

  /** filepath.Join neither doubles the root's '/' nor keeps a leading "." directory. */
  lemma JoinRootAndCurrent()
    ensures LogPath("/") == "/session.md" && ArchiveDirOf("/") == "/archive"
    ensures LogPath(".") == "session.md" && ArchiveDirOf(".") == "archive"
    ensures LogPath("./") == "session.md" && ArchiveDirOf("./") == "archive"
    ensures LogPath("notes/") == "notes/session.md"
  {
  }

  /** An archive file sits directly in the archive directory, and rotation never renames the log
      onto itself. */
  lemma ArchiveTargetIsNotLog(dir: string, stamp: Ascii)
    ensures ArchivePath(dir, stamp) == ArchiveDirOf(dir) + "/" + ArchiveName(stamp)
    ensures ArchivePath(dir, stamp) != LogPath(dir)
  {
    PathsShareDirectory(dir);
    var p := DirPrefix(dir);
    assert ArchivePath(dir, stamp) == p + "archive/" + ArchiveName(stamp);
    assert ArchivePath(dir, stamp)[|p|] == 'a';
    assert LogPath(dir)[|p|] == 's';
  }

  /** NewManager's expansion of a leading "~/" to the home directory. Slicing `directory[:2]`
      panics on a shorter string, hence the precondition; `home` is what os.UserHomeDir returned. */
  function ExpandHome(directory: string, home: Result<string, string>): (r: Result<string, string>)
    requires |directory| >= 2
    ensures directory[..2] != "~/" ==> r == Success(directory)
    ensures directory[..2] == "~/" ==> (r.Success? <==> home.Success?)
    ensures directory[..2] == "~/" && home.Failure? ==> r.error == home.error
    ensures directory[..2] == "~/" && home.Success? && |directory| > 2
            && home.value != "" && home.value != "." && home.value[|home.value| - 1] != '/'
            ==> r.value == home.value + "/" + directory[2..]
    ensures directory[..2] == "~/" && home == Success("/") && |directory| > 2
            ==> r.value == "/" + directory[2..]
  {
    if directory[..2] == "~/" then
      match home
      case Failure(e) => Failure(e)
      case Success(h) => Success(Join(h, directory[2..]))
    else
      Success(directory)
  }

  // ---------------------------------------------------------------------------------------------
  // The header of a new log

  const MARKER := "<!-- moltstream session -->"

  /** The number of characters a header adds around the id and the creation time. */
  const HEADER_OVERHEAD := 62

  lemma AsciiAppend(a: string, b: string)
    requires IsAscii(a) && IsAscii(b)
    ensures IsAscii(a + b)
  {
    forall i | 0 <= i < |a + b| ensures (a + b)[i] as int < 128 {
      if i >= |a| { assert (a + b)[i] == b[i - |a|]; }
    }
  }

  /** createSession's header: the type marker, the session id, the RFC 3339 creation time, each on
      a comment line of its own, then a blank line. */
  function Header(id: Ascii, created: Ascii): (h: Ascii)
    ensures |h| == HEADER_OVERHEAD + |id| + |created|
    ensures h[..|MARKER| + 1] == MARKER + "\n"
    ensures h[|MARKER| + 1..|MARKER| + 15 + |id|] == "<!-- id: " + id + " -->\n"
    ensures h[|MARKER| + 15 + |id|..|h| - 2] == "<!-- created: " + created + " -->"
    ensures h[|h| - 2..] == "\n\n"
  {
    var first := MARKER + "\n";
    var idLine := "<!-- id: " + id + " -->\n";
    var createdLine := "<!-- created: " + created + " -->";
    AsciiAppend("<!-- id: ", id);
    AsciiAppend("<!-- id: " + id, " -->\n");
    AsciiAppend("<!-- created: ", created);
    AsciiAppend("<!-- created: " + created, " -->");
    AsciiAppend(first, idLine);
    AsciiAppend(first + idLine, createdLine);
    AsciiAppend(first + idLine + createdLine, "\n\n");
    var h := first + idLine + createdLine + "\n\n";
    assert h[..|first|] == first;
    assert h[|first|..|first| + |idLine|] == idLine;
    assert h[|first| + |idLine|..|h| - 2] == createdLine;
    h
  }

  /** The caller-supplied instant of one manager operation: `stamp` is time.Now() formatted as
      "2006-01-02-150405" for an archive name, `created` the same instant in RFC 3339 and `id` the
      value generateID returns. */
  datatype Clock = Clock(stamp: Ascii, created: Ascii, id: Ascii)

  function HeaderBytes(clock: Clock): (b: Bytes)
    ensures |b| == HEADER_OVERHEAD + |clock.id| + |clock.created|
  {
    AsciiBytes(Header(clock.id, clock.created))
  }

  // ---------------------------------------------------------------------------------------------
  // The filesystem and the manager's operations on it

  /** `current` is the content of `session.md`, if it exists; `archive` maps the names of the files
      in the archive directory to their contents. */
  datatype Fs = Fs(current: Option<Bytes>, archive: map<string, Bytes>)

  /** The errors the operating system reports, if any: `stat` an os.Stat error other than "does not
      exist" (a permission error, say), `rename` an os.Rename error, `write` an os.WriteFile error. */
  datatype Faults = Faults(stat: Option<string>, rename: Option<string>, write: Option<string>)

  const NO_FAULTS := Faults(None, None, None)

  /** Manager's configuration: the (expanded) session directory, the rotation threshold and whether
      rotation is on. */
  datatype Settings = Settings(directory: string, maxSizeBytes: int, autoArchive: bool)

  datatype DirFaults = DirFaults(sessionDir: Option<string>, archiveDir: Option<string>)

  /** NewManager: expand the directory, create it and its archive subdirectory (os.MkdirAll, whose
      errors are `mkdir`), and keep the settings. */
  function NewSettings(directory: string, maxSizeBytes: int, autoArchive: bool,
                       home: Result<string, string>, mkdir: DirFaults): (r: Result<Settings, string>)
    requires |directory| >= 2
    ensures r.Success? <==> ExpandHome(directory, home).Success? && mkdir.sessionDir.None? && mkdir.archiveDir.None?
    ensures r.Success? ==> r.value == Settings(ExpandHome(directory, home).value, maxSizeBytes, autoArchive)
    ensures ExpandHome(directory, home).Failure? ==> r == Failure(ExpandHome(directory, home).error)
    ensures ExpandHome(directory, home).Success? && mkdir.sessionDir.Some?
            ==> r == Failure("create session directory: " + mkdir.sessionDir.value)
    ensures ExpandHome(directory, home).Success? && mkdir.sessionDir.None? && mkdir.archiveDir.Some?
            ==> r == Failure("create archive directory: " + mkdir.archiveDir.value)
  {
    match ExpandHome(directory, home)
    case Failure(e) => Failure(e)
    case Success(dir) =>
      if mkdir.sessionDir.Some? then Failure("create session directory: " + mkdir.sessionDir.value)
      else if mkdir.archiveDir.Some? then Failure("create archive directory: " + mkdir.archiveDir.value)
      else Success(Settings(dir, maxSizeBytes, autoArchive))
  }

  datatype StatResult = Exists(size: nat) | NotExist | StatFailed(message: string)

  /** os.Stat of the log. */
  function StatOf(fs: Fs, faults: Faults): StatResult
  {
    if faults.stat.Some? then StatFailed(faults.stat.value)
    else if fs.current.None? then NotExist
    else Exists(|fs.current.value|)
  }

  /** The new filesystem and the error an operation returns. */
  datatype Outcome = Outcome(fs: Fs, err: Option<string>)

  /** createSession: write a header-only log. A failed write is taken to leave the filesystem as
      it was. */
  function CreateLog(fs: Fs, clock: Clock, faults: Faults): Outcome
  {
    if faults.write.Some? then Outcome(fs, faults.write)
    else Outcome(fs.(current := Some(HeaderBytes(clock))), None)
  }

  /** Archive: nothing to do when the log does not exist; otherwise os.Rename of the log to the
      archive file, which replaces a file of that name that is already there. */
  function ArchiveLog(s: Settings, fs: Fs, stamp: Ascii, faults: Faults): Outcome
  {
    if StatOf(fs, faults).NotExist? then Outcome(fs, None)
    else if faults.rename.Some? then Outcome(fs, faults.rename)
    else if fs.current.None? then
      Outcome(fs, Some("rename " + LogPath(s.directory) + " " + ArchivePath(s.directory, stamp)
                       + ": no such file or directory"))
    else Outcome(Fs(None, fs.archive[ArchiveName(stamp) := fs.current.value]), None)
  }

  datatype Ensured = Ensured(fs: Fs, path: string, err: Option<string>)

  /** EnsureSession: create the log when it does not exist; rotate it when rotation is on and it is
      larger than the threshold; otherwise leave it. */
  function EnsureLog(s: Settings, fs: Fs, clock: Clock, faults: Faults): Ensured
  {
    var path := LogPath(s.directory);
    var info := StatOf(fs, faults);
    if info.NotExist? then
      var c := CreateLog(fs, clock, faults);
      Ensured(c.fs, path, c.err)
    else if s.autoArchive && info.Exists? && info.size > s.maxSizeBytes then
      var a := ArchiveLog(s, fs, clock.stamp, faults);
      if a.err.Some? then Ensured(a.fs, "", Some("auto-archive: " + a.err.value))
      else
        var c := CreateLog(a.fs, clock, faults);
        Ensured(c.fs, path, c.err)
    else
      Ensured(fs, path, None)
  }

  // ---------------------------------------------------------------------------------------------
  // Properties of the rotation policy

  /** With no log, EnsureSession creates one holding exactly the header and nothing else, and
      returns the log's path, even when the write fails. */
  lemma EnsureCreatesHeaderOnly(s: Settings, fs: Fs, clock: Clock, faults: Faults)
    requires fs.current.None? && faults.stat.None?
    ensures EnsureLog(s, fs, clock, faults).path == LogPath(s.directory)
    ensures EnsureLog(s, fs, clock, faults).err == faults.write
    ensures EnsureLog(s, fs, clock, faults).fs.archive == fs.archive
    ensures EnsureLog(s, fs, clock, faults).fs.current
            == if faults.write.None? then Some(HeaderBytes(clock)) else None
  {
  }

  /** A log at or under the threshold, or any log when rotation is off, is left as it is. */
  lemma EnsureUnderThresholdChangesNothing(s: Settings, fs: Fs, clock: Clock, faults: Faults)
    requires fs.current.Some?
    requires !s.autoArchive || |fs.current.value| <= s.maxSizeBytes
    ensures EnsureLog(s, fs, clock, faults) == Ensured(fs, LogPath(s.directory), None)
  {
  }

  /** When os.Stat fails for another reason than a missing file, EnsureSession neither creates nor
      rotates, and reports success. */
  lemma EnsureIgnoresStatFailure(s: Settings, fs: Fs, clock: Clock, faults: Faults)
    requires faults.stat.Some?
    ensures EnsureLog(s, fs, clock, faults) == Ensured(fs, LogPath(s.directory), None)
  {
  }

  /** Repeated calls on a log under the threshold return the same path and change nothing. */
  lemma EnsureIdempotent(s: Settings, fs: Fs, c1: Clock, c2: Clock, f1: Faults, f2: Faults)
    requires fs.current.Some?
    requires !s.autoArchive || |fs.current.value| <= s.maxSizeBytes
    ensures EnsureLog(s, EnsureLog(s, fs, c1, f1).fs, c2, f2) == EnsureLog(s, fs, c1, f1)
  {
    EnsureUnderThresholdChangesNothing(s, fs, c1, f1);
    EnsureUnderThresholdChangesNothing(s, fs, c2, f2);
  }

  /** Over the threshold (strictly) with rotation on, the old bytes move unchanged to
      `archive/session-<stamp>.md` and the log is replaced by a header-only file. */
  lemma EnsureRotatesOverThreshold(s: Settings, fs: Fs, clock: Clock, faults: Faults)
    requires s.autoArchive && fs.current.Some? && |fs.current.value| > s.maxSizeBytes
    requires faults.stat.None? && faults.rename.None?
    ensures EnsureLog(s, fs, clock, faults).fs.archive
            == fs.archive[ArchiveName(clock.stamp) := fs.current.value]
    ensures EnsureLog(s, fs, clock, faults).path == LogPath(s.directory)
    ensures EnsureLog(s, fs, clock, faults).err == faults.write
    ensures EnsureLog(s, fs, clock, faults).fs.current
            == if faults.write.None? then Some(HeaderBytes(clock)) else None
  {
  }

  /** Rotation under a fresh archive name loses no bytes: every archived file is still there with
      its content, and the old log is there too. */
  lemma RotationLosesNothing(s: Settings, fs: Fs, clock: Clock, faults: Faults)
    requires s.autoArchive && fs.current.Some? && |fs.current.value| > s.maxSizeBytes
    requires faults.stat.None? && faults.rename.None?
    requires ArchiveName(clock.stamp) !in fs.archive
    ensures forall k | k in fs.archive ::
              k in EnsureLog(s, fs, clock, faults).fs.archive
              && EnsureLog(s, fs, clock, faults).fs.archive[k] == fs.archive[k]
    ensures fs.current.value in EnsureLog(s, fs, clock, faults).fs.archive.Values
  {
    EnsureRotatesOverThreshold(s, fs, clock, faults);
    var e := EnsureLog(s, fs, clock, faults);
    assert e.fs.archive[ArchiveName(clock.stamp)] == fs.current.value;
  }

  /** A rotation happens once: when the threshold leaves room for a header, the next call, at
      any time and whatever stat or rename would report, changes nothing. */
  lemma RotationHappensOnce(s: Settings, fs: Fs, clock: Clock, later: Clock, faults: Faults)
    requires s.autoArchive && fs.current.Some? && |fs.current.value| > s.maxSizeBytes
    requires HEADER_OVERHEAD + |clock.id| + |clock.created| <= s.maxSizeBytes
    ensures EnsureLog(s, fs, clock, NO_FAULTS).fs.current == Some(HeaderBytes(clock))
    ensures EnsureLog(s, EnsureLog(s, fs, clock, NO_FAULTS).fs, later, faults)
            == Ensured(EnsureLog(s, fs, clock, NO_FAULTS).fs, LogPath(s.directory), None)
  {
    EnsureRotatesOverThreshold(s, fs, clock, NO_FAULTS);
    EnsureUnderThresholdChangesNothing(s, EnsureLog(s, fs, clock, NO_FAULTS).fs, later, faults);
  }

  /** When the rotation's rename fails, EnsureSession returns an empty path and the wrapped error,
      and creates no new log. */
  lemma AutoArchiveFailureCreatesNothing(s: Settings, fs: Fs, clock: Clock, faults: Faults)
    requires s.autoArchive && fs.current.Some? && |fs.current.value| > s.maxSizeBytes
    requires faults.stat.None? && faults.rename.Some?
    ensures EnsureLog(s, fs, clock, faults) == Ensured(fs, "", Some("auto-archive: " + faults.rename.value))
  {
  }

  /** Archiving with no log is a no-op that succeeds. */
  lemma ArchiveMissingIsNoop(s: Settings, fs: Fs, stamp: Ascii, faults: Faults)
    requires fs.current.None? && faults.stat.None?
    ensures ArchiveLog(s, fs, stamp, faults) == Outcome(fs, None)
  {
  }

  /** Archiving an existing log is a move: afterwards there is no log, and its bytes are in the
      archive under the stamped name; no other archive file changes. */
  lemma ArchiveIsMove(s: Settings, fs: Fs, stamp: Ascii, faults: Faults)
    requires fs.current.Some? && faults.rename.None?
    ensures ArchiveLog(s, fs, stamp, faults).err == None
    ensures ArchiveLog(s, fs, stamp, faults).fs.current == None
    ensures ArchiveLog(s, fs, stamp, faults).fs.archive[ArchiveName(stamp)] == fs.current.value
    ensures forall k | k in fs.archive && k != ArchiveName(stamp) ::
              k in ArchiveLog(s, fs, stamp, faults).fs.archive
              && ArchiveLog(s, fs, stamp, faults).fs.archive[k] == fs.archive[k]
    ensures ArchiveLog(s, fs, stamp, faults).fs.archive.Keys == fs.archive.Keys + {ArchiveName(stamp)}
  {
  }

  /** Two archives within the same second use the same name, and the rename of the second replaces
      the first: the first log's bytes are no longer stored anywhere. */
  lemma SameSecondArchivesReplaceEarlier(s: Settings, earlier: Bytes, clock: Clock)
    requires earlier != HeaderBytes(clock)
    ensures var first := ArchiveLog(s, Fs(Some(earlier), map[]), clock.stamp, NO_FAULTS);
            var recreated := EnsureLog(s, first.fs, clock, NO_FAULTS);
            var second := ArchiveLog(s, recreated.fs, clock.stamp, NO_FAULTS);
            second.fs == Fs(None, map[ArchiveName(clock.stamp) := HeaderBytes(clock)])
            && earlier !in second.fs.archive.Values
  {
    var first := ArchiveLog(s, Fs(Some(earlier), map[]), clock.stamp, NO_FAULTS);
    assert first.fs == Fs(None, map[ArchiveName(clock.stamp) := earlier]);
    var recreated := EnsureLog(s, first.fs, clock, NO_FAULTS);
    assert recreated.fs.current == Some(HeaderBytes(clock));
    var second := ArchiveLog(s, recreated.fs, clock.stamp, NO_FAULTS);
    assert second.fs.archive == map[ArchiveName(clock.stamp) := HeaderBytes(clock)];
  }

  // ---------------------------------------------------------------------------------------------
  // The filesystem and the manager as objects

  /** The part of the filesystem the manager works on. */
  class Disk {
    var current: Option<Bytes>
    var archive: map<string, Bytes>

    constructor (current: Option<Bytes>, archive: map<string, Bytes>)
      ensures State() == Fs(current, archive)
    {
      this.current := current;
      this.archive := archive;
    }

    function State(): Fs
      reads this
    {
      Fs(current, archive)
    }
  }

  class Manager {
    const directory: string
    const maxSizeBytes: int
    const autoArchive: bool
    /** The filesystem the manager's operations act on. */
    const disk: Disk

    constructor (settings: Settings, disk: Disk)
      ensures Config() == settings && this.disk == disk
    {
      directory := settings.directory;
      maxSizeBytes := settings.maxSizeBytes;
      autoArchive := settings.autoArchive;
      this.disk := disk;
    }

    function Config(): Settings
    {
      Settings(directory, maxSizeBytes, autoArchive)
    }

    function SessionPath(): (p: string)
      ensures p == DirPrefix(directory) + SESSION_FILE
    {
      PathsShareDirectory(directory);
      Join(directory, SESSION_FILE)
    }

    function ArchiveDir(): (p: string)
      ensures p == DirPrefix(directory) + ARCHIVE_SUBDIR
    {
      PathsShareDirectory(directory);
      Join(directory, ARCHIVE_SUBDIR)
    }

    method StatSession(faults: Faults) returns (r: StatResult)
      ensures r == StatOf(disk.State(), faults)
    {
      if faults.stat.Some? {
        return StatFailed(faults.stat.value);
      }
      if disk.current.None? {
        return NotExist;
      }
      return Exists(|disk.current.value|);
    }

    method EnsureSession(clock: Clock, faults: Faults) returns (path: string, err: Option<string>)
      modifies disk
      ensures Ensured(disk.State(), path, err) == EnsureLog(Config(), old(disk.State()), clock, faults)
    {
      path := SessionPath();
      var info := StatSession(faults);
      if info.NotExist? {
        err := CreateSession(clock, faults);
        return;
      }
      if autoArchive {
        info := StatSession(faults);
        if info.Exists? && info.size > maxSizeBytes {
          var archiveErr := Archive(clock.stamp, faults);
          if archiveErr.Some? {
            return "", Some("auto-archive: " + archiveErr.value);
          }
          err := CreateSession(clock, faults);
          return;
        }
      }
      err := None;
    }

    method CreateSession(clock: Clock, faults: Faults) returns (err: Option<string>)
      modifies disk
      ensures Outcome(disk.State(), err) == CreateLog(old(disk.State()), clock, faults)
    {
      if faults.write.Some? {
        return faults.write;
      }
      disk.current := Some(HeaderBytes(clock));
      return None;
    }

    method Archive(stamp: Ascii, faults: Faults) returns (err: Option<string>)
      modifies disk
      ensures Outcome(disk.State(), err) == ArchiveLog(Config(), old(disk.State()), stamp, faults)
    {
      var info := StatSession(faults);
      if info.NotExist? {
        return None;
      }
      var src := SessionPath();
      var dst := Join(ArchiveDir(), ArchiveName(stamp));
      if faults.rename.Some? {
        return faults.rename;
      }
      if disk.current.None? {
        return Some("rename " + src + " " + dst + ": no such file or directory");
      }
      disk.archive := disk.archive[ArchiveName(stamp) := disk.current.value];
      disk.current := None;
      return None;
    }

    method GetSize(faults: Faults) returns (size: int, err: Option<string>)
      ensures faults.stat.Some? ==> size == 0 && err == faults.stat
      ensures faults.stat.None? && disk.current.None? ==> size == 0 && err == None
      ensures faults.stat.None? && disk.current.Some? ==> size == |disk.current.value| && err == None
    {
      var info := StatSession(faults);
      match info
      case StatFailed(m) => return 0, Some(m);
      case NotExist => return 0, None;
      case Exists(n) => return n, None;
    }
  }

  /** NewManager, returning Go's (*Manager, error) pair. */
  method NewManager(directory: string, maxSizeBytes: int, autoArchive: bool,
                    home: Result<string, string>, mkdir: DirFaults, disk: Disk)
    returns (m: Manager?, err: Option<string>)
    requires |directory| >= 2
    ensures var r := NewSettings(directory, maxSizeBytes, autoArchive, home, mkdir);
            (r.Success? ==> m != null && fresh(m) && m.Config() == r.value && m.disk == disk && err == None)
            && (r.Failure? ==> m == null && err == Some(r.error))
  {
    var expanded := ExpandHome(directory, home);
    if expanded.Failure? {
      return null, Some(expanded.error);
    }
    var dir := expanded.value;
    if mkdir.sessionDir.Some? {
      return null, Some("create session directory: " + mkdir.sessionDir.value);
    }
    if mkdir.archiveDir.Some? {
      return null, Some("create archive directory: " + mkdir.archiveDir.value);
    }
    m := new Manager(Settings(dir, maxSizeBytes, autoArchive), disk);
    err := None;
  }
}
