/** Taking and archiving screenshots (mirulog/capture.py). The files on disk are a set of paths
    held by the manager; the lock check, the clock, the screenshot, the active window and the
    file hash are oracles whose answers are parameters. */
module Capture {
  import opened Wrappers
  import opened Times
  import opened Models
  import opened Utils

  const LockedMessage: string := "Session is locked"

  /** `capture_root / "YYYY-MM-DD" / f"capture-{slug}.png"`. */
  function CapturePath(root: Path, t: DateTime): (p: Path)
    ensures |p| == |root| + 2 && p[..|root|] == root
    ensures p[|root|] == IsoDate(t)
    ensures Name(p) == "capture-" + TimestampSlug(t) + ".png"
  {
    root + [IsoDate(t), "capture-" + TimestampSlug(t) + ".png"]
  }

  /** `archive_root / captured_at.strftime("%Y-%m-%d") / source.name`. */
  function ArchivePath(root: Path, record: CaptureRecord): (p: Path)
    ensures |p| == |root| + 2 && p[..|root|] == root
    ensures p[|root|] == IsoDate(record.captured_at)
    ensures Name(p) == Name(record.image_path)
  {
    root + [IsoDate(record.captured_at), Name(record.image_path)]
  }

  /** A capture archived later keeps its day folder and its file name, under the archive root. */
  lemma ArchiveKeepsDayAndName(captureRoot: Path, archiveRoot: Path, t: DateTime, title: string, app: string,
                               digest: string)
    ensures var record := CaptureRecord(t, CapturePath(captureRoot, t), title, app, hash_digest := Some(digest));
      ArchivePath(archiveRoot, record) == archiveRoot + CapturePath(captureRoot, t)[|captureRoot|..]
  {
    var p := CapturePath(captureRoot, t);
    assert p[|captureRoot|..] == [IsoDate(t), Name(p)];
  }

  /** Different seconds give different capture files: the path determines the second taken. */
  lemma CapturePathsDistinct(root: Path, a: DateTime, b: DateTime)
    requires CapturePath(root, a) == CapturePath(root, b)
    ensures a.year == b.year && a.month == b.month && a.day == b.day
    ensures a.hour == b.hour && a.minute == b.minute && a.second == b.second
  {
    var sa := "capture-" + TimestampSlug(a) + ".png";
    var sb := "capture-" + TimestampSlug(b) + ".png";
    assert sa == Name(CapturePath(root, a)) && sb == Name(CapturePath(root, b));
    assert TimestampSlug(a) == sa[8..23] && TimestampSlug(b) == sb[8..23];
    SlugDeterminesSecond(a, b);
  }

  class CaptureManager {
    const captureRoot: Path
    const archiveRoot: Path
    /** The image files present on disk. */
    var files: set<Path>

    constructor (captureRoot: Path, archiveRoot: Path, files: set<Path>)
      ensures this.captureRoot == captureRoot && this.archiveRoot == archiveRoot && this.files == files
    {
      this.captureRoot := captureRoot;
      this.archiveRoot := archiveRoot;
      this.files := files;
    }

    /** `capture`: a locked session raises CaptureSkipped before anything is written; otherwise
        the screenshot is saved under the day folder of the capture time and described by a new
        record with the active window, the file's digest and no id. */
    method Capture(locked: bool, now: DateTime, window: (string, string), hash: Path -> string)
      returns (r: Result<CaptureRecord>)
      modifies this
      ensures locked ==> r == Err(Failure(Skipped, LockedMessage)) && files == old(files)
      ensures !locked ==> r.Ok? && files == old(files) + {CapturePath(captureRoot, now)}
      ensures !locked ==> r.value == CaptureRecord(now, CapturePath(captureRoot, now), window.0, window.1,
                                                   "active", Some(hash(CapturePath(captureRoot, now))), None)
    {
      if locked {
        return Err(Failure(Skipped, LockedMessage));
      }
      var path := CapturePath(captureRoot, now);
      files := files + {path};
      var digest := hash(path);
      r := Ok(CaptureRecord(captured_at := now, image_path := path, window_title := window.0,
                            active_application := window.1, hash_digest := Some(digest)));
    }

    /** `archive`: with `deleteOriginal` the source is unlinked (a missing file is no error, and
        a failed delete, `deleteFails`, is only logged) and nothing is returned; otherwise a
        missing source returns nothing, and an existing one is moved into the archive's day folder,
        whose path is returned. */
    method Archive(record: CaptureRecord, deleteOriginal: bool, deleteFails: bool) returns (target: Option<Path>)
      modifies this
      ensures deleteOriginal ==> target.None?
      ensures deleteOriginal && !deleteFails ==> files == old(files) - {record.image_path}
      ensures deleteOriginal && deleteFails ==> files == old(files)
      ensures !deleteOriginal && record.image_path !in old(files) ==> target.None? && files == old(files)
      ensures !deleteOriginal && record.image_path in old(files) ==>
                target == Some(ArchivePath(archiveRoot, record))
                && files == old(files) - {record.image_path} + {ArchivePath(archiveRoot, record)}
    {
      var source := record.image_path;
      if deleteOriginal {
        if !deleteFails {
          files := files - {source};
        }
        return None;
      }
      if source !in files {
        return None;
      }
      var dest := ArchivePath(archiveRoot, record);
      files := files - {source} + {dest};
      target := Some(dest);
    }
  }

  /** After a move the archived copy is present and, unless it is the same path, the source is gone. */
  lemma MoveLeavesTargetOnly(files: set<Path>, source: Path, dest: Path)
    requires source in files
    ensures dest in files - {source} + {dest}
    ensures source != dest ==> source !in files - {source} + {dest}
    ensures |files - {source} + {dest}| <= |files|
  {
    var after := files - {source} + {dest};
    assert |files - {source}| == |files| - 1;
  }
}
