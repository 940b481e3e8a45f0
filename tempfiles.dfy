/**
 The temporary files of one request (server.js:49-57, 132-183, 357-358, 465,
 489, 504). The handler keeps a local array `tempFiles`, appends every path it
 creates or is about to let ffmpeg create, and on every exit after the inputs
 were fetched deletes them all with `deleteTempFile`, which skips paths that
 do not exist and swallows the error of an `unlink` that fails.

 The file system is a class with the set of existing paths. Whether `unlink`
 fails on a path is outside the program's control (permissions, a file still
 held open); it is a fixed set `undeletable` of the file system.
 */
module TempFiles {

  class FileSystem {
    /** The paths that exist. */
    var files: set<string>
    /** The paths on which `unlink` fails. */
    const undeletable: set<string>

    constructor(existing: set<string>, failing: set<string>)
      ensures files == existing && undeletable == failing
    {
      files := existing;
      undeletable := failing;
    }

    /** `fs.promises.access`: does the path exist? */
    predicate Exists(p: string)
      reads this
    {
      p in files
    }

    /** `fs.promises.writeFile` (or ffmpeg writing its output): the path exists afterwards. */
    method WriteFile(p: string)
      modifies this
      ensures files == old(files) + {p}
    {
      files := files + {p};
    }

    /** `fs.promises.unlink`: removes the path, or fails and leaves it. */
    method Unlink(p: string) returns (ok: bool)
      modifies this
      ensures ok <==> p !in undeletable
      ensures files == if ok then old(files) - {p} else old(files)
    {
      ok := p !in undeletable;
      if ok {
        files := files - {p};
      }
    }
  }

  /** The existing paths after `deleteTempFile(p)`. */
  function Deleted(files: set<string>, p: string, undeletable: set<string>): set<string>
  {
    if p != "" && p in files && p !in undeletable then files - {p} else files
  }

  /**
   `deleteTempFile`: an empty or missing path is skipped; otherwise the path
   is unlinked, and a failure is logged and swallowed.
   */
  method DeleteTempFile(fs: FileSystem, p: string)
    modifies fs
    ensures fs.files == Deleted(old(fs.files), p, fs.undeletable)
  {
    if p != "" && fs.Exists(p) {
      var ok := fs.Unlink(p);
    }
  }

  /** `deleteTempFile` removes at most its own path, and removes it unless it is empty or undeletable. */
  lemma DeletedRemovesOnlyItsPath(files: set<string>, p: string, undeletable: set<string>)
    ensures Deleted(files, p, undeletable) <= files
    ensures files - Deleted(files, p, undeletable) <= {p}
    ensures p != "" && p !in undeletable ==> p !in Deleted(files, p, undeletable)
  {
  }

  /** Deleting a path a second time changes nothing and raises nothing. */
  lemma DeleteTwice(files: set<string>, p: string, undeletable: set<string>)
    ensures Deleted(Deleted(files, p, undeletable), p, undeletable) == Deleted(files, p, undeletable)
  {
  }

  /** The existing paths after deleting each of `paths` in turn. */
  function Cleaned(files: set<string>, paths: seq<string>, undeletable: set<string>): set<string>
  {
    if |paths| == 0 then files
    else Deleted(Cleaned(files, paths[..|paths| - 1], undeletable), paths[|paths| - 1], undeletable)
  }

  /** The paths that a cleanup of `paths` removes when they exist. */
  function Removable(paths: seq<string>, undeletable: set<string>): set<string>
  {
    set p | p in paths && p != "" && p !in undeletable
  }

  /** Cleaning up removes exactly the listed paths that are non-empty and deletable, in any order. */
  lemma {:induction false} CleanedRemovesRemovable(files: set<string>, paths: seq<string>, undeletable: set<string>)
    ensures Cleaned(files, paths, undeletable) == files - Removable(paths, undeletable)
  {
    if |paths| > 0 {
      var init := paths[..|paths| - 1];
      CleanedRemovesRemovable(files, init, undeletable);
      assert paths == init + [paths[|paths| - 1]];
      assert Removable(paths, undeletable) ==
        Removable(init, undeletable) + (Removable([paths[|paths| - 1]], undeletable));
    }
  }

  /**
   Cleaning up twice, as the handler does when a concatenation probe fails,
   leaves the same files as cleaning up once.
   */
  lemma CleanupTwice(files: set<string>, paths: seq<string>, undeletable: set<string>)
    ensures Cleaned(Cleaned(files, paths, undeletable), paths, undeletable) == Cleaned(files, paths, undeletable)
  {
    CleanedRemovesRemovable(files, paths, undeletable);
    CleanedRemovesRemovable(Cleaned(files, paths, undeletable), paths, undeletable);
  }

  /**
   `await Promise.all(tempFiles.map(file => deleteTempFile(file)))`, one
   deletion after the other. The deletions are of distinct paths and each
   touches only its own path, so their order does not matter
   (`CleanedRemovesRemovable`).
   */
  method CleanupTempFiles(fs: FileSystem, tempFiles: seq<string>)
    modifies fs
    ensures fs.files == Cleaned(old(fs.files), tempFiles, fs.undeletable)
  {
    for i := 0 to |tempFiles|
      invariant fs.files == Cleaned(old(fs.files), tempFiles[..i], fs.undeletable)
    {
      assert tempFiles[..i + 1][..i] == tempFiles[..i];
      DeleteTempFile(fs, tempFiles[i]);
    }
    assert tempFiles[..|tempFiles|] == tempFiles;
  }

  /**
   The bookkeeping discipline: when the paths in `tempFiles` did not exist
   before the request, everything the request created is listed, and the
   listed paths are non-empty, a cleanup leaves exactly the files that existed
   before plus the created files that could not be deleted.
   */
  lemma CleanupRestores(before: set<string>, created: set<string>, tempFiles: seq<string>, undeletable: set<string>)
    requires forall p | p in tempFiles :: p != "" && p !in before
    requires created <= set p | p in tempFiles
    ensures Cleaned(before + created, tempFiles, undeletable) == before + (created * undeletable)
  {
    CleanedRemovesRemovable(before + created, tempFiles, undeletable);
  }
}
