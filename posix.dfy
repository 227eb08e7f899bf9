/**
  The host side of the file system: POSIX path joining (Python's
  `os.path.join`) and a file system whose state is a map from path to
  contents. Directories are implicit: a directory exists when a file lies
  under it.
 */
module Posix {
  import opened Wrappers

  /** `os.path.join(a, b)` on POSIX: an absolute `b` replaces `a`; otherwise one `/` separates them unless `a` is empty or already ends in `/`. */
  function PathJoin(a: string, b: string): (p: string)
    ensures |b| > 0 && b[0] == '/' ==> p == b
    ensures !(|b| > 0 && b[0] == '/') ==> p == a + Separator(a) + b
  {
    if |b| > 0 && b[0] == '/' then b
    else a + Separator(a) + b
  }

  /** Joining a relative name below a directory whose last segment is `x` inserts exactly one `/`. */
  lemma JoinBelow(a: string, x: string, b: string)
    requires |x| > 0 && x[|x| - 1] != '/'
    requires !(|b| > 0 && b[0] == '/')
    ensures PathJoin(a + x, b) == a + (x + "/" + b)
  {
    assert (a + x)[|a + x| - 1] == x[|x| - 1];
    assert (a + x) + "/" + b == a + (x + "/" + b);
  }

  /** What `os.path.join` puts between a directory `a` and a relative name. */
  function Separator(a: string): string
  {
    if |a| == 0 || a[|a| - 1] == '/' then "" else "/"
  }

  /** The contents of the file at `p`, `None` when there is none. */
  function Lookup(files: map<string, string>, p: string): (v: Option<string>)
    ensures v.Some? <==> p in files
    ensures v.Some? ==> v.value == files[p]
  {
    if p in files then Some(files[p]) else None
  }

  /** The file system: `files` maps each existing file's path to its contents. */
  class FileSystem {
    var files: map<string, string>

    constructor (initial: map<string, string>)
      ensures files == initial
    {
      files := initial;
    }

    /** `open(path, "w")`: creates the file, or truncates it to empty when it exists. */
    method OpenForWrite(path: string)
      modifies this
      ensures files == old(files)[path := ""]
    {
      files := files[path := ""];
    }

    /** `f.write(text)` on a file opened for writing: the text goes at the end of the file. */
    method Write(path: string, text: string)
      requires path in files
      modifies this
      ensures files == old(files)[path := old(files)[path] + text]
    {
      files := files[path := files[path] + text];
    }
  }
}
