/** Stand-ins for what the photobooth worker calls but does not implement:
    the picture buffer handed over by the camera, Python's exceptions,
    `os.path.join`, the local filesystem behind `open`, the Dropbox client and
    the `PictureList` file-name allocator. Each is reduced to the behaviour the
    worker relies on; the local and remote stores share one ghost journal so
    that the order of I/O actions can be stated. */
module Externals {

  newtype Byte = x: int | 0 <= x < 256

  type Bytes = seq<Byte>

  /** A captured or assembled picture; `buffer` is what `getbuffer()` returns. */
  datatype Picture = Picture(buffer: Bytes)

  /** `dropbox.files.WriteMode`: `Add` never replaces an existing remote file. */
  datatype WriteMode = Add | Overwrite

  /** One observable I/O action, in the order it happened. */
  datatype Effect =
    | Created(path: string, data: Bytes)          // open(path, 'wb').write(data) succeeded
    | CreateFailed(path: string)                   // open or write raised
    | Uploaded(data: Bytes, dest: string, mode: WriteMode, ok: bool)  // files_upload was called

  const Sep: char := '/'

  predicate IsAbsolute(p: string) {
    |p| > 0 && p[0] == Sep
  }

  /** `os.path.join(a, b)` on POSIX, for two components. */
  function JoinPath(a: string, b: string): (joined: string) {
    if IsAbsolute(b) then b
    else if a == [] || a[|a| - 1] == Sep then a + b
    else a + [Sep] + b
  }

  /** An absolute `b` replaces `a`; otherwise the result is `a`, then a
      separator unless `a` is empty or already ends with one, then `b`. */
  lemma JoinPathParts(a: string, b: string)
    ensures IsAbsolute(b) ==> JoinPath(a, b) == b
    ensures |b| <= |JoinPath(a, b)| && JoinPath(a, b)[|JoinPath(a, b)| - |b|..] == b
    ensures !IsAbsolute(b) ==> |a| <= |JoinPath(a, b)| && JoinPath(a, b)[..|a|] == a
    ensures !IsAbsolute(b) && |a| > 0 && a[|a| - 1] != Sep ==>
              |JoinPath(a, b)| == |a| + 1 + |b| && JoinPath(a, b)[|a|] == Sep
    ensures !IsAbsolute(b) && (a == [] || a[|a| - 1] == Sep) ==> |JoinPath(a, b)| == |a| + |b|
  {
  }

  /** The destination `os.path.join('/', name)` is always rooted, and is
      `'/' + name` exactly when `name` is relative. */
  lemma RootedDestination(name: string)
    ensures IsAbsolute(JoinPath([Sep], name))
    ensures !IsAbsolute(name) ==> JoinPath([Sep], name) == [Sep] + name
    ensures IsAbsolute(name) ==> JoinPath([Sep], name) == name
  {
  }

  /** The machine the booth runs on and the Dropbox account it may mirror to. */
  class Host {
    /** Local files by path. */
    var files: map<string, Bytes>
    /** Paths whose creation fails (permissions, full disk): an oracle. */
    const unwritable: set<string>
    /** Remote files in the Dropbox account, by destination path. */
    var cloud: map<string, Bytes>
    /** Every write and upload performed so far, oldest first. */
    ghost var journal: seq<Effect>

    constructor (files: map<string, Bytes>, unwritable: set<string>, cloud: map<string, Bytes>)
      ensures this.files == files && this.unwritable == unwritable && this.cloud == cloud
      ensures journal == []
    {
      this.files := files;
      this.unwritable := unwritable;
      this.cloud := cloud;
      journal := [];
    }

    /** `with open(path, 'wb') as f: f.write(data)`; `ok` is false where Python raises. */
    method Create(path: string, data: Bytes) returns (ok: bool)
      modifies this
      ensures ok <==> path !in unwritable
      ensures files == if ok then old(files)[path := data] else old(files)
      ensures cloud == old(cloud)
      ensures journal == old(journal) + [if ok then Created(path, data) else CreateFailed(path)]
    {
      ok := path !in unwritable;
      if ok {
        files := files[path := data];
        journal := journal + [Created(path, data)];
      } else {
        journal := journal + [CreateFailed(path)];
      }
    }

    /** `with open(path, 'rb') as f: data = f.read()`; `None` where Python raises. */
    method Read(path: string) returns (data: Option<Bytes>)
      ensures path in files ==> data == Some(files[path])
      ensures path !in files ==> data == None
    {
      if path in files {
        data := Some(files[path]);
      } else {
        data := None;
      }
    }
  }

  datatype Option<T> = None | Some(value: T)

  /** `dropbox.Dropbox(key)`: a client handle bound to one account. */
  class Dropbox {
    const apiKey: string
    const host: Host

    constructor (apiKey: string, host: Host)
      ensures this.apiKey == apiKey && this.host == host
    {
      this.apiKey := apiKey;
      this.host := host;
    }

    /** `files_upload(data, dest, mode)`. Whether the network and the account
        accept the call is not known to the worker, so the outcome is chosen
        nondeterministically; `ok` is false where the client raises. In `Add`
        mode an existing remote file is never replaced: the call fails. */
    method FilesUpload(data: Bytes, dest: string, mode: WriteMode) returns (ok: bool)
      modifies host
      ensures ok ==> mode == Overwrite || dest !in old(host.cloud)
      ensures host.cloud == if ok then old(host.cloud)[dest := data] else old(host.cloud)
      ensures host.files == old(host.files)
      ensures host.journal == old(host.journal) + [Uploaded(data, dest, mode, ok)]
    {
      var reachable: bool :| true;
      ok := reachable && (mode == Overwrite || dest !in host.cloud);
      if ok {
        host.cloud := host.cloud[dest := data];
      }
      host.journal := host.journal + [Uploaded(data, dest, mode, ok)];
    }
  }

  /** `PictureList(basename)`: hands out the file names pictures are saved
      under. Its numbering scheme is not part of this model: the `k`-th name
      it returns for a base name is an opaque `numbering(basename, k)`. */
  class PictureList {
    const basename: string
    const numbering: (string, nat) -> string
    /** How many names `GetNext` has handed out. */
    var count: nat

    constructor (basename: string, numbering: (string, nat) -> string)
      ensures this.basename == basename && this.numbering == numbering && count == 0
    {
      this.basename := basename;
      this.numbering := numbering;
      count := 0;
    }

    /** `getNext()`. */
    method GetNext() returns (name: string)
      modifies this
      ensures name == numbering(basename, old(count))
      ensures count == old(count) + 1
    {
      name := numbering(basename, count);
      count := count + 1;
    }
  }

  /** The exceptions the worker can let escape. */
  datatype Exception =
    | ValueError(culprit: string)   // carries the unknown event's name
    | OSError(filename: string)     // a local file could not be written or read

  /** The outcome of a Python call: its return value, or the exception it raised. */
  datatype Result<T> = Ok(value: T) | Raised(error: Exception)
}
