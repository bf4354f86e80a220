/** The photobooth worker: the `PictureSaver` output task and the `Worker`
    that routes session states to its two task lists. The methods are proved
    against the routing specification of module Dispatch and against the
    I/O journal of module Externals. */
module PhotoWorker {
  import opened Externals
  import opened Dispatch

  /** The `[Storage]` settings the worker reads at construction. */
  datatype Config = Config(basedir: string, basename: string, dropboxApiKey: string)

  /** A moment as returned by `localtime()`; only `strftime` looks inside it. */
  type Instant = nat

  /** What the picture list's base name gets for single shots. */
  const ShotSuffix: string := "_shot_"

  /** Where a locally saved file is mirrored in the Dropbox account:
      `os.path.join('/', filename)`, a rooted path. */
  function Destination(filename: string): (dest: string)
    ensures IsAbsolute(dest)
    ensures !IsAbsolute(filename) ==> dest == [Sep] + filename
  {
    RootedDestination(filename);
    JoinPath([Sep], filename)
  }

  /** `upload` sends the bytes of the local write `write` to the
      destination of that file's name. */
  ghost predicate Mirrors(write: Effect, upload: Effect) {
    write.Created? && upload.Uploaded? && upload.data == write.data && upload.dest == Destination(write.path)
  }

  /** If the `i`-th action is an upload, it comes right after the local
      write whose bytes it sends to that file's destination. */
  ghost predicate UploadFollowsWrite(journal: seq<Effect>, i: nat)
    requires i < |journal|
  {
    journal[i].Uploaded? ==> i > 0 && Mirrors(journal[i - 1], journal[i])
  }

  /** From position `n` of the journal on, every upload comes right after
      the local write it mirrors. */
  ghost predicate UploadsFollowWrites(journal: seq<Effect>, n: nat) {
    forall i | n <= i < |journal| :: UploadFollowsWrite(journal, i)
  }

  /** Nothing was uploaded from position `n` of the journal on. */
  ghost predicate NoUploadsSince(journal: seq<Effect>, n: nat) {
    forall i | n <= i < |journal| :: !journal[i].Uploaded?
  }

  /** The `c`-th name of saver `t`'s picture list: the name of the file the
      `c`-th picture handed to `t`'s list is saved under. */
  function NameAt(t: PictureSaver, c: nat): (name: string) {
    t.picList.numbering(t.picList.basename, c)
  }

  /** How many of `calls` went to a saver numbering with picture list `l`. */
  function CallsTo(calls: seq<Application<PictureSaver>>, l: PictureList): (n: nat)
    ensures n <= |calls|
  {
    if calls == [] then 0
    else CallsTo(calls[..|calls| - 1], l) + (if calls[|calls| - 1].task.picList == l then 1 else 0)
  }

  /** One more call counts for its own list only. */
  lemma CallsToSnoc(calls: seq<Application<PictureSaver>>, call: Application<PictureSaver>, l: PictureList)
    ensures CallsTo(calls + [call], l) == CallsTo(calls, l) + (if call.task.picList == l then 1 else 0)
  {
    assert (calls + [call])[..|calls|] == calls;
  }

  /** A call stored its picture under the next name of its saver's list:
      the name numbered by how many calls to the same list came `before` it. */
  ghost predicate NamedAt(call: Application<PictureSaver>, name: string, before: seq<Application<PictureSaver>>) {
    name == NameAt(call.task, CallsTo(before, call.task.picList))
  }

  /** Each of `calls`, made in order on lists that started at the beginning
      of their numbering, stored its picture under the next name of its
      saver's list. */
  ghost predicate Allocated(calls: seq<Application<PictureSaver>>, names: seq<string>)
    decreases |calls|
  {
    && |names| == |calls|
    && (calls != [] ==>
          && Allocated(calls[..|calls| - 1], names[..|names| - 1])
          && NamedAt(calls[|calls| - 1], names[|names| - 1], calls[..|calls| - 1]))
  }

  /** The `k`-th of the calls took the name numbered by the calls to the
      same list before it. */
  lemma {:induction false} AllocatedAt(calls: seq<Application<PictureSaver>>, names: seq<string>, k: nat)
    requires Allocated(calls, names) && k < |calls|
    ensures names[k] == NameAt(calls[k].task, CallsTo(calls[..k], calls[k].task.picList))
  {
    if k < |calls| - 1 {
      var n := |calls| - 1;
      AllocatedAt(calls[..n], names[..n], k);
      assert calls[..n][..k] == calls[..k];
    }
  }

  /** Conversely, calls each of which took its list's next name in turn are
      allocated. */
  lemma {:induction false} AllocatedFromEach(calls: seq<Application<PictureSaver>>, names: seq<string>)
    requires |names| == |calls|
    requires forall k | 0 <= k < |calls| :: names[k] == NameAt(calls[k].task, CallsTo(calls[..k], calls[k].task.picList))
    ensures Allocated(calls, names)
  {
    if calls != [] {
      var n := |calls| - 1;
      forall k | 0 <= k < n
        ensures names[..n][k] == NameAt(calls[..n][k].task, CallsTo(calls[..n][..k], calls[..n][k].task.picList))
      {
        assert calls[..n][..k] == calls[..k];
      }
      AllocatedFromEach(calls[..n], names[..n]);
    }
  }

  /** What the tasks can change on the machine: the local files, the remote
      files and the I/O journal. */
  datatype Machine = Machine(files: map<string, Bytes>, cloud: map<string, Bytes>, journal: seq<Effect>)

  /** The journal entries of one call that saved `data` under `name`:
      the failed write where the path is unwritable; otherwise the write,
      followed, where a Dropbox handle exists, by an upload of the same
      bytes, in add mode, to the file's destination, with outcome `ok`. */
  function Effects(name: string, data: Bytes, ok: bool, unwritable: set<string>, mayUpload: bool): (e: seq<Effect>)
    ensures 1 <= |e| <= 2 && e[0] == (if name in unwritable then CreateFailed(name) else Created(name, data))
    ensures |e| == 2 <==> name !in unwritable && mayUpload
    ensures |e| == 2 ==> Mirrors(e[0], e[1]) && e[1] == Uploaded(data, Destination(name), Add, ok)
  {
    if name in unwritable then [CreateFailed(name)]
    else if !mayUpload then [Created(name, data)]
    else [Created(name, data), Uploaded(data, Destination(name), Add, ok)]
  }

  /** One call, `call.task.do(call.picture)`, that saved under `name` with
      upload outcome `ok`: unless the path is unwritable the file holds the
      picture's buffer, the remote files hold it at the file's destination
      if an upload went through, and the journal gets the call's `Effects`. */
  ghost function Step(m: Machine, call: Application<PictureSaver>, name: string, ok: bool,
                      unwritable: set<string>, mayUpload: bool): (r: Machine)
  {
    var data := call.picture.buffer;
    var written := name !in unwritable;
    Machine(if written then m.files[name := data] else m.files,
            if written && mayUpload && ok then m.cloud[Destination(name) := data] else m.cloud,
            m.journal + Effects(name, data, ok, unwritable, mayUpload))
  }

  /** The calls `calls`, made in order on `m`, the `k`-th saving under
      `names[k]` with upload outcome `oks[k]`. */
  ghost function Apply(m: Machine, calls: seq<Application<PictureSaver>>, names: seq<string>, oks: seq<bool>,
                       unwritable: set<string>, mayUpload: bool): (r: Machine)
    requires |names| == |calls| && |oks| == |calls|
    ensures m.journal <= r.journal && |r.journal| <= |m.journal| + 2 * |calls|
    ensures !mayUpload ==> r.cloud == m.cloud
    decreases |calls|
  {
    if calls == [] then m
    else
      var n := |calls| - 1;
      Step(Apply(m, calls[..n], names[..n], oks[..n], unwritable, mayUpload), calls[n], names[n], oks[n],
           unwritable, mayUpload)
  }

  /** A single call is its own `Step`. */
  lemma ApplyOne(m: Machine, calls: seq<Application<PictureSaver>>, names: seq<string>, oks: seq<bool>,
                 unwritable: set<string>, mayUpload: bool)
    requires |calls| == 1 && |names| == 1 && |oks| == 1
    ensures Apply(m, calls, names, oks, unwritable, mayUpload) == Step(m, calls[0], names[0], oks[0], unwritable, mayUpload)
  {
    assert calls[..0] == [] && names[..0] == [] && oks[..0] == [];
  }

  /** Making two runs of calls one after the other is making them all. */
  lemma {:induction false} ApplyAppend(m: Machine, xs: seq<Application<PictureSaver>>, xn: seq<string>, xo: seq<bool>,
                                       ys: seq<Application<PictureSaver>>, yn: seq<string>, yo: seq<bool>,
                                       unwritable: set<string>, mayUpload: bool)
    requires |xn| == |xs| && |xo| == |xs| && |yn| == |ys| && |yo| == |ys|
    ensures Apply(m, xs + ys, xn + yn, xo + yo, unwritable, mayUpload)
         == Apply(Apply(m, xs, xn, xo, unwritable, mayUpload), ys, yn, yo, unwritable, mayUpload)
    decreases |ys|
  {
    if ys == [] {
      assert xs + ys == xs && xn + yn == xn && xo + yo == xo;
    } else {
      var n := |ys| - 1;
      assert (xs + ys)[..|xs| + n] == xs + ys[..n];
      assert (xn + yn)[..|xn| + n] == xn + yn[..n];
      assert (xo + yo)[..|xo| + n] == xo + yo[..n];
      ApplyAppend(m, xs, xn, xo, ys[..n], yn[..n], yo[..n], unwritable, mayUpload);
    }
  }

  /** The calls made since an earlier moment, applied to the machine of
      that moment, give the machine of now. */
  lemma {:induction false} ApplySince(m: Machine, t0: seq<Application<PictureSaver>>, n0: seq<string>, u0: seq<bool>,
                   t1: seq<Application<PictureSaver>>, n1: seq<string>, u1: seq<bool>,
                   unwritable: set<string>, mayUpload: bool)
    requires t0 <= t1 && n0 <= n1 && u0 <= u1 && |n0| == |t0| && |u0| == |t0| && |n1| == |t1| && |u1| == |t1|
    ensures Apply(m, t1, n1, u1, unwritable, mayUpload)
         == Apply(Apply(m, t0, n0, u0, unwritable, mayUpload), t1[|t0|..], n1[|n0|..], u1[|u0|..], unwritable, mayUpload)
  {
    assert t1 == t0 + t1[|t0|..] && n1 == n0 + n1[|n0|..] && u1 == u0 + u1[|u0|..];
    ApplyAppend(m, t0, n0, u0, t1[|t0|..], n1[|n0|..], u1[|u0|..], unwritable, mayUpload);
  }

  /** A call whose write succeeded, and whose name no later call reused,
      leaves its picture's whole buffer in that file. */
  lemma {:induction false} SavedPicture(m: Machine, calls: seq<Application<PictureSaver>>, names: seq<string>,
                                        oks: seq<bool>, unwritable: set<string>, mayUpload: bool, k: nat)
    requires |names| == |calls| && |oks| == |calls| && k < |calls| && names[k] !in unwritable
    requires forall j | k < j < |names| :: names[j] != names[k]
    ensures names[k] in Apply(m, calls, names, oks, unwritable, mayUpload).files
    ensures Apply(m, calls, names, oks, unwritable, mayUpload).files[names[k]] == calls[k].picture.buffer
    decreases |calls|
  {
    var n := |calls| - 1;
    if k < n {
      SavedPicture(m, calls[..n], names[..n], oks[..n], unwritable, mayUpload, k);
    }
  }

  /** A path none of the calls was named keeps its local file as it was. */
  lemma {:induction false} UntouchedFile(m: Machine, calls: seq<Application<PictureSaver>>, names: seq<string>,
                                         oks: seq<bool>, unwritable: set<string>, mayUpload: bool, path: string)
    requires |names| == |calls| && |oks| == |calls| && path !in names
    ensures path in Apply(m, calls, names, oks, unwritable, mayUpload).files <==> path in m.files
    ensures path in m.files ==> Apply(m, calls, names, oks, unwritable, mayUpload).files[path] == m.files[path]
    decreases |calls|
  {
    if calls != [] {
      var n := |calls| - 1;
      assert path != names[n];
      assert forall x | x in names[..n] :: x in names;
      UntouchedFile(m, calls[..n], names[..n], oks[..n], unwritable, mayUpload, path);
    }
  }

  /** Every call leaves its local write in the new part of the journal:
      the picture's buffer under its name, or the failure to write there. */
  lemma {:induction false} WritesJournalled(m: Machine, calls: seq<Application<PictureSaver>>, names: seq<string>,
                                            oks: seq<bool>, unwritable: set<string>, mayUpload: bool)
    requires |names| == |calls| && |oks| == |calls|
    ensures var j := Apply(m, calls, names, oks, unwritable, mayUpload).journal;
            forall k | 0 <= k < |calls| ::
              (if names[k] in unwritable then CreateFailed(names[k]) else Created(names[k], calls[k].picture.buffer))
                in j[|m.journal|..]
    decreases |calls|
  {
    if calls != [] {
      var n := |calls| - 1;
      var before := Apply(m, calls[..n], names[..n], oks[..n], unwritable, mayUpload).journal;
      var j := Apply(m, calls, names, oks, unwritable, mayUpload).journal;
      WritesJournalled(m, calls[..n], names[..n], oks[..n], unwritable, mayUpload);
      forall k | 0 <= k < |calls|
        ensures (if names[k] in unwritable then CreateFailed(names[k]) else Created(names[k], calls[k].picture.buffer))
                  in j[|m.journal|..]
      {
        if k < n {
          assert calls[..n][k] == calls[k] && names[..n][k] == names[k];
          var e :| e in before[|m.journal|..] && e == (if names[k] in unwritable then CreateFailed(names[k])
                                                        else Created(names[k], calls[k].picture.buffer));
          var p :| |m.journal| <= p < |before| && before[p] == e;
          assert j[p] == e;
          assert j[|m.journal|..][p - |m.journal|] == e;
        } else {
          assert j[|before|] == j[|m.journal|..][|before| - |m.journal|];
        }
      }
    }
  }

  /** Every upload the calls add comes right after the local write it
      mirrors; with no Dropbox handle they add no upload. */
  lemma {:induction false} UploadsMirrorWrites(m: Machine, calls: seq<Application<PictureSaver>>, names: seq<string>,
                                               oks: seq<bool>, unwritable: set<string>, mayUpload: bool)
    requires |names| == |calls| && |oks| == |calls|
    ensures UploadsFollowWrites(Apply(m, calls, names, oks, unwritable, mayUpload).journal, |m.journal|)
    ensures !mayUpload ==> NoUploadsSince(Apply(m, calls, names, oks, unwritable, mayUpload).journal, |m.journal|)
    decreases |calls|
  {
    if calls != [] {
      var n := |calls| - 1;
      var before := Apply(m, calls[..n], names[..n], oks[..n], unwritable, mayUpload).journal;
      var j := Apply(m, calls, names, oks, unwritable, mayUpload).journal;
      UploadsMirrorWrites(m, calls[..n], names[..n], oks[..n], unwritable, mayUpload);
      forall i | |m.journal| <= i < |j| ensures UploadFollowsWrite(j, i) && (!mayUpload ==> !j[i].Uploaded?) {
        if i < |before| {
          assert UploadFollowsWrite(before, i);
          assert j[i] == before[i];
          if i > 0 {
            assert j[i - 1] == before[i - 1];
          }
        }
      }
    }
  }

  /** Every call from position `n` of `names` on saved its picture: its
      name is writable. */
  ghost predicate SavedFrom(names: seq<string>, n: nat, unwritable: set<string>) {
    forall k | n <= k < |names| :: names[k] !in unwritable
  }

  /** The calls from position `n` of `names` on saved their pictures,
      except the last one, whose write to `filename` failed. */
  ghost predicate LastFailed(names: seq<string>, n: nat, unwritable: set<string>, filename: string) {
    && n < |names|
    && names[|names| - 1] == filename && filename in unwritable
    && forall k | n <= k < |names| - 1 :: names[k] !in unwritable
  }

  /** Calls that saved from position `n` of `before` on, followed by calls
      that all saved, or that saved up to a last failed one, saved from `n`
      on in the same way. */
  lemma SavedThrough(before: seq<string>, names: seq<string>, n: nat, unwritable: set<string>)
    requires n <= |before| && before <= names && SavedFrom(before, n, unwritable)
    ensures SavedFrom(names, |before|, unwritable) ==> SavedFrom(names, n, unwritable)
    ensures forall f | LastFailed(names, |before|, unwritable, f) :: LastFailed(names, n, unwritable, f)
  {
  }

  /** An output task that saves each picture it is given to a new local file
      and, when a Dropbox handle is present, mirrors that file to Dropbox. */
  class PictureSaver {
    const dbx: Dropbox?
    const picList: PictureList
    /** The machine whose files `open` reaches. */
    const host: Host

    constructor (basename: string, dbx: Dropbox?, host: Host, numbering: (string, nat) -> string)
      ensures this.dbx == dbx && this.host == host
      ensures fresh(picList) && picList.basename == basename && picList.numbering == numbering
      ensures picList.count == 0
    {
      this.dbx := dbx;
      this.host := host;
      picList := new PictureList(basename, numbering);
    }

    /** The Dropbox handle, if any, talks to the same machine's account. */
    ghost predicate Valid() {
      dbx != null ==> dbx.host == host
    }

    /** The file name the next `do` saves under. */
    ghost function NextName(): (name: string)
      reads picList
    {
      picList.numbering(picList.basename, picList.count)
    }

    /** `do(picture)`: take the next file name, write the picture's whole
        buffer there, and, only if the write returned and a Dropbox handle
        exists, upload the bytes of that file in add mode to its rooted
        destination. A failed upload is swallowed: `do` still returns
        normally and the local file stays as written. A failed local write
        raises and nothing is uploaded. `uploadOk` tells the proof whether
        the upload went through. */
    method Do(picture: Picture) returns (r: Result<()>, ghost uploadOk: bool)
      requires Valid()
      modifies picList, host
      ensures picList.count == old(picList.count) + 1
      ensures var name := old(NextName());
              && (r.Ok? <==> name !in host.unwritable)
              && (r.Raised? ==> r.error == OSError(name))
              && host.files == (if r.Ok? then old(host.files)[name := picture.buffer] else old(host.files))
              && host.journal == old(host.journal) +
                   (if r.Raised? then [CreateFailed(name)]
                    else if dbx == null then [Created(name, picture.buffer)]
                    else [Created(name, picture.buffer), Uploaded(picture.buffer, Destination(name), Add, uploadOk)])
              && host.cloud == (if r.Ok? && dbx != null && uploadOk
                                then old(host.cloud)[Destination(name) := picture.buffer]
                                else old(host.cloud))
              && (uploadOk ==> r.Ok? && dbx != null && Destination(name) !in old(host.cloud))
    {
      var filename := picList.GetNext();
      var written := host.Create(filename, picture.buffer);
      if !written {
        return Raised(OSError(filename)), false;
      }
      uploadOk := false;
      if dbx != null {
        var data := host.Read(filename);
        var ok := dbx.FilesUpload(data.value, Destination(filename), Add);
        uploadOk := ok;
      }
      r := Ok(());
    }
  }

  /** The worker: routes each session state to its postprocess tasks (for
      reviews) or its picture tasks (for captures). */
  class Worker {
    /** Tasks run on every assembled picture. */
    var postprocessTasks: seq<PictureSaver>
    /** Tasks run on every single shot. */
    var pictureTasks: seq<PictureSaver>
    /** The machine the tasks write to. */
    const host: Host
    /** The Dropbox handle created at construction, shared by all tasks. */
    ghost const mirror: Dropbox?
    /** The machine as it was when the worker was built. */
    ghost const start: Machine
    /** Every task call made so far, in order. */
    ghost var trace: seq<Application<PictureSaver>>
    /** The file name each call of `trace` saved under, or tried to. */
    ghost var names: seq<string>
    /** Whether the upload of each call of `trace` went through. */
    ghost var uploads: seq<bool>
    /** The picture lists of the tasks: with the machine, all that running
        the tasks may change. */
    ghost const Lists: set<PictureList>

    /** The machine's files, remote files and journal, as a value. */
    ghost function Mach(): (m: Machine)
      reads host
    {
      Machine(host.files, host.cloud, host.journal)
    }

    /** The tasks share the machine and the Dropbox handle; each call took
        the next name of its saver's list, and the lists have handed out
        exactly the names of the calls; the machine is the one the worker
        was built on, changed by the calls of `trace` and nothing else. */
    ghost predicate Valid()
      reads this, Lists, host
    {
      && (mirror != null ==> mirror.host == host)
      && Allocated(trace, names) && |uploads| == |trace|
      && (forall l | l in Lists :: l.count == CallsTo(trace, l))
      && (forall i | 0 <= i < |postprocessTasks| ::
            postprocessTasks[i].host == host && postprocessTasks[i].dbx == mirror && postprocessTasks[i].picList in Lists)
      && (forall i | 0 <= i < |pictureTasks| ::
            pictureTasks[i].host == host && pictureTasks[i].dbx == mirror && pictureTasks[i].picList in Lists)
      && Accounted()
    }

    /** The machine is the one the worker was built on, changed by the
        calls of `trace` and nothing else. */
    ghost predicate Accounted()
      reads this, host
    {
      |names| == |trace| && |uploads| == |trace|
      && Mach() == Apply(start, trace, names, uploads, host.unwritable, mirror != null)
    }

    /** `Worker(config, comm)`: a Dropbox handle exists exactly when the API
        key is non-empty, and both lists get one picture saver sharing it; the
        postprocess saver numbers files under the time-stamped base path, the
        single-shot saver under the base path followed by `_shot_`.
        `strftime` and the two `localtime()` readings are parameters. */
    constructor (config: Config, host: Host, strftime: (string, Instant) -> string,
                 postTime: Instant, shotTime: Instant, numbering: (string, nat) -> string)
      ensures Valid() && this.host == host && trace == [] && names == [] && uploads == []
      ensures start == Mach()
      ensures mirror != null <==> |config.dropboxApiKey| > 0
      ensures mirror != null ==> fresh(mirror) && mirror.apiKey == config.dropboxApiKey
      ensures |postprocessTasks| == 1 && |pictureTasks| == 1
      ensures postprocessTasks[0].dbx == mirror && pictureTasks[0].dbx == mirror
      ensures fresh(postprocessTasks[0]) && fresh(postprocessTasks[0].picList)
      ensures fresh(pictureTasks[0]) && fresh(pictureTasks[0].picList)
      ensures postprocessTasks[0].picList != pictureTasks[0].picList
      ensures Lists == {postprocessTasks[0].picList, pictureTasks[0].picList}
      ensures postprocessTasks[0].picList.basename == strftime(JoinPath(config.basedir, config.basename), postTime)
      ensures pictureTasks[0].picList.basename == strftime(JoinPath(config.basedir, config.basename + ShotSuffix), shotTime)
      ensures postprocessTasks[0].picList.numbering == numbering && postprocessTasks[0].picList.count == 0
      ensures pictureTasks[0].picList.numbering == numbering && pictureTasks[0].picList.count == 0
    {
      var dbx: Dropbox? := null;
      if |config.dropboxApiKey| > 0 {
        dbx := new Dropbox(config.dropboxApiKey, host);
      }
      var post := InitPostprocessTasks(config, host, dbx, strftime, postTime, numbering);
      var shots := InitPictureTasks(config, host, dbx, strftime, shotTime, numbering);
      this.host := host;
      mirror := dbx;
      postprocessTasks := post;
      pictureTasks := shots;
      Lists := {post[0].picList, shots[0].picList};
      trace := [];
      names := [];
      uploads := [];
      start := Machine(host.files, host.cloud, host.journal);
    }

    /** `initPostprocessTasks`: the list with one saver for assembled
        pictures, numbering files under the time-stamped base path. */
    static method InitPostprocessTasks(config: Config, host: Host, dbx: Dropbox?, strftime: (string, Instant) -> string,
                                       now: Instant, numbering: (string, nat) -> string)
      returns (tasks: seq<PictureSaver>)
      ensures |tasks| == 1 && fresh(tasks[0]) && fresh(tasks[0].picList)
      ensures tasks[0].host == host && tasks[0].dbx == dbx
      ensures tasks[0].picList.basename == strftime(JoinPath(config.basedir, config.basename), now)
      ensures tasks[0].picList.numbering == numbering && tasks[0].picList.count == 0
    {
      tasks := [];
      var path := JoinPath(config.basedir, config.basename);
      var basename := strftime(path, now);
      var saver := new PictureSaver(basename, dbx, host, numbering);
      tasks := tasks + [saver];
    }

    /** `initPictureTasks`: the list with one saver for single shots,
        numbering files under the time-stamped base path followed by `_shot_`. */
    static method InitPictureTasks(config: Config, host: Host, dbx: Dropbox?, strftime: (string, Instant) -> string,
                                   now: Instant, numbering: (string, nat) -> string)
      returns (tasks: seq<PictureSaver>)
      ensures |tasks| == 1 && fresh(tasks[0]) && fresh(tasks[0].picList)
      ensures tasks[0].host == host && tasks[0].dbx == dbx
      ensures tasks[0].picList.basename == strftime(JoinPath(config.basedir, config.basename + ShotSuffix), now)
      ensures tasks[0].picList.numbering == numbering && tasks[0].picList.count == 0
    {
      tasks := [];
      var path := JoinPath(config.basedir, config.basename + ShotSuffix);
      var basename := strftime(path, now);
      var saver := new PictureSaver(basename, dbx, host, numbering);
      tasks := tasks + [saver];
    }

    /** The calls made since the moment with calls `t0`, names `n0` and
        upload outcomes `u0`, applied to that moment's machine `m0`, give
        the machine of now. */
    ghost predicate ChangedSince(m0: Machine, t0: seq<Application<PictureSaver>>, n0: seq<string>, u0: seq<bool>)
      reads this, host
    {
      && t0 <= trace && n0 <= names && u0 <= uploads
      && |n0| == |t0| && |u0| == |t0| && |names| == |trace| && |uploads| == |trace|
      && Mach() == Apply(m0, trace[|t0|..], names[|n0|..], uploads[|u0|..], host.unwritable, mirror != null)
    }

    /** `run()`: handle every state of the stream in order and return `True`
        when it ends. An exception, from an unknown camera event or from a
        task, ends the run at once and is raised to the caller; `stop` is
        the position of the state being handled then. */
    method Run(events: seq<State>) returns (r: Result<bool>, ghost stop: nat)
      requires Valid()
      modifies this`trace, this`names, this`uploads, host, Lists
      ensures Valid()
      ensures RanPrefix(old(trace), trace, RunPlan(events, postprocessTasks, pictureTasks))
      ensures old(names) <= names && old(uploads) <= uploads
      ensures stop <= |events| && forall k | 0 <= k < stop :: !IsUnknownCameraEvent(events[k])
      ensures r.Ok? <==> stop == |events|
      ensures r.Ok? ==> r.value && NoUnknown(events)
      ensures r.Ok? || r.error.ValueError? ==>
                && trace == old(trace) + RunPlan(events, postprocessTasks, pictureTasks)
                && SavedFrom(names, |old(names)|, host.unwritable)
      ensures r.Raised? && r.error.ValueError? ==>
                IsUnknownCameraEvent(events[stop]) && r.error.culprit == events[stop].name
      ensures r.Raised? && !r.error.ValueError? ==>
                && r.error.OSError? && LastFailed(names, |old(names)|, host.unwritable, r.error.filename)
                && !IsUnknownCameraEvent(events[stop])
                && old(trace) + RunPlan(events[..stop], postprocessTasks, pictureTasks) < trace
                && trace <= old(trace) + RunPlan(events[..stop + 1], postprocessTasks, pictureTasks)
      ensures trace == old(trace) ==> Mach() == old(Mach())
    {
      ghost var plan := RunPlan(events, postprocessTasks, pictureTasks);
      ghost var m0, t0, n0, u0 := Mach(), trace, names, uploads;
      r := Ok(true);
      var i := 0;
      while i < |events|
        invariant 0 <= i <= |events|
        invariant r == Ok(true)
        invariant forall k | 0 <= k < i :: !IsUnknownCameraEvent(events[k])
        invariant t0 + plan == trace + RunPlan(events[i..], postprocessTasks, pictureTasks)
        invariant Valid()
        invariant t0 <= trace && n0 <= names && u0 <= uploads
        invariant trace == t0 ==> Mach() == m0
        invariant SavedFrom(names, |n0|, host.unwritable)
      {
        ghost var handled, named := trace, names;
        var res := HandleState(events[i]);
        HandledOne(events, i, postprocessTasks, pictureTasks, t0, handled, trace);
        SavedThrough(named, names, |n0|, host.unwritable);
        if |trace| == |t0| {
          assert handled == trace;
        }
        if res.Raised? {
          r := Raised(res.error);
          break;
        }
        i := i + 1;
      }
      stop := i;
    }

    /** `handleState(state)`: a teardown runs the (empty) teardown hook, a
        review runs the postprocess tasks on its picture, a capture event
        runs the picture tasks on its picture, any other camera event raises
        `ValueError`, and any other state is ignored. A task that raises ends
        its list there and the exception is raised to the caller. */
    method HandleState(state: State) returns (r: Result<()>)
      requires Valid()
      modifies this`trace, this`names, this`uploads, host, Lists
      ensures Valid()
      ensures RanPrefix(old(trace), trace, Planned(state, postprocessTasks, pictureTasks))
      ensures old(names) <= names && old(uploads) <= uploads
      ensures r.Ok? ==> trace == old(trace) + Planned(state, postprocessTasks, pictureTasks)
                        && SavedFrom(names, |old(names)|, host.unwritable)
      ensures IsUnknownCameraEvent(state) ==> r == Raised(ValueError(state.name)) && trace == old(trace)
      ensures r.Raised? && !IsUnknownCameraEvent(state) ==>
                r.error.OSError? && LastFailed(names, |old(names)|, host.unwritable, r.error.filename)
      ensures state.Teardown? || state.Other? ==> r == Ok(()) && trace == old(trace)
      ensures trace == old(trace) ==> Mach() == old(Mach())
    {
      match state
      case Teardown =>
        Teardown(state);
        r := Ok(());
      case Review(picture) =>
        r := DoPostprocessTasks(picture);
      case CameraEvent(name, picture) =>
        if name == Capture {
          r := DoPictureTasks(picture);
        } else {
          r := Raised(ValueError(name));
        }
      case Other =>
        r := Ok(());
    }

    /** `teardown(state)`: a hook that does nothing. */
    method Teardown(state: State)
    {
    }

    /** `doPostprocessTasks(picture)`. */
    method DoPostprocessTasks(picture: Picture) returns (r: Result<()>)
      requires Valid()
      modifies this`trace, this`names, this`uploads, host, Lists
      ensures Valid()
      ensures RanPrefix(old(trace), trace, Applications(postprocessTasks, picture))
      ensures old(names) <= names && old(uploads) <= uploads
      ensures r.Ok? ==> trace == old(trace) + Applications(postprocessTasks, picture)
                        && SavedFrom(names, |old(names)|, host.unwritable)
      ensures r.Raised? ==> r.error.OSError? && LastFailed(names, |old(names)|, host.unwritable, r.error.filename)
      ensures trace == old(trace) ==> Mach() == old(Mach())
    {
      r := RunTasks(postprocessTasks, picture);
    }

    /** `doPictureTasks(picture)`. */
    method DoPictureTasks(picture: Picture) returns (r: Result<()>)
      requires Valid()
      modifies this`trace, this`names, this`uploads, host, Lists
      ensures Valid()
      ensures RanPrefix(old(trace), trace, Applications(pictureTasks, picture))
      ensures old(names) <= names && old(uploads) <= uploads
      ensures r.Ok? ==> trace == old(trace) + Applications(pictureTasks, picture)
                        && SavedFrom(names, |old(names)|, host.unwritable)
      ensures r.Raised? ==> r.error.OSError? && LastFailed(names, |old(names)|, host.unwritable, r.error.filename)
      ensures trace == old(trace) ==> Mach() == old(Mach())
    {
      r := RunTasks(pictureTasks, picture);
    }

    /** `for task in tasks: task.do(picture)`, for one of the two lists: the
        tasks run one after the other in list order, each saving under the
        next name of its list; the first one that raises ends the loop and
        its exception is raised to the caller. */
    method RunTasks(tasks: seq<PictureSaver>, picture: Picture) returns (r: Result<()>)
      requires Valid()
      requires tasks == postprocessTasks || tasks == pictureTasks
      modifies this`trace, this`names, this`uploads, host, Lists
      ensures Valid()
      ensures RanPrefix(old(trace), trace, Applications(tasks, picture))
      ensures old(names) <= names && old(uploads) <= uploads
      ensures r.Ok? ==> trace == old(trace) + Applications(tasks, picture)
                        && SavedFrom(names, |old(names)|, host.unwritable)
      ensures r.Raised? ==> r.error.OSError? && LastFailed(names, |old(names)|, host.unwritable, r.error.filename)
      ensures trace == old(trace) ==> Mach() == old(Mach())
    {
      ghost var plan := Applications(tasks, picture);
      ghost var m0, t0, n0, u0 := Mach(), trace, names, uploads;
      r := Ok(());
      var i := 0;
      while i < |tasks|
        invariant 0 <= i <= |tasks|
        invariant Valid()
        invariant r.Ok?
        invariant |trace| == |t0| + i
        invariant t0 + plan == trace + Applications(tasks[i..], picture)
        invariant t0 <= trace && n0 <= names && u0 <= uploads
        invariant i == 0 ==> Mach() == m0
        invariant SavedFrom(names, |n0|, host.unwritable)
      {
        ApplicationsFrom(tasks, picture, i);
        ghost var handled := trace;
        r := Call(tasks[i], picture);
        RunContinues(t0, plan, handled, [Application(tasks[i], picture)], Applications(tasks[i + 1..], picture), trace);
        if r.Raised? {
          break;
        }
        i := i + 1;
      }
    }

    /** Since the moment with calls `t0`, names `n0` and upload outcomes
        `u0`, when the machine was `m0` and the worker accounted for it, the
        worker made calls and only calls. */
    lemma {:induction false} Since(m0: Machine, t0: seq<Application<PictureSaver>>, n0: seq<string>, u0: seq<bool>)
      requires Accounted() && t0 <= trace && n0 <= names && u0 <= uploads && |n0| == |t0| && |u0| == |t0|
      requires m0 == Apply(start, t0, n0, u0, host.unwritable, mirror != null)
      ensures ChangedSince(m0, t0, n0, u0)
      ensures trace == t0 ==> Mach() == m0
    {
      ApplySince(start, t0, n0, u0, trace, names, uploads, host.unwritable, mirror != null);
      if trace == t0 {
        assert names == n0 && uploads == u0;
      }
    }

    /** One `task.do(picture)` of a task of either list, logged in `trace`
        with the name it saved under and its upload outcome: the call takes
        its list's next name, advances that list, and makes the `Step` of
        that name; it raises `OSError` naming the file exactly when the
        write fails. */
    method Call(task: PictureSaver, picture: Picture) returns (r: Result<()>)
      requires Valid()
      requires task in postprocessTasks || task in pictureTasks
      modifies this`trace, this`names, this`uploads, host, Lists
      ensures Valid()
      ensures trace == old(trace) + [Application(task, picture)]
      ensures names == old(names) + [NameAt(task, CallsTo(old(trace), task.picList))]
      ensures old(uploads) <= uploads && |uploads| == |old(uploads)| + 1
      ensures Mach() == Step(old(Mach()), Application(task, picture), names[|names| - 1], uploads[|uploads| - 1],
                             host.unwritable, mirror != null)
      ensures r.Ok? <==> names[|names| - 1] !in host.unwritable
      ensures r.Raised? ==> r.error == OSError(names[|names| - 1])
    {
      assert task.host == host && task.dbx == mirror && task.picList in Lists;
      ghost var m, t, n, u := Mach(), trace, names, uploads;
      ghost var name := task.NextName();
      ghost var uploadOk;
      r, uploadOk := task.Do(picture);
      assert Mach() == Step(m, Application(task, picture), name, uploadOk, host.unwritable, mirror != null);
      trace := trace + [Application(task, picture)];
      names := names + [name];
      uploads := uploads + [uploadOk];
      forall l | l in Lists ensures l.count == CallsTo(trace, l) {
        CallsToSnoc(t, Application(task, picture), l);
      }
      assert trace[..|trace| - 1] == t && names[..|names| - 1] == n && uploads[..|uploads| - 1] == u;
    }
  }
}
