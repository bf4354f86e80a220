/** Whole runs of a freshly built worker over short, fixed streams of states,
    derived from the contracts of module PhotoWorker alone. */
module Scenarios {
  import opened Externals
  import opened Dispatch
  import opened PhotoWorker

  /** The name the postprocess saver of a worker built from `config` at
      `postTime` gives its first picture. */
  function FirstPostName(config: Config, strftime: (string, Instant) -> string, postTime: Instant,
                         numbering: (string, nat) -> string): (name: string)
  {
    numbering(strftime(JoinPath(config.basedir, config.basename), postTime), 0)
  }

  /** A worker without a Dropbox handle that made one call, on saver
      `task`, took that saver's first name and either wrote the picture
      there or logged the failed write. */
  lemma SingleCall(m: Machine, calls: seq<Application<PictureSaver>>, names: seq<string>, oks: seq<bool>,
                   unwritable: set<string>, task: PictureSaver, p: Picture)
    requires Allocated(calls, names) && |oks| == |calls| && calls == [Application(task, p)]
    ensures names == [NameAt(task, 0)]
    ensures var r := Apply(m, calls, names, oks, unwritable, false);
            && r.files == (if NameAt(task, 0) in unwritable then m.files else m.files[NameAt(task, 0) := p.buffer])
            && r.journal == m.journal + [if NameAt(task, 0) in unwritable then CreateFailed(NameAt(task, 0))
                                         else Created(NameAt(task, 0), p.buffer)]
  {
    AllocatedAt(calls, names, 0);
    assert calls[..0] == [];
    ApplyOne(m, calls, names, oks, unwritable, false);
  }

  /** A review followed by teardown, with a single postprocess task, is
      accepted and plans exactly one call: that task on the reviewed
      picture. */
  lemma ReviewThenTeardownPlan<T>(p: Picture, post: seq<T>, shots: seq<T>)
    requires |post| == 1
    ensures NoUnknown([Review(p), Teardown])
    ensures RunPlan([Review(p), Teardown], post, shots) == [Application(post[0], p)]
  {
    var events := [Review(p), Teardown];
    assert events[1..] == [Teardown] && events[1..][1..] == [];
    assert RunPlan(events[1..], post, shots) == [] + RunPlan([], post, shots) == [];
    assert post[1..] == [];
    assert RunPlan(events, post, shots) == Applications(post, p) + [] == [Application(post[0], p)];
  }

  /** A booth without a Dropbox key whose disk accepts every file reviews
      one picture and is torn down: `run` returns `True`, the one postprocess
      saver ran once, on that picture; the disk then holds exactly that
      picture under the saver's first name, the journal holds exactly that
      write, and nothing was uploaded. */
  method ReviewThenTeardown(config: Config, p: Picture, strftime: (string, Instant) -> string,
                            postTime: Instant, shotTime: Instant, numbering: (string, nat) -> string)
    returns (r: Result<bool>, files: map<string, Bytes>, ghost calls: seq<Application<PictureSaver>>,
             ghost journal: seq<Effect>)
    requires config.dropboxApiKey == []
    ensures r == Ok(true)
    ensures |calls| == 1 && calls[0].picture == p
    ensures files == map[FirstPostName(config, strftime, postTime, numbering) := p.buffer]
    ensures journal == [Created(FirstPostName(config, strftime, postTime, numbering), p.buffer)]
  {
    var host := new Host(map[], {}, map[]);
    var worker := new Worker(config, host, strftime, postTime, shotTime, numbering);
    var events := [Review(p), Teardown];
    var post, shots := worker.postprocessTasks, worker.pictureTasks;
    ReviewThenTeardownPlan(p, post, shots);
    ghost var stop;
    r, stop := worker.Run(events);
    calls := worker.trace;
    SingleCall(worker.start, calls, worker.names, worker.uploads, host.unwritable, post[0], p);
    files := host.files;
    journal := host.journal;
  }

  /** The same booth whose disk refuses the postprocess saver's first file:
      `run` raises `OSError` naming that file, after one call; the disk is
      as it was and the journal holds only the failed write. */
  method ReviewOnFullDisk(config: Config, p: Picture, strftime: (string, Instant) -> string,
                          postTime: Instant, shotTime: Instant, numbering: (string, nat) -> string)
    returns (r: Result<bool>, files: map<string, Bytes>, ghost calls: seq<Application<PictureSaver>>,
             ghost journal: seq<Effect>)
    requires config.dropboxApiKey == []
    ensures r == Raised(OSError(FirstPostName(config, strftime, postTime, numbering)))
    ensures |calls| == 1 && calls[0].picture == p
    ensures files == map[]
    ensures journal == [CreateFailed(FirstPostName(config, strftime, postTime, numbering))]
  {
    var name := FirstPostName(config, strftime, postTime, numbering);
    var host := new Host(map[], {name}, map[]);
    var worker := new Worker(config, host, strftime, postTime, shotTime, numbering);
    var events := [Review(p), Teardown];
    var post, shots := worker.postprocessTasks, worker.pictureTasks;
    ReviewThenTeardownPlan(p, post, shots);
    ghost var stop;
    r, stop := worker.Run(events);
    calls := worker.trace;
    SingleCall(worker.start, calls, worker.names, worker.uploads, host.unwritable, post[0], p);
    assert r.Raised?;
    files := host.files;
    journal := host.journal;
  }

  /** A stream that starts with a camera event other than `capture` ends the
      run at once with a `ValueError` naming that event, whatever follows it
      and whatever the configuration: no task runs and the machine is left
      as it was. */
  method UnknownEventFirst(config: Config, host: Host, p: Picture, rest: seq<State>, strftime: (string, Instant) -> string,
                           postTime: Instant, shotTime: Instant, numbering: (string, nat) -> string)
    returns (r: Result<bool>, ghost calls: seq<Application<PictureSaver>>)
    modifies host
    ensures r == Raised(ValueError("focus"))
    ensures calls == []
    ensures host.files == old(host.files) && host.cloud == old(host.cloud) && host.journal == old(host.journal)
  {
    var worker := new Worker(config, host, strftime, postTime, shotTime, numbering);
    var events := [CameraEvent("focus", p)] + rest;
    assert IsUnknownCameraEvent(events[0]);
    ghost var stop;
    r, stop := worker.Run(events);
    calls := worker.trace;
  }
}
