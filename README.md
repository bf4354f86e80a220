# Photobooth worker, modelled in Dafny

The photobooth's worker runs on its own thread. It receives a stream of
session states from the booth's state machine and reacts to them:

- A review state carries an assembled picture. The worker hands it to every
  postprocess task, in list order.
- A camera event named `capture` carries a single shot. The worker hands it
  to every picture task, in list order.
- Any other camera event raises `ValueError`.
- Teardown runs an empty hook, and any other state is ignored.

Both task lists are built once, at construction. Each holds one
`PictureSaver`. A saver writes each picture it receives to the next file
name of its picture list. When a Dropbox API key is configured, it then
uploads that file's bytes to the same path in the Dropbox account. A
failed upload is swallowed. A failed local write raises, and the exception
escapes the worker's loop.

The project has four modules:

- `Externals` (`externals.dfy`) holds the stand-ins for what the worker
  calls but does not define:
  - picture buffers as byte sequences;
  - the two exceptions that can escape, `ValueError` and `OSError`;
  - POSIX `os.path.join` for two components;
  - a `Host` class: the local files, the remote Dropbox files, and a ghost
    journal of every write and upload in order;
  - the Dropbox client, whose upload succeeds or fails nondeterministically;
  - the `PictureList` name allocator.
- `Dispatch` (`dispatch.dfy`) states the routing as values. `Applications`
  is the calls one task list makes on one picture. `Planned` is the calls
  one state causes. `RunPlan` is the calls a whole stream causes. The
  routing properties are lemmas about these three functions.
- `PhotoWorker` (`worker.dfy`) holds the `PictureSaver` and `Worker`
  classes. Their methods have the source's loops and branches. Each method
  is proved to make exactly the calls `Dispatch` plans, or a prefix of them
  when a task raises. It also ends exactly as the saves went: for the
  states it accepts, it returns normally exactly when every write it
  caused succeeded, and it raises `OSError` for the first write that
  failed, which is its last call. `HandleState` and `Run` raise
  `ValueError` at the first refused camera event.
  The same module states what the calls do to the machine, as values:
  - `Machine` is the local files, the remote files and the I/O journal;
  - `Step` is one call's effect and `Apply` is the effect of a sequence of
    calls;
  - lemmas about `Apply` give the saved files, the untouched files, the
    journalled writes and the uploads that mirror them.
- `Scenarios` (`scenarios.dfy`) holds three whole runs over short fixed
  streams. Each is derived from the worker's contracts alone.

Python's exceptions are modelled as a `Result` value that a method returns.
An exception that escapes a method becomes `Raised(e)`, and the caller
passes it on unchanged, as Python does. The ghost field `Worker.trace` logs
every `task.do(picture)` call as an `Application(task, picture)`. It is the
observable that the routing contracts talk about. Beside it, the ghost
fields `names` and `uploads` log the file name each call took and whether
its upload went through. The worker's invariant `Valid` ties the machine to
these logs: the machine is always `Apply(start, trace, names, uploads, …)`,
the machine at construction changed by the logged calls and by nothing
else. Each call took the next name of its saver's picture list, and each
list's count is the number of calls made on it.

## Model

| member | source | states |
|---|---|---|
| Externals.JoinPathParts | photobooth/worker/__init__.py:86-87 | `os.path.join(a, b)`: an absolute `b` replaces `a`; otherwise the result starts with `a`, then has a separator exactly when `a` is non-empty and does not already end with one, then ends with `b` |
| Externals.RootedDestination | photobooth/worker/__init__.py:63 | the upload destination `os.path.join('/', name)` is always an absolute path: it is `'/' + name` for a relative name and the name itself for an absolute one |
| Externals.Host.Create | photobooth/worker/__init__.py:55-56 | `open(path, 'wb').write(data)` succeeds exactly when the path is writable; the file then holds exactly `data` and nothing else changes; on failure no file changes; the journal records the attempt |
| Externals.Host.Read | photobooth/worker/__init__.py:60-61 | reading a file returns exactly its stored bytes, and reports absence for a missing path |
| Externals.Dropbox.FilesUpload | photobooth/worker/__init__.py:62-67 | `files_upload` in add mode never replaces an existing remote file; on success the remote path holds exactly the sent bytes; local files never change; the journal records the call and its outcome |
| Externals.PictureList.GetNext | photobooth/worker/__init__.py:53 | `getNext()` returns the list's next name in its numbering and advances the count by one |
| Externals.PictureList.constructor | photobooth/worker/__init__.py:49 | a new picture list starts at the beginning of its numbering under the given base name |
| Externals.Dropbox.constructor | photobooth/worker/__init__.py:76 | a client handle is bound to the given API key |
| Dispatch.Applications | photobooth/worker/__init__.py:126-127 | a task list makes one call per task when no task raises |
| Dispatch.ApplicationsAt | photobooth/worker/__init__.py:126-127 | the `i`-th call runs the `i`-th task of the list, on the given picture: list order |
| Dispatch.ApplicationsSplit | photobooth/worker/__init__.py:126-127 | running a list split in two, one part after the other, makes the same calls as running the whole list |
| Dispatch.ApplicationsMembers | photobooth/worker/__init__.py:131-132 | a call is made if and only if its task is in the list and its picture is the one given |
| Dispatch.ApplicationsCount | photobooth/worker/__init__.py:131-132 | each task runs on the picture exactly as many times as it occurs in the list |
| Dispatch.ReviewRunsPostprocessTasks | photobooth/worker/__init__.py:112-113 | a review state runs every postprocess task, in list order, exactly as often as it is listed, on the review's picture, and nothing else |
| Dispatch.CaptureRunsPictureTasks | photobooth/worker/__init__.py:114-116 | a `capture` camera event runs every picture task, in list order, exactly as often as it is listed, on the event's picture, and nothing else |
| Dispatch.RunPlanAppend | photobooth/worker/__init__.py:103-104 | when the first part of a stream holds no refused event, the stream is accepted exactly when its second part is, and handling it is handling the first part and then the second |
| Dispatch.RunPlanStopsAtUnknown | photobooth/worker/__init__.py:103-104 | nothing after the first camera event other than `capture` is handled |
| Dispatch.RunPlanSkipsIdle | photobooth/worker/__init__.py:110-111 | a teardown or an unrecognised state anywhere in the stream changes nothing about the calls made, before or after it; in particular teardown does not end the run |
| Dispatch.RunPlanOnlyRoutes | photobooth/worker/__init__.py:108-118 | every call a run makes is a postprocess task on the picture of some review in the stream, or a picture task on the picture of some `capture` event in the stream |
| Dispatch.StoppedWithin | photobooth/worker/__init__.py:103-104 | a run that stops part-way through the calls of one state, every earlier state handled in full, has made all the calls planned before that state and part of that state's own |
| Dispatch.HandledOne | photobooth/worker/__init__.py:103-104 | handling one more state, every earlier state handled in full, keeps the calls made a prefix of the run's; a refused state ends the run with all its calls made; an accepted state handled in full leaves the rest of the stream to do; one that stopped part-way stopped within its own calls |
| PhotoWorker.Destination | photobooth/worker/__init__.py:63 | the file's Dropbox destination is always rooted, and is `'/'` followed by the name for a relative name |
| PhotoWorker.Effects | photobooth/worker/__init__.py:55-67 | one `do` journals the failed write for an unwritable name and nothing else; otherwise the write of the picture's bytes, followed, exactly when a handle exists, by an add-mode upload of those bytes to the file's destination |
| PhotoWorker.AllocatedAt | photobooth/worker/__init__.py:53 | in a run of calls, each call took the name numbered by how many calls its own list had before it |
| PhotoWorker.AllocatedFromEach | photobooth/worker/__init__.py:53 | conversely, calls that each took the name numbered by their list's earlier calls form a valid run of calls |
| PhotoWorker.Apply | photobooth/worker/__init__.py:126-132 | a sequence of calls only appends to the journal, at most two entries per call, and without a Dropbox handle leaves the remote files as they were |
| PhotoWorker.ApplyAppend | photobooth/worker/__init__.py:126-127 | making two runs of calls one after the other has the effect of making all of them in order |
| PhotoWorker.ApplySince | photobooth/worker/__init__.py:103-104 | the calls made since an earlier moment, applied to that moment's machine, give the machine of now |
| PhotoWorker.SavedPicture | photobooth/worker/__init__.py:55-56 | a call whose write succeeded, and whose name no later call reused, leaves exactly its picture's buffer in that file |
| PhotoWorker.UntouchedFile | photobooth/worker/__init__.py:55-56 | a path that no call was named keeps its local file, present or absent, exactly as it was |
| PhotoWorker.WritesJournalled | photobooth/worker/__init__.py:53-56 | every call leaves its local write, or the failure of it, in the new part of the journal |
| PhotoWorker.UploadsMirrorWrites | photobooth/worker/__init__.py:58-63 | every upload the calls add comes right after the local write whose bytes it sends to that file's destination; without a handle they add no upload |
| PhotoWorker.PictureSaver.constructor | photobooth/worker/__init__.py:45-49 | a saver keeps the given Dropbox handle and gets a new picture list under the given base name |
| PhotoWorker.PictureSaver.Do | photobooth/worker/__init__.py:51-67 | `do` takes the next name and writes the picture's whole buffer there first. It returns normally exactly when that write succeeds, and raises `OSError` naming the file otherwise, with no upload. An upload is attempted only after a successful write and only when a handle exists. The upload sends exactly the written bytes to `os.path.join('/', name)` in add mode. Its failure leaves the return and the local file unaffected. The whole new file, remote-file and journal state is given |
| PhotoWorker.Worker.constructor | photobooth/worker/__init__.py:71-79 | a Dropbox handle is created exactly when the configured key is non-empty, and both savers share it. Each list holds one new saver, with distinct picture lists. The postprocess saver's base name is `strftime` of `join(basedir, basename)`; the single-shot one's is `strftime` of `join(basedir, basename + '_shot_')`. No call has been made yet, and the machine is the one given |
| PhotoWorker.Worker.InitPostprocessTasks | photobooth/worker/__init__.py:81-89 | the postprocess list is exactly one new saver, sharing the handle, under the time-stamped `join(basedir, basename)` |
| PhotoWorker.Worker.InitPictureTasks | photobooth/worker/__init__.py:91-99 | the picture list is exactly one new saver, sharing the handle, under the time-stamped `join(basedir, basename + '_shot_')` |
| PhotoWorker.Worker.Run | photobooth/worker/__init__.py:101-106 | `run` handles the states in order. It returns `True` exactly when it handled the whole stream, which then holds no refused event, having made every planned call, each of whose writes succeeded. A refused camera event raises `ValueError` naming the first refused event, after exactly the calls planned before it. Otherwise it raises `OSError` for the one failed write, its last call, while handling an accepted state: after all calls planned before that state and part of that state's. The machine is always the start machine changed by the calls made, and a run that made no call leaves it unchanged |
| PhotoWorker.Worker.HandleState | photobooth/worker/__init__.py:108-122 | review runs the postprocess list and `capture` the picture list; another camera event raises `ValueError` with its name and makes no call; teardown and other states return normally and make no call. It returns normally exactly when all the calls were made and every write succeeded, and otherwise raises `OSError` for the failed write, which is its last call. A state that makes no call leaves the machine unchanged |
| PhotoWorker.Worker.DoPostprocessTasks | photobooth/worker/__init__.py:124-127 | makes the postprocess list's calls, in order; returns normally only when all were made and every write succeeded; otherwise raises `OSError` for the failed write, its last call |
| PhotoWorker.Worker.DoPictureTasks | photobooth/worker/__init__.py:129-132 | makes the picture list's calls, in order; returns normally only when all were made and every write succeeded; otherwise raises `OSError` for the failed write, its last call |
| PhotoWorker.Worker.RunTasks | photobooth/worker/__init__.py:126-127 | the shared `for task in tasks: task.do(picture)` loop: when it returns normally it made exactly the list's calls, in order, and every write succeeded; when a task raises, the loop stops there, after a prefix of those calls whose writes all succeeded except the last, and that `OSError` escapes |
| PhotoWorker.Worker.Call | photobooth/worker/__init__.py:127 | one `task.do(picture)` takes its list's next name, advances that list, changes the machine by exactly that call's `Step`, and raises `OSError` naming the file exactly when the write fails |
| PhotoWorker.Worker.Since | photobooth/worker/__init__.py:103-104 | since any earlier moment of the worker, the machine has changed by the calls made since then and nothing else; with no call since, not at all |
| Scenarios.SingleCall | photobooth/worker/__init__.py:53-56 | without a Dropbox handle, a single call on a fresh saver took its first name and left the picture in that file, or only the failed write in the journal |
| Scenarios.ReviewThenTeardown | photobooth/worker/__init__.py:101-113 | without a Dropbox key and with every file writable, a review followed by teardown makes `run` return `True` after one saver call on the reviewed picture; the disk holds exactly that picture under the saver's first name, and the journal holds exactly that write |
| Scenarios.ReviewOnFullDisk | photobooth/worker/__init__.py:51-56 | the same run on a disk that refuses the saver's first file makes `run` raise `OSError` naming that file; the disk is unchanged and the journal holds only the failed write |
| Scenarios.UnknownEventFirst | photobooth/worker/__init__.py:114-118 | a stream starting with a camera event named `focus` makes `run` raise `ValueError` naming it before any task runs, whatever follows, and leaves the files, remote files and journal unchanged |

## Left out

- The `WorkerTask` base class, its `assert not kwargs` and its `do`, which raises `NotImplementedError`. Only `PictureSaver` implements `do`, and it is modelled directly.
- `PictureList` and its numbering scheme are not part of this model. The `k`-th name for a base name is a parameter function `numbering(basename, k)`. Nothing is assumed about freshness, so two saves may reuse a name and overwrite a file.
- `strftime` and the two `localtime()` readings are parameters of the constructor: a function and two instants.
- The configuration file is a `Config` value with the three `Storage` entries the worker reads.
- `comm.iter(Workers.WORKER)` and the threading behind it are not modelled. The stream is a finite sequence given to `Run`, and the loop ends when it ends.
- Logging and `print` are not modelled. They carry no state the worker reads.
- File I/O is reduced to whole-file success or failure. A path in `Host.unwritable` fails, which stands for permissions, a missing directory or a full disk. Partial writes are not modelled. Neither is a file that vanishes between the write and the read-back: the read-back always finds the bytes just written.
- Which exception the Dropbox client raises is not modelled, because the source's bare `except` swallows all of them. The upload outcome is a nondeterministic boolean.
- `Worker.HandleState`: the `ValueError` carries the refused event's name, not the formatted message text, which embeds the state's printed form.
- `Worker.Run`: `stop`, the position of the state being handled when the run ended, is a ghost output of the model, not something `run` returns.
- `Worker.Run`, `Worker.HandleState` and the task-list methods state the machine's new state through the invariant `Valid`, as the start machine changed by all calls made so far. The change since the call began follows from that by `Worker.Since`; it is not repeated in each method's own contract.
- `PhotoWorker.Step`: it records a successful upload as setting the remote file, and does not carry `files_upload`'s fact that add mode never replaces an existing remote file. That fact is stated by `Dropbox.FilesUpload` and `PictureSaver.Do` only.
- `Worker.InitPostprocessTasks` and `Worker.InitPictureTasks` return the new list, and the constructor assigns it. In the source they assign the attribute themselves. The resulting state is the same.
- `Worker.Teardown` is the empty hook. Its effect, that nothing changes, is stated in `Worker.HandleState`'s contract.
- The `comm` handle stored by the constructor is not modelled. Only `run` uses it, as the stream.
