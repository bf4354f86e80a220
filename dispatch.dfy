/** What the worker's dispatcher does with a stream of session states, stated
    as values: which task runs on which picture, in which order. The worker's
    loops in module PhotoWorker are proved to perform exactly these
    applications; the lemmas here are the routing properties. */
module Dispatch {
  import opened Externals

  /** The session states the state machine publishes to the worker. */
  datatype State =
    | Teardown
    | Review(picture: Picture)
    | CameraEvent(name: string, picture: Picture)
    | Other   // a state of any other class

  /** The only camera event the worker knows. */
  const Capture: string := "capture"

  /** A camera event the worker refuses with a `ValueError`. */
  predicate IsUnknownCameraEvent(s: State) {
    s.CameraEvent? && s.name != Capture
  }

  /** No state of the stream is refused. */
  predicate NoUnknown(states: seq<State>) {
    forall s | s in states :: !IsUnknownCameraEvent(s)
  }

  /** One call `task.do(picture)`. */
  datatype Application<T> = Application(task: T, picture: Picture)

  /** The calls `for task in tasks: task.do(picture)` makes when no task raises. */
  function Applications<T>(tasks: seq<T>, picture: Picture): (r: seq<Application<T>>)
    ensures |r| == |tasks|
  {
    if tasks == [] then [] else [Application(tasks[0], picture)] + Applications(tasks[1..], picture)
  }

  /** The `i`-th call runs the `i`-th task, on the given picture. */
  lemma {:induction false} ApplicationsAt<T>(tasks: seq<T>, picture: Picture, i: nat)
    requires i < |tasks|
    ensures Applications(tasks, picture)[i] == Application(tasks[i], picture)
  {
    if i > 0 {
      ApplicationsAt(tasks[1..], picture, i - 1);
    }
  }

  /** The calls from the `i`-th task on: that task's call, then the rest. */
  lemma ApplicationsFrom<T>(tasks: seq<T>, picture: Picture, i: nat)
    requires i < |tasks|
    ensures Applications(tasks[i..], picture) == [Application(tasks[i], picture)] + Applications(tasks[i + 1..], picture)
  {
  }

  /** Running two lists one after the other is running their concatenation. */
  lemma {:induction false} ApplicationsSplit<T>(xs: seq<T>, ys: seq<T>, picture: Picture)
    ensures Applications(xs + ys, picture) == Applications(xs, picture) + Applications(ys, picture)
  {
    if xs != [] {
      assert (xs + ys)[1..] == xs[1..] + ys;
      ApplicationsSplit(xs[1..], ys, picture);
      assert Applications(xs + ys, picture)
          == [Application(xs[0], picture)] + (Applications(xs[1..], picture) + Applications(ys, picture));
    } else {
      assert xs + ys == ys;
    }
  }

  /** A call is made exactly when its task is in the list and its picture is the one given. */
  lemma {:induction false} ApplicationsMembers<T>(tasks: seq<T>, picture: Picture, a: Application<T>)
    ensures a in Applications(tasks, picture) <==> a.task in tasks && a.picture == picture
  {
    if tasks != [] {
      ApplicationsMembers(tasks[1..], picture, a);
      assert tasks == [tasks[0]] + tasks[1..];
    }
  }

  /** Each task runs on the picture as many times as it occurs in the list:
      once, for a list without repetitions. */
  lemma {:induction false} ApplicationsCount<T>(tasks: seq<T>, picture: Picture, t: T)
    ensures multiset(Applications(tasks, picture))[Application(t, picture)] == multiset(tasks)[t]
  {
    if tasks != [] {
      ApplicationsCount(tasks[1..], picture, t);
      assert tasks == [tasks[0]] + tasks[1..];
    }
  }

  /** The calls `handleState(s)` makes when no task raises: a review runs the
      postprocess list on its picture, a capture event runs the picture list
      on its picture; teardown (a no-op hook), unknown camera events and every
      other state run nothing. */
  function Planned<T>(s: State, post: seq<T>, shots: seq<T>): (r: seq<Application<T>>) {
    match s
    case Teardown => []
    case Review(p) => Applications(post, p)
    case CameraEvent(name, p) => if name == Capture then Applications(shots, p) else []
    case Other => []
  }

  /** A review runs every postprocess task exactly as often as it is listed,
      in list order, on the review's picture, and no picture task that is not
      also a postprocess task. */
  lemma ReviewRunsPostprocessTasks<T>(p: Picture, post: seq<T>, shots: seq<T>)
    ensures |Planned(Review(p), post, shots)| == |post|
    ensures forall i | 0 <= i < |post| :: Planned(Review(p), post, shots)[i] == Application(post[i], p)
    ensures forall t :: multiset(Planned(Review(p), post, shots))[Application(t, p)] == multiset(post)[t]
    ensures forall a | a in Planned(Review(p), post, shots) :: a.task in post && a.picture == p
  {
    forall i | 0 <= i < |post| ensures Applications(post, p)[i] == Application(post[i], p) {
      ApplicationsAt(post, p, i);
    }
    forall t ensures multiset(Applications(post, p))[Application(t, p)] == multiset(post)[t] {
      ApplicationsCount(post, p, t);
    }
    forall a | a in Applications(post, p) ensures a.task in post && a.picture == p {
      ApplicationsMembers(post, p, a);
    }
  }

  /** A capture event runs every picture task exactly as often as it is
      listed, in list order, on the event's picture, and no postprocess task
      that is not also a picture task. */
  lemma CaptureRunsPictureTasks<T>(p: Picture, post: seq<T>, shots: seq<T>)
    ensures |Planned(CameraEvent(Capture, p), post, shots)| == |shots|
    ensures forall i | 0 <= i < |shots| :: Planned(CameraEvent(Capture, p), post, shots)[i] == Application(shots[i], p)
    ensures forall t :: multiset(Planned(CameraEvent(Capture, p), post, shots))[Application(t, p)] == multiset(shots)[t]
    ensures forall a | a in Planned(CameraEvent(Capture, p), post, shots) :: a.task in shots && a.picture == p
  {
    forall i | 0 <= i < |shots| ensures Applications(shots, p)[i] == Application(shots[i], p) {
      ApplicationsAt(shots, p, i);
    }
    forall t ensures multiset(Applications(shots, p))[Application(t, p)] == multiset(shots)[t] {
      ApplicationsCount(shots, p, t);
    }
    forall a | a in Applications(shots, p) ensures a.task in shots && a.picture == p {
      ApplicationsMembers(shots, p, a);
    }
  }

  /** The calls `run` makes over a stream of states when no task raises: the
      states are handled in order, and the first unknown camera event ends
      the run. Teardown does not end it. */
  function RunPlan<T>(states: seq<State>, post: seq<T>, shots: seq<T>): (r: seq<Application<T>>) {
    if states == [] || IsUnknownCameraEvent(states[0]) then []
    else Planned(states[0], post, shots) + RunPlan(states[1..], post, shots)
  }

  /** Handling a stream in two parts, the first without unknown events, is
      handling the whole stream. */
  lemma {:induction false} RunPlanAppend<T>(xs: seq<State>, ys: seq<State>, post: seq<T>, shots: seq<T>)
    requires NoUnknown(xs)
    ensures NoUnknown(xs + ys) <==> NoUnknown(ys)
    ensures RunPlan(xs + ys, post, shots) == RunPlan(xs, post, shots) + RunPlan(ys, post, shots)
  {
    if xs != [] {
      var zs := xs + ys;
      assert zs[0] == xs[0] && !IsUnknownCameraEvent(xs[0]);
      assert zs[1..] == xs[1..] + ys;
      assert NoUnknown(xs[1..]) by {
        forall s | s in xs[1..] ensures !IsUnknownCameraEvent(s) {
          assert s in xs;
        }
      }
      RunPlanAppend(xs[1..], ys, post, shots);
      assert RunPlan(zs, post, shots) == Planned(xs[0], post, shots) + RunPlan(zs[1..], post, shots);
      assert RunPlan(xs, post, shots) == Planned(xs[0], post, shots) + RunPlan(xs[1..], post, shots);
      ConcatAssoc(Planned(xs[0], post, shots), RunPlan(xs[1..], post, shots), RunPlan(ys, post, shots));
    } else {
      assert xs + ys == ys;
    }
  }

  /** The rest of a run from its `i`-th state on: that state's calls and
      then the rest, unless the state is refused, which ends the run. */
  lemma RunPlanFrom<T>(states: seq<State>, i: nat, post: seq<T>, shots: seq<T>)
    requires i < |states|
    ensures RunPlan(states[i..], post, shots) ==
              if IsUnknownCameraEvent(states[i]) then []
              else Planned(states[i], post, shots) + RunPlan(states[i + 1..], post, shots)
  {
  }

  /** After an unknown camera event, nothing more of the stream is handled. */
  lemma RunPlanStopsAtUnknown<T>(xs: seq<State>, s: State, ys: seq<State>, post: seq<T>, shots: seq<T>)
    requires NoUnknown(xs) && IsUnknownCameraEvent(s)
    ensures RunPlan(xs + [s] + ys, post, shots) == RunPlan(xs, post, shots)
  {
    RunPlanAppend(xs, [s] + ys, post, shots);
    assert xs + [s] + ys == xs + ([s] + ys);
  }

  /** A teardown or an unrecognised state anywhere in the stream changes
      nothing about what runs, before or after it. */
  lemma {:induction false} RunPlanSkipsIdle<T>(xs: seq<State>, s: State, ys: seq<State>, post: seq<T>, shots: seq<T>)
    requires s.Teardown? || s.Other?
    ensures RunPlan(xs + [s] + ys, post, shots) == RunPlan(xs + ys, post, shots)
  {
    if xs == [] {
      assert xs + [s] + ys == [s] + ys && xs + ys == ys;
      assert ([s] + ys)[1..] == ys;
    } else {
      assert (xs + [s] + ys)[1..] == xs[1..] + [s] + ys;
      assert (xs + ys)[1..] == xs[1..] + ys;
      assert (xs + [s] + ys)[0] == xs[0] && (xs + ys)[0] == xs[0];
      RunPlanSkipsIdle(xs[1..], s, ys, post, shots);
    }
  }

  /** Nothing else runs: every call of a run is a postprocess task on the
      picture of some review of the stream, or a picture task on the picture
      of some capture event of the stream. */
  lemma {:induction false} RunPlanOnlyRoutes<T>(states: seq<State>, post: seq<T>, shots: seq<T>, a: Application<T>)
    requires a in RunPlan(states, post, shots)
    ensures exists i | 0 <= i < |states| ::
              (states[i] == Review(a.picture) && a.task in post)
              || (states[i] == CameraEvent(Capture, a.picture) && a.task in shots)
  {
    var s := states[0];
    if a in Planned(s, post, shots) {
      match s
      case Review(p) =>
        ApplicationsMembers(post, p, a);
        assert states[0] == Review(a.picture);
      case CameraEvent(name, p) =>
        ApplicationsMembers(shots, p, a);
        assert states[0] == CameraEvent(Capture, a.picture);
    } else {
      RunPlanOnlyRoutes(states[1..], post, shots, a);
      var i :| 0 <= i < |states[1..]| &&
               ((states[1..][i] == Review(a.picture) && a.task in post)
               || (states[1..][i] == CameraEvent(Capture, a.picture) && a.task in shots));
      assert states[i + 1] == states[1..][i];
    }
  }

  /** `after` extends `before` by a prefix of `plan`: the calls made when
      the run stopped at some point of the plan. */
  ghost predicate RanPrefix<T>(before: seq<Application<T>>, after: seq<Application<T>>, plan: seq<Application<T>>) {
    before <= after && after <= before + plan
  }

  /** Handling one state of a run: a handler that stopped part-way through
      that state's calls stopped part-way through the whole run, and one that
      made all of them leaves exactly the rest of the run to do. */
  lemma RunContinues<T>(start: seq<Application<T>>, plan: seq<Application<T>>, handled: seq<Application<T>>,
                        step: seq<Application<T>>, rest: seq<Application<T>>, after: seq<Application<T>>)
    requires start <= handled && start + plan == handled + (step + rest)
    requires RanPrefix(handled, after, step)
    ensures RanPrefix(start, after, plan)
    ensures after == handled + step ==> start + plan == after + rest
  {
  }

  /** A handler that stopped part-way through the calls of the `i`-th state,
      after all of the states before it were handled in full, stopped after
      the calls planned for the states before it and within those of the
      `i`-th. */
  lemma StoppedWithin<T>(states: seq<State>, i: nat, post: seq<T>, shots: seq<T>,
                         start: seq<Application<T>>, handled: seq<Application<T>>, after: seq<Application<T>>)
    requires i < |states| && !IsUnknownCameraEvent(states[i])
    requires forall k | 0 <= k < i :: !IsUnknownCameraEvent(states[k])
    requires start + RunPlan(states, post, shots) == handled + RunPlan(states[i..], post, shots)
    requires handled < after <= handled + Planned(states[i], post, shots)
    ensures start + RunPlan(states[..i], post, shots) < after <= start + RunPlan(states[..i + 1], post, shots)
  {
    HandledBefore(states, i, post, shots, start, handled);
    RunPlanSnoc(states, i, post, shots);
    ConcatAssoc(start, RunPlan(states[..i], post, shots), Planned(states[i], post, shots));
  }

  /** One more state of a run handled, every state before it handled in
      full: the calls made so far are a prefix of the run's; a refused
      state ends the run with all of its calls made; an accepted state
      handled in full leaves the rest of the run to do; and one that stopped
      part-way stopped within that state's own calls. */
  lemma HandledOne<T>(states: seq<State>, i: nat, post: seq<T>, shots: seq<T>,
                      start: seq<Application<T>>, handled: seq<Application<T>>, after: seq<Application<T>>)
    requires i < |states|
    requires forall k | 0 <= k < i :: !IsUnknownCameraEvent(states[k])
    requires start <= handled && start + RunPlan(states, post, shots) == handled + RunPlan(states[i..], post, shots)
    requires RanPrefix(handled, after, Planned(states[i], post, shots))
    ensures RanPrefix(start, after, RunPlan(states, post, shots))
    ensures IsUnknownCameraEvent(states[i]) ==> after == start + RunPlan(states, post, shots)
    ensures !IsUnknownCameraEvent(states[i]) && after == handled + Planned(states[i], post, shots) ==>
              start + RunPlan(states, post, shots) == after + RunPlan(states[i + 1..], post, shots)
    ensures !IsUnknownCameraEvent(states[i]) && handled < after ==>
              start + RunPlan(states[..i], post, shots) < after <= start + RunPlan(states[..i + 1], post, shots)
  {
    var step, rest := Planned(states[i], post, shots), RunPlan(states[i + 1..], post, shots);
    RunPlanFrom(states, i, post, shots);
    if IsUnknownCameraEvent(states[i]) {
      assert after == handled;
    } else {
      RunContinues(start, RunPlan(states, post, shots), handled, step, rest, after);
      if handled < after {
        StoppedWithin(states, i, post, shots, start, handled, after);
      }
    }
  }

  /** A handler that has the rest of the run from the `i`-th state still to
      do, with none of the states before it refused, has made exactly the
      calls of those states. */
  lemma HandledBefore<T>(states: seq<State>, i: nat, post: seq<T>, shots: seq<T>,
                         start: seq<Application<T>>, handled: seq<Application<T>>)
    requires i <= |states|
    requires forall k | 0 <= k < i :: !IsUnknownCameraEvent(states[k])
    requires start + RunPlan(states, post, shots) == handled + RunPlan(states[i..], post, shots)
    ensures handled == start + RunPlan(states[..i], post, shots)
  {
    var xs, ys := states[..i], states[i..];
    assert states == xs + ys;
    NoUnknownPrefix(states, i);
    RunPlanAppend(xs, ys, post, shots);
    var done, rest := RunPlan(xs, post, shots), RunPlan(ys, post, shots);
    ConcatAssoc(start, done, rest);
    CancelRight(start + done, handled, rest);
  }

  /** The states before the first refused one hold no refused state. */
  lemma NoUnknownPrefix(states: seq<State>, i: nat)
    requires i <= |states|
    requires forall k | 0 <= k < i :: !IsUnknownCameraEvent(states[k])
    ensures NoUnknown(states[..i])
  {
    forall s | s in states[..i] ensures !IsUnknownCameraEvent(s) {
      var k :| 0 <= k < i && states[..i][k] == s;
    }
  }

  /** The calls of the first `i + 1` states, none of them refused: those of
      the first `i`, then those of the `i`-th. */
  lemma RunPlanSnoc<T>(states: seq<State>, i: nat, post: seq<T>, shots: seq<T>)
    requires i < |states| && !IsUnknownCameraEvent(states[i])
    requires forall k | 0 <= k < i :: !IsUnknownCameraEvent(states[k])
    ensures RunPlan(states[..i + 1], post, shots) == RunPlan(states[..i], post, shots) + Planned(states[i], post, shots)
  {
    var xs := states[..i];
    NoUnknownPrefix(states, i);
    assert states[..i + 1] == xs + [states[i]];
    RunPlanAppend(xs, [states[i]], post, shots);
    assert RunPlan([states[i]], post, shots) == Planned(states[i], post, shots) + RunPlan([], post, shots);
  }

  /** Two sequences with the same tail after them are the same. */
  lemma CancelRight<U>(a: seq<U>, b: seq<U>, c: seq<U>)
    requires a + c == b + c
    ensures a == b
  {
    assert |a| == |b|;
    forall k | 0 <= k < |a| ensures a[k] == b[k] {
      assert a[k] == (a + c)[k] && b[k] == (b + c)[k];
    }
  }

  /** Concatenation is associative. */
  lemma ConcatAssoc<U>(a: seq<U>, b: seq<U>, c: seq<U>)
    ensures a + (b + c) == (a + b) + c
  {
  }
}
