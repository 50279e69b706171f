/**
 Task bodies and their sequential meaning.

 A body is a deterministic routine that spawns, syncs and calls tasks and returns a
 value. It is given as a function from the task and the results of the operations it
 has performed so far (0 for a SPAWN) to its next operation. `Value` is the meaning of
 a task in the sequential recursion, in which a SYNC simply runs the matching task.
 */
module Sequential {
  import opened Helpers

  datatype Op = Spawn(task: int) | Sync | Call(task: int) | Return(value: int)

  type Body = (int, seq<int>) -> Op

  /** Runs a body on, with `pend` the tasks it has spawned and not synced; None when the
      depth is exhausted or when SPAWN and SYNC are not used in LIFO order. */
  function Resume(body: Body, task: int, hist: seq<int>, pend: seq<int>, depth: nat): Option<int>
    decreases depth
  {
    if depth == 0 then None
    else match body(task, hist)
      case Return(v) => if pend == [] then Some(v) else None
      case Spawn(t) => Resume(body, task, hist + [0], pend + [t], depth - 1)
      case Call(t) =>
        (match Resume(body, t, [], [], depth - 1)
         case None => None
         case Some(x) => Resume(body, task, hist + [x], pend, depth - 1))
      case Sync =>
        if pend == [] then None
        else match Resume(body, Last(pend), [], [], depth - 1)
          case None => None
          case Some(x) => Resume(body, task, hist + [x], Front(pend), depth - 1)
  }

  ghost predicate ResumesTo(body: Body, task: int, hist: seq<int>, pend: seq<int>, v: int) {
    exists depth: nat :: Resume(body, task, hist, pend, depth) == Some(v)
  }

  /** The sequential recursion of `task` terminates with value `v`. */
  ghost predicate Value(body: Body, task: int, v: int) {
    ResumesTo(body, task, [], [], v)
  }

  lemma {:induction false} DepthMonotone(body: Body, task: int, hist: seq<int>, pend: seq<int>, m: nat, n: nat)
    requires m <= n && Resume(body, task, hist, pend, m).Some?
    ensures Resume(body, task, hist, pend, n) == Resume(body, task, hist, pend, m)
    decreases m
  {
    match body(task, hist)
    case Return(v) =>
    case Spawn(t) => DepthMonotone(body, task, hist + [0], pend + [t], m - 1, n - 1);
    case Call(t) =>
      DepthMonotone(body, t, [], [], m - 1, n - 1);
      var x := Resume(body, t, [], [], m - 1).value;
      DepthMonotone(body, task, hist + [x], pend, m - 1, n - 1);
    case Sync =>
      DepthMonotone(body, Last(pend), [], [], m - 1, n - 1);
      var x := Resume(body, Last(pend), [], [], m - 1).value;
      DepthMonotone(body, task, hist + [x], Front(pend), m - 1, n - 1);
  }

  /** The sequential value of a task is unique. */
  lemma ValueUnique(body: Body, task: int, v: int, w: int)
    requires Value(body, task, v) && Value(body, task, w)
    ensures v == w
  {
    var m: nat :| Resume(body, task, [], [], m) == Some(v);
    var n: nat :| Resume(body, task, [], [], n) == Some(w);
    DepthMonotone(body, task, [], [], m, if m <= n then n else m);
    DepthMonotone(body, task, [], [], n, if m <= n then n else m);
  }

  /** Whatever a half-finished body still returns is the value of its task. */
  ghost predicate Sound(body: Body, task: int, hist: seq<int>, pend: seq<int>) {
    forall v :: ResumesTo(body, task, hist, pend, v) ==> Value(body, task, v)
  }

  lemma SoundStart(body: Body, task: int)
    ensures Sound(body, task, [], [])
  {
  }

  lemma SoundReturn(body: Body, task: int, hist: seq<int>)
    requires Sound(body, task, hist, []) && body(task, hist).Return?
    ensures Value(body, task, body(task, hist).value)
  {
    assert Resume(body, task, hist, [], 1) == Some(body(task, hist).value);
  }

  lemma SoundSpawn(body: Body, task: int, hist: seq<int>, pend: seq<int>)
    requires Sound(body, task, hist, pend) && body(task, hist).Spawn?
    ensures Sound(body, task, hist + [0], pend + [body(task, hist).task])
  {
    var t := body(task, hist).task;
    forall v | ResumesTo(body, task, hist + [0], pend + [t], v) ensures Value(body, task, v) {
      var n: nat :| Resume(body, task, hist + [0], pend + [t], n) == Some(v);
      assert Resume(body, task, hist, pend, n + 1) == Some(v);
    }
  }

  lemma SoundCall(body: Body, task: int, hist: seq<int>, pend: seq<int>, x: int)
    requires Sound(body, task, hist, pend) && body(task, hist).Call?
    requires Value(body, body(task, hist).task, x)
    ensures Sound(body, task, hist + [x], pend)
  {
    var t := body(task, hist).task;
    forall v | ResumesTo(body, task, hist + [x], pend, v) ensures Value(body, task, v) {
      var m: nat :| Resume(body, t, [], [], m) == Some(x);
      var n: nat :| Resume(body, task, hist + [x], pend, n) == Some(v);
      var k := if m <= n then n else m;
      DepthMonotone(body, t, [], [], m, k);
      DepthMonotone(body, task, hist + [x], pend, n, k);
      assert Resume(body, task, hist, pend, k + 1) == Some(v);
    }
  }

  lemma SoundSync(body: Body, task: int, hist: seq<int>, pend: seq<int>, x: int)
    requires Sound(body, task, hist, pend) && body(task, hist).Sync?
    requires pend != [] && Value(body, Last(pend), x)
    ensures Sound(body, task, hist + [x], Front(pend))
  {
    forall v | ResumesTo(body, task, hist + [x], Front(pend), v) ensures Value(body, task, v) {
      var m: nat :| Resume(body, Last(pend), [], [], m) == Some(x);
      var n: nat :| Resume(body, task, hist + [x], Front(pend), n) == Some(v);
      var k := if m <= n then n else m;
      DepthMonotone(body, Last(pend), [], [], m, k);
      DepthMonotone(body, task, hist + [x], Front(pend), n, k);
      assert Resume(body, task, hist, pend, k + 1) == Some(v);
    }
  }
}
