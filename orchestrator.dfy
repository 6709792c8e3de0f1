/**
 * The program's entry: read the paths, stop with exit status 1 when there are
 * none, otherwise submit one unit per (path, device) pair of the cross
 * product, path-major. The worker pool, completion order and per-unit error
 * reporting are left out; the model is the list of submitted jobs.
 */
module Orchestrator {
  import PathSource

  /** A unit of work: one path on one device. */
  datatype Job = Job(path: string, device: string)

  /** What the program does after reading its paths. */
  datatype Plan = Exit(code: int) | Submit(jobs: seq<Job>)

  /** The jobs for one path, one per device in order. */
  function JobsFor(path: string, devices: seq<string>): (r: seq<Job>)
    ensures |r| == |devices|
    ensures forall j :: 0 <= j < |devices| ==> r[j] == Job(path, devices[j])
  {
    if devices == [] then [] else [Job(path, devices[0])] + JobsFor(path, devices[1..])
  }

  /** The comprehension over paths and, inside, over devices. */
  function Jobs(paths: seq<string>, devices: seq<string>): seq<Job>
  {
    if paths == [] then [] else JobsFor(paths[0], devices) + Jobs(paths[1..], devices)
  }

  /** Exactly |paths| * |devices| jobs are submitted. */
  lemma {:induction false} JobsLength(paths: seq<string>, devices: seq<string>)
    ensures |Jobs(paths, devices)| == |paths| * |devices|
  {
    if paths != [] {
      JobsLength(paths[1..], devices);
      MulStep(|paths|, |devices|);
    }
  }

  lemma MulStep(i: nat, d: nat)
    requires i > 0
    ensures (i - 1) * d + d == i * d
  {
  }

  lemma ConcatAt(head: seq<Job>, tail: seq<Job>, k: nat)
    requires k < |tail|
    ensures (head + tail)[|head| + k] == tail[k]
  {
  }

  /** Path-major order: job i * |devices| + j is path i on device j. */
  lemma {:induction false} JobsAt(paths: seq<string>, devices: seq<string>, i: nat, j: nat)
    requires i < |paths| && j < |devices|
    ensures i * |devices| + j < |Jobs(paths, devices)|
    ensures Jobs(paths, devices)[i * |devices| + j] == Job(paths[i], devices[j])
  {
    var d := |devices|;
    var head := JobsFor(paths[0], devices);
    var tail := Jobs(paths[1..], devices);
    assert Jobs(paths, devices) == head + tail;
    if i > 0 {
      JobsAt(paths[1..], devices, i - 1, j);
      MulStep(i, d);
      ConcatAt(head, tail, (i - 1) * d + j);
    }
  }

  /** The jobs cover the cross product and nothing else. */
  lemma {:induction false} JobsCover(paths: seq<string>, devices: seq<string>, job: Job)
    ensures job in Jobs(paths, devices) <==> job.path in paths && job.device in devices
  {
    if paths != [] {
      JobsCover(paths[1..], devices, job);
      assert paths == [paths[0]] + paths[1..];
    }
  }

  /** Distinct paths and distinct devices give distinct jobs: each unit has its own (path, device) key. */
  lemma {:induction false} JobsDistinct(paths: seq<string>, devices: seq<string>)
    requires forall a, b :: 0 <= a < b < |paths| ==> paths[a] != paths[b]
    requires forall a, b :: 0 <= a < b < |devices| ==> devices[a] != devices[b]
    ensures var r := Jobs(paths, devices); forall a, b :: 0 <= a < b < |r| ==> r[a] != r[b]
  {
    if paths != [] {
      var head := JobsFor(paths[0], devices);
      var tail := Jobs(paths[1..], devices);
      JobsDistinct(paths[1..], devices);
      forall k | 0 <= k < |tail| ensures tail[k].path != paths[0] {
        JobsCover(paths[1..], devices, tail[k]);
        assert tail[k] in tail;
      }
      var r := head + tail;
      forall a, b | 0 <= a < b < |r| ensures r[a] != r[b] {
        if b < |head| {
        } else if a >= |head| {
          assert r[a] == tail[a - |head|] && r[b] == tail[b - |head|];
        } else {
          assert r[b] == tail[b - |head|];
        }
      }
    }
  }

  /** The __main__ decision: no paths means exit status 1 and no job; otherwise the full cross product. */
  function Schedule(paths: seq<string>, devices: seq<string>): (r: Plan)
    ensures r.Exit? <==> paths == []
    ensures r.Exit? ==> r.code == 1
    ensures r.Submit? ==> |r.jobs| == |paths| * |devices|
    ensures r.Submit? ==> r.jobs == Jobs(paths, devices)
  {
    JobsLength(paths, devices);
    if paths == [] then Exit(1) else Submit(Jobs(paths, devices))
  }

  /** The whole entry: read the paths from the first column, then decide. */
  method Run(firstColumn: seq<PathSource.Cell>, devices: seq<string>) returns (plan: Plan)
    ensures plan == Schedule(PathSource.TruthyValues(PathSource.DataRows(firstColumn)), devices)
    ensures plan.Exit? <==> forall c :: c in PathSource.DataRows(firstColumn) ==> !PathSource.Truthy(c)
  {
    var paths := PathSource.ReadUrls(firstColumn);
    plan := Schedule(paths, devices);
    if paths != [] {
      var s := paths[0];
      assert s in paths;
    }
  }
}
