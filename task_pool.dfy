/**
 * The fan-out/fan-in pattern every `run` uses: one task per candidate is
 * submitted to a thread pool, and the results are read back either in
 * completion order (`as_completed`) or in submission order (iterating the
 * futures). A task either returns a record, returns None, or raises.
 *
 * The pool is modelled sequentially. Completion order is left open: the
 * collecting loop may take the pending tasks in any order (`:|`), so its
 * contract can only speak of the multiset of results, exactly as callers of
 * `as_completed` can.
 */
module TaskPool {
  import opened Probing

  /** The outcome of every task, in submission order. */
  function Probed<T>(names: seq<string>, probe: string -> T): (r: seq<T>)
    ensures |r| == |names|
    ensures forall i :: 0 <= i < |names| ==> r[i] == probe(names[i])
  {
    seq(|names|, i requires 0 <= i < |names| => probe(names[i]))
  }

  /** What one task contributes to a result list: its record, if it returned one. */
  function HitOf<T>(o: Outcome<Option<T>>): seq<T>
  {
    if o.Returned? && o.value.Some? then [o.value.value] else []
  }

  /** The records of all tasks that returned one, in submission order. */
  function Hits<T>(os: seq<Outcome<Option<T>>>): seq<T>
  {
    if os == [] then [] else Hits(os[..|os| - 1]) + HitOf(os[|os| - 1])
  }

  /** The records of the tasks at positions `idx`, in the order of `idx`. */
  function Gathered<T>(os: seq<Outcome<Option<T>>>, idx: seq<nat>): seq<T>
    requires forall k :: 0 <= k < |idx| ==> idx[k] < |os|
  {
    if idx == [] then [] else Gathered(os, idx[..|idx| - 1]) + HitOf(os[idx[|idx| - 1]])
  }

  function Indices(n: nat): (r: seq<nat>)
    ensures |r| == n
    ensures forall i :: 0 <= i < n ==> r[i] == i
  {
    seq(n, i requires 0 <= i < n => i as nat)
  }

  lemma {:induction false} HitsConcat<T>(a: seq<Outcome<Option<T>>>, b: seq<Outcome<Option<T>>>)
    ensures Hits(a + b) == Hits(a) + Hits(b)
    decreases |b|
  {
    if b == [] {
      assert a + b == a;
    } else {
      var b' := b[..|b| - 1];
      assert (a + b)[..|a + b| - 1] == a + b';
      HitsConcat(a, b');
    }
  }

  lemma {:induction false} GatheredConcat<T>(os: seq<Outcome<Option<T>>>, a: seq<nat>, b: seq<nat>)
    requires forall k :: 0 <= k < |a| ==> a[k] < |os|
    requires forall k :: 0 <= k < |b| ==> b[k] < |os|
    ensures Gathered(os, a + b) == Gathered(os, a) + Gathered(os, b)
    decreases |b|
  {
    if b == [] {
      assert a + b == a;
    } else {
      var b' := b[..|b| - 1];
      assert (a + b)[..|a + b| - 1] == a + b';
      GatheredConcat(os, a, b');
    }
  }

  /** Reading the tasks back in submission order gives Hits. */
  lemma {:induction false} GatheredIndices<T>(os: seq<Outcome<Option<T>>>, m: nat)
    requires m <= |os|
    ensures Gathered(os, Indices(m)) == Hits(os[..m])
  {
    if m > 0 {
      assert Indices(m)[..m - 1] == Indices(m - 1);
      assert os[..m][..m - 1] == os[..m - 1];
      GatheredIndices(os, m - 1);
    }
  }

  /** A run never reports more records than it submitted tasks. */
  lemma {:induction false} HitsBound<T>(os: seq<Outcome<Option<T>>>)
    ensures |Hits(os)| <= |os|
  {
    if os != [] {
      HitsBound(os[..|os| - 1]);
    }
  }

  /** Fault isolation: a task that returned a record has it reported,
      whatever the other tasks did (returned None, or raised). */
  lemma {:induction false} HitIsReported<T>(os: seq<Outcome<Option<T>>>, j: nat)
    requires j < |os| && os[j].Returned? && os[j].value.Some?
    ensures os[j].value.value in Hits(os)
  {
    if j < |os| - 1 {
      HitIsReported(os[..|os| - 1], j);
    }
  }

  /** Every reported record was returned by some task. */
  lemma {:induction false} ReportedHitHasTask<T>(os: seq<Outcome<Option<T>>>, x: T)
    requires x in Hits(os)
    ensures exists j :: 0 <= j < |os| && os[j] == Returned(Some(x))
  {
    var last := os[|os| - 1];
    if x in Hits(os[..|os| - 1]) {
      ReportedHitHasTask(os[..|os| - 1], x);
      var j :| 0 <= j < |os| - 1 && os[..|os| - 1][j] == Returned(Some(x));
      assert os[j] == Returned(Some(x));
    } else {
      assert os[|os| - 1] == Returned(Some(x));
    }
  }

  /** When every task reports absence, the run reports nothing. */
  lemma {:induction false} AllAbsentReportsNothing<T>(os: seq<Outcome<Option<T>>>)
    requires forall j :: 0 <= j < |os| ==> !(os[j].Returned? && os[j].value.Some?)
    ensures Hits(os) == []
  {
    if os != [] {
      AllAbsentReportsNothing(os[..|os| - 1]);
    }
  }

  /** The pending list once the task at position `j` has completed. */
  function Without(pending: seq<nat>, j: nat): (r: seq<nat>)
    requires j < |pending|
    ensures |r| == |pending| - 1
    ensures forall k :: 0 <= k < |r| ==> r[k] == pending[if k < j then k else k + 1]
  {
    pending[..j] + pending[j + 1..]
  }

  /** Taking task `pending[j]` out of the pending list moves its record (if
      any) out of the records still to come. */
  lemma GatheredRemove<T>(os: seq<Outcome<Option<T>>>, pending: seq<nat>, j: nat)
    requires forall k :: 0 <= k < |pending| ==> pending[k] < |os|
    requires j < |pending|
    ensures forall k :: 0 <= k < |pending| - 1 ==> Without(pending, j)[k] < |os|
    ensures multiset(Gathered(os, pending))
         == multiset(HitOf(os[pending[j]])) + multiset(Gathered(os, Without(pending, j)))
  {
    var before, after := pending[..j], pending[j + 1..];
    assert pending == before + [pending[j]] + after;
    assert Without(pending, j) == before + after;
    GatheredConcat(os, before + [pending[j]], after);
    GatheredConcat(os, before, [pending[j]]);
    GatheredConcat(os, before, after);
  }

  /** `for f in as_completed(futures): try: r = f.result() except Exception: log
      else: if r: results.append(r)`: every task runs, raised tasks are dropped,
      and the records arrive in some completion order. */
  method CollectAsCompleted<T(==)>(names: seq<string>, probe: string -> Outcome<Option<T>>)
    returns (results: seq<T>)
    ensures multiset(results) == multiset(Hits(Probed(names, probe)))
    ensures |results| <= |names|
  {
    ghost var os := Probed(names, probe);
    var pending: seq<nat> := Indices(|names|);
    results := [];
    GatheredIndices(os, |os|);
    assert os[..|os|] == os;
    while pending != []
      invariant forall k :: 0 <= k < |pending| ==> pending[k] < |names|
      invariant multiset(results) + multiset(Gathered(os, pending)) == multiset(Hits(os))
      decreases |pending|
    {
      var j :| 0 <= j < |pending|;
      var i := pending[j];
      var outcome := probe(names[i]);
      if outcome.Returned? && outcome.value.Some? {
        results := results + [outcome.value.value];
      }
      GatheredRemove(os, pending, j);
      pending := Without(pending, j);
    }
    HitsBound(os);
    assert |results| == |multiset(results)| == |multiset(Hits(os))|;
  }

  /** The indices of the tasks still to be collected: in range, each once. */
  predicate PendingTasks(pending: seq<nat>, n: nat)
  {
    && (forall k :: 0 <= k < |pending| ==> pending[k] < n)
    && (forall a, b :: 0 <= a < b < |pending| ==> pending[a] != pending[b])
  }

  /** Collecting the task at `pending[j]` keeps the collection invariant. */
  lemma CollectStep<T>(os: seq<Outcome<Option<T>>>, pending: seq<nat>, j: nat, results: seq<T>)
    requires PendingTasks(pending, |os|) && j < |pending|
    requires multiset(results) + multiset(Gathered(os, pending)) == multiset(Hits(os))
    ensures PendingTasks(Without(pending, j), |os|)
    ensures forall x :: x in Without(pending, j) <==> x in pending && x != pending[j]
    ensures multiset(results + HitOf(os[pending[j]])) + multiset(Gathered(os, Without(pending, j)))
         == multiset(Hits(os))
  {
    GatheredRemove(os, pending, j);
    RemoveDistinct(pending, j);
  }

  /** Removing one entry of a list without repetitions removes that value. */
  lemma RemoveDistinct(pending: seq<nat>, j: nat)
    requires j < |pending|
    requires forall a, b :: 0 <= a < b < |pending| ==> pending[a] != pending[b]
    ensures forall a, b :: 0 <= a < b < |pending| - 1 ==> Without(pending, j)[a] != Without(pending, j)[b]
    ensures forall x :: x in Without(pending, j) <==> x in pending && x != pending[j]
  {
  }

  /** `for f in as_completed(futures): if f.result(): print(f.result())`: no
      exception handler, so the first raised task that is read aborts the run.
      `printed` is what was printed before that. */
  method PrintAsCompleted<T(==)>(names: seq<string>, probe: string -> Outcome<Option<T>>)
    returns (printed: seq<T>, raised: bool)
    ensures raised <==> exists i :: 0 <= i < |names| && probe(names[i]).Raised?
    ensures !raised ==> multiset(printed) == multiset(Hits(Probed(names, probe)))
    ensures raised ==> multiset(printed) <= multiset(Hits(Probed(names, probe)))
  {
    ghost var os := Probed(names, probe);
    var pending: seq<nat> := Indices(|names|);
    printed, raised := [], false;
    GatheredIndices(os, |os|);
    assert os[..|os|] == os;
    forall i | 0 <= i < |names| ensures i in pending {
      assert pending[i] == i;
    }
    while pending != []
      invariant PendingTasks(pending, |os|)
      invariant multiset(printed) + multiset(Gathered(os, pending)) == multiset(Hits(os))
      invariant forall i :: 0 <= i < |names| && os[i].Raised? ==> i in pending
      invariant !raised
      decreases |pending|
    {
      var j :| 0 <= j < |pending|;
      var i := pending[j];
      var outcome := probe(names[i]);
      assert outcome == os[i];
      CollectStep(os, pending, j, printed);
      if outcome.Raised? {
        raised := true;
        return;
      }
      printed := printed + HitOf(outcome);
      pending := Without(pending, j);
    }
  }

  /** The index of the first task that raised, or |os| when none did. */
  function FirstRaised<T>(os: seq<Outcome<T>>): (k: nat)
    ensures k <= |os|
    ensures forall i :: 0 <= i < k ==> !os[i].Raised?
    ensures k < |os| ==> os[k].Raised?
  {
    if os == [] then 0 else if os[0].Raised? then 0 else 1 + FirstRaised(os[1..])
  }

  /** `for f in futures: if f.result(): print(f.result())` over a dict of futures:
      submission order, and the first raised task aborts the run. */
  method PrintInSubmissionOrder<T>(names: seq<string>, probe: string -> Outcome<Option<T>>)
    returns (printed: seq<T>, raised: bool)
    ensures raised <==> exists i :: 0 <= i < |names| && probe(names[i]).Raised?
    ensures printed == Hits(Probed(names, probe)[..FirstRaised(Probed(names, probe))])
  {
    ghost var os := Probed(names, probe);
    ghost var stop := FirstRaised(os);
    printed, raised := [], false;
    var i := 0;
    while i < |names|
      invariant i <= stop
      invariant printed == Hits(os[..i])
      decreases |names| - i
    {
      var outcome := probe(names[i]);
      if outcome.Raised? {
        raised := true;
        return;
      }
      assert os[..i + 1][..i] == os[..i];
      printed := printed + HitOf(outcome);
      i := i + 1;
    }
  }

  /** `results` is the phases' records, phase after phase, each phase's records
      in some completion order. */
  predicate Phased<T(==)>(results: seq<T>, phases: seq<seq<T>>)
    decreases |phases|
  {
    if phases == [] then results == []
    else
      && |phases[0]| <= |results|
      && multiset(results[..|phases[0]|]) == multiset(phases[0])
      && Phased(results[|phases[0]|..], phases[1..])
  }

  function Flatten<T>(phases: seq<seq<T>>): seq<T>
  {
    if phases == [] then [] else phases[0] + Flatten(phases[1..])
  }

  lemma {:induction false} PhasedSingle<T>(r: seq<T>, phase: seq<T>)
    requires multiset(r) == multiset(phase)
    ensures Phased(r, [phase])
  {
    assert |r| == |multiset(r)| == |phase|;
    assert r[..|phase|] == r;
    assert [phase][1..] == [];
  }

  lemma {:induction false} PhasedAppend<T>(a: seq<T>, p: seq<seq<T>>, b: seq<T>, q: seq<seq<T>>)
    requires Phased(a, p) && Phased(b, q)
    ensures Phased(a + b, p + q)
    decreases |p|
  {
    if p == [] {
      assert a + b == b && p + q == q;
    } else {
      var n := |p[0]|;
      assert (p + q)[0] == p[0] && (p + q)[1..] == p[1..] + q;
      assert (a + b)[..n] == a[..n];
      assert (a + b)[n..] == a[n..] + b;
      PhasedAppend(a[n..], p[1..], b, q);
    }
  }

  /** Two phases collected one after the other. */
  lemma PhasedTwo<T>(a: seq<T>, b: seq<T>, pa: seq<T>, pb: seq<T>)
    requires multiset(a) == multiset(pa) && multiset(b) == multiset(pb)
    ensures Phased(a + b, [pa, pb])
  {
    PhasedSingle(a, pa);
    PhasedSingle(b, pb);
    PhasedAppend(a, [pa], b, [pb]);
    assert [pa] + [pb] == [pa, pb];
  }

  /** Three phases collected one after the other. */
  lemma PhasedThree<T>(a: seq<T>, b: seq<T>, c: seq<T>, pa: seq<T>, pb: seq<T>, pc: seq<T>)
    requires multiset(a) == multiset(pa) && multiset(b) == multiset(pb) && multiset(c) == multiset(pc)
    ensures Phased(a + b + c, [pa, pb, pc])
  {
    PhasedTwo(a, b, pa, pb);
    PhasedSingle(c, pc);
    PhasedAppend(a + b, [pa, pb], c, [pc]);
    assert [pa, pb] + [pc] == [pa, pb, pc];
  }

  /** A phased result list is a permutation of all the phases' records. */
  lemma {:induction false} PhasedIsPermutation<T>(r: seq<T>, phases: seq<seq<T>>)
    requires Phased(r, phases)
    ensures multiset(r) == multiset(Flatten(phases))
    decreases |phases|
  {
    if phases != [] {
      var n := |phases[0]|;
      PhasedIsPermutation(r[n..], phases[1..]);
      assert r == r[..n] + r[n..];
    }
  }
}
