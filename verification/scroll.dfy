/** The scroll-until-stable loop of the converter. The program has no
    notion of a total: each iteration counts the rendered track links,
    scrolls to the bottom, waits, counts again, and stops the first time
    the two counts agree, keeping the list from the second query.

    The page is an oracle: one `Sample` per loop iteration, holding the
    result of the query before the scroll and the result of the query
    after it, or the fault that an iteration raised. A finite oracle can
    run out before the counts agree; the outcome then says so instead of
    pretending the loop ended. */
module ScrollLoop {
  import opened Driver

  /** What one iteration of the loop observes. */
  datatype Sample<E> = Sample(before: seq<E>, after: seq<E>) | Interrupted(fault: Fault)

  /** The iteration that ends the loop: the count did not change. */
  predicate Unchanged<E>(s: Sample<E>) {
    s.Sample? && |s.before| == |s.after|
  }

  /** An iteration after which the loop goes round again. */
  predicate Continues<E>(s: Sample<E>) {
    s.Sample? && |s.before| != |s.after|
  }

  /** How the loop ended: at iteration `step` with the post-scroll list
      `tracks`, with a fault raised in iteration `step`, or not yet within
      the iterations the oracle describes. */
  datatype Scrolled<E> = Settled(step: nat, tracks: seq<E>) | Failed(step: nat, fault: Fault) | StillScrolling

  /** The loop, started at iteration `k`. */
  function ScrollFrom<E>(samples: seq<Sample<E>>, k: nat): (r: Scrolled<E>)
    requires k <= |samples|
    ensures r.Settled? ==>
              && k <= r.step < |samples|
              && Unchanged(samples[r.step])
              && r.tracks == samples[r.step].after
    ensures r.Failed? ==> k <= r.step < |samples| && samples[r.step] == Interrupted(r.fault)
    ensures !r.StillScrolling? ==> forall j :: k <= j < r.step ==> Continues(samples[j])
    ensures r.StillScrolling? ==> forall j :: k <= j < |samples| ==> Continues(samples[j])
    decreases |samples| - k
  {
    if k == |samples| then StillScrolling
    else match samples[k]
      case Interrupted(f) => Failed(k, f)
      case Sample(before, after) =>
        if |after| == |before| then Settled(k, after) else ScrollFrom(samples, k + 1)
  }

  /** Lines 42-57 of convert.py: the loop exits at the first iteration whose
      counts agree and yields that iteration's post-scroll list; every
      earlier iteration changed the count; a fault ends it where it is
      raised; and it is still running exactly when every iteration the
      oracle describes changed the count. */
  function ScrollUntilStable<E>(samples: seq<Sample<E>>): (r: Scrolled<E>)
    ensures r.Settled? ==>
              && r.step < |samples|
              && Unchanged(samples[r.step])
              && r.tracks == samples[r.step].after
    ensures r.Failed? ==> r.step < |samples| && samples[r.step] == Interrupted(r.fault)
    ensures !r.StillScrolling? ==> forall j :: 0 <= j < r.step ==> Continues(samples[j])
    ensures r.StillScrolling? <==> forall j :: 0 <= j < |samples| ==> Continues(samples[j])
  {
    ScrollFrom(samples, 0)
  }

  /** Observations past the exit do not matter: once the loop has ended,
      a longer oracle gives the same outcome. */
  lemma {:induction false} LaterSamplesIrrelevant<E>(samples: seq<Sample<E>>, more: seq<Sample<E>>)
    requires !ScrollUntilStable(samples).StillScrolling?
    ensures ScrollUntilStable(samples + more) == ScrollUntilStable(samples)
  {
    LaterSamplesIrrelevantFrom(samples, more, 0);
  }

  lemma {:induction false} LaterSamplesIrrelevantFrom<E>(samples: seq<Sample<E>>, more: seq<Sample<E>>, k: nat)
    requires k <= |samples|
    requires !ScrollFrom(samples, k).StillScrolling?
    ensures ScrollFrom(samples + more, k) == ScrollFrom(samples, k)
    decreases |samples| - k
  {
    assert (samples + more)[k] == samples[k];
    if samples[k].Sample? && |samples[k].after| != |samples[k].before| {
      LaterSamplesIrrelevantFrom(samples, more, k + 1);
    }
  }

  /** The page seen as one rendered list per scroll: `render[k]` is what the
      query returns after `k` scrolls, so iteration `k` sees `render[k]`
      before its scroll and `render[k + 1]` after it. */
  function StepSamples<E>(render: seq<seq<E>>): (s: seq<Sample<E>>)
    requires |render| > 0
    ensures |s| == |render| - 1
    ensures forall k :: 0 <= k < |s| ==> s[k] == Sample(render[k], render[k + 1])
  {
    seq(|render| - 1, k requires 0 <= k < |render| - 1 => Sample(render[k], render[k + 1]))
  }

  /** Scrolling never un-renders a track link. */
  ghost predicate Monotone<E>(render: seq<seq<E>>) {
    forall k :: 0 <= k < |render| - 1 ==> |render[k]| <= |render[k + 1]|
  }

  /** No more than `cap` track links are ever rendered. */
  ghost predicate Bounded<E>(render: seq<seq<E>>, cap: nat) {
    forall k :: 0 <= k < |render| ==> |render[k]| <= cap
  }

  /** While the count keeps changing on a monotone page, it grows by at
      least one per scroll. */
  lemma {:induction false} GrowsWhileChanging<E>(render: seq<seq<E>>, n: nat)
    requires n < |render|
    requires Monotone(render)
    requires forall j :: 0 <= j < n ==> |render[j]| != |render[j + 1]|
    ensures |render[n]| >= |render[0]| + n
  {
    if n > 0 {
      GrowsWhileChanging(render, n - 1);
    }
  }

  /** Termination under the assumption the code itself never states: on a
      page whose count never shrinks and never exceeds `cap`, the loop
      settles within `cap - |render[0]| + 1` iterations. */
  lemma BoundedPageSettles<E>(render: seq<seq<E>>, cap: nat)
    requires |render| > 0 && |render[0]| <= cap
    requires |render| >= cap - |render[0]| + 2
    requires Monotone(render) && Bounded(render, cap)
    ensures ScrollUntilStable(StepSamples(render)).Settled?
    ensures ScrollUntilStable(StepSamples(render)).step <= cap - |render[0]|
  {
    var s := StepSamples(render);
    var r := ScrollUntilStable(s);
    var m := cap - |render[0]|;
    if r.StillScrolling? || (r.Settled? && r.step > m) {
      forall j | 0 <= j < m + 1
        ensures |render[j]| != |render[j + 1]|
      {
        assert Continues(s[j]);
      }
      GrowsWhileChanging(render, m + 1);
      assert false;
    }
  }
}
