/**
 * Runs of a process by itself: a start, a step at each await, and an end.  A caller of the backend
 * follows a run when it leaves behind, await by await, the very shared states the run goes through.
 */
module Runs {
  /** `step(k, t)` is what await number k makes of t; `over(t)`: no further await; `view(t)`: what that
      await left for others to see. */
  datatype Script<!T, V> = Script(start: T, step: (nat, T) -> T, over: T -> bool, view: T -> V)

  predicate Leads<T(==), V>(p: Script<T, V>, run: seq<T>, k: nat)
    requires k + 1 < |run|
  {
    !p.over(run[k]) && run[k + 1] == p.step(k, run[k])
  }

  ghost predicate IsRun<T, V>(p: Script<T, V>, run: seq<T>) {
    run != [] && run[0] == p.start && forall k :: 0 <= k < |run| - 1 ==> Leads(p, run, k)
  }

  /** What the awaits of a run leave behind, one by one. */
  function Views<T, V>(p: Script<T, V>, run: seq<T>): seq<V> {
    if |run| <= 1 then [] else Views(p, run[..|run| - 1]) + [p.view(run[|run| - 1])]
  }

  /** The run -- there is only one -- goes on for at least k awaits, during which the backend went through
      its views, from `h0` to `h`; now it stands at t. */
  ghost predicate Follows<T(!new), V>(p: Script<T, V>, k: nat, t: T, h0: seq<V>, h: seq<V>) {
    forall run :: IsRun(p, run) && |run| <= k + 1 ==>
      !p.over(run[|run| - 1]) && (|run| == k + 1 ==> run[k] == t && h == h0 + Views(p, run))
  }

  /** The run is over, ends in t, and the backend went through all its views. */
  ghost predicate Ended<T(!new), V>(p: Script<T, V>, t: T, h0: seq<V>, h: seq<V>) {
    forall run :: IsRun(p, run) && p.over(run[|run| - 1]) ==> run[|run| - 1] == t && h == h0 + Views(p, run)
  }

  lemma {:induction false} AtTheStart<T(!new), V>(p: Script<T, V>, h0: seq<V>)
    requires !p.over(p.start)
    ensures Follows(p, 0, p.start, h0, h0)
  {
    forall run | IsRun(p, run) && |run| <= 1 ensures run[0] == p.start && h0 == h0 + Views(p, run) {
      assert Views(p, run) == [];
    }
  }

  lemma {:induction false} Prefix<T(!new), V>(p: Script<T, V>, run: seq<T>, m: nat)
    requires IsRun(p, run) && 1 <= m <= |run|
    ensures IsRun(p, run[..m])
  {
    forall j | 0 <= j < m - 1 ensures Leads(p, run[..m], j) {
      assert Leads(p, run, j);
    }
  }

  lemma {:induction false} OnlyTheLastEnds<T(!new), V>(p: Script<T, V>, run: seq<T>, k: nat)
    requires IsRun(p, run) && k + 1 < |run|
    ensures !p.over(run[k])
  {
    assert Leads(p, run, k);
  }

  /** The run that reaches await k and takes it. */
  lemma {:induction false} Takes<T(!new), V>(p: Script<T, V>, k: nat, t: T, h0: seq<V>, h: seq<V>, run: seq<T>)
    requires Follows(p, k, t, h0, h) && IsRun(p, run) && |run| == k + 2
    ensures run[k + 1] == p.step(k, t) && h0 + Views(p, run) == h + [p.view(p.step(k, t))]
  {
    Prefix(p, run, k + 1);
    assert Leads(p, run, k);
    var before, last := Views(p, run[..k + 1]), [p.view(run[k + 1])];
    assert h0 + (before + last) == h0 + before + last;
  }

  lemma {:induction false} GoesOn<T(!new), V>(p: Script<T, V>, k: nat, t: T, h0: seq<V>, h: seq<V>)
    requires Follows(p, k, t, h0, h) && !p.over(p.step(k, t))
    ensures Follows(p, k + 1, p.step(k, t), h0, h + [p.view(p.step(k, t))])
  {
    forall run | IsRun(p, run) && |run| == k + 2
      ensures run[k + 1] == p.step(k, t) && h + [p.view(p.step(k, t))] == h0 + Views(p, run)
    {
      Takes(p, k, t, h0, h, run);
    }
  }

  lemma {:induction false} IsOver<T(!new), V>(p: Script<T, V>, k: nat, t: T, h0: seq<V>, h: seq<V>)
    requires Follows(p, k, t, h0, h) && p.over(p.step(k, t))
    ensures Ended(p, p.step(k, t), h0, h + [p.view(p.step(k, t))])
  {
    forall run | IsRun(p, run) && p.over(run[|run| - 1])
      ensures run[|run| - 1] == p.step(k, t) && h + [p.view(p.step(k, t))] == h0 + Views(p, run)
    {
      assert |run| >= k + 2;
      Prefix(p, run, k + 2);
      Takes(p, k, t, h0, h, run[..k + 2]);
      if |run| > k + 2 { OnlyTheLastEnds(p, run, k + 1); }
      assert run[..k + 2] == run;
    }
  }

  /** The await that is due, and what it leaves behind. */
  lemma {:induction false} NextAwait<T(!new), V>(p: Script<T, V>, k: nat, t: T, h0: seq<V>, h: seq<V>, w: V)
    requires Follows(p, k, t, h0, h)
    ensures var t' := p.step(k, t);
            w == p.view(t') ==> if p.over(t') then Ended(p, t', h0, h + [w]) else Follows(p, k + 1, t', h0, h + [w])
  {
    if p.over(p.step(k, t)) { IsOver(p, k, t, h0, h); } else { GoesOn(p, k, t, h0, h); }
  }

  /** There is only one run: of two, one continues the other. */
  lemma {:induction false} RunsAgree<T(!new), V>(p: Script<T, V>, run: seq<T>, run': seq<T>, k: nat)
    requires IsRun(p, run) && IsRun(p, run') && k < |run| && k < |run'|
    ensures run[k] == run'[k]
  {
    if k > 0 {
      RunsAgree(p, run, run', k - 1);
      assert Leads(p, run, k - 1) && Leads(p, run', k - 1);
    }
  }

  /** One await more. */
  lemma {:induction false} Extended<T(!new), V>(p: Script<T, V>, run: seq<T>) returns (run': seq<T>)
    requires IsRun(p, run) && !p.over(run[|run| - 1])
    ensures run' == run + [p.step(|run| - 1, run[|run| - 1])] && IsRun(p, run')
  {
    run' := run + [p.step(|run| - 1, run[|run| - 1])];
    forall j | 0 <= j < |run'| - 1 ensures Leads(p, run', j) {
      if j < |run| - 1 { assert Leads(p, run, j); }
    }
  }
}
