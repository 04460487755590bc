/**
 * The validation chain: validators run in order on one mutable context, either stopping at the first
 * rejection or collecting all of them.  A validator is any function of the context: it may rewrite
 * the context, pass, reject (with or without a reason) or throw.
 */
module Chain {
  import opened Wrappers

  datatype Outcome<R> = Passed | Rejected(reason: Option<R>) | Threw(error: string)

  /** run() either returns a verdict -- passed when no reason was recorded -- or rethrows. */
  datatype Verdict<R> = Done(reasons: seq<R>) | Crashed(error: string)

  type Validator<!C, R> = C -> (C, Outcome<R>)

  predicate Accepts<R>(v: Verdict<R>) {
    v.Done? && |v.reasons| == 0
  }

  // ---- What a run computes ---------------------------------------------------------------------

  function After<R>(reasons: seq<R>, v: Verdict<R>): Verdict<R> {
    match v
    case Done(more) => Done(reasons + more)
    case Crashed(_) => v
  }

  /** The final context and the verdict; `collectAll` is the pipeline option. */
  function RunOf<C, R>(vs: seq<Validator<C, R>>, collectAll: bool, c: C): (C, Verdict<R>) {
    if vs == [] then (c, Done([]))
    else
      var (c', o) := vs[0](c);
      match o
      case Threw(e) => (c', Crashed(e))
      case Rejected(Some(r)) =>
        if !collectAll then (c', Done([r]))
        else var rest := RunOf(vs[1..], collectAll, c'); (rest.0, After([r], rest.1))
      case _ => RunOf(vs[1..], collectAll, c')
  }

  /** The shared context the validators mutate. */
  class Cell<C> {
    var value: C

    constructor (c: C)
      ensures value == c
    {
      value := c;
    }
  }

  method Run<C, R>(vs: seq<Validator<C, R>>, collectAll: bool, ctx: Cell<C>) returns (verdict: Verdict<R>)
    modifies ctx
    ensures (ctx.value, verdict) == RunOf(vs, collectAll, old(ctx.value))
  {
    var reasons: seq<R> := [];
    var i := 0;
    AfterNothing(RunOf(vs, collectAll, ctx.value).1);
    assert vs[0..] == vs;
    while i < |vs|
      invariant 0 <= i <= |vs|
      invariant var rest := RunOf(vs[i..], collectAll, ctx.value);
                RunOf(vs, collectAll, old(ctx.value)) == (rest.0, After(reasons, rest.1))
    {
      var (c', result) := vs[i](ctx.value);
      assert vs[i..][1..] == vs[i + 1..];
      ctx.value := c';
      if result.Threw? {
        return Crashed(result.error);
      }
      if result.Rejected? && result.reason.Some? {
        AfterTwice(reasons, [result.reason.value], RunOf(vs[i + 1..], collectAll, c').1);
        reasons := reasons + [result.reason.value];
        if !collectAll { break; }
      }
      i := i + 1;
    }
    assert reasons + [] == reasons;
    verdict := Done(reasons);
  }

  lemma AfterNothing<R>(v: Verdict<R>)
    ensures After([], v) == v
  {
    if v.Done? { assert [] + v.reasons == v.reasons; }
  }

  lemma AfterTwice<R>(a: seq<R>, b: seq<R>, v: Verdict<R>)
    ensures After(a, After(b, v)) == After(a + b, v)
  {
    if v.Done? { assert a + (b + v.reasons) == (a + b) + v.reasons; }
  }

  // ---- The two modes against one reference -------------------------------------------------------

  /** What every validator says when each runs on the context its predecessors leave, up to and
      including the first throw. */
  function Outcomes<C, R>(vs: seq<Validator<C, R>>, c: C): seq<Outcome<R>> {
    if vs == [] then []
    else
      var (c', o) := vs[0](c);
      [o] + if o.Threw? then [] else Outcomes(vs[1..], c')
  }

  function Reasons<R>(os: seq<Outcome<R>>): seq<R> {
    if os == [] then []
    else if os[0].Rejected? && os[0].reason.Some? then [os[0].reason.value] + Reasons(os[1..])
    else Reasons(os[1..])
  }

  predicate Crashes<R>(os: seq<Outcome<R>>) {
    os != [] && os[|os| - 1].Threw?
  }

  /** Collect-all reports every reason, unless some validator throws. */
  lemma {:induction false} CollectAllReportsAll<C, R>(vs: seq<Validator<C, R>>, c: C)
    ensures var os := Outcomes(vs, c);
            RunOf(vs, true, c).1 == if Crashes(os) then Crashed(os[|os| - 1].error) else Done(Reasons(os))
  {
    if vs != [] {
      var (c', o) := vs[0](c);
      if !o.Threw? {
        CollectAllReportsAll(vs[1..], c');
        var rest := Outcomes(vs[1..], c');
        assert ([o] + rest)[1..] == rest;
        assert rest != [] ==> ([o] + rest)[|rest|] == rest[|rest| - 1];
      } else {
        assert [o] + [] == [o];
      }
    }
  }

  /** Fail-fast reports the first reason and nothing after it happens, not even a throw; with no
      reason at all the two modes do exactly the same, context included. */
  lemma {:induction false} FailFastReportsFirst<C, R>(vs: seq<Validator<C, R>>, c: C)
    ensures var rs := Reasons(Outcomes(vs, c));
            && (rs != [] ==> RunOf(vs, false, c).1 == Done([rs[0]]))
            && (rs == [] ==> RunOf(vs, false, c) == RunOf(vs, true, c))
  {
    if vs != [] {
      var (c', o) := vs[0](c);
      if !o.Threw? {
        FailFastReportsFirst(vs[1..], c');
        var rest := Outcomes(vs[1..], c');
        assert ([o] + rest)[1..] == rest;
      } else {
        assert [o] + [] == [o];
      }
    }
  }

  /** When collect-all returns, fail-fast gives the same verdict and the first of its reasons. */
  lemma FailFastAgreesWithCollectAll<C, R>(vs: seq<Validator<C, R>>, c: C)
    requires RunOf(vs, true, c).1.Done?
    ensures var all, fast := RunOf(vs, true, c).1, RunOf(vs, false, c).1;
            && (Accepts(fast) <==> Accepts(all))
            && fast == Done(all.reasons[..if all.reasons == [] then 0 else 1])
  {
    CollectAllReportsAll(vs, c);
    FailFastReportsFirst(vs, c);
  }

  /** The modes part exactly when a validator rejects and a later one throws: fail-fast reports the
      rejection, collect-all loses it. */
  lemma ModesPartOnlyOnALaterThrow<C, R>(vs: seq<Validator<C, R>>, c: C)
    ensures var os := Outcomes(vs, c);
            RunOf(vs, false, c).1.Done? && RunOf(vs, true, c).1.Crashed? <==> Crashes(os) && Reasons(os) != []
    ensures RunOf(vs, true, c).1.Done? ==> RunOf(vs, false, c).1.Done?
  {
    CollectAllReportsAll(vs, c);
    FailFastReportsFirst(vs, c);
  }

  predicate Silent<R>(o: Outcome<R>) {
    o.Passed? || o == Rejected(None)
  }

  /** A run accepts exactly when all validators ran and none threw or gave a reason.  A rejection
      without a reason does not count as one. */
  lemma {:induction false} AcceptedMeansNoReason<C, R>(vs: seq<Validator<C, R>>, collectAll: bool, c: C)
    ensures var os := Outcomes(vs, c);
            Accepts(RunOf(vs, collectAll, c).1) <==> |os| == |vs| && forall k :: 0 <= k < |os| ==> Silent(os[k])
  {
    if vs != [] {
      var (c', o) := vs[0](c);
      var os := Outcomes(vs, c);
      if Silent(o) {
        AcceptedMeansNoReason(vs[1..], collectAll, c');
        var rest := Outcomes(vs[1..], c');
        assert os == [o] + rest;
        assert forall k :: 0 <= k < |rest| ==> rest[k] == os[k + 1];
        if |os| == |vs| && forall k :: 0 <= k < |rest| ==> Silent(rest[k]) {
          forall k | 0 <= k < |os| ensures Silent(os[k]) {
            if k > 0 { assert os[k] == rest[k - 1]; }
          }
        }
      } else {
        assert os[0] == o;
      }
    }
  }

  /** One validator at a time: what acceptance by a chain says about its head and its tail. */
  lemma AcceptedStep<C, R>(vs: seq<Validator<C, R>>, collectAll: bool, c: C)
    requires vs != []
    ensures var (c', o), run := vs[0](c), RunOf(vs, collectAll, c);
            && (Accepts(run.1) <==> Silent(o) && Accepts(RunOf(vs[1..], collectAll, c').1))
            && (Silent(o) ==> run == RunOf(vs[1..], collectAll, c'))
  {
  }

  /** Fail-fast, one validator at a time: a reason ends the run, silence hands it on. */
  lemma FailFastStep<C, R>(vs: seq<Validator<C, R>>, c: C)
    requires vs != []
    ensures var (c', o), run := vs[0](c), RunOf(vs, false, c);
            && (o.Rejected? && o.reason.Some? ==> run == (c', Done([o.reason.value])))
            && (o.Threw? ==> run == (c', Crashed(o.error)))
            && (Silent(o) ==> run == RunOf(vs[1..], false, c'))
  {
  }

  /** "Accepted means every validator passed" is false of the code: a validator that rejects without
      a reason is ignored. */
  lemma RejectionWithoutReasonAccepted(c: int)
    ensures var v: Validator<int, int> := x => (x, Rejected(None));
            Accepts(RunOf([v], false, c).1) && !Outcomes([v], c)[0].Passed?
  {
    var v: Validator<int, int> := x => (x, Rejected(None));
    assert [v][1..] == [];
    assert v(c) == (c, Rejected(None));
  }
}
