/**
 * The inductive invariant of the whole pipeline and its preservation by every step.
 */
module PipelineInvariant {
  import opened Wrappers
  import opened Keys
  import opened Tables
  import opened Machine
  import opened JobInvariant

  // ---- Sums over the processes in progress ---------------------------------------------------------

  function At(procs: map<nat, Proc>, k: nat, f: Proc -> nat): nat {
    if k in procs then f(procs[k]) else 0
  }

  function Sum(procs: map<nat, Proc>, n: nat, f: Proc -> nat): nat {
    if n == 0 then 0 else Sum(procs, n - 1, f) + At(procs, n - 1, f)
  }

  function SeqSum(ps: seq<Proc>, f: Proc -> nat): nat {
    if ps == [] then 0 else f(ps[0]) + SeqSum(ps[1..], f)
  }

  lemma {:induction false} SumOfEqual(procs: map<nat, Proc>, procs': map<nat, Proc>, n: nat, f: Proc -> nat)
    requires forall k: nat :: k < n ==> At(procs, k, f) == At(procs', k, f)
    ensures Sum(procs, n, f) == Sum(procs', n, f)
  {
    if n > 0 { SumOfEqual(procs, procs', n - 1, f); }
  }

  lemma {:induction false} SumOfChange(procs: map<nat, Proc>, procs': map<nat, Proc>, n: nat, f: Proc -> nat, pid: nat)
    requires pid < n
    requires forall k: nat :: k < n && k != pid ==> At(procs, k, f) == At(procs', k, f)
    ensures Sum(procs', n, f) + At(procs, pid, f) == Sum(procs, n, f) + At(procs', pid, f)
  {
    if pid == n - 1 {
      SumOfEqual(procs, procs', n - 1, f);
    } else {
      SumOfChange(procs, procs', n - 1, f, pid);
    }
  }

  lemma {:induction false} SumOfSpawn(procs: map<nat, Proc>, next: nat, spawned: seq<Proc>, f: Proc -> nat)
    requires forall k :: k in procs ==> k < next
    ensures Sum(Spawn(procs, next, spawned), next + |spawned|, f) == Sum(procs, next, f) + SeqSum(spawned, f)
    decreases |spawned|
  {
    if spawned != [] {
      var procs' := procs[next := spawned[0]];
      SumOfSpawn(procs', next + 1, spawned[1..], f);
      SumOfEqual(procs, procs', next, f);
    }
  }

  lemma {:induction false} SpawnMembers(procs: map<nat, Proc>, next: nat, spawned: seq<Proc>)
    requires forall k :: k in procs ==> k < next
    ensures var after := Spawn(procs, next, spawned);
            && (forall k :: k in after <==> k in procs || (next <= k < next + |spawned|))
            && (forall k :: k in procs ==> after[k] == procs[k])
            && (forall k :: 0 <= k < |spawned| ==> after[next + k] == spawned[k])
    decreases |spawned|
  {
    if spawned != [] {
      var procs' := procs[next := spawned[0]];
      SpawnMembers(procs', next + 1, spawned[1..]);
      var after := Spawn(procs, next, spawned);
      assert after == Spawn(procs', next + 1, spawned[1..]);
      forall k | 0 <= k < |spawned| ensures next + k in after && after[next + k] == spawned[k] {
        if k > 0 {
          var m := k - 1;
          assert after[(next + 1) + m] == spawned[1..][m];
        }
      }
    }
  }

  predicate KeysBelow(procs: map<nat, Proc>, next: nat) {
    forall k :: k in procs ==> k < next
  }

  function SelfSum(t: Turn, f: Proc -> nat): nat {
    if t.self.Some? then f(t.self.value) else 0
  }

  lemma {:induction false} SumOfApply(s: State, pid: nat, t: Turn, f: Proc -> nat)
    requires KeysBelow(s.procs, s.next) && pid in s.procs
    ensures var s' := Apply(s, pid, t);
            Sum(s'.procs, s'.next, f) + f(s.procs[pid]) ==
              Sum(s.procs, s.next, f) + SelfSum(t, f) + SeqSum(t.spawned, f)
  {
    var kept := if t.self.Some? then s.procs[pid := t.self.value] else s.procs - {pid};
    SumOfChange(s.procs, kept, s.next, f, pid);
    SumOfSpawn(kept, s.next, t.spawned, f);
  }

  /** Who is in the process table after a step. */
  lemma {:induction false} ApplyMembers(s: State, pid: nat, t: Turn)
    requires KeysBelow(s.procs, s.next) && pid in s.procs
    ensures var s' := Apply(s, pid, t);
            && KeysBelow(s'.procs, s'.next)
            && (forall q :: q in s.procs && q != pid ==> q in s'.procs && s'.procs[q] == s.procs[q])
            && (t.self.Some? ==> pid in s'.procs && s'.procs[pid] == t.self.value)
            && (forall k :: 0 <= k < |t.spawned| ==> s.next + k in s'.procs && s'.procs[s.next + k] == t.spawned[k])
            && (forall q :: q in s'.procs ==>
                  || (q != pid && q in s.procs)
                  || (q == pid && t.self.Some?)
                  || s.next <= q < s.next + |t.spawned|)
  {
    var kept := if t.self.Some? then s.procs[pid := t.self.value] else s.procs - {pid};
    SpawnMembers(kept, s.next, t.spawned);
  }

  // ---- The invariant -------------------------------------------------------------------------------

  /** Live work for an image: a job of any stage, or an API call about to enqueue one. */
  predicate Carries(p: Proc, i: ImageId) {
    match p
    case Worker(job) => job.imageId == i
    case Creating(j, _, create) => j == i && create.EnqueueEntry?
    case Reprocessing(j, reprocess) => j == i && reprocess.EnqueueFresh?
    case _ => false
  }

  /** At most one process at a time introduces an image to the pipeline. */
  predicate Introduces(p: Proc, i: ImageId) {
    match p
    case Worker(job) => job.imageId == i && job.stage.Validate?
    case Creating(j, _, _) => j == i
    case _ => false
  }

  function IsJob(p: Proc): nat {
    if p.Worker? then 1 else 0
  }

  function Jobs(s: State): nat {
    Sum(s.procs, s.next, IsJob)
  }

  /** Runs that came in minus runs that are over. */
  function Open(t: Tally): int {
    t.entered + t.forked - t.completed - t.refused - t.dropped - t.failed - t.collapsed
  }

  ghost predicate Cared(s: State, i: ImageId)
    requires i in s.w.images
  {
    || Terminal(s.w.images[i].status)
    || i in s.lost
    || exists q :: q in s.procs && Carries(s.procs[q], i)
  }

  /** Deterministic convert ids: absent before the first hand-off, and afterwards present only where
      the hand-off is being repeated because its first reply was lost. */
  ghost predicate IdsOk(convertIds: set<ImageId>, lost: set<ImageId>, forked: nat, p: Proc) {
    && (p.Creating? ==> p.imageId !in convertIds)
    && (p.Worker? && p.job.stage.Validate? && p.job.imageId in convertIds ==> forked > 0 && p.job.imageId in lost)
  }

  ghost predicate IntroducedOnce(procs: map<nat, Proc>) {
    forall q, r, i :: q in procs && r in procs && Introduces(procs[q], i) && Introduces(procs[r], i) ==> q == r
  }

  ghost predicate TablesOk(c: Codec, s: State) {
    && WorldOk(c, s.srcs, s.w)
    && s.w.images.Keys <= s.born <= s.srcs.Keys
    && s.convertIds <= s.born
  }

  ghost predicate Inv(c: Codec, s: State) {
    && TablesOk(c, s)
    && KeysBelow(s.procs, s.next)
    && (forall q :: q in s.procs ==> ProcOk(c, s.srcs, s.born, s.w, s.procs[q]))
    && IntroducedOnce(s.procs)
    && (forall q :: q in s.procs ==> IdsOk(s.convertIds, s.lost, s.tally.forked, s.procs[q]))
    && (forall i :: i in s.w.images ==> Cared(s, i))
    && Open(s.tally) == Jobs(s)
    && (s.tally.forked == 0 ==> s.tally.collapsed == 0)
  }

  // ---- What a step of one process has to deliver ------------------------------------------------------

  predicate TurnCarries(t: Turn, i: ImageId) {
    || (t.self.Some? && Carries(t.self.value, i))
    || exists k :: 0 <= k < |t.spawned| && Carries(t.spawned[k], i)
  }

  ghost predicate TurnWorldOk(c: Codec, s: State, p: Proc, t: Turn) {
    && WorldOk(c, s.srcs, t.world) && Grows(s.born, s.w, t.world)
    && t.world.images.Keys <= t.born && s.born <= t.born <= s.srcs.Keys
    && (forall j :: j in t.born ==> j in s.born || (p.Creating? && p.imageId == j))
  }

  ghost predicate TurnProcsOk(c: Codec, s: State, p: Proc, t: Turn) {
    && (t.self.Some? ==> ProcOk(c, s.srcs, t.born, t.world, t.self.value))
    && (forall k :: 0 <= k < |t.spawned| ==> ProcOk(c, s.srcs, t.born, t.world, t.spawned[k]))
  }

  ghost predicate TurnIdsOk(s: State, p: Proc, t: Turn) {
    && (forall i :: t.self.Some? && Introduces(t.self.value, i) ==> Introduces(p, i))
    && (forall k, i :: 0 <= k < |t.spawned| && Introduces(t.spawned[k], i) ==>
          Introduces(p, i) && t.self.None? && |t.spawned| == 1)
    && (forall j :: j in t.convertIds ==> j in s.convertIds || (j in t.born && Introduces(p, j)))
    && t.tally.forked >= s.tally.forked && s.lost <= t.lost
    && (t.self.Some? ==> IdsOk(t.convertIds, t.lost, t.tally.forked, t.self.value))
    && (forall k :: 0 <= k < |t.spawned| ==> IdsOk(t.convertIds, t.lost, t.tally.forked, t.spawned[k]))
  }

  ghost predicate TurnCares(s: State, p: Proc, t: Turn) {
    && s.lost <= t.lost
    && (forall j :: j in t.world.images ==>
          || Terminal(t.world.images[j].status)
          || j in t.lost
          || TurnCarries(t, j)
          || (j in s.w.images && !Terminal(s.w.images[j].status) && !Carries(p, j)))
  }

  ghost predicate TurnBalances(s: State, p: Proc, t: Turn) {
    && Open(t.tally) + IsJob(p) == Open(s.tally) + SelfSum(t, IsJob) + SeqSum(t.spawned, IsJob)
    && ((s.tally.forked == 0 ==> s.tally.collapsed == 0) ==> (t.tally.forked == 0 ==> t.tally.collapsed == 0))
  }

  ghost predicate TurnOk(c: Codec, s: State, p: Proc, t: Turn) {
    && TurnWorldOk(c, s, p, t) && TurnProcsOk(c, s, p, t)
    && TurnIdsOk(s, p, t) && TurnCares(s, p, t) && TurnBalances(s, p, t)
  }

  // ---- A sound turn keeps the invariant ------------------------------------------------------------------

  lemma {:induction false} ApplyKeepsProcs(c: Codec, s: State, pid: nat, t: Turn)
    requires Inv(c, s) && pid in s.procs && TurnOk(c, s, s.procs[pid], t)
    ensures var s' := Apply(s, pid, t);
            forall q :: q in s'.procs ==> ProcOk(c, s'.srcs, s'.born, s'.w, s'.procs[q])
  {
    var s' := Apply(s, pid, t);
    ApplyMembers(s, pid, t);
    forall q | q in s'.procs ensures ProcOk(c, s'.srcs, s'.born, s'.w, s'.procs[q]) {
      if q != pid && q in s.procs {
        var p := s.procs[q];
        assert ProcOk(c, s.srcs, s.born, s.w, p);
        if p.Creating? && p.imageId in t.born && p.imageId !in s.born {
          assert Introduces(p, p.imageId) && Introduces(s.procs[pid], p.imageId);
        }
        ProcStays(c, s.srcs, s.srcs, s.born, t.born, s.w, t.world, p);
      } else if q != pid {
        assert s'.procs[s.next + (q - s.next)] == t.spawned[q - s.next];
      }
    }
  }

  /** After the step, an introducing process is an old one, or the mover or its only offspring. */
  lemma {:induction false} IntroducerOrigin(s: State, pid: nat, t: Turn, q: nat, i: ImageId)
    requires KeysBelow(s.procs, s.next) && pid in s.procs && TurnIdsOk(s, s.procs[pid], t)
    requires q in Apply(s, pid, t).procs && Introduces(Apply(s, pid, t).procs[q], i)
    ensures q != pid && q in s.procs ==> Introduces(s.procs[q], i)
    ensures !(q != pid && q in s.procs) ==>
              Introduces(s.procs[pid], i) && q == if t.self.Some? then pid else s.next
  {
    ApplyMembers(s, pid, t);
    if q != pid && q !in s.procs {
      assert Apply(s, pid, t).procs[s.next + (q - s.next)] == t.spawned[q - s.next];
    }
  }

  lemma {:induction false} ApplyKeepsIds(c: Codec, s: State, pid: nat, t: Turn)
    requires Inv(c, s) && pid in s.procs && TurnOk(c, s, s.procs[pid], t)
    ensures var s' := Apply(s, pid, t);
            && IntroducedOnce(s'.procs)
            && (forall q :: q in s'.procs ==> IdsOk(s'.convertIds, s'.lost, s'.tally.forked, s'.procs[q]))
            && s'.convertIds <= s'.born
  {
    var s' := Apply(s, pid, t);
    ApplyMembers(s, pid, t);
    forall q, r, i | q in s'.procs && r in s'.procs && Introduces(s'.procs[q], i) && Introduces(s'.procs[r], i)
      ensures q == r
    {
      IntroducerOrigin(s, pid, t, q, i);
      IntroducerOrigin(s, pid, t, r, i);
    }
    forall q | q in s'.procs ensures IdsOk(s'.convertIds, s'.lost, s'.tally.forked, s'.procs[q]) {
      if q != pid && q in s.procs {
        OthersIdsOk(c, s, pid, t, q);
      } else if q != pid {
        assert s'.procs[s.next + (q - s.next)] == t.spawned[q - s.next];
      }
    }
  }

  lemma {:induction false} OthersIdsOk(c: Codec, s: State, pid: nat, t: Turn, q: nat)
    requires Inv(c, s) && pid in s.procs && TurnIdsOk(s, s.procs[pid], t)
    requires q in s.procs && q != pid
    ensures IdsOk(t.convertIds, t.lost, t.tally.forked, s.procs[q])
  {
    var p := s.procs[q];
    assert IdsOk(s.convertIds, s.lost, s.tally.forked, p);
    if p.Creating? && p.imageId in t.convertIds {
      assert Introduces(p, p.imageId);
    } else if p.Worker? && p.job.stage.Validate? && p.job.imageId in t.convertIds {
      assert Introduces(p, p.job.imageId);
    }
  }

  lemma {:induction false} ApplyKeepsCare(c: Codec, s: State, pid: nat, t: Turn)
    requires Inv(c, s) && pid in s.procs && TurnOk(c, s, s.procs[pid], t)
    ensures var s' := Apply(s, pid, t);
            forall i :: i in s'.w.images ==> Cared(s', i)
  {
    var s' := Apply(s, pid, t);
    ApplyMembers(s, pid, t);
    forall i | i in s'.w.images ensures Cared(s', i) {
      if !Terminal(s'.w.images[i].status) && i !in s'.lost {
        if t.self.Some? && Carries(t.self.value, i) {
          assert Carries(s'.procs[pid], i);
        } else if k :| 0 <= k < |t.spawned| && Carries(t.spawned[k], i) {
          assert Carries(s'.procs[s.next + k], i);
        } else {
          assert Cared(s, i);
          var q :| q in s.procs && Carries(s.procs[q], i);
          assert q in s'.procs && Carries(s'.procs[q], i);
        }
      }
    }
  }

  lemma {:induction false} ApplyKeepsInv(c: Codec, s: State, pid: nat, t: Turn)
    requires Inv(c, s) && pid in s.procs && TurnOk(c, s, s.procs[pid], t)
    ensures Inv(c, Apply(s, pid, t))
  {
    ApplyMembers(s, pid, t);
    SumOfApply(s, pid, t, IsJob);
    ApplyKeepsProcs(c, s, pid, t);
    ApplyKeepsIds(c, s, pid, t);
    ApplyKeepsCare(c, s, pid, t);
  }

  // ---- Every process takes sound turns --------------------------------------------------------------------

  lemma {:induction false} SeqSumOfStragglers(ps: seq<Proc>)
    requires forall k :: 0 <= k < |ps| ==> ps[k].Straggler?
    ensures SeqSum(ps, IsJob) == 0
  {
    if ps != [] { SeqSumOfStragglers(ps[1..]); }
  }

  lemma {:induction false} SeqSumOfConcat(ps: seq<Proc>, qs: seq<Proc>, f: Proc -> nat)
    ensures SeqSum(ps + qs, f) == SeqSum(ps, f) + SeqSum(qs, f)
  {
    if ps == [] {
      assert ps + qs == qs;
    } else {
      assert (ps + qs)[1..] == ps[1..] + qs;
      SeqSumOfConcat(ps[1..], qs, f);
    }
  }

  /** How a job's turn follows from the outcome of its await. */
  predicate TurnShape(s: State, job: Job, o: Outcome, attempts: nat, added: seq<Proc>, t: Turn) {
    && t.world == o.world && t.born == s.born && t.spawned == o.orphans + added
    && t.convertIds == (if added != [] && job.stage.Validate? then s.convertIds + {job.imageId} else s.convertIds)
    && (match o.next
        case Goes(phase) =>
          && t.self == Some(Worker(job.(attempts := attempts, phase := phase)))
          && t.tally == s.tally && t.lost == s.lost
        case Throws =>
          && t.self == Some(Retried(job, attempts))
          && t.tally == s.tally.(forked := s.tally.forked + |added|)
          && t.lost == (if added != [] && job.stage.Validate? then s.lost + {job.imageId} else s.lost)
        case Ends(ending) =>
          && t.self == None && Open(t.tally) == Open(s.tally) - 1 + (if ending.HandedOff? then |added| else 0)
          && t.tally.forked == s.tally.forked
          && t.tally.collapsed == s.tally.collapsed + (if ending.HandedOff? then 1 - |added| else 0)
          && t.lost == if ending.HandedOff? && added == [] then s.lost + {job.imageId} else s.lost)
  }

  /** The ingredients of a job's turn, named. */
  lemma {:induction false} JobTurnShape(c: Codec, s: State, job: Job, ch: Choice)
    returns (o: Outcome, attempts: nat, added: seq<Proc>)
    ensures o == JobAwait(c, s.w, job, ch)
    ensures AddedJob(s, job, o, attempts, added)
    ensures TurnShape(s, job, o, attempts, added, JobTurn(c, s, job, ch))
  {
    o := JobAwait(c, s.w, job, ch);
    attempts := job.attempts + if job.phase.Queued? then 1 else 0;
    added := if o.enqueued.Some? && !Deduplicated(s, job)
             then [Fresh(job.imageId, job.entry, o.enqueued.value, attempts)] else [];
  }

  lemma {:induction false} JobTurnProcs(c: Codec, s: State, job: Job, ch: Choice)
    requires TablesOk(c, s) && JobOk(c, s.srcs, s.born, s.w, job) && !job.phase.Failing?
    ensures TurnProcsOk(c, s, Worker(job), JobTurn(c, s, job, ch))
  {
    var o, attempts, added := JobTurnShape(c, s, job, ch);
    JobAwaitOk(c, s.srcs, s.born, s.w, job, ch);
    ShapedProcs(c, s, job, o, attempts, added, JobTurn(c, s, job, ch));
  }

  predicate AddedJob(s: State, job: Job, o: Outcome, attempts: nat, added: seq<Proc>) {
    && attempts == job.attempts + (if job.phase.Queued? then 1 else 0)
    && added == if o.enqueued.Some? && !Deduplicated(s, job)
                then [Fresh(job.imageId, job.entry, o.enqueued.value, attempts)] else []
  }

  lemma {:induction false} ShapedProcs(c: Codec, s: State, job: Job, o: Outcome, attempts: nat, added: seq<Proc>,
                                       t: Turn)
    requires JobOk(c, s.srcs, s.born, s.w, job) && !job.phase.Failing?
    requires OutcomeOk(c, s.srcs, s.born, s.w, job.imageId, job.stage, o)
    requires AddedJob(s, job, o, attempts, added) && TurnShape(s, job, o, attempts, added, t)
    ensures TurnProcsOk(c, s, Worker(job), t)
  {
    forall k | 0 <= k < |t.spawned| ensures ProcOk(c, s.srcs, t.born, t.world, t.spawned[k]) {
      if k < |o.orphans| {
        assert t.spawned[k] == o.orphans[k];
      } else {
        assert t.spawned[k] == added[0];
      }
    }
  }

  /** The part of an outcome's soundness that does not speak of the tables. */
  predicate OutcomeShape(stage: Stage, o: Outcome) {
    && (o.enqueued.Some? ==> (o.next == Ends(HandedOff) || o.next.Throws?) && !o.enqueued.value.Validate?)
    && (o.next == Ends(HandedOff) ==> o.enqueued.Some?)
    && (forall k :: 0 <= k < |o.orphans| ==> o.orphans[k].Straggler?)
  }

  lemma {:induction false} ShapeOfOutcome(c: Codec, s: State, job: Job, ch: Choice)
    requires TablesOk(c, s) && JobOk(c, s.srcs, s.born, s.w, job) && !job.phase.Failing?
    ensures OutcomeShape(job.stage, JobAwait(c, s.w, job, ch))
  {
    JobAwaitOk(c, s.srcs, s.born, s.w, job, ch);
  }

  lemma {:induction false} JobTurnIds(c: Codec, s: State, job: Job, ch: Choice)
    requires OutcomeShape(job.stage, JobAwait(c, s.w, job, ch)) && job.imageId in s.born
    requires IdsOk(s.convertIds, s.lost, s.tally.forked, Worker(job))
    ensures TurnIdsOk(s, Worker(job), JobTurn(c, s, job, ch))
  {
    var o, attempts, added := JobTurnShape(c, s, job, ch);
    var t := JobTurn(c, s, job, ch);
    forall k | 0 <= k < |t.spawned|
      ensures t.spawned[k].Straggler? || (t.spawned[k].Worker? && !t.spawned[k].job.stage.Validate?)
      ensures forall i :: !Introduces(t.spawned[k], i)
    {
      if k < |o.orphans| {
        assert t.spawned[k] == o.orphans[k];
      } else {
        assert t.spawned[k] == added[0];
      }
    }
  }

  lemma {:induction false} JobTurnCares(c: Codec, s: State, job: Job, ch: Choice)
    requires TablesOk(c, s) && JobOk(c, s.srcs, s.born, s.w, job) && !job.phase.Failing?
    ensures TurnCares(s, Worker(job), JobTurn(c, s, job, ch))
  {
    var o, attempts, added := JobTurnShape(c, s, job, ch);
    JobAwaitOk(c, s.srcs, s.born, s.w, job, ch);
    ShapedCares(c, s, job, o, attempts, added, JobTurn(c, s, job, ch));
  }

  lemma {:induction false} ShapedCares(c: Codec, s: State, job: Job, o: Outcome, attempts: nat, added: seq<Proc>,
                                       t: Turn)
    requires OutcomeOk(c, s.srcs, s.born, s.w, job.imageId, job.stage, o)
    requires AddedJob(s, job, o, attempts, added) && TurnShape(s, job, o, attempts, added, t)
    ensures TurnCares(s, Worker(job), t)
  {
    if added != [] {
      assert t.spawned[|o.orphans|] == added[0] && Carries(added[0], job.imageId);
      assert TurnCarries(t, job.imageId);
    }
  }

  lemma {:induction false} JobTurnBalances(c: Codec, s: State, job: Job, ch: Choice)
    requires OutcomeShape(job.stage, JobAwait(c, s.w, job, ch))
    requires IdsOk(s.convertIds, s.lost, s.tally.forked, Worker(job))
    ensures TurnBalances(s, Worker(job), JobTurn(c, s, job, ch))
  {
    var o, attempts, added := JobTurnShape(c, s, job, ch);
    SeqSumOfStragglers(o.orphans);
    SeqSumOfConcat(o.orphans, added, IsJob);
    assert SeqSum(added, IsJob) == |added|;
  }

  lemma {:induction false} JobTurnWorld(c: Codec, s: State, job: Job, ch: Choice)
    requires TablesOk(c, s) && JobOk(c, s.srcs, s.born, s.w, job) && !job.phase.Failing?
    ensures TurnWorldOk(c, s, Worker(job), JobTurn(c, s, job, ch))
  {
    JobAwaitOk(c, s.srcs, s.born, s.w, job, ch);
    var o, attempts, added := JobTurnShape(c, s, job, ch);
    forall j | j in o.world.images ensures j in s.born {
      assert j in s.w.images;
    }
  }

  lemma {:induction false} JobTurnOk(c: Codec, s: State, job: Job, ch: Choice)
    requires TablesOk(c, s) && JobOk(c, s.srcs, s.born, s.w, job) && !job.phase.Failing?
    requires IdsOk(s.convertIds, s.lost, s.tally.forked, Worker(job))
    ensures TurnOk(c, s, Worker(job), JobTurn(c, s, job, ch))
  {
    ShapeOfOutcome(c, s, job, ch);
    JobTurnWorld(c, s, job, ch);
    JobTurnProcs(c, s, job, ch);
    JobTurnIds(c, s, job, ch);
    JobTurnCares(c, s, job, ch);
    JobTurnBalances(c, s, job, ch);
  }

  lemma {:induction false} TagNamesStage(stage: Stage, message: string)
    requires !stage.Validate?
    ensures NamesStage("[" + StageName(stage) + "] " + message)
  {
    match stage {
      case Convert => assert "[" + StageName(stage) + "] " == "[convert] ";
      case Compress => assert "[" + StageName(stage) + "] " == "[compress] ";
      case Variants => assert "[" + StageName(stage) + "] " == "[variants] ";
    }
  }

  lemma {:induction false} GivenUpIsSound(c: Codec, s: State, i: ImageId, message: string)
    requires TablesOk(c, s) && i in s.w.images
    ensures SoundWrite(c, s, Refused(s.w, i, FAILED, [RejectionReason("INTERNAL_ERROR", message)]).value)
  {
    assert RowOk(c, s.srcs, s.w, i);
    var reasons := [RejectionReason("INTERNAL_ERROR", message)];
    RowWrite(c, s.srcs, s.born, s.w, i, s.w.images[i].(status := FAILED, rejectionReasons := Some(reasons)));
  }

  lemma {:induction false} FailedIsSound(c: Codec, s: State, i: ImageId, error: string)
    requires TablesOk(c, s) && i in s.w.images && NamesStage(error)
    ensures SoundWrite(c, s, ProcessingFailed(s.w, i, error).value)
  {
    assert RowOk(c, s.srcs, s.w, i);
    RowWrite(c, s.srcs, s.born, s.w, i, s.w.images[i].(status := FAILED, processingError := Some(error)));
  }

  lemma {:induction false} HandlerTurnWorld(c: Codec, s: State, job: Job, ch: Choice)
    requires TablesOk(c, s)
    ensures TurnWorldOk(c, s, Worker(job), HandlerTurn(s, job, ch))
  {
    SameIsSound(c, s);
    if job.imageId in s.w.images {
      if job.stage.Validate? {
        GivenUpIsSound(c, s, job.imageId, ch.message);
      } else {
        TagNamesStage(job.stage, ch.message);
        FailedIsSound(c, s, job.imageId, "[" + StageName(job.stage) + "] " + ch.message);
      }
    }
    SoundTurn(c, s, Worker(job), HandlerTurn(s, job, ch));
  }

  lemma {:induction false} HandlerTurnCares(s: State, job: Job, ch: Choice)
    ensures TurnCares(s, Worker(job), HandlerTurn(s, job, ch))
    ensures TurnIdsOk(s, Worker(job), HandlerTurn(s, job, ch))
    ensures TurnBalances(s, Worker(job), HandlerTurn(s, job, ch))
  {
  }

  lemma {:induction false} HandlerTurnOk(c: Codec, s: State, job: Job, ch: Choice)
    requires TablesOk(c, s)
    ensures TurnOk(c, s, Worker(job), HandlerTurn(s, job, ch))
  {
    HandlerTurnWorld(c, s, job, ch);
    HandlerTurnCares(s, job, ch);
  }

  lemma {:induction false} StragglerTurnOk(c: Codec, s: State, p: Proc, ch: Choice)
    requires TablesOk(c, s) && p.Straggler? && ProcOk(c, s.srcs, s.born, s.w, p)
    ensures TurnOk(c, s, p, StragglerTurn(c, s, p, ch))
  {
    var (w', task) := TaskAwait(c, s.w, p.imageId, p.userId, p.vtype, p.task, ch.outcome);
    StragglerAwait(c, s.srcs, s.born, s.w, p, ch.outcome);
    var t := StragglerTurn(c, s, p, ch);
    assert t.world.images == s.w.images && t.spawned == [] && t.born == s.born;
    assert TurnWorldOk(c, s, p, t);
    assert TurnProcsOk(c, s, p, t);
  }

  lemma {:induction false} StragglerAwait(c: Codec, srcs: Sources, born: set<ImageId>, w: World, p: Proc, out: Await)
    requires WorldOk(c, srcs, w) && p.Straggler? && ProcOk(c, srcs, born, w, p)
    ensures var (w', task) := TaskAwait(c, w, p.imageId, p.userId, p.vtype, p.task, out);
            && WorldOk(c, srcs, w') && Grows(born, w, w') && w'.images == w.images
            && (task.Some? && !task.value.Settled? ==> ProcOk(c, srcs, born, w', p.(task := task.value)))
  {
    TaskAwaitOk(c, srcs, born, w, p.imageId, p.vtype, p.task, out);
  }

  lemma {:induction false} CreateTurnWorld(c: Codec, s: State, p: Proc, ch: Choice)
    requires TablesOk(c, s) && p.Creating? && ProcOk(c, s.srcs, s.born, s.w, p)
    ensures TurnWorldOk(c, s, p, CreateTurn(s, p, ch))
  {
    var i := p.imageId;
    var src := s.srcs[i];
    GrowsRefl(s.born, s.w);
    match p.create {
      case PutOriginal =>
        PutWrite(c, s.srcs, s.born, s.w, Key(src.userId, i, Original(src.ext)), src.bytes);
      case InsertRow =>
        CreateWrite(c, s.srcs, s.born, s.w, i, NewRow(src, i, p.entry));
      case EnqueueEntry =>
    }
  }

  lemma {:induction false} CreateTurnProcs(c: Codec, s: State, p: Proc, ch: Choice)
    requires TablesOk(c, s) && p.Creating? && ProcOk(c, s.srcs, s.born, s.w, p)
    ensures TurnProcsOk(c, s, p, CreateTurn(s, p, ch))
  {
  }

  lemma {:induction false} CreateTurnCares(c: Codec, s: State, p: Proc, ch: Choice)
    requires p.Creating? && p.imageId in s.srcs
    ensures TurnCares(s, p, CreateTurn(s, p, ch))
  {
    var t := CreateTurn(s, p, ch);
    if t.spawned != [] {
      assert Carries(t.spawned[0], p.imageId);
    }
  }

  lemma {:induction false} CreateTurnOk(c: Codec, s: State, p: Proc, ch: Choice)
    requires TablesOk(c, s) && p.Creating? && ProcOk(c, s.srcs, s.born, s.w, p) &&
             IdsOk(s.convertIds, s.lost, s.tally.forked, p)
    ensures TurnOk(c, s, p, CreateTurn(s, p, ch))
  {
    CreateTurnWorld(c, s, p, ch);
    CreateTurnProcs(c, s, p, ch);
    CreateTurnCares(c, s, p, ch);
    CreateTurnIds(s, p, ch);
  }

  lemma {:induction false} CreateTurnIds(s: State, p: Proc, ch: Choice)
    requires p.Creating? && p.imageId in s.srcs && IdsOk(s.convertIds, s.lost, s.tally.forked, p)
    requires p.create.EnqueueEntry? ==> p.imageId in s.born
    ensures TurnIdsOk(s, p, CreateTurn(s, p, ch)) && TurnBalances(s, p, CreateTurn(s, p, ch))
  {
  }

  lemma {:induction false} MarkIsSound(c: Codec, s: State, i: ImageId)
    requires TablesOk(c, s) && i in s.w.images
    ensures SoundWrite(c, s, StatusSet(s.w, i, PROCESSING_CONVERT).value)
  {
    assert RowOk(c, s.srcs, s.w, i);
    RowWrite(c, s.srcs, s.born, s.w, i, s.w.images[i].(status := PROCESSING_CONVERT, processingError := None));
  }

  /** The worlds a reprocess call can leave. */
  lemma {:induction false} ReprocessTurnWrites(s: State, p: Proc, ch: Choice)
    requires p.Reprocessing?
    ensures var t := ReprocessTurn(s, p, ch);
            && t.born == s.born
            && (|| t.world == s.w
                || (p.imageId in s.w.images && t.world == StatusSet(s.w, p.imageId, PROCESSING_CONVERT).value))
  {
  }

  lemma {:induction false} ReprocessTurnWorld(c: Codec, s: State, p: Proc, ch: Choice)
    requires TablesOk(c, s) && p.Reprocessing?
    ensures TurnWorldOk(c, s, p, ReprocessTurn(s, p, ch))
  {
    ReprocessTurnWrites(s, p, ch);
    var t := ReprocessTurn(s, p, ch);
    SameIsSound(c, s);
    if p.imageId in s.w.images { MarkIsSound(c, s, p.imageId); }
    assert SoundWrite(c, s, t.world);
    SoundTurn(c, s, p, t);
  }

  lemma {:induction false} ReprocessTurnProcs(c: Codec, s: State, p: Proc, ch: Choice)
    requires TablesOk(c, s) && p.Reprocessing? && (p.reprocess.FindRow? || p.imageId in s.born)
    ensures TurnProcsOk(c, s, p, ReprocessTurn(s, p, ch))
  {
  }

  lemma {:induction false} ReprocessTurnOk(c: Codec, s: State, p: Proc, ch: Choice)
    requires TablesOk(c, s) && p.Reprocessing? && (p.reprocess.FindRow? || p.imageId in s.born)
    ensures TurnOk(c, s, p, ReprocessTurn(s, p, ch))
  {
    ReprocessTurnWorld(c, s, p, ch);
    ReprocessTurnProcs(c, s, p, ch);
    ReprocessTurnCares(s, p, ch);
  }

  lemma {:induction false} ReprocessTurnCares(s: State, p: Proc, ch: Choice)
    requires p.Reprocessing?
    ensures TurnCares(s, p, ReprocessTurn(s, p, ch))
    ensures TurnIdsOk(s, p, ReprocessTurn(s, p, ch))
    ensures TurnBalances(s, p, ReprocessTurn(s, p, ch))
  {
    var t := ReprocessTurn(s, p, ch);
    if t.spawned != [] {
      assert Carries(t.spawned[0], p.imageId);
    }
  }

  /** A write of a step that inserts no row. */
  ghost predicate SoundWrite(c: Codec, s: State, w': World) {
    WorldOk(c, s.srcs, w') && Grows(s.born, s.w, w') && w'.images.Keys <= s.w.images.Keys
  }

  lemma {:induction false} SoundTurn(c: Codec, s: State, p: Proc, t: Turn)
    requires TablesOk(c, s) && SoundWrite(c, s, t.world) && t.born == s.born
    ensures TurnWorldOk(c, s, p, t)
  {
  }

  lemma {:induction false} SameIsSound(c: Codec, s: State)
    requires TablesOk(c, s)
    ensures SoundWrite(c, s, s.w)
  {
    GrowsRefl(s.born, s.w);
  }

  lemma {:induction false} RemovedIsSound(c: Codec, s: State, key: Key)
    requires TablesOk(c, s) && !Derived(key)
    ensures SoundWrite(c, s, Removed(s.w, key))
  {
    RemoveWrite(c, s.srcs, s.born, s.w, key);
  }

  lemma {:induction false} DeletedIsSound(c: Codec, s: State, i: ImageId)
    requires TablesOk(c, s) && i in s.w.images
    ensures SoundWrite(c, s, Deleted(s.w, i).value)
  {
    DeleteWrite(c, s.srcs, s.born, s.w, i);
  }

  /** The worlds a remove call can leave. */
  lemma {:induction false} RemoveTurnWrites(s: State, p: Proc, ch: Choice) returns (key: Option<Key>)
    requires p.Removing? && VictimOk(s.srcs, p.imageId, p.remove)
    ensures var t := RemoveTurn(s, p, ch);
            && t.born == s.born
            && (|| t.world == s.w
                || (key.Some? && !Derived(key.value) && t.world == Removed(s.w, key.value))
                || (p.imageId in s.w.images && t.world == Deleted(s.w, p.imageId).value))
  {
    key := None;
    if p.remove.DeleteObjects? { key := if ch.first then p.remove.original else p.remove.display; }
  }

  lemma {:induction false} RemoveTurnWorld(c: Codec, s: State, p: Proc, ch: Choice)
    requires TablesOk(c, s) && p.Removing? && VictimOk(s.srcs, p.imageId, p.remove)
    ensures TurnWorldOk(c, s, p, RemoveTurn(s, p, ch))
  {
    var key := RemoveTurnWrites(s, p, ch);
    SameIsSound(c, s);
    if key.Some? && !Derived(key.value) { RemovedIsSound(c, s, key.value); }
    if p.imageId in s.w.images { DeletedIsSound(c, s, p.imageId); }
    SoundTurn(c, s, p, RemoveTurn(s, p, ch));
  }

  lemma {:induction false} RemoveTurnProcs(c: Codec, s: State, p: Proc, ch: Choice)
    requires TablesOk(c, s) && p.Removing? && VictimOk(s.srcs, p.imageId, p.remove)
    ensures TurnProcsOk(c, s, p, RemoveTurn(s, p, ch))
  {
    if p.imageId in s.w.images { assert RowOk(c, s.srcs, s.w, p.imageId); }
  }

  lemma {:induction false} RemoveTurnCares(s: State, p: Proc, ch: Choice)
    requires p.Removing?
    ensures TurnCares(s, p, RemoveTurn(s, p, ch))
    ensures TurnIdsOk(s, p, RemoveTurn(s, p, ch))
    ensures TurnBalances(s, p, RemoveTurn(s, p, ch))
  {
  }

  lemma {:induction false} RemoveTurnOk(c: Codec, s: State, p: Proc, ch: Choice)
    requires TablesOk(c, s) && p.Removing? && ProcOk(c, s.srcs, s.born, s.w, p)
    ensures TurnOk(c, s, p, RemoveTurn(s, p, ch))
  {
    RemoveTurnWorld(c, s, p, ch);
    RemoveTurnProcs(c, s, p, ch);
    RemoveTurnCares(s, p, ch);
  }

  lemma {:induction false} ProcTurnOk(c: Codec, s: State, pid: nat, ch: Choice)
    requires Inv(c, s) && pid in s.procs
    ensures TurnOk(c, s, s.procs[pid], ProcTurn(c, s, s.procs[pid], ch))
  {
    var p := s.procs[pid];
    assert ProcOk(c, s.srcs, s.born, s.w, p) && IdsOk(s.convertIds, s.lost, s.tally.forked, p);
    match p {
      case Worker(job) =>
        if job.phase.Failing? { HandlerTurnOk(c, s, job, ch); } else { JobTurnOk(c, s, job, ch); }
      case Straggler(_, _, _, _) => StragglerTurnOk(c, s, p, ch);
      case Creating(_, _, _) => CreateTurnOk(c, s, p, ch);
      case Reprocessing(_, _) => ReprocessTurnOk(c, s, p, ch);
      case Removing(_, _) => RemoveTurnOk(c, s, p, ch);
    }
  }

  // ---- Steps and runs ------------------------------------------------------------------------------------------

  lemma {:induction false} MoreSources(c: Codec, srcs: Sources, i: ImageId, src: Source, w: World)
    requires WorldOk(c, srcs, w) && i !in srcs
    ensures WorldOk(c, srcs[i := src], w)
  {
    var srcs' := srcs[i := src];
    forall j | j in w.images ensures RowOk(c, srcs', w, j) {
      assert RowOk(c, srcs, w, j);
    }
    forall n | 0 <= n < |w.variants| ensures VariantOk(c, srcs', w, w.variants[n]) {
      assert VariantOk(c, srcs, w, w.variants[n]);
    }
    forall k | k in w.objects ensures ObjectOk(c, srcs', k, w.objects[k]) {
      assert ObjectOk(c, srcs, k, w.objects[k]);
    }
  }

  /** A new call joins: nobody else is affected. */
  lemma {:induction false} BegunProcs(c: Codec, s: State, srcs': Sources, p: Proc)
    requires Inv(c, s) && ProcOk(c, srcs', s.born, s.w, p)
    requires forall i :: i in s.srcs ==> i in srcs' && srcs'[i] == s.srcs[i]
    ensures var s' := Begun(s.(srcs := srcs'), p);
            forall q :: q in s'.procs ==> ProcOk(c, srcs', s'.born, s'.w, s'.procs[q])
  {
    var s' := Begun(s.(srcs := srcs'), p);
    GrowsRefl(s.born, s.w);
    forall q | q in s'.procs ensures ProcOk(c, srcs', s'.born, s'.w, s'.procs[q]) {
      if q != s.next { ProcStays(c, s.srcs, srcs', s.born, s.born, s.w, s.w, s.procs[q]); }
    }
  }

  lemma {:induction false} IntroducedIsKnown(c: Codec, s: State, q: nat, i: ImageId)
    requires Inv(c, s) && q in s.procs && Introduces(s.procs[q], i)
    ensures i in s.srcs
  {
    assert ProcOk(c, s.srcs, s.born, s.w, s.procs[q]);
  }

  lemma {:induction false} BegunIds(c: Codec, s: State, srcs': Sources, p: Proc)
    requires Inv(c, s) && !p.Worker? && (p.Creating? ==> p.imageId !in s.srcs)
    ensures var s' := Begun(s.(srcs := srcs'), p);
            && IntroducedOnce(s'.procs)
            && (forall q :: q in s'.procs ==> IdsOk(s'.convertIds, s'.lost, s'.tally.forked, s'.procs[q]))
  {
    forall q, i | q in s.procs && Introduces(s.procs[q], i) ensures i in s.srcs {
      IntroducedIsKnown(c, s, q, i);
    }
  }

  lemma {:induction false} BegunCare(c: Codec, s: State, srcs': Sources, p: Proc)
    requires Inv(c, s)
    ensures var s' := Begun(s.(srcs := srcs'), p); forall i :: i in s'.w.images ==> Cared(s', i)
  {
    var s' := Begun(s.(srcs := srcs'), p);
    forall i | i in s'.w.images ensures Cared(s', i) {
      assert Cared(s, i);
      if q :| q in s.procs && Carries(s.procs[q], i) {
        assert q in s'.procs && Carries(s'.procs[q], i);
      }
    }
  }

  lemma {:induction false} BegunJobs(s: State, srcs': Sources, p: Proc)
    requires !p.Worker?
    ensures Jobs(Begun(s.(srcs := srcs'), p)) == Jobs(s)
  {
    SumOfEqual(s.procs, Begun(s.(srcs := srcs'), p).procs, s.next, IsJob);
  }

  lemma {:induction false} BegunKeepsInv(c: Codec, s: State, srcs': Sources, p: Proc)
    requires Inv(c, s) && WorldOk(c, srcs', s.w)
    requires forall i :: i in s.srcs ==> i in srcs' && srcs'[i] == s.srcs[i]
    requires ProcOk(c, srcs', s.born, s.w, p) && !p.Worker?
    requires p.Creating? ==> p.imageId !in s.srcs
    ensures Inv(c, Begun(s.(srcs := srcs'), p))
  {
    BegunProcs(c, s, srcs', p);
    BegunIds(c, s, srcs', p);
    BegunCare(c, s, srcs', p);
    BegunJobs(s, srcs', p);
  }

  lemma {:induction false} StepKeepsInv(c: Codec, s: State, a: Action)
    requires Inv(c, s)
    ensures Inv(c, Step(c, s, a))
  {
    if Enabled(s, a) {
      match a {
        case Upload(src, i) =>
          MoreSources(c, s.srcs, i, src, s.w);
          BegunKeepsInv(c, s, s.srcs[i := src], Creating(i, Validate, PutOriginal));
        case Seed(src, i) =>
          MoreSources(c, s.srcs, i, src, s.w);
          BegunKeepsInv(c, s, s.srcs[i := src], Creating(i, Convert, PutOriginal));
        case Reprocess(i) =>
          BegunKeepsInv(c, s, s.srcs, Reprocessing(i, FindRow));
        case Remove(i) =>
          BegunKeepsInv(c, s, s.srcs, Removing(i, FindVictim));
        case Resume(pid, ch) =>
          ProcTurnOk(c, s, pid, ch);
          ApplyKeepsInv(c, s, pid, ProcTurn(c, s, s.procs[pid], ch));
      }
    }
  }

  /** Whatever uploads, reprocesses, deletes, failures, retries and stragglers interleave, every
      reachable state satisfies the invariant. */
  lemma {:induction false} RunKeepsInv(c: Codec, acts: seq<Action>)
    ensures Inv(c, Exec(c, INITIAL, acts))
  {
    if acts != [] {
      RunKeepsInv(c, acts[..|acts| - 1]);
      StepKeepsInv(c, Exec(c, INITIAL, acts[..|acts| - 1]), acts[|acts| - 1]);
    }
  }
}
