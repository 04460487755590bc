/**
 * The store under its real names.  The step system keys objects by (user, image, kind); S3 knows only the
 * rendered strings.  No two keys of a reachable state share a string, and every step does to the bucket
 * what it does to the structured store: it reads, puts or deletes one object.
 */
module Buckets {
  import opened Wrappers
  import opened Keys
  import opened Tables
  import opened Machine
  import opened JobInvariant
  import opened PipelineInvariant
  import opened Guarantees

  predicate Fits(srcs: Sources, k: Key) {
    k.imageId in srcs && KeyFits(srcs[k.imageId], k)
  }

  ghost predicate AllFit(srcs: Sources, objects: map<Key, Blob>) {
    forall k :: k in objects ==> Fits(srcs, k)
  }

  /** Keys of one set of uploads never collide once rendered, so the object store may be thought of
      as keyed by (user, image, kind). */
  lemma {:induction false} FittingKeysApart(srcs: Sources, k1: Key, k2: Key)
    requires Fits(srcs, k1) && Fits(srcs, k2)
    ensures Render(k1) == Render(k2) ==> k1 == k2
  {
    RenderInjective(k1, k2);
  }

  /** The bucket as S3 sees it. */
  ghost function Bucket(srcs: Sources, objects: map<Key, Blob>): map<string, Blob>
    requires AllFit(srcs, objects)
  {
    forall k1, k2 | k1 in objects && k2 in objects ensures Render(k1) == Render(k2) ==> k1 == k2 {
      FittingKeysApart(srcs, k1, k2);
    }
    map k | k in objects :: Render(k) := objects[k]
  }

  lemma {:induction false} BucketReads(srcs: Sources, objects: map<Key, Blob>, k: Key)
    requires AllFit(srcs, objects) && Fits(srcs, k)
    ensures var b := Bucket(srcs, objects);
            && (k in objects <==> Render(k) in b)
            && (k in objects ==> b[Render(k)] == objects[k])
  {
    forall k1 | k1 in objects ensures Render(k1) == Render(k) ==> k1 == k {
      FittingKeysApart(srcs, k1, k);
    }
  }

  lemma {:induction false} BucketPuts(srcs: Sources, objects: map<Key, Blob>, k: Key, body: Blob)
    requires AllFit(srcs, objects) && Fits(srcs, k)
    ensures AllFit(srcs, objects[k := body]) &&
            Bucket(srcs, objects[k := body]) == Bucket(srcs, objects)[Render(k) := body]
  {
    var after := objects[k := body];
    var b, p := Bucket(srcs, objects), Bucket(srcs, after);
    forall x ensures x in p <==> x == Render(k) || x in b {
      if x in b {
        var k1 :| k1 in objects && Render(k1) == x;
        assert k1 in after;
      }
      assert k in after;
    }
    forall x | x in p ensures p[x] == b[Render(k) := body][x] {
      var k1 :| k1 in after && Render(k1) == x;
      BucketReads(srcs, after, k1);
      FittingKeysApart(srcs, k1, k);
      if k1 != k { BucketReads(srcs, objects, k1); }
    }
  }

  lemma {:induction false} BucketRemoves(srcs: Sources, objects: map<Key, Blob>, k: Key)
    requires AllFit(srcs, objects) && Fits(srcs, k)
    ensures AllFit(srcs, objects - {k}) && Bucket(srcs, objects - {k}) == Bucket(srcs, objects) - {Render(k)}
  {
    var after := objects - {k};
    var b, r := Bucket(srcs, objects), Bucket(srcs, after);
    forall x ensures x in r <==> x in b && x != Render(k) {
      BucketRemovesName(srcs, objects, k, x);
    }
    forall x | x in r ensures r[x] == b[x] {
      var k1 :| k1 in after && Render(k1) == x;
      BucketReads(srcs, after, k1);
      BucketReads(srcs, objects, k1);
    }
    assert r == b - {Render(k)};
  }

  lemma {:induction false} BucketRemovesName(srcs: Sources, objects: map<Key, Blob>, k: Key, x: string)
    requires AllFit(srcs, objects) && Fits(srcs, k)
    ensures AllFit(srcs, objects - {k})
    ensures x in Bucket(srcs, objects - {k}) <==> x in Bucket(srcs, objects) && x != Render(k)
  {
    var after := objects - {k};
    if x in Bucket(srcs, objects) && x != Render(k) {
      var k1 :| k1 in objects && Render(k1) == x;
      assert k1 in after;
    }
    if x in Bucket(srcs, after) {
      var k1 :| k1 in after && Render(k1) == x;
      FittingKeysApart(srcs, k1, k);
    }
  }

  /** Reads, writes and deletes under rendered keys agree with those under structured keys. */
  lemma {:induction false} BucketRefines(srcs: Sources, w: World, k: Key, body: Blob)
    requires AllFit(srcs, w.objects) && Fits(srcs, k)
    ensures var b := Bucket(srcs, w.objects);
            && (k in w.objects <==> Render(k) in b)
            && (k in w.objects ==> b[Render(k)] == w.objects[k])
            && AllFit(srcs, Put(w, k, body).objects) && Bucket(srcs, Put(w, k, body).objects) == b[Render(k) := body]
            && AllFit(srcs, Removed(w, k).objects) && Bucket(srcs, Removed(w, k).objects) == b - {Render(k)}
  {
    BucketReads(srcs, w.objects, k);
    BucketPuts(srcs, w.objects, k, body);
    BucketRemoves(srcs, w.objects, k);
  }

  /** In every reachable state the bucket is well defined. */
  lemma {:induction false} ReachedStoreFits(c: Codec, acts: seq<Action>)
    ensures AllFit(Reached(c, acts).srcs, Reached(c, acts).w.objects)
  {
    RunKeepsInv(c, acts);
    var s := Reached(c, acts);
    forall k | k in s.w.objects ensures Fits(s.srcs, k) {
      assert ObjectOk(c, s.srcs, k, s.w.objects[k]);
    }
  }

  // ---- What a step does to the store ----------------------------------------------------------------------

  datatype StoreOp = Untouched | Puts(key: Key, body: Blob) | Deletes(key: Key)

  function OnStore(objects: map<Key, Blob>, op: StoreOp): map<Key, Blob> {
    match op
    case Untouched => objects
    case Puts(key, body) => objects[key := body]
    case Deletes(key) => objects - {key}
  }

  function OnBucket(bucket: map<string, Blob>, op: StoreOp): map<string, Blob> {
    match op
    case Untouched => bucket
    case Puts(key, body) => bucket[Render(key) := body]
    case Deletes(key) => bucket - {Render(key)}
  }

  function TaskOp(i: ImageId, userId: string, t: VariantType, task: Task): StoreOp {
    if task.Putting? then Puts(Key(userId, i, Variant(t)), task.out.buffer) else Untouched
  }

  /** What the await due does to the store if it takes effect. */
  function JobOp(i: ImageId, phase: Phase, t: VariantType): StoreOp {
    match phase
    case Validating(VDisplay(row, body, _)) => Puts(DisplayOf(row.original), body)
    case Converting(CPut(row, out)) => Puts(Key(row.userId, i, Normalized), out.buffer)
    case Compressing(KPut(row, _, out)) => Puts(Key(row.userId, i, Compressed), out.buffer)
    case Sizing(x) => if x.XFan? then TaskOp(i, x.row.userId, t, TaskOf(x, t)) else Untouched
    case _ => Untouched
  }

  function RemoveOp(remove: RemoveStep, first: bool): StoreOp {
    match remove
    case DeleteObjects(original, display) =>
      var key := if first then original else display;
      if key.Some? then Deletes(key.value) else Untouched
    case _ => Untouched
  }

  function ProcOp(srcs: Sources, p: Proc, ch: Choice): StoreOp {
    match p
    case Worker(job) => JobOp(job.imageId, job.phase, ch.vtype)
    case Straggler(i, userId, t, task) => TaskOp(i, userId, t, task)
    case Creating(i, _, create) =>
      if create.PutOriginal? && i in srcs
      then Puts(Key(srcs[i].userId, i, Original(srcs[i].ext)), srcs[i].bytes) else Untouched
    case Reprocessing(_, _) => Untouched
    case Removing(_, remove) => RemoveOp(remove, ch.first)
  }

  /** The one operation a step performs on the store. */
  function StepOp(s: State, a: Action): StoreOp {
    if a.Resume? && Enabled(s, a) && !a.choice.outcome.Rejected? then ProcOp(s.srcs, s.procs[a.pid], a.choice)
    else Untouched
  }

  /** The key an await reads. */
  function ReadBy(p: Proc): Option<Key> {
    match p
    case Worker(job) =>
      (match job.phase
       case Validating(VGet(row)) => Some(row.original)
       case Converting(CGet(row)) => Some(row.original)
       case Compressing(KGet(row)) => row.normalizedKey
       case Sizing(XGet(_, key)) => Some(key)
       case _ => None)
    case _ => None
  }

  predicate OpFits(srcs: Sources, op: StoreOp) {
    !op.Untouched? ==> Fits(srcs, op.key)
  }

  predicate ActsAs(w: World, w': World, op: StoreOp, out: Await) {
    w'.objects == OnStore(w.objects, if out.Rejected? then Untouched else op)
  }

  lemma {:induction false} TaskActs(c: Codec, srcs: Sources, w: World, i: ImageId, t: VariantType, task: Task,
                                    out: Await)
    requires TaskOk(c, srcs, w, i, t, task)
    ensures ActsAs(w, TaskAwait(c, w, i, srcs[i].userId, t, task, out).0, TaskOp(i, srcs[i].userId, t, task), out)
    ensures OpFits(srcs, TaskOp(i, srcs[i].userId, t, task))
  {
  }

  lemma {:induction false} ValidateActs(c: Codec, srcs: Sources, w: World, i: ImageId, phase: ValidatePhase, ch: Choice)
    requires ValidatePhaseOk(c, srcs, i, phase)
    ensures var op := JobOp(i, Validating(phase), ch.vtype);
            ActsAs(w, ValidateAwait(c, w, i, phase, ch).world, op, ch.outcome) && OpFits(srcs, op)
  {
  }

  lemma {:induction false} ConvertActs(c: Codec, srcs: Sources, w: World, i: ImageId, phase: ConvertPhase, ch: Choice)
    requires ConvertPhaseOk(c, srcs, w, i, phase)
    ensures var op := JobOp(i, Converting(phase), ch.vtype);
            ActsAs(w, ConvertAwait(c, w, i, phase, ch).world, op, ch.outcome) && OpFits(srcs, op)
  {
  }

  lemma {:induction false} CompressActs(c: Codec, srcs: Sources, w: World, i: ImageId, phase: CompressPhase, ch: Choice)
    requires CompressPhaseOk(c, srcs, w, i, phase)
    ensures var op := JobOp(i, Compressing(phase), ch.vtype);
            ActsAs(w, CompressAwait(c, w, i, phase, ch).world, op, ch.outcome) && OpFits(srcs, op)
  {
  }

  lemma {:induction false} VariantsActs(c: Codec, srcs: Sources, w: World, i: ImageId, phase: VariantsPhase, ch: Choice)
    requires VariantsPhaseOk(c, srcs, w, i, phase)
    ensures var op := JobOp(i, Sizing(phase), ch.vtype);
            ActsAs(w, VariantsAwait(c, w, i, phase, ch).world, op, ch.outcome) && OpFits(srcs, op)
  {
    if phase.XFan? { TaskActs(c, srcs, w, i, ch.vtype, TaskOf(phase, ch.vtype), ch.outcome); }
  }

  lemma {:induction false} JobActs(c: Codec, srcs: Sources, w: World, job: Job, ch: Choice)
    requires PhaseOk(c, srcs, w, job.imageId, job.stage, job.phase) && !job.phase.Failing?
    ensures var op := JobOp(job.imageId, job.phase, ch.vtype);
            ActsAs(w, JobAwait(c, w, job, ch).world, op, ch.outcome) && OpFits(srcs, op)
  {
    match job.phase {
      case Validating(v) => ValidateActs(c, srcs, w, job.imageId, v, ch);
      case Converting(n) => ConvertActs(c, srcs, w, job.imageId, n, ch);
      case Compressing(k) => CompressActs(c, srcs, w, job.imageId, k, ch);
      case Sizing(x) => VariantsActs(c, srcs, w, job.imageId, x, ch);
      case Queued =>
    }
  }

  lemma {:induction false} CreateActs(s: State, p: Proc, ch: Choice)
    requires p.Creating? && p.imageId in s.srcs
    ensures var op := ProcOp(s.srcs, p, ch);
            ActsAs(s.w, CreateTurn(s, p, ch).world, op, ch.outcome) && OpFits(s.srcs, op)
  {
  }

  lemma {:induction false} RemoveActs(s: State, p: Proc, ch: Choice)
    requires p.Removing? && VictimOk(s.srcs, p.imageId, p.remove)
    ensures var op := ProcOp(s.srcs, p, ch);
            ActsAs(s.w, RemoveTurn(s, p, ch).world, op, ch.outcome) && OpFits(s.srcs, op)
  {
  }

  lemma {:induction false} ReprocessActs(s: State, p: Proc, ch: Choice)
    requires p.Reprocessing?
    ensures ReprocessTurn(s, p, ch).world.objects == s.w.objects
  {
  }

  lemma {:induction false} HandlerActs(s: State, job: Job, ch: Choice)
    ensures HandlerTurn(s, job, ch).world.objects == s.w.objects
  {
  }

  lemma {:induction false} TurnActs(c: Codec, s: State, p: Proc, ch: Choice)
    requires ProcOk(c, s.srcs, s.born, s.w, p)
    ensures var op := ProcOp(s.srcs, p, ch);
            ActsAs(s.w, ProcTurn(c, s, p, ch).world, op, ch.outcome) && OpFits(s.srcs, op)
  {
    match p {
      case Worker(job) =>
        if job.phase.Failing? { HandlerActs(s, job, ch); } else { JobActs(c, s.srcs, s.w, job, ch); }
      case Straggler(i, _, t, task) => TaskActs(c, s.srcs, s.w, i, t, task, ch.outcome);
      case Creating(_, _, _) => CreateActs(s, p, ch);
      case Reprocessing(_, _) => ReprocessActs(s, p, ch);
      case Removing(_, _) => RemoveActs(s, p, ch);
    }
  }

  lemma {:induction false} StepActs(c: Codec, s: State, a: Action)
    requires Inv(c, s)
    ensures Step(c, s, a).w.objects == OnStore(s.w.objects, StepOp(s, a)) && OpFits(s.srcs, StepOp(s, a))
  {
    if a.Resume? && Enabled(s, a) {
      assert ProcOk(c, s.srcs, s.born, s.w, s.procs[a.pid]);
      TurnActs(c, s, s.procs[a.pid], a.choice);
    }
  }

  lemma {:induction false} BucketActs(srcs: Sources, objects: map<Key, Blob>, op: StoreOp)
    requires AllFit(srcs, objects) && OpFits(srcs, op)
    ensures AllFit(srcs, OnStore(objects, op))
    ensures Bucket(srcs, OnStore(objects, op)) == OnBucket(Bucket(srcs, objects), op)
  {
    match op {
      case Untouched =>
      case Puts(key, body) => BucketPuts(srcs, objects, key, body);
      case Deletes(key) => BucketRemoves(srcs, objects, key);
    }
  }

  /** The bucket of a reachable state. */
  ghost function BucketOf(c: Codec, acts: seq<Action>): map<string, Blob> {
    ReachedStoreFits(c, acts);
    Bucket(Reached(c, acts).srcs, Reached(c, acts).w.objects)
  }

  lemma {:induction false} SourcesDoNotMatter(srcs: Sources, srcs': Sources, objects: map<Key, Blob>)
    requires AllFit(srcs, objects) && AllFit(srcs', objects)
    ensures Bucket(srcs, objects) == Bucket(srcs', objects)
  {
    var b, b' := Bucket(srcs, objects), Bucket(srcs', objects);
    forall k | k in objects
      ensures Render(k) in b && b[Render(k)] == objects[k] && Render(k) in b' && b'[Render(k)] == objects[k]
    {
      BucketReads(srcs, objects, k);
      BucketReads(srcs', objects, k);
    }
  }

  /** The run over rendered keys: every step puts or deletes one named object of the bucket, or none. */
  lemma {:induction false} BucketFollows(c: Codec, acts: seq<Action>, a: Action)
    ensures BucketOf(c, acts + [a]) == OnBucket(BucketOf(c, acts), StepOp(Reached(c, acts), a))
  {
    var s, s' := Reached(c, acts), Reached(c, acts + [a]);
    OneMore(c, acts, a);
    RunKeepsInv(c, acts);
    ReachedStoreFits(c, acts);
    ReachedStoreFits(c, acts + [a]);
    StepActs(c, s, a);
    BucketActs(s.srcs, s.w.objects, StepOp(s, a));
    SourcesDoNotMatter(s.srcs, s'.srcs, s'.w.objects);
  }

  /** And what a job reads from the bucket under the rendered key is what the step system reads. */
  lemma {:induction false} BucketServes(c: Codec, acts: seq<Action>, pid: nat)
    ensures var s := Reached(c, acts);
            pid in s.procs && ReadBy(s.procs[pid]).Some? ==>
              var k := ReadBy(s.procs[pid]).value;
              && (k in s.w.objects <==> Render(k) in BucketOf(c, acts))
              && (k in s.w.objects ==> BucketOf(c, acts)[Render(k)] == s.w.objects[k])
  {
    var s := Reached(c, acts);
    RunKeepsInv(c, acts);
    ReachedStoreFits(c, acts);
    if pid in s.procs && ReadBy(s.procs[pid]).Some? {
      assert ProcOk(c, s.srcs, s.born, s.w, s.procs[pid]);
      ReadFits(c, s.srcs, s.w, s.procs[pid].job);
      BucketReads(s.srcs, s.w.objects, ReadBy(s.procs[pid]).value);
    }
  }

  lemma {:induction false} ReadFits(c: Codec, srcs: Sources, w: World, job: Job)
    requires PhaseOk(c, srcs, w, job.imageId, job.stage, job.phase)
    ensures ReadBy(Worker(job)).Some? ==> Fits(srcs, ReadBy(Worker(job)).value)
  {
  }
}
