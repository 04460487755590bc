/**
 * Runs that show the guarantees are about something: a seeded image that reaches COMPLETED; images that
 * get stuck after a lost entry, a lost failure write and a validation hand-off repeated once its job is
 * known; and a live image that lost its original to a remove call whose last write was rejected.
 */
module Witnesses {
  import opened Wrappers
  import opened Keys
  import opened Rounding
  import opened Tables
  import opened Machine
  import opened Guarantees
  import opened Tracking
  import opened Originals

  // ---- Steps within the reachable states -------------------------------------------------------------

  /** A validation check comes to its verdict. */
  predicate Judging(p: Proc, ch: Choice) {
    p.Worker? && p.job.phase.Validating? && p.job.phase.v.VCheck? && ch.outcome.Ok?
  }

  predicate BringsVerdict(s: State, a: Action) {
    a.Resume? && a.pid in s.procs && Judging(s.procs[a.pid], a.choice)
  }

  /** R holds of whatever a step leads to that brings no verdict. */
  ghost predicate Closed(c: Codec, R: State -> bool) {
    forall s, a :: R(s) && !BringsVerdict(s, a) ==> R(Step(c, s, a))
  }

  /** R holds of whatever a step leads to. */
  ghost predicate FullyClosed(c: Codec, R: State -> bool) {
    forall s, a :: R(s) ==> R(Step(c, s, a))
  }

  predicate CanReach(c: Codec, acts: seq<Action>, s: State) {
    Reached(c, acts) == s
  }

  lemma {:induction false} ReachedIsClosed(c: Codec) returns (R: State -> bool)
    ensures Closed(c, R) && FullyClosed(c, R) && R(INITIAL)
    ensures forall s :: R(s) <==> exists acts :: CanReach(c, acts, s)
  {
    R := s => exists acts :: CanReach(c, acts, s);
    assert CanReach(c, [], INITIAL);
    forall s, a | R(s) ensures R(Step(c, s, a)) {
      var acts :| CanReach(c, acts, s);
      OneMore(c, acts, a);
      assert CanReach(c, acts + [a], Step(c, s, a));
    }
  }

  /** Beside the bystanders `rest` there is one process. */
  ghost predicate Beside(s: State, rest: map<nat, Proc>, pid: nat, p: Proc) {
    s.procs == rest[pid := p] && pid !in rest && pid < s.next && forall q :: q in rest ==> q < s.next
  }

  /** One step of that process which starts no other. */
  lemma {:induction false} Takes(c: Codec, R: State -> bool, s: State, rest: map<nat, Proc>, pid: nat, p: Proc,
                                 ch: Choice, t: Turn)
    returns (s': State)
    requires Closed(c, R) && R(s) && Beside(s, rest, pid, p) && Resumes(p, ch)
    requires Judging(p, ch) ==> R(Step(c, s, Resume(pid, ch)))
    requires t == ProcTurn(c, s, p, ch) && t.spawned == []
    ensures R(s') && s'.w == t.world && s'.srcs == s.srcs && s'.next == s.next
    ensures s'.convertIds == t.convertIds && s'.tally == t.tally
    ensures if t.self.Some? then Beside(s', rest, pid, t.self.value) else s'.procs == rest
  {
    s' := Step(c, s, Resume(pid, ch));
    if t.self.None? { assert s.procs - {pid} == rest; }
  }

  /** Its last step, which starts one other. */
  lemma {:induction false} Starts(c: Codec, R: State -> bool, s: State, rest: map<nat, Proc>, pid: nat, p: Proc,
                                  ch: Choice, t: Turn)
    returns (s': State)
    requires Closed(c, R) && R(s) && Beside(s, rest, pid, p) && Resumes(p, ch)
    requires t == ProcTurn(c, s, p, ch) && t.self.None? && |t.spawned| == 1 && !Judging(p, ch)
    ensures R(s') && s'.w == t.world && s'.convertIds == t.convertIds && s'.srcs == s.srcs
    ensures Beside(s', rest, s.next, t.spawned[0]) && s'.next == s.next + 1
  {
    s' := Step(c, s, Resume(pid, ch));
    SpawnOne(s.procs - {pid}, s.next, t.spawned);
    assert s.procs - {pid} == rest;
  }

  lemma {:induction false} SpawnOne(procs: map<nat, Proc>, next: nat, spawned: seq<Proc>)
    requires |spawned| == 1
    ensures Spawn(procs, next, spawned) == procs[next := spawned[0]]
  {
    assert spawned[1..] == [];
  }

  // ---- Entry calls --------------------------------------------------------------------------------------

  function EntryOf(src: Source, i: ImageId, entry: Stage): Action {
    if entry.Validate? then Upload(src, i) else Seed(src, i)
  }

  /** An upload or a seed call up to its enqueue, with nothing else in progress. */
  lemma {:induction false} EntryRuns(c: Codec, R: State -> bool, s0: State, src: Source, i: ImageId, entry: Stage)
    returns (s: State)
    requires Closed(c, R) && R(s0) && (entry.Validate? || entry.Convert?)
    requires s0.procs == map[] && i !in s0.srcs && i !in s0.w.images && i !in s0.convertIds
    ensures R(s) && Beside(s, map[], s0.next + 1, Fresh(i, entry, entry, 0)) && s.next == s0.next + 2
    ensures s.w.images == s0.w.images[i := NewRow(src, i, entry)] && s.srcs == s0.srcs[i := src]
    ensures HasOriginal(s.w, i) && s.w.objects[s.w.images[i].original] == src.bytes
    ensures s.w.variants == s0.w.variants
    ensures i in s.convertIds <==> entry.Convert?
  {
    s := Step(c, s0, EntryOf(src, i, entry));
    var pid, p := s0.next, Creating(i, entry, PutOriginal);
    assert s.procs == map[pid := p];
    s := Takes(c, R, s, map[], pid, p, OK, CreateTurn(s, p, OK));
    p := Creating(i, entry, InsertRow);
    s := Takes(c, R, s, map[], pid, p, OK, CreateTurn(s, p, OK));
    p := Creating(i, entry, EnqueueEntry);
    s := Starts(c, R, s, map[], pid, p, OK, CreateTurn(s, p, OK));
  }

  predicate HasOriginal(w: World, i: ImageId) {
    i in w.images && w.images[i].original in w.objects
  }

  // ---- Jobs without failures ------------------------------------------------------------------------------

  /** Beside the bystanders there is one job, at this phase. */
  ghost predicate Solo(s: State, rest: map<nat, Proc>, pid: nat, i: ImageId, stage: Stage, phase: Phase) {
    && pid in s.procs && s.procs[pid].Worker? && Beside(s, rest, pid, s.procs[pid])
    && s.procs[pid].job.imageId == i && s.procs[pid].job.stage == stage && s.procs[pid].job.phase == phase
  }

  function AwaitOf(c: Codec, w: World, i: ImageId, stage: Stage, phase: Phase, ch: Choice): Outcome {
    JobAwait(c, w, Job(i, stage, stage, 0, 0, phase), ch)
  }

  lemma {:induction false} GoesOn(c: Codec, R: State -> bool, s: State, rest: map<nat, Proc>, pid: nat, i: ImageId,
                                  stage: Stage, phase: Phase, ch: Choice, w': World, phase': Phase)
    returns (s': State)
    requires Closed(c, R) && R(s) && Solo(s, rest, pid, i, stage, phase) && !phase.Failing?
    requires phase.Sizing? && phase.x.XFan? ==> !TaskOf(phase.x, ch.vtype).Settled?
    requires phase.Validating? && phase.v.VCheck? && ch.outcome.Ok? ==> R(Step(c, s, Resume(pid, ch)))
    requires AwaitOf(c, s.w, i, stage, phase, ch) == Yields(w', Goes(phase'))
    ensures R(s') && Solo(s', rest, pid, i, stage, phase') && s'.w == w' && s'.convertIds == s.convertIds
    ensures s'.srcs == s.srcs
    ensures s'.next == s.next && s'.procs[pid].job.attemptsMade == s.procs[pid].job.attemptsMade
  {
    var job := s.procs[pid].job;
    assert JobAwait(c, s.w, job, ch) == Yields(w', Goes(phase'));
    s' := Takes(c, R, s, rest, pid, Worker(job), ch, JobTurn(c, s, job, ch));
  }

  lemma {:induction false} HandsOff(c: Codec, R: State -> bool, s: State, rest: map<nat, Proc>, pid: nat, i: ImageId,
                                    stage: Stage, phase: Phase, stage': Stage)
    returns (s': State)
    requires Closed(c, R) && R(s) && Solo(s, rest, pid, i, stage, phase)
    requires !stage.Validate? && !phase.Failing? && !phase.Sizing?
    requires AwaitOf(c, s.w, i, stage, phase, OK) == Outcome(s.w, Ends(HandedOff), Some(stage'), [])
    ensures R(s') && Solo(s', rest, s.next, i, stage', Queued) && s'.w == s.w && s'.srcs == s.srcs
    ensures s'.procs[s.next].job.attemptsMade == 0
  {
    var job := s.procs[pid].job;
    assert JobAwait(c, s.w, job, OK) == Outcome(s.w, Ends(HandedOff), Some(stage'), []);
    s' := Starts(c, R, s, rest, pid, Worker(job), OK, JobTurn(c, s, job, OK));
  }

  lemma {:induction false} GoesV(c: Codec, R: State -> bool, s: State, rest: map<nat, Proc>, pid: nat, i: ImageId,
                                 phase: ValidatePhase, ch: Choice, w': World, phase': ValidatePhase)
    returns (s': State)
    requires Closed(c, R) && R(s) && Solo(s, rest, pid, i, Validate, Validating(phase))
    requires phase.VCheck? && ch.outcome.Ok? ==> R(Step(c, s, Resume(pid, ch)))
    requires ValidateAwait(c, s.w, i, phase, ch) == Yields(w', GoV(phase'))
    ensures R(s') && Solo(s', rest, pid, i, Validate, Validating(phase')) && s'.w == w' && s'.convertIds == s.convertIds
    ensures s'.srcs == s.srcs
    ensures s'.next == s.next && s'.procs[pid].job.attemptsMade == s.procs[pid].job.attemptsMade
  {
    s' := GoesOn(c, R, s, rest, pid, i, Validate, Validating(phase), ch, w', Validating(phase'));
  }

  lemma {:induction false} GoesC(c: Codec, R: State -> bool, s: State, rest: map<nat, Proc>, pid: nat, i: ImageId,
                                 phase: ConvertPhase, w': World, phase': ConvertPhase)
    returns (s': State)
    requires Closed(c, R) && R(s) && Solo(s, rest, pid, i, Convert, Converting(phase))
    requires ConvertAwait(c, s.w, i, phase, OK) == Yields(w', GoC(phase'))
    ensures R(s') && Solo(s', rest, pid, i, Convert, Converting(phase')) && s'.w == w' && s'.srcs == s.srcs
  {
    s' := GoesOn(c, R, s, rest, pid, i, Convert, Converting(phase), OK, w', Converting(phase'));
  }

  lemma {:induction false} GoesK(c: Codec, R: State -> bool, s: State, rest: map<nat, Proc>, pid: nat, i: ImageId,
                                 phase: CompressPhase, w': World, phase': CompressPhase)
    returns (s': State)
    requires Closed(c, R) && R(s) && Solo(s, rest, pid, i, Compress, Compressing(phase))
    requires CompressAwait(c, s.w, i, phase, OK) == Yields(w', GoK(phase'))
    ensures R(s') && Solo(s', rest, pid, i, Compress, Compressing(phase')) && s'.w == w' && s'.srcs == s.srcs
  {
    s' := GoesOn(c, R, s, rest, pid, i, Compress, Compressing(phase), OK, w', Compressing(phase'));
  }

  lemma {:induction false} GoesX(c: Codec, R: State -> bool, s: State, rest: map<nat, Proc>, pid: nat, i: ImageId,
                                 phase: VariantsPhase, ch: Choice, w': World, phase': VariantsPhase)
    returns (s': State)
    requires Closed(c, R) && R(s) && Solo(s, rest, pid, i, Variants, Sizing(phase))
    requires phase.XFan? ==> !TaskOf(phase, ch.vtype).Settled?
    requires VariantsAwait(c, s.w, i, phase, ch) == Yields(w', GoX(phase'))
    ensures R(s') && Solo(s', rest, pid, i, Variants, Sizing(phase')) && s'.w == w' && s'.srcs == s.srcs
    ensures s'.next == s.next && s'.procs[pid].job.attemptsMade == s.procs[pid].job.attemptsMade
  {
    s' := GoesOn(c, R, s, rest, pid, i, Variants, Sizing(phase), ch, w', Sizing(phase'));
  }

  /** The same images, uploads and measures. */
  predicate Kept(s: State, s': State, i: ImageId) {
    && s'.srcs == s.srcs && s'.w.images.Keys == s.w.images.Keys
    && i in s.w.images && s'.w.images[i].measures == s.w.images[i].measures
  }

  lemma {:induction false} ConvertReads(c: Codec, R: State -> bool, s: State, rest: map<nat, Proc>, pid: nat,
                                        i: ImageId)
    returns (s': State, row: Row, out: Processed)
    requires Closed(c, R) && R(s) && Solo(s, rest, pid, i, Convert, Queued) && HasOriginal(s.w, i)
    ensures R(s') && Solo(s', rest, pid, i, Convert, Converting(CPut(row, out))) && HasOriginal(s'.w, i)
    ensures s'.w.variants == s.w.variants
    ensures Kept(s, s', i)
  {
    row := s.w.images[i];
    s' := GoesOn(c, R, s, rest, pid, i, Convert, Queued, OK, s.w, Converting(CStatus(row)));
    s' := GoesC(c, R, s', rest, pid, i, CStatus(row), StatusSet(s'.w, i, PROCESSING_CONVERT).value, CGet(row));
    var body := s'.w.objects[row.original];
    s' := GoesC(c, R, s', rest, pid, i, CGet(row), s'.w, CNormalize(row, body));
    out := (c.normalize)(body, row.mimeType);
    s' := GoesC(c, R, s', rest, pid, i, CNormalize(row, body), s'.w, CPut(row, out));
  }

  predicate HasNormalized(w: World, i: ImageId) {
    HasOriginal(w, i) && w.images[i].normalizedKey.Some? && w.images[i].normalizedKey.value in w.objects
  }

  predicate HasCompressed(w: World, i: ImageId) {
    HasOriginal(w, i) && w.images[i].compressedKey.Some? && w.images[i].compressedKey.value in w.objects
  }

  lemma {:induction false} ConvertRuns(c: Codec, R: State -> bool, s: State, rest: map<nat, Proc>, pid: nat, i: ImageId)
    returns (s': State, pid': nat)
    requires Closed(c, R) && R(s) && Solo(s, rest, pid, i, Convert, Queued) && HasOriginal(s.w, i)
    ensures R(s') && Solo(s', rest, pid', i, Compress, Queued) && HasNormalized(s'.w, i)
    ensures s'.w.variants == s.w.variants
    ensures Kept(s, s', i)
  {
    var row, out;
    s', row, out := ConvertReads(c, R, s, rest, pid, i);
    var key := Key(row.userId, i, Normalized);
    s' := GoesC(c, R, s', rest, pid, i, CPut(row, out), Put(s'.w, key, out.buffer), CSetRow(row));
    s' := GoesC(c, R, s', rest, pid, i, CSetRow(row), NormalizedSet(s'.w, i, key).value, CHandOff);
    pid' := s'.next;
    s' := HandsOff(c, R, s', rest, pid, i, Convert, Converting(CHandOff), Compress);
  }

  lemma {:induction false} CompressReads(c: Codec, R: State -> bool, s: State, rest: map<nat, Proc>, pid: nat,
                                         i: ImageId)
    returns (s': State, row: Row, normalBytes: nat, out: Processed)
    requires Closed(c, R) && R(s) && Solo(s, rest, pid, i, Compress, Queued) && HasNormalized(s.w, i)
    ensures R(s') && Solo(s', rest, pid, i, Compress, Compressing(KPut(row, normalBytes, out))) && HasOriginal(s'.w, i)
    ensures s'.w.variants == s.w.variants
    ensures Kept(s, s', i)
  {
    row := s.w.images[i];
    s' := GoesOn(c, R, s, rest, pid, i, Compress, Queued, OK, s.w, Compressing(KStatus(row)));
    s' := GoesK(c, R, s', rest, pid, i, KStatus(row), StatusSet(s'.w, i, PROCESSING_COMPRESS).value, KGet(row));
    var body := s'.w.objects[row.normalizedKey.value];
    s' := GoesK(c, R, s', rest, pid, i, KGet(row), s'.w, KCompress(row, body));
    normalBytes, out := |body|, (c.compress)(body);
    s' := GoesK(c, R, s', rest, pid, i, KCompress(row, body), s'.w, KPut(row, normalBytes, out));
  }

  lemma {:induction false} CompressRuns(c: Codec, R: State -> bool, s: State, rest: map<nat, Proc>, pid: nat,
                                        i: ImageId)
    returns (s': State, pid': nat)
    requires Closed(c, R) && R(s) && Solo(s, rest, pid, i, Compress, Queued) && HasNormalized(s.w, i)
    ensures R(s') && Solo(s', rest, pid', i, Variants, Queued) && HasCompressed(s'.w, i)
    ensures s'.w.variants == s.w.variants && s'.procs[pid'].job.attemptsMade == 0
    ensures Kept(s, s', i)
  {
    var row, n, out;
    s', row, n, out := CompressReads(c, R, s, rest, pid, i);
    var key, size := Key(row.userId, i, Compressed), |out.buffer|;
    s' := GoesK(c, R, s', rest, pid, i, KPut(row, n, out), Put(s'.w, key, out.buffer), KSetRow(row, n, size));
    var w := CompressedSet(s'.w, i, key, Compression(size, StoredRatio(size, n))).value;
    s' := GoesK(c, R, s', rest, pid, i, KSetRow(row, n, size), w, KHandOff);
    pid' := s'.next;
    s' := HandsOff(c, R, s', rest, pid, i, Compress, Compressing(KHandOff), Variants);
  }

  /** The fan once a task is through. */
  function Through(fan: VariantsPhase, t: VariantType): VariantsPhase
    requires fan.XFan?
  {
    var fan' := WithTask(fan, t, Settled);
    if fan'.thumb.Settled? && fan'.web.Settled? && fan'.full.Settled? then XComplete else fan'
  }

  lemma {:induction false} TaskRuns(c: Codec, R: State -> bool, s: State, rest: map<nat, Proc>, pid: nat, i: ImageId,
                                    fan: VariantsPhase, t: VariantType)
    returns (s': State)
    requires fan.XFan? && TaskOf(fan, t).Resizing? && HasOriginal(s.w, i)
    requires Closed(c, R) && R(s) && Solo(s, rest, pid, i, Variants, Sizing(fan))
    ensures R(s') && Solo(s', rest, pid, i, Variants, Sizing(Through(fan, t))) && HasOriginal(s'.w, i)
    ensures Kept(s, s', i)
  {
    var ch := OK.(vtype := t);
    var out := (c.resize)(TaskOf(fan, t).source, (c.width)(t));
    var key := Key(fan.row.userId, i, Variant(t));
    var fan1 := WithTask(fan, t, Putting(out));
    s' := GoesX(c, R, s, rest, pid, i, fan, ch, s.w, fan1);
    var fan2 := WithTask(fan1, t, Upserting(out));
    s' := GoesX(c, R, s', rest, pid, i, fan1, ch, Put(s'.w, key, out.buffer), fan2);
    var w := Upserted(s'.w, VariantRow(i, t, key, out.width, out.height, |out.buffer|)).value;
    s' := GoesX(c, R, s', rest, pid, i, fan2, ch, w, Through(fan, t));
  }

  lemma {:induction false} VariantsReads(c: Codec, R: State -> bool, s: State, rest: map<nat, Proc>, pid: nat,
                                         i: ImageId)
    returns (s': State, row: Row, source: Blob)
    requires Closed(c, R) && R(s) && Solo(s, rest, pid, i, Variants, Queued) && HasCompressed(s.w, i)
    ensures var fan := XFan(row, Resizing(source), Resizing(source), Resizing(source));
            R(s') && Solo(s', rest, pid, i, Variants, Sizing(fan)) && HasOriginal(s'.w, i)
    ensures s'.w.variants == s.w.variants && s'.next == s.next
    ensures s'.procs[pid].job.attemptsMade == s.procs[pid].job.attemptsMade
    ensures Kept(s, s', i)
  {
    row := s.w.images[i];
    var key := row.compressedKey.value;
    s' := GoesOn(c, R, s, rest, pid, i, Variants, Queued, OK, s.w, Sizing(XStatus(row, key)));
    s' := GoesX(c, R, s', rest, pid, i, XStatus(row, key), OK, StatusSet(s'.w, i, PROCESSING_VARIANTS).value,
      XGet(row, key));
    source := s'.w.objects[key];
    var fan := XFan(row, Resizing(source), Resizing(source), Resizing(source));
    s' := GoesX(c, R, s', rest, pid, i, XGet(row, key), OK, s'.w, fan);
  }

  predicate IsCompleted(w: World, i: ImageId) {
    HasOriginal(w, i) && w.images[i].status.COMPLETED?
  }

  lemma {:induction false} Finishes(c: Codec, R: State -> bool, s: State, rest: map<nat, Proc>, pid: nat, i: ImageId)
    returns (s': State)
    requires Closed(c, R) && R(s) && Solo(s, rest, pid, i, Variants, Sizing(XComplete)) && HasOriginal(s.w, i)
    ensures R(s') && s'.procs == rest && s.next <= s'.next && IsCompleted(s'.w, i) && s'.tally.completed > 0
    ensures Kept(s, s', i)
  {
    var job := s.procs[pid].job;
    assert JobAwait(c, s.w, job, OK) == Yields(StatusSet(s.w, i, COMPLETED).value, Ends(Completes));
    s' := Takes(c, R, s, rest, pid, Worker(job), OK, JobTurn(c, s, job, OK));
  }

  lemma {:induction false} VariantsRuns(c: Codec, R: State -> bool, s: State, rest: map<nat, Proc>, pid: nat,
                                        i: ImageId)
    returns (s': State)
    requires Closed(c, R) && R(s) && Solo(s, rest, pid, i, Variants, Queued) && HasCompressed(s.w, i)
    ensures R(s') && s'.procs == rest && KnownBelow(rest, s'.next) && IsCompleted(s'.w, i) && s'.tally.completed > 0
    ensures Kept(s, s', i)
  {
    var row, source;
    s', row, source := VariantsReads(c, R, s, rest, pid, i);
    var fan := XFan(row, Resizing(source), Resizing(source), Resizing(source));
    s' := TaskRuns(c, R, s', rest, pid, i, fan, WEB);
    s' := TaskRuns(c, R, s', rest, pid, i, Through(fan, WEB), FULL);
    s' := TaskRuns(c, R, s', rest, pid, i, Through(Through(fan, WEB), FULL), THUMBNAIL);
    s' := Finishes(c, R, s', rest, pid, i);
  }

  predicate KnownBelow(procs: map<nat, Proc>, next: nat) {
    forall q :: q in procs ==> q < next
  }

  /** From a convert job to COMPLETED. */
  lemma {:induction false} PipelineRuns(c: Codec, R: State -> bool, s: State, rest: map<nat, Proc>, pid: nat,
                                        i: ImageId)
    returns (s': State)
    requires Closed(c, R) && R(s) && Solo(s, rest, pid, i, Convert, Queued) && HasOriginal(s.w, i)
    ensures R(s') && s'.procs == rest && KnownBelow(rest, s'.next) && IsCompleted(s'.w, i) && s'.tally.completed > 0
    ensures Kept(s, s', i)
  {
    var pid';
    s', pid' := ConvertRuns(c, R, s, rest, pid, i);
    s', pid' := CompressRuns(c, R, s', rest, pid', i);
    s' := VariantsRuns(c, R, s', rest, pid', i);
  }

  /** COMPLETED is reachable from every upload: without failures a seeded image gets there, and leaves
      nothing in progress. */
  lemma {:induction false} SeededImageCompletes(c: Codec, src: Source, i: ImageId) returns (acts: seq<Action>)
    ensures var s := Reached(c, acts);
            s.procs == map[] && i in s.w.images && s.w.images[i].status.COMPLETED?
  {
    var R := ReachedIsClosed(c);
    var s := EntryRuns(c, R, INITIAL, src, i, Convert);
    s := PipelineRuns(c, R, s, map[], 1, i);
    acts :| CanReach(c, acts, s);
  }

  // ---- A lost failure write ---------------------------------------------------------------------------------

  lemma {:induction false} AttemptFails(c: Codec, R: State -> bool, s: State, pid: nat, job: Job)
    returns (s': State, job': Job)
    requires Closed(c, R) && R(s) && Beside(s, map[], pid, Worker(job)) && job.phase.Queued?
    ensures R(s') && Beside(s', map[], pid, Worker(job')) && s'.w == s.w && s'.next == s.next
    ensures job'.imageId == job.imageId && job'.stage == job.stage && job'.attemptsMade == job.attemptsMade + 1
    ensures job'.phase == if job'.attemptsMade < 3 then Queued else Failing
  {
    s' := Takes(c, R, s, map[], pid, Worker(job), REJECTED_AWAIT, JobTurn(c, s, job, REJECTED_AWAIT));
    job' := s'.procs[pid].job;
  }

  /** Three attempts fail at their first await, and then the handler's own write does: the row stays
      ACCEPTED with nothing in progress. */
  lemma {:induction false} LostFailureStrands(c: Codec, src: Source, i: ImageId) returns (acts: seq<Action>)
    ensures var s := Reached(c, acts);
            s.procs == map[] && Stuck(s, i) && s.w.images[i].status.ACCEPTED? && s.w.images[i].processingError.None?
  {
    var R := ReachedIsClosed(c);
    var s := EntryRuns(c, R, INITIAL, src, i, Convert);
    var w := s.w;
    var job := s.procs[1].job;
    s, job := AttemptFails(c, R, s, 1, job);
    s, job := AttemptFails(c, R, s, 1, job);
    s, job := AttemptFails(c, R, s, 1, job);
    s := Takes(c, R, s, map[], 1, Worker(job), REJECTED_AWAIT, HandlerTurn(s, job, REJECTED_AWAIT));
    acts :| CanReach(c, acts, s);
  }

  // ---- A straggler that outlives its image's failure -----------------------------------------------------------

  lemma {:induction false} SpawnTwo(procs: map<nat, Proc>, next: nat, spawned: seq<Proc>)
    requires |spawned| == 2
    ensures Spawn(procs, next, spawned) == procs[next := spawned[0]][next + 1 := spawned[1]]
  {
    SpawnOne(procs[next := spawned[0]], next + 1, spawned[1..]);
  }

  function AllResizing(row: Row, source: Blob): VariantsPhase {
    XFan(row, Resizing(source), Resizing(source), Resizing(source))
  }

  /** The thumbnail of the third attempt rejects: the job is given up, the other two sizes go on. */
  lemma {:induction false} ThumbnailFails(c: Codec, R: State -> bool, s: State, pid: nat, i: ImageId, row: Row,
                                          source: Blob)
    returns (s': State, job: Job, web: Proc, full: Proc)
    requires Closed(c, R) && R(s) && Solo(s, map[], pid, i, Variants, Sizing(AllResizing(row, source)))
    requires s.procs[pid].job.attemptsMade == 2
    ensures job.imageId == i && job.stage == Variants && job.phase == Failing
    ensures web == Straggler(i, row.userId, WEB, Resizing(source))
    ensures full == Straggler(i, row.userId, FULL, Resizing(source))
    ensures R(s') && s'.w == s.w && s'.next == s.next + 2
    ensures s'.procs == map[pid := Worker(job), s.next := web, s.next + 1 := full]
  {
    var fan, ch := AllResizing(row, source), REJECTED_AWAIT.(vtype := THUMBNAIL);
    web, full := Straggler(i, row.userId, WEB, Resizing(source)), Straggler(i, row.userId, FULL, Resizing(source));
    var before := s.procs[pid].job;
    var o := FanAwait(c, s.w, i, fan, ch);
    assert o == Outcome(s.w, Throws, None, [web, full]) by {
      assert [] + [web] + [full] == [web, full];
    }
    assert JobAwait(c, s.w, before, ch) == o;
    var t := JobTurn(c, s, before, ch);
    assert t.spawned == [web, full] + [] == [web, full];
    job := t.self.value.job;
    s' := Step(c, s, Resume(pid, ch));
    SpawnTwo(s.procs[pid := Worker(job)], s.next, t.spawned);
  }

  /** A straggler with nothing in its way resizes, stores and upserts. */
  lemma {:induction false} StragglerRuns(c: Codec, R: State -> bool, s: State, rest: map<nat, Proc>, pid: nat,
                                         i: ImageId, userId: string, t: VariantType, source: Blob)
    returns (s': State)
    requires Closed(c, R) && R(s) && Beside(s, rest, pid, Straggler(i, userId, t, Resizing(source)))
    requires i in s.w.images && s.w.variants == []
    ensures R(s') && s'.procs == rest && s'.w.images == s.w.images && HasVariant(s'.w, i, t) && s'.next == s.next
  {
    var out := (c.resize)(source, (c.width)(t));
    var p := Straggler(i, userId, t, Resizing(source));
    s' := Takes(c, R, s, rest, pid, p, OK, StragglerTurn(c, s, p, OK));
    p := Straggler(i, userId, t, Putting(out));
    s' := Takes(c, R, s', rest, pid, p, OK, StragglerTurn(c, s', p, OK));
    p := Straggler(i, userId, t, Upserting(out));
    s' := Takes(c, R, s', rest, pid, p, OK, StragglerTurn(c, s', p, OK));
    assert s'.w.variants[0].imageId == i && s'.w.variants[0].vtype == t;
  }

  predicate CanFollow(c: Codec, s: State, more: seq<Action>, s': State) {
    Exec(c, s, more) == s'
  }

  lemma {:induction false} FollowersAreClosed(c: Codec, s0: State) returns (R: State -> bool)
    ensures Closed(c, R) && R(s0)
    ensures forall s :: R(s) <==> exists more :: CanFollow(c, s0, more, s)
  {
    R := s => exists more :: CanFollow(c, s0, more, s);
    assert CanFollow(c, s0, [], s0);
    forall s, a | R(s) ensures R(Step(c, s, a)) {
      var more :| CanFollow(c, s0, more, s);
      assert (more + [a])[..|more|] == more;
      assert CanFollow(c, s0, more + [a], Step(c, s, a));
    }
  }

  /** A seeded image up to its third variants attempt, two having failed. */
  lemma {:induction false} ThirdVariantsAttempt(c: Codec, R: State -> bool, src: Source, i: ImageId)
    returns (s: State, pid: nat, row: Row, source: Blob)
    requires Closed(c, R) && R(INITIAL)
    ensures R(s) && Solo(s, map[], pid, i, Variants, Sizing(AllResizing(row, source)))
    ensures s.procs[pid].job.attemptsMade == 2 && i in s.w.images && s.w.variants == []
  {
    s := EntryRuns(c, R, INITIAL, src, i, Convert);
    s, pid := ConvertRuns(c, R, s, map[], 1, i);
    s, pid := CompressRuns(c, R, s, map[], pid, i);
    var job := s.procs[pid].job;
    s, job := AttemptFails(c, R, s, pid, job);
    s, job := AttemptFails(c, R, s, pid, job);
    s, row, source := VariantsReads(c, R, s, map[], pid, i);
  }

  /** The job given up marks the row; the two stragglers are all that is left. */
  lemma {:induction false} HandlerRuns(c: Codec, R: State -> bool, s: State, pid: nat, job: Job, rest: map<nat, Proc>)
    returns (s': State)
    requires Closed(c, R) && R(s) && Beside(s, rest, pid, Worker(job))
    requires job.phase.Failing? && !job.stage.Validate? && job.imageId in s.w.images
    ensures R(s') && s'.procs == rest && s'.w.variants == s.w.variants && s'.next == s.next
    ensures job.imageId in s'.w.images && s'.w.images[job.imageId].status.FAILED?
  {
    s' := Takes(c, R, s, rest, pid, Worker(job), OK, HandlerTurn(s, job, OK));
  }

  /** One straggler gets through, the other fails. */
  lemma {:induction false} StragglersEnd(c: Codec, R: State -> bool, s: State, n: nat, i: ImageId, userId: string,
                                         source: Blob)
    returns (s': State)
    requires Closed(c, R) && R(s) && i in s.w.images && s.w.variants == [] && s.next == n + 2
    requires s.procs == map[n := Straggler(i, userId, WEB, Resizing(source)),
                            n + 1 := Straggler(i, userId, FULL, Resizing(source))]
    ensures R(s') && s'.procs == map[] && s'.w.images == s.w.images && HasVariant(s'.w, i, WEB)
  {
    var full := Straggler(i, userId, FULL, Resizing(source));
    s' := StragglerRuns(c, R, s, map[n + 1 := full], n, i, userId, WEB, source);
    s' := Takes(c, R, s', map[], n + 1, full, REJECTED_AWAIT, StragglerTurn(c, s', full, REJECTED_AWAIT));
  }

  lemma {:induction false} FailureWithStragglers(c: Codec, R: State -> bool, src: Source, i: ImageId)
    returns (s: State, n: nat, userId: string, source: Blob)
    requires Closed(c, R) && R(INITIAL)
    ensures R(s) && i in s.w.images && s.w.images[i].status.FAILED? && s.w.variants == [] && s.next == n + 2
    ensures s.procs == map[n := Straggler(i, userId, WEB, Resizing(source)),
                           n + 1 := Straggler(i, userId, FULL, Resizing(source))]
  {
    var pid, row, job, web, full;
    s, pid, row, source := ThirdVariantsAttempt(c, R, src, i);
    n, userId := s.next, row.userId;
    s, job, web, full := ThumbnailFails(c, R, s, pid, i, row, source);
    s := HandlerRuns(c, R, s, pid, job, map[n := web, n + 1 := full]);
  }

  /** Nothing cancels the siblings of a rejected resize: at the end of `acts` the image is FAILED, its last
      attempt given up, without a variant, and only stragglers are left; in `more` one of them still fills its
      slot and the other fails, and the row stays as it is. */
  lemma {:induction false} StragglerOutlivesFailure(c: Codec, src: Source, i: ImageId)
    returns (acts: seq<Action>, more: seq<Action>)
    ensures var s := Reached(c, acts);
            var s' := Exec(c, s, more);
            && i in s.w.images && s.w.images[i].status.FAILED? && s.w.variants == []
            && (forall q :: q in s.procs ==> s.procs[q].Straggler?)
            && s'.procs == map[] && s'.w.images == s.w.images && HasVariant(s'.w, i, WEB)
  {
    var R := ReachedIsClosed(c);
    var s, n, userId, source := FailureWithStragglers(c, R, src, i);
    acts :| CanReach(c, acts, s);
    var F := FollowersAreClosed(c, s);
    var s' := StragglersEnd(c, F, s, n, i, userId, source);
    more :| CanFollow(c, s, more, s');
  }

  // ---- A hand-off de-duplicated away ----------------------------------------------------------------------------

  const ADMITTED: Choice := OK.(verdict := Admit(Measures(800, 600, "0000000000000000"), false))
  const LATE_AWAIT: Choice := OK.(outcome := Late)

  lemma {:induction false} ValidateReads(c: Codec, R: State -> bool, s: State, rest: map<nat, Proc>, pid: nat,
                                         i: ImageId)
    returns (s': State, row: Row, body: Blob)
    requires Closed(c, R) && R(s) && Solo(s, rest, pid, i, Validate, Queued) && HasOriginal(s.w, i)
    ensures R(s') && Solo(s', rest, pid, i, Validate, Validating(VCheck(row, body))) && HasOriginal(s'.w, i)
    ensures s'.convertIds == s.convertIds && s'.next == s.next && s'.srcs == s.srcs
    ensures row == s.w.images[i] && body == s.w.objects[row.original]
    ensures s'.w == Started(s.w, i).value
    ensures s'.procs[pid].job.attemptsMade == s.procs[pid].job.attemptsMade
  {
    row := s.w.images[i];
    s' := GoesOn(c, R, s, rest, pid, i, Validate, Queued, OK, s.w, Validating(VMark(row)));
    s' := GoesV(c, R, s', rest, pid, i, VMark(row), OK, Started(s'.w, i).value, VGet(row));
    body := s'.w.objects[row.original];
    s' := GoesV(c, R, s', rest, pid, i, VGet(row), OK, s'.w, VCheck(row, body));
  }

  /** A validation job up to its hand-off. */
  lemma {:induction false} ValidateRuns(c: Codec, R: State -> bool, s: State, rest: map<nat, Proc>, pid: nat,
                                        i: ImageId)
    returns (s': State)
    requires FullyClosed(c, R) && R(s) && Solo(s, rest, pid, i, Validate, Queued) && HasOriginal(s.w, i)
    ensures R(s') && Solo(s', rest, pid, i, Validate, Validating(VHandOff)) && HasOriginal(s'.w, i)
    ensures s'.w.images[i].status.ACCEPTED? && s'.convertIds == s.convertIds
    ensures s'.next == s.next && s'.procs[pid].job.attemptsMade == s.procs[pid].job.attemptsMade
  {
    var row, body, measures := s.w.images[i], [], ADMITTED.verdict.measures;
    s', row, body := ValidateReads(c, R, s, rest, pid, i);
    s' := GoesV(c, R, s', rest, pid, i, VCheck(row, body), ADMITTED, s'.w, VAccept(measures, None));
    s' := GoesV(c, R, s', rest, pid, i, VAccept(measures, None), OK, Accepted(s'.w, i, measures, None).value, VHandOff);
  }

  /** The hand-off takes effect, its reply is lost: the convert job is there, and the validation is due
      again. */
  lemma {:induction false} HandOffForks(c: Codec, R: State -> bool, s: State, i: ImageId)
    returns (s': State, retry: Job)
    requires Closed(c, R) && R(s) && Solo(s, map[], 1, i, Validate, Validating(VHandOff)) && i !in s.convertIds
    requires s.procs[1].job.attemptsMade == 0 && s.next == 2
    ensures R(s') && Solo(s', map[1 := Worker(retry)], 2, i, Convert, Queued) && s'.w == s.w && i in s'.convertIds
    ensures retry.imageId == i && retry.stage == Validate && retry.phase == Queued
  {
    var job := s.procs[1].job;
    retry := Retried(job, job.attempts).job;
    var t := JobTurn(c, s, job, LATE_AWAIT);
    s' := Step(c, s, Resume(1, LATE_AWAIT));
    SpawnOne(map[1 := Worker(retry)], 2, t.spawned);
    assert s.procs[1 := Worker(retry)] == map[1 := Worker(retry)];
  }

  lemma {:induction false} Collapses(c: Codec, R: State -> bool, s: State, i: ImageId) returns (s': State)
    requires Closed(c, R) && R(s) && Solo(s, map[], 1, i, Validate, Validating(VHandOff)) && i in s.convertIds
    ensures R(s') && s'.procs == map[] && s'.w == s.w
  {
    var job := s.procs[1].job;
    s' := Takes(c, R, s, map[], 1, Worker(job), OK, JobTurn(c, s, job, OK));
  }

  lemma {:induction false} TurnKeepsIds(c: Codec, s: State, p: Proc, ch: Choice)
    ensures s.convertIds <= ProcTurn(c, s, p, ch).convertIds
    ensures s.tally.completed <= ProcTurn(c, s, p, ch).tally.completed
  {
    if p.Worker? && !p.job.phase.Failing? {
      var job := p.job;
      var t := JobTurn(c, s, job, ch);
      assert t.convertIds == s.convertIds || t.convertIds == s.convertIds + {job.imageId};
    }
  }

  /** A deterministic job id once known stays known, and a completed run stays counted. */
  lemma {:induction false} StaysKnown(c: Codec, R: State -> bool, i: ImageId, done: nat) returns (R': State -> bool)
    requires FullyClosed(c, R)
    ensures Closed(c, R') && FullyClosed(c, R')
    ensures forall s :: R'(s) <==> R(s) && i in s.convertIds && s.tally.completed >= done
  {
    R' := s => R(s) && i in s.convertIds && s.tally.completed >= done;
    forall s, a | R'(s) ensures R'(Step(c, s, a)) {
      if Enabled(s, a) && a.Resume? { TurnKeepsIds(c, s, s.procs[a.pid], a.choice); }
    }
  }

  /** The reply to the validation hand-off is lost, the convert run goes all the way to COMPLETED, and
      then the retried validation sets the row back to ACCEPTED, its hand-off being de-duplicated away:
      the image is stuck with all its variants in place. */
  lemma {:induction false} RepeatedHandOffStrands(c: Codec, src: Source, i: ImageId) returns (acts: seq<Action>)
    ensures var s := Reached(c, acts);
            s.procs == map[] && Stuck(s, i) && s.w.images[i].status.ACCEPTED? && s.tally.completed > 0
  {
    var R := ReachedIsClosed(c);
    var s := EntryRuns(c, R, INITIAL, src, i, Validate);
    s := ValidateRuns(c, R, s, map[], 1, i);
    var retry;
    s, retry := HandOffForks(c, R, s, i);
    var R' := StaysKnown(c, R, i, 0);
    s := PipelineRuns(c, R', s, map[1 := Worker(retry)], 2, i);
    R' := StaysKnown(c, R, i, 1);
    s := ValidateRuns(c, R', s, map[], 1, i);
    s := Collapses(c, R', s, i);
    acts :| CanReach(c, acts, s);
  }

  // ---- A reprocess call that goes round the validation ----------------------------------------------------------

  /** A reprocess call, without failures, beside a bystander. */
  lemma {:induction false} ReprocessRuns(c: Codec, R: State -> bool, s: State, pid: nat, p: Proc, i: ImageId)
    returns (s': State, pid': nat)
    requires Closed(c, R) && R(s) && s.procs == map[pid := p] && pid < s.next && HasOriginal(s.w, i)
    ensures R(s') && Solo(s', map[pid := p], pid', i, Convert, Queued) && HasOriginal(s'.w, i)
    ensures Kept(s, s', i)
  {
    s' := Step(c, s, Reprocess(i));
    var rest, q := map[pid := p], Reprocessing(i, FindRow);
    s' := Takes(c, R, s', rest, s.next, q, OK, ReprocessTurn(s', q, OK));
    q := Reprocessing(i, MarkConvert);
    s' := Takes(c, R, s', rest, s.next, q, OK, ReprocessTurn(s', q, OK));
    q := Reprocessing(i, EnqueueFresh);
    pid' := s'.next;
    s' := Starts(c, R, s', rest, s.next, q, OK, ReprocessTurn(s', q, OK));
  }

  /** The condition of the validation gate is needed: an upload still waiting for its validation can be
      reprocessed, and reaches COMPLETED without ever having been admitted. */
  lemma {:induction false} ReprocessBypassesValidation(c: Codec, src: Source, i: ImageId) returns (acts: seq<Action>)
    ensures var s := Reached(c, acts);
            i in s.w.images && s.w.images[i].status.COMPLETED? && s.w.images[i].measures.None?
            && s.procs == map[1 := Fresh(i, Validate, Validate, 0)]
  {
    var R := ReachedIsClosed(c);
    var s := EntryRuns(c, R, INITIAL, src, i, Validate);
    var waiting, pid := Fresh(i, Validate, Validate, 0), 2;
    s, pid := ReprocessRuns(c, R, s, 1, waiting, i);
    s := PipelineRuns(c, R, s, map[1 := waiting], pid, i);
    acts :| CanReach(c, acts, s);
  }

  // ---- A remove call whose last write rejects ------------------------------------------------------------------

  /** The condition of OriginalPresentUnlessRemoved is needed: a remove call whose row deletion rejects
      leaves a live row without its original. */
  lemma {:induction false} RemoveMayStrand(c: Codec, src: Source, i: ImageId) returns (acts: seq<Action>)
    ensures var s := Reached(c, acts);
            s.procs == map[] && i in s.w.images && s.w.images[i].original !in s.w.objects && Scrubbed(c, acts, i)
  {
    var a := LostSeedStrands(c, src, i);
    var s := RemoveFails(c, a, i);
    acts :| CanReach(c, acts, s);
    OriginalPresentUnlessRemoved(c, acts, i);
  }

  lemma {:induction false} RemoveFails(c: Codec, a: seq<Action>, i: ImageId) returns (s: State)
    requires var s0 := Reached(c, a); s0.procs == map[] && i in s0.w.images && s0.w.images[i].display.None?
    ensures exists acts :: CanReach(c, acts, s)
    ensures s.procs == map[] && i in s.w.images && s.w.images[i].original !in s.w.objects
  {
    var R := ReachedIsClosed(c);
    s := Reached(c, a);
    assert CanReach(c, a, s);
    var pid, key := s.next, s.w.images[i].original;
    s := Step(c, s, Remove(i));
    var p := Removing(i, FindVictim);
    s := Takes(c, R, s, map[], pid, p, OK, RemoveTurn(s, p, OK));
    p := Removing(i, DeleteObjects(Some(key), None));
    s := Takes(c, R, s, map[], pid, p, OK, RemoveTurn(s, p, OK));
    p := Removing(i, DeleteRow);
    s := Takes(c, R, s, map[], pid, p, REJECTED_AWAIT, RemoveTurn(s, p, REJECTED_AWAIT));
  }
}
