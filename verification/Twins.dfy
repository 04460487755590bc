/**
 * The similarity check compares with rows that are ACCEPTED at that moment.  An image that went on to the
 * processing stages is no longer one of them: a second copy of the very same bytes is accepted.
 */
module Twins {
  import opened Wrappers
  import opened Keys
  import opened Tables
  import opened Machine
  import opened PipelineInvariant
  import opened Guarantees
  import opened Verdicts
  import opened Witnesses
  import V = Validation

  // ---- Runs the chain decides ------------------------------------------------------------------------------

  ghost predicate LeadsTo(c: Codec, x: Setup, acts: seq<Action>, i: ImageId, j: ImageId, s: State) {
    Reached(c, acts) == s && Decided(c, x, acts, i) && Decided(c, x, acts, j)
  }

  lemma {:induction false} DecidedMore(c: Codec, x: Setup, acts: seq<Action>, a: Action, i: ImageId)
    requires Decided(c, x, acts, i) && DecidedAt(x, Reached(c, acts), a, i)
    ensures Decided(c, x, acts + [a], i)
  {
    var more := acts + [a];
    forall k | 0 <= k < |more| ensures DecidedAt(x, Reached(c, more[..k]), more[k], i) {
      if k < |acts| {
        assert more[..k] == acts[..k];
        assert DecidedAt(x, Reached(c, acts[..k]), acts[k], i);
      } else {
        assert more[..k] == acts;
      }
    }
  }

  /** R follows the steps the chain decides for both images. */
  ghost predicate FollowsChain(c: Codec, x: Setup, i: ImageId, j: ImageId, R: State -> bool) {
    forall s, a :: R(s) && DecidedAt(x, s, a, i) && DecidedAt(x, s, a, j) ==> R(Step(c, s, a))
  }

  lemma {:induction false} DecidedIsClosed(c: Codec, x: Setup, i: ImageId, j: ImageId) returns (R: State -> bool)
    ensures R(INITIAL) && Closed(c, R) && FollowsChain(c, x, i, j, R)
    ensures forall s :: R(s) <==> exists acts :: LeadsTo(c, x, acts, i, j, s)
  {
    R := s => exists acts :: LeadsTo(c, x, acts, i, j, s);
    assert LeadsTo(c, x, [], i, j, INITIAL);
    forall s, a | R(s) && DecidedAt(x, s, a, i) && DecidedAt(x, s, a, j) ensures R(Step(c, s, a)) {
      var acts :| LeadsTo(c, x, acts, i, j, s);
      OneMore(c, acts, a);
      DecidedMore(c, x, acts, a, i);
      DecidedMore(c, x, acts, a, j);
      assert LeadsTo(c, x, acts + [a], i, j, Step(c, s, a));
    }
    forall s, a | R(s) && !BringsVerdict(s, a) ensures R(Step(c, s, a)) {
      assert DecidedAt(x, s, a, i) && DecidedAt(x, s, a, j);
    }
  }

  // ---- A check with nobody to compare with -----------------------------------------------------------------

  ghost predicate NobodyListed(w: World, userId: string, i: ImageId) {
    forall j: ImageId :: !IsListed(w, userId, i, j)
  }

  /** A sound upload that is no HEIC file. */
  ghost predicate Plain(x: Setup, src: Source) {
    && Sound(x, src.bytes)
    && V.SniffedMime(x.env, src.bytes).Some? && !V.IsHeic(V.SniffedMime(x.env, src.bytes).value)
  }

  lemma {:induction false} SoundIsAdmitted(x: Setup, w: World, src: Source, i: ImageId) returns (m: Measures)
    requires Plain(x, src) && NobodyListed(w, src.userId, i)
    ensures var ctx := UploadOf(src, i);
            && AnswersOn(V.Ok([]), w, ctx) && VerdictOn(x, V.Ok([]), ctx) == Some(Admit(m, false))
            && m.perceptualHash == HashOf(x, src.bytes)
  {
    var ctx := UploadOf(src, i);
    assert Sound(x, ctx.buffer) && AnswersOn(V.Ok([]), w, ctx);
    forall j: ImageId, d ensures !IsDuplicateOf(x, w, ctx, HashOf(x, ctx.buffer), j, d) {
      assert !IsListed(w, src.userId, i, j);
    }
    assert AcceptableIn(x, w, ctx);
    AcceptableOnAnswer(x, V.Ok([]), w, ctx);
    AnswerIsIrrelevant(x, V.Ok([]), src.bytes);
    V.DefaultChainAccepts(x.At(V.Ok([])), x.cfg, ctx, false);
    m := MeasuresOf(Ran(x, V.Ok([]), ctx).0);
  }

  lemma {:induction false} CheckIsDecided(x: Setup, s: State, pid: nat, src: Source, i: ImageId, j: ImageId, row: Row)
    returns (m: Measures)
    requires Solo(s, map[], pid, i, Validate, Validating(VCheck(row, src.bytes))) && i != j
    requires Plain(x, src) && NobodyListed(s.w, src.userId, i)
    requires row.userId == src.userId && row.mimeType == src.mimeType
    ensures var a := Resume(pid, OK.(verdict := Admit(m, false))); DecidedAt(x, s, a, i) && DecidedAt(x, s, a, j)
    ensures m.perceptualHash == HashOf(x, src.bytes)
  {
    m := SoundIsAdmitted(x, s.w, src, i);
    assert ContextOf(i, row, src.bytes) == UploadOf(src, i);
    assert Decides(x, V.Ok([]), UploadOf(src, i), OK.(verdict := Admit(m, false)));
  }

  /** The check and the acceptance that follows it. */
  lemma {:induction false} CheckRuns(c: Codec, x: Setup, R: State -> bool, s: State, pid: nat, src: Source, i: ImageId,
                                     j: ImageId, row: Row)
    returns (s': State, m: Measures)
    requires Closed(c, R) && R(s) && FollowsChain(c, x, i, j, R) && i != j
    requires Solo(s, map[], pid, i, Validate, Validating(VCheck(row, src.bytes))) && i in s.w.images
    requires Plain(x, src) && NobodyListed(s.w, src.userId, i)
    requires row.userId == src.userId && row.mimeType == src.mimeType
    ensures R(s') && Solo(s', map[], pid, i, Validate, Validating(VHandOff))
    ensures s'.w == Accepted(s.w, i, m, None).value && s'.convertIds == s.convertIds && s'.srcs == s.srcs
    ensures m.perceptualHash == HashOf(x, src.bytes)
  {
    m := CheckIsDecided(x, s, pid, src, i, j, row);
    var ch := OK.(verdict := Admit(m, false));
    assert R(Step(c, s, Resume(pid, ch)));
    s' := Accepts(c, R, s, pid, i, row, src.bytes, m);
  }

  lemma {:induction false} Accepts(c: Codec, R: State -> bool, s: State, pid: nat, i: ImageId, row: Row, body: Blob,
                                   m: Measures)
    returns (s': State)
    requires Closed(c, R) && R(s) && i in s.w.images
    requires Solo(s, map[], pid, i, Validate, Validating(VCheck(row, body)))
    requires R(Step(c, s, Resume(pid, OK.(verdict := Admit(m, false)))))
    ensures R(s') && Solo(s', map[], pid, i, Validate, Validating(VHandOff))
    ensures s'.w == Accepted(s.w, i, m, None).value && s'.convertIds == s.convertIds && s'.srcs == s.srcs
  {
    var ch := OK.(verdict := Admit(m, false));
    s' := GoesV(c, R, s, map[], pid, i, VCheck(row, body), ch, s.w, VAccept(m, None));
    s' := GoesV(c, R, s', map[], pid, i, VAccept(m, None), OK, Accepted(s.w, i, m, None).value, VHandOff);
  }

  ghost predicate NobodyAccepted(w: World) {
    forall k :: k in w.images ==> !w.images[k].status.ACCEPTED?
  }

  /** An upload up to its check. */
  lemma {:induction false} UploadReads(c: Codec, R: State -> bool, s: State, src: Source, i: ImageId)
    returns (s': State, pid: nat, row: Row)
    requires Closed(c, R) && R(s) && s.procs == map[] && i !in s.srcs && i !in s.w.images && i !in s.convertIds
    requires NobodyAccepted(s.w)
    ensures R(s') && Solo(s', map[], pid, i, Validate, Validating(VCheck(row, src.bytes))) && HasOriginal(s'.w, i)
    ensures s'.w.images == s.w.images[i := row.(status := PROCESSING)] && row == NewRow(src, i, Validate)
    ensures i !in s'.convertIds && s'.srcs == s.srcs[i := src]
  {
    s' := EntryRuns(c, R, s, src, i, Validate);
    pid := s.next + 1;
    var body;
    s', row, body := ValidateReads(c, R, s', map[], pid, i);
  }

  lemma {:induction false} NobodyYet(w: World, w': World, userId: string, i: ImageId, row: Row)
    requires NobodyAccepted(w) && w'.images == w.images[i := row]
    ensures NobodyListed(w', userId, i)
  {
  }

  /** An upload up to the hand-off of its validation, when nobody is listed. */
  lemma {:induction false} UploadRuns(c: Codec, x: Setup, R: State -> bool, s: State, src: Source, i: ImageId,
                                      j: ImageId)
    returns (s': State, pid: nat, m: Measures)
    requires Closed(c, R) && R(s) && FollowsChain(c, x, i, j, R) && i != j
    requires s.procs == map[] && i !in s.srcs && i !in s.w.images && i !in s.convertIds
    requires Plain(x, src) && NobodyAccepted(s.w)
    ensures R(s') && Solo(s', map[], pid, i, Validate, Validating(VHandOff)) && i !in s'.convertIds
    ensures s'.w.images.Keys == s.w.images.Keys + {i} && s'.srcs == s.srcs[i := src] && HasOriginal(s'.w, i)
    ensures forall k :: k in s.w.images ==> s'.w.images[k] == s.w.images[k]
    ensures s'.w.images[i].status.ACCEPTED? && s'.w.images[i].measures == Some(m)
    ensures m.perceptualHash == HashOf(x, src.bytes)
  {
    var row;
    s', pid, row := UploadReads(c, R, s, src, i);
    NobodyYet(s.w, s'.w, src.userId, i, row.(status := PROCESSING));
    s', m := CheckRuns(c, x, R, s', pid, src, i, j, row);
  }

  lemma {:induction false} HandOffStarts(c: Codec, R: State -> bool, s: State, pid: nat, i: ImageId)
    returns (s': State)
    requires Closed(c, R) && R(s) && Solo(s, map[], pid, i, Validate, Validating(VHandOff)) && i !in s.convertIds
    ensures R(s') && Solo(s', map[], s.next, i, Convert, Queued) && s'.w == s.w && s'.srcs == s.srcs
  {
    var job := s.procs[pid].job;
    s' := Starts(c, R, s, map[], pid, Worker(job), OK, JobTurn(c, s, job, OK));
  }

  lemma {:induction false} FollowsBoth(c: Codec, x: Setup, i: ImageId, j: ImageId, R: State -> bool)
    requires FollowsChain(c, x, i, j, R)
    ensures FollowsChain(c, x, j, i, R)
  {
  }

  /** The state after the first copy: at rest, its image alone and COMPLETED. */
  ghost predicate OneDone(s: State, src: Source, i: ImageId, m: Measures) {
    && s.procs == map[] && s.srcs == map[i := src] && s.w.images.Keys == {i} && s.convertIds <= {i}
    && s.w.images[i].status.COMPLETED? && s.w.images[i].measures == Some(m)
  }

  lemma {:induction false} KnownIds(c: Codec, x: Setup, i: ImageId, j: ImageId, R: State -> bool, s: State)
    requires R(s) && forall s :: R(s) <==> exists acts :: LeadsTo(c, x, acts, i, j, s)
    ensures s.convertIds <= s.srcs.Keys
  {
    var acts :| LeadsTo(c, x, acts, i, j, s);
    RunKeepsInv(c, acts);
  }

  lemma {:induction false} FirstCopyRuns(c: Codec, x: Setup, R: State -> bool, src: Source, i: ImageId, j: ImageId)
    returns (s: State, m: Measures)
    requires Closed(c, R) && R(INITIAL) && FollowsChain(c, x, i, j, R) && i != j && Plain(x, src)
    requires forall s :: R(s) <==> exists acts :: LeadsTo(c, x, acts, i, j, s)
    ensures R(s) && OneDone(s, src, i, m) && m.perceptualHash == HashOf(x, src.bytes)
  {
    var pid;
    s, pid, m := UploadRuns(c, x, R, INITIAL, src, i, j);
    var next := s.next;
    s := HandOffStarts(c, R, s, pid, i);
    s := PipelineRuns(c, R, s, map[], next, i);
    KnownIds(c, x, i, j, R, s);
  }

  /** The same photo twice: the first copy is accepted and goes all the way to COMPLETED, and then the chain
      accepts the second, at distance zero. */
  lemma {:induction false} SecondCopyIsAccepted(c: Codec, x: Setup, src: Source, i: ImageId, j: ImageId)
    returns (acts: seq<Action>)
    requires i != j && Plain(x, src)
    ensures Decided(c, x, acts, i) && Decided(c, x, acts, j)
    ensures var s := Reached(c, acts);
            && i in s.w.images && j in s.w.images
            && s.w.images[i].status.COMPLETED? && s.w.images[j].status.ACCEPTED?
            && s.w.images[i].measures.Some? && s.w.images[j].measures.Some?
            && s.w.images[i].measures.value.perceptualHash == s.w.images[j].measures.value.perceptualHash
  {
    var R := DecidedIsClosed(c, x, i, j);
    var s, m := FirstCopyRuns(c, x, R, src, i, j);
    FollowsBoth(c, x, i, j, R);
    var pid, m';
    s, pid, m' := UploadRuns(c, x, R, s, src, j, i);
    acts :| LeadsTo(c, x, acts, i, j, s);
  }
}
