/**
 * The validation job and the validator chain together: what the chain says of the stored bytes is what
 * the job goes on with, and in the end what the image's row says.
 */
module Verdicts {
  import opened Wrappers
  import opened Keys
  import opened Tables
  import opened Machine
  import opened JobInvariant
  import opened PipelineInvariant
  import opened Guarantees
  import opened Admission
  import opened Seeded
  import opened Gate
  import Chain
  import Hex
  import V = Validation

  function CodeOf(r: V.Reason): string {
    match r
    case UNSUPPORTED_FORMAT => "UNSUPPORTED_FORMAT"
    case CORRUPT_FILE => "CORRUPT_FILE"
    case FILE_TOO_SMALL_BYTES => "FILE_TOO_SMALL_BYTES"
    case RESOLUTION_TOO_LOW => "RESOLUTION_TOO_LOW"
    case IMAGE_TOO_BLURRY => "IMAGE_TOO_BLURRY"
    case NO_FACE_DETECTED => "NO_FACE_DETECTED"
    case MULTIPLE_FACES => "MULTIPLE_FACES"
    case FACE_TOO_SMALL => "FACE_TOO_SMALL"
    case DUPLICATE_IMAGE(_, _) => "DUPLICATE_IMAGE"
  }

  /** The libraries, the configuration and the wording of the messages.  The accepted hashes are asked
      anew at every run of the chain: `At` puts one answer in, or the query's failure. */
  datatype Setup = Setup(env: V.Env, cfg: V.Config, text: V.Reason -> string) {
    function At(answer: V.Try<seq<V.Known>>): V.Env {
      env.(acceptedHashes := (_, _) => answer)
    }

    function Stored(r: V.Reason): RejectionReason {
      RejectionReason(CodeOf(r), text(r))
    }
  }

  /** The worker's context for stored bytes. */
  function ContextOf(i: ImageId, row: Row, body: Blob): V.Context {
    V.Fresh(i, row.userId, body, row.mimeType)
  }

  function Ran(x: Setup, answer: V.Try<seq<V.Known>>, ctx: V.Context): (V.Context, V.Verdict) {
    Chain.RunOf(V.DefaultChain(x.At(answer), x.cfg), false, ctx)
  }

  /** The columns read off an accepted context. */
  function MeasuresOf(ctx: V.Context): Measures
    requires ctx.width.Some? && ctx.height.Some? && ctx.perceptualHash.Some?
  {
    Measures(ctx.width.value, ctx.height.value, ctx.perceptualHash.value)
  }

  /** What pipeline.run comes to for the job; None: it throws. */
  function VerdictOn(x: Setup, answer: V.Try<seq<V.Known>>, ctx: V.Context): Option<Verdict>
    requires V.IsFresh(ctx)
  {
    V.DefaultChainAccepts(x.At(answer), x.cfg, ctx, false);
    V.RejectionIsJustified(x.At(answer), x.cfg, ctx);
    var (ctx', verdict) := Ran(x, answer, ctx);
    match verdict
    case Crashed(_) => None
    case Done(reasons) =>
      if reasons == [] then Some(Admit(MeasuresOf(ctx'), ctx'.displayBuffer.Some? && ctx'.displayMime.Some?))
      else Some(Refuse([x.Stored(reasons[0])]))
  }

  /** The environment decides the check of this job as the chain does. */
  predicate Decides(x: Setup, answer: V.Try<seq<V.Known>>, ctx: V.Context, ch: Choice)
    requires V.IsFresh(ctx)
  {
    match VerdictOn(x, answer, ctx)
    case None => ch.outcome.Rejected?
    case Some(verdict) => ch.outcome.Ok? && ch.verdict == verdict
  }

  /** The HEIC decoder is the one whose output is stored as the display copy. */
  predicate SameDecoder(c: Codec, x: Setup, body: Blob) {
    x.env.heicToJpeg(body).Ok? ==> x.env.heicToJpeg(body).value == (c.heicToJpeg)(body)
  }

  /** Width, height and hash of the bytes the chain looked at. */
  predicate AreMeasures(x: Setup, buffer: Blob, m: Measures) {
    && V.Working(x.env, buffer).Some?
    && var b := V.Working(x.env, buffer).value;
       && x.env.metadata(b) == V.Ok(V.Size(Some(m.width), Some(m.height)))
       && x.env.thumb(b).Ok? && m.perceptualHash == V.ThumbHash(x.env, x.env.thumb(b).value)
  }

  // ---- The hash query --------------------------------------------------------------------------------------

  /** The rows listAcceptedHashes selects: the user's other rows that are ACCEPTED at that moment and have a
      hash. */
  predicate IsListed(w: World, userId: string, id: string, j: ImageId) {
    j in w.images && j != id && w.images[j].userId == userId
    && w.images[j].status.ACCEPTED? && w.images[j].measures.Some?
  }

  function KnownOf(w: World, j: ImageId): V.Known
    requires j in w.images && w.images[j].measures.Some?
  {
    V.Known(j, w.images[j].measures.value.perceptualHash)
  }

  /** The answer lists those rows and no others, in any order. */
  ghost predicate Lists(known: seq<V.Known>, w: World, userId: string, id: string) {
    && (forall j: ImageId :: IsListed(w, userId, id, j) ==> KnownOf(w, j) in known)
    && (forall r :: r in known ==> exists j: ImageId :: IsListed(w, userId, id, j) && r == KnownOf(w, j))
  }

  /** The query fails or is true of the tables. */
  ghost predicate AnswersOn(answer: V.Try<seq<V.Known>>, w: World, ctx: V.Context) {
    answer.Ok? ==> Lists(answer.value, w, ctx.userId, ctx.imageId)
  }

  lemma {:induction false} ListingOf(w: World, userId: string, id: string, ids: set<ImageId>)
    returns (known: seq<V.Known>)
    ensures forall j: ImageId :: j in ids && IsListed(w, userId, id, j) ==> KnownOf(w, j) in known
    ensures forall r :: r in known ==> exists j: ImageId :: j in ids && IsListed(w, userId, id, j) && r == KnownOf(w, j)
    decreases |ids|
  {
    known := [];
    if ids != {} {
      var j :| j in ids;
      var rest := ListingOf(w, userId, id, ids - {j});
      known := if IsListed(w, userId, id, j) then [KnownOf(w, j)] + rest else rest;
    }
  }

  /** Whatever the tables hold, there is a true answer. */
  lemma SomeAnswer(w: World, userId: string, id: string) returns (known: seq<V.Known>)
    ensures Lists(known, w, userId, id)
  {
    known := ListingOf(w, userId, id, w.images.Keys);
  }

  /** Another live row of the user that is ACCEPTED and has a hash is near the upload. */
  ghost predicate IsDuplicateOf(x: Setup, w: World, ctx: V.Context, hash: string, j: ImageId, distance: nat) {
    && j in w.images && j != ctx.imageId && w.images[j].userId == ctx.userId && w.images[j].status == ACCEPTED
    && w.images[j].measures.Some?
    && Hex.Hamming(hash, w.images[j].measures.value.perceptualHash) == distance <= x.cfg.hammingThreshold
  }

  /** The bytes pass the first four checks and can be hashed. */
  ghost predicate Sound(x: Setup, buffer: Blob) {
    && V.Working(x.env, buffer).Some?
    && var b := V.Working(x.env, buffer).value;
       V.BigEnough(x.env, x.cfg, b) && V.Sharp(x.env, x.cfg, b) && V.HasTheFace(x.env, x.cfg, b) && x.env.thumb(b).Ok?
  }

  function HashOf(x: Setup, buffer: Blob): string
    requires V.Working(x.env, buffer).Some? && x.env.thumb(V.Working(x.env, buffer).value).Ok?
  {
    V.ThumbHash(x.env, x.env.thumb(V.Working(x.env, buffer).value).value)
  }

  /** Acceptable as the tables stand: sound, and not near any listed row. */
  ghost predicate AcceptableIn(x: Setup, w: World, ctx: V.Context) {
    Sound(x, ctx.buffer) && forall j: ImageId, d :: !IsDuplicateOf(x, w, ctx, HashOf(x, ctx.buffer), j, d)
  }

  /** The fact a reason reports, as the tables stand. */
  ghost predicate JustifiedIn(x: Setup, w: World, ctx: V.Context, r: V.Reason) {
    match r
    case DUPLICATE_IMAGE(id, d) =>
      Sound(x, ctx.buffer) && exists j: ImageId :: id == j && IsDuplicateOf(x, w, ctx, HashOf(x, ctx.buffer), j, d)
    case _ => V.Justified(x.env, x.cfg, ctx, r)
  }

  lemma AnswerIsIrrelevant(x: Setup, answer: V.Try<seq<V.Known>>, buffer: Blob)
    ensures V.Working(x.At(answer), buffer) == V.Working(x.env, buffer)
    ensures V.SniffedMime(x.At(answer), buffer) == V.SniffedMime(x.env, buffer)
  {
  }

  lemma {:induction false} AcceptableOnAnswer(x: Setup, answer: V.Try<seq<V.Known>>, w: World, ctx: V.Context)
    requires AnswersOn(answer, w, ctx)
    ensures V.Acceptable(x.At(answer), x.cfg, ctx) <==> answer.Ok? && AcceptableIn(x, w, ctx)
  {
    AnswerIsIrrelevant(x, answer, ctx.buffer);
    if answer.Ok? && Sound(x, ctx.buffer) {
      UnseenOnAnswer(x, answer.value, w, ctx);
    }
  }

  lemma {:induction false} UnseenOnAnswer(x: Setup, known: seq<V.Known>, w: World, ctx: V.Context)
    requires Lists(known, w, ctx.userId, ctx.imageId) && Sound(x, ctx.buffer)
    ensures (forall k :: 0 <= k < |known| ==> !V.Near(HashOf(x, ctx.buffer), known[k], x.cfg.hammingThreshold))
       <==> (forall j: ImageId, d :: !IsDuplicateOf(x, w, ctx, HashOf(x, ctx.buffer), j, d))
  {
    var hash := HashOf(x, ctx.buffer);
    forall k | 0 <= k < |known| && V.Near(hash, known[k], x.cfg.hammingThreshold)
      ensures exists j: ImageId, d :: IsDuplicateOf(x, w, ctx, hash, j, d)
    {
      var j := DuplicateOnAnswer(x, known, w, ctx, hash, k);
    }
    forall j: ImageId, d | IsDuplicateOf(x, w, ctx, hash, j, d)
      ensures exists k :: 0 <= k < |known| && V.Near(hash, known[k], x.cfg.hammingThreshold)
    {
      var k :| 0 <= k < |known| && known[k] == KnownOf(w, j);
      assert V.Near(hash, known[k], x.cfg.hammingThreshold);
    }
  }

  lemma {:induction false} DuplicateOnAnswer(x: Setup, known: seq<V.Known>, w: World, ctx: V.Context, hash: string,
                                            k: nat)
    returns (j: ImageId)
    requires Lists(known, w, ctx.userId, ctx.imageId) && k < |known|
    requires Hex.Hamming(hash, known[k].perceptualHash) <= x.cfg.hammingThreshold
    ensures known[k].id == j && IsDuplicateOf(x, w, ctx, hash, j, Hex.Hamming(hash, known[k].perceptualHash))
  {
    assert known[k] in known;
    j :| IsListed(w, ctx.userId, ctx.imageId, j) && known[k] == KnownOf(w, j);
  }

  lemma {:induction false} OthersOnAnswer(x: Setup, answer: V.Try<seq<V.Known>>, ctx: V.Context, r: V.Reason)
    requires V.Justified(x.At(answer), x.cfg, ctx, r)
    ensures !r.DUPLICATE_IMAGE? ==> V.Justified(x.env, x.cfg, ctx, r)
    ensures r.DUPLICATE_IMAGE? ==> Sound(x, ctx.buffer)
  {
    AnswerIsIrrelevant(x, answer, ctx.buffer);
  }

  lemma {:induction false} JustifiedOnAnswer(x: Setup, answer: V.Try<seq<V.Known>>, w: World, ctx: V.Context,
                                             r: V.Reason)
    requires AnswersOn(answer, w, ctx) && V.Justified(x.At(answer), x.cfg, ctx, r)
    ensures JustifiedIn(x, w, ctx, r)
  {
    OthersOnAnswer(x, answer, ctx, r);
    if r.DUPLICATE_IMAGE? {
      AnswerIsIrrelevant(x, answer, ctx.buffer);
      var hash, known := HashOf(x, ctx.buffer), answer.value;
      var k :| 0 <= k < |known| && known[k].id == r.matchedImageId
               && Hex.Hamming(hash, known[k].perceptualHash) == r.distance <= x.cfg.hammingThreshold;
      var j := DuplicateOnAnswer(x, known, w, ctx, hash, k);
    }
  }

  // ---- The check -------------------------------------------------------------------------------------------

  /** The check of the validation job, decided by the default chain with a true answer of the hash query: an
      upload acceptable as the tables stand goes on with its true measures and, if it was HEIC, with
      exactly the chain's display copy; any other throws or is refused for one true reason. */
  lemma {:induction false} CheckIsTheChain(c: Codec, x: Setup, answer: V.Try<seq<V.Known>>, w: World, i: ImageId,
                                           row: Row, body: Blob, ch: Choice)
    requires Decides(x, answer, ContextOf(i, row, body), ch) && SameDecoder(c, x, body)
    requires AnswersOn(answer, w, ContextOf(i, row, body))
    ensures var ctx, next := ContextOf(i, row, body), ValidateAwait(c, w, i, VCheck(row, body), ch).next;
            if answer.Ok? && AcceptableIn(x, w, ctx) then
              exists m :: AreMeasures(x, body, m) &&
                if V.IsHeic(V.SniffedMime(x.env, body).value)
                then Ran(x, answer, ctx).0.displayBuffer == Some((c.heicToJpeg)(body))
                     && next == GoV(VDisplay(row, (c.heicToJpeg)(body), m))
                else next == GoV(VAccept(m, None))
            else
              next.Throws? || exists r :: JustifiedIn(x, w, ctx, r) && next == GoV(VReject([x.Stored(r)]))
  {
    var ctx, env := ContextOf(i, row, body), x.At(answer);
    V.DefaultChainAccepts(env, x.cfg, ctx, false);
    V.RejectionIsJustified(env, x.cfg, ctx);
    AnswerIsIrrelevant(x, answer, body);
    AcceptableOnAnswer(x, answer, w, ctx);
    var (ctx', verdict) := Ran(x, answer, ctx);
    if V.Acceptable(env, x.cfg, ctx) {
      assert AreMeasures(x, body, MeasuresOf(ctx'));
    } else if verdict.Done? {
      JustifiedOnAnswer(x, answer, w, ctx, verdict.reasons[0]);
    }
  }

  // ---- Whole runs ------------------------------------------------------------------------------------------

  /** What the validators see of an upload. */
  function UploadOf(src: Source, i: ImageId): V.Context {
    V.Fresh(i, src.userId, src.bytes, src.mimeType)
  }

  /** A check on image i that comes to an end. */
  predicate ChecksAt(s: State, a: Action, i: ImageId) {
    && a.Resume? && Enabled(s, a) && a.choice.outcome.Ok? && s.procs[a.pid].Worker?
    && s.procs[a.pid].job.imageId == i
    && s.procs[a.pid].job.phase.Validating? && s.procs[a.pid].job.phase.v.VCheck?
  }

  /** If the step ends a check on image i, it ends it as the chain does, the hash query answering truly. */
  ghost predicate DecidedAt(x: Setup, s: State, a: Action, i: ImageId) {
    ChecksAt(s, a, i) ==>
      var phase := s.procs[a.pid].job.phase.v;
      var ctx := ContextOf(i, phase.row, phase.body);
      exists answer :: AnswersOn(answer, s.w, ctx) && Decides(x, answer, ctx, a.choice)
  }

  ghost predicate Decided(c: Codec, x: Setup, acts: seq<Action>, i: ImageId) {
    forall k :: 0 <= k < |acts| ==> DecidedAt(x, Reached(c, acts[..k]), acts[k], i)
  }

  /** Step k ended a check on image i with these measures: they are true of the upload, and it was acceptable
      as the tables stood. */
  ghost predicate AdmittedBy(c: Codec, x: Setup, acts: seq<Action>, k: nat, src: Source, i: ImageId, m: Measures) {
    k < |acts| &&
      var s := Reached(c, acts[..k]);
      ChecksAt(s, acts[k], i) && AreMeasures(x, src.bytes, m) && AcceptableIn(x, s.w, UploadOf(src, i))
  }

  /** Step k ended a check on image i for one reason, true of the upload as the tables stood. */
  ghost predicate RefusedBy(c: Codec, x: Setup, acts: seq<Action>, k: nat, src: Source, i: ImageId,
                            reasons: seq<RejectionReason>) {
    k < |acts| &&
      var s := Reached(c, acts[..k]);
      ChecksAt(s, acts[k], i) && exists r :: reasons == [x.Stored(r)] && JustifiedIn(x, s.w, UploadOf(src, i), r)
  }

  /** At step k, a check on image i, the upload was sound and near the listed row of image j. */
  ghost predicate DuplicateAt(c: Codec, x: Setup, acts: seq<Action>, k: nat, src: Source, i: ImageId, j: ImageId,
                              d: nat)
  {
    k < |acts| &&
      var s, ctx := Reached(c, acts[..k]), UploadOf(src, i);
      ChecksAt(s, acts[k], i) && Sound(x, ctx.buffer) && IsDuplicateOf(x, s.w, ctx, HashOf(x, ctx.buffer), j, d)
  }

  ghost function JudgeOf(c: Codec, x: Setup, acts: seq<Action>, src: Source, i: ImageId): Judge {
    Judge(m => exists k :: AdmittedBy(c, x, acts, k, src, i, m),
          reasons => exists k :: RefusedBy(c, x, acts, k, src, i, reasons))
  }

  lemma {:induction false} VerdictIsTrue(x: Setup, answer: V.Try<seq<V.Known>>, w: World, ctx: V.Context,
                                         verdict: Verdict)
    requires V.IsFresh(ctx) && AnswersOn(answer, w, ctx) && VerdictOn(x, answer, ctx) == Some(verdict)
    ensures match verdict
            case Admit(m, _) => AreMeasures(x, ctx.buffer, m) && AcceptableIn(x, w, ctx)
            case Refuse(reasons) => exists r :: reasons == [x.Stored(r)] && JustifiedIn(x, w, ctx, r)
  {
    V.DefaultChainAccepts(x.At(answer), x.cfg, ctx, false);
    V.RejectionIsJustified(x.At(answer), x.cfg, ctx);
    AnswerIsIrrelevant(x, answer, ctx.buffer);
    AcceptableOnAnswer(x, answer, w, ctx);
    var reasons := Ran(x, answer, ctx).1.reasons;
    if reasons != [] { JustifiedOnAnswer(x, answer, w, ctx, reasons[0]); }
  }

  lemma {:induction false} DecidedUpholds(c: Codec, x: Setup, acts: seq<Action>, k: nat, i: ImageId, src: Source)
    requires k < |acts| && Decided(c, x, acts, i)
    requires var s := Reached(c, acts[..k]); Inv(c, s) && (i in s.srcs ==> s.srcs[i] == src)
    ensures UpheldAt(JudgeOf(c, x, acts, src, i), Reached(c, acts[..k]), acts[k], i)
  {
    var s, a := Reached(c, acts[..k]), acts[k];
    if ChecksAt(s, a, i) {
      assert DecidedAt(x, s, a, i);
      var phase, ctx := s.procs[a.pid].job.phase.v, UploadOf(src, i);
      assert ProcOk(c, s.srcs, s.born, s.w, s.procs[a.pid]);
      assert ContextOf(i, phase.row, phase.body) == ctx;
      var answer :| AnswersOn(answer, s.w, ctx) && Decides(x, answer, ctx, a.choice);
      VerdictIsTrue(x, answer, s.w, ctx, a.choice.verdict);
      match a.choice.verdict {
        case Admit(m, _) => assert AdmittedBy(c, x, acts, k, src, i, m);
        case Refuse(reasons) => assert RefusedBy(c, x, acts, k, src, i, reasons);
      }
    }
  }

  lemma {:induction false} SourceBefore(c: Codec, acts: seq<Action>, n: nat, i: ImageId, src: Source)
    requires 0 < n <= |acts|
    requires var s := Reached(c, acts[..n]); i in s.srcs ==> s.srcs[i] == src
    ensures var s := Reached(c, acts[..n - 1]); i in s.srcs ==> s.srcs[i] == src
  {
    PrefixStep(c, acts, n);
  }

  lemma {:induction false} UpheldStep(c: Codec, j: Judge, acts: seq<Action>, n: nat, i: ImageId)
    requires 0 < n <= |acts| && Upheld(c, j, acts[..n - 1], i)
    requires UpheldAt(j, Reached(c, acts[..n - 1]), acts[n - 1], i)
    ensures Upheld(c, j, acts[..n], i)
  {
    assert acts[..n][..n - 1] == acts[..n - 1];
  }

  lemma {:induction false} DecidedRunUpholds(c: Codec, x: Setup, acts: seq<Action>, n: nat, i: ImageId, src: Source)
    requires n <= |acts| && Decided(c, x, acts, i)
    requires var s := Reached(c, acts[..n]); i in s.srcs ==> s.srcs[i] == src
    ensures Upheld(c, JudgeOf(c, x, acts, src, i), acts[..n], i)
  {
    if n > 0 {
      SourceBefore(c, acts, n, i, src);
      DecidedRunUpholds(c, x, acts, n - 1, i, src);
      RunKeepsInv(c, acts[..n - 1]);
      DecidedUpholds(c, x, acts, n - 1, i, src);
      UpheldStep(c, JudgeOf(c, x, acts, src, i), acts, n, i);
    }
  }

  /** End to end: where the default chain decides and the hash query answers truly, the measures in a row
      come from a check at which the upload was acceptable -- no other ACCEPTED row of the user near it --
      and a REJECTED row gives the one reason of a check at which it was true; a duplicate's match was
      then a live ACCEPTED row of the user. */
  lemma {:induction false} RowsAreTrueOfUploads(c: Codec, x: Setup, acts: seq<Action>, i: ImageId)
    requires Decided(c, x, acts, i)
    ensures var s := Reached(c, acts);
            i in s.w.images ==>
              && i in s.srcs
              && (s.w.images[i].measures.Some? ==>
                    exists k :: AdmittedBy(c, x, acts, k, s.srcs[i], i, s.w.images[i].measures.value))
              && (s.w.images[i].status.REJECTED? ==>
                    s.w.images[i].rejectionReasons.Some?
                    && exists k :: RefusedBy(c, x, acts, k, s.srcs[i], i, s.w.images[i].rejectionReasons.value))
  {
    var s := Reached(c, acts);
    RunKeepsInv(c, acts);
    if i in s.w.images {
      assert RowOk(c, s.srcs, s.w, i);
      assert acts[..|acts|] == acts;
      DecidedRunUpholds(c, x, acts, |acts|, i, s.srcs[i]);
      RowsReportVerdicts(c, JudgeOf(c, x, acts, s.srcs[i], i), acts, i);
    }
  }

  /** Which fact about the upload each code, word for word, reports; a duplicate's depends on the tables. */
  ghost predicate CodeTells(x: Setup, ctx: V.Context, code: string) {
    && (code == "UNSUPPORTED_FORMAT" ==> V.Justified(x.env, x.cfg, ctx, V.UNSUPPORTED_FORMAT))
    && (code == "CORRUPT_FILE" ==> V.Justified(x.env, x.cfg, ctx, V.CORRUPT_FILE))
    && (code == "FILE_TOO_SMALL_BYTES" ==> V.Justified(x.env, x.cfg, ctx, V.FILE_TOO_SMALL_BYTES))
    && (code == "RESOLUTION_TOO_LOW" ==> V.Justified(x.env, x.cfg, ctx, V.RESOLUTION_TOO_LOW))
    && (code == "IMAGE_TOO_BLURRY" ==> V.Justified(x.env, x.cfg, ctx, V.IMAGE_TOO_BLURRY))
    && (code == "NO_FACE_DETECTED" ==> V.Justified(x.env, x.cfg, ctx, V.NO_FACE_DETECTED))
    && (code == "MULTIPLE_FACES" ==> V.Justified(x.env, x.cfg, ctx, V.MULTIPLE_FACES))
    && (code == "FACE_TOO_SMALL" ==> V.Justified(x.env, x.cfg, ctx, V.FACE_TOO_SMALL))
    && (code == "UNSUPPORTED_FORMAT" || code == "CORRUPT_FILE" || code == "FILE_TOO_SMALL_BYTES"
        || code == "RESOLUTION_TOO_LOW" || code == "IMAGE_TOO_BLURRY" || code == "NO_FACE_DETECTED"
        || code == "MULTIPLE_FACES" || code == "FACE_TOO_SMALL" || code == "DUPLICATE_IMAGE")
  }

  lemma {:induction false} CodeOfReason(r: V.Reason)
    ensures CodeOf(r) == "DUPLICATE_IMAGE" <==> r.DUPLICATE_IMAGE?
    ensures CodeOf(r) == "UNSUPPORTED_FORMAT" <==> r.UNSUPPORTED_FORMAT?
    ensures CodeOf(r) == "CORRUPT_FILE" <==> r.CORRUPT_FILE?
    ensures CodeOf(r) == "FILE_TOO_SMALL_BYTES" <==> r.FILE_TOO_SMALL_BYTES?
    ensures CodeOf(r) == "RESOLUTION_TOO_LOW" <==> r.RESOLUTION_TOO_LOW?
    ensures CodeOf(r) == "IMAGE_TOO_BLURRY" <==> r.IMAGE_TOO_BLURRY?
    ensures CodeOf(r) == "NO_FACE_DETECTED" <==> r.NO_FACE_DETECTED?
    ensures CodeOf(r) == "MULTIPLE_FACES" <==> r.MULTIPLE_FACES?
    ensures CodeOf(r) == "FACE_TOO_SMALL" <==> r.FACE_TOO_SMALL?
  {
    var code := CodeOf(r);
    assert |code| == match r case UNSUPPORTED_FORMAT => 18 case CORRUPT_FILE => 12 case FILE_TOO_SMALL_BYTES => 20
                             case RESOLUTION_TOO_LOW => 18 case IMAGE_TOO_BLURRY => 16 case NO_FACE_DETECTED => 16
                             case MULTIPLE_FACES => 14 case FACE_TOO_SMALL => 14 case DUPLICATE_IMAGE(_, _) => 15;
    assert code[0] == match r case UNSUPPORTED_FORMAT => 'U' case CORRUPT_FILE => 'C' case FILE_TOO_SMALL_BYTES => 'F'
                              case RESOLUTION_TOO_LOW => 'R' case IMAGE_TOO_BLURRY => 'I' case NO_FACE_DETECTED => 'N'
                              case MULTIPLE_FACES => 'M' case FACE_TOO_SMALL => 'F' case DUPLICATE_IMAGE(_, _) => 'D';
  }

  lemma {:induction false} JustifiedCodeTells(x: Setup, w: World, ctx: V.Context, r: V.Reason)
    requires JustifiedIn(x, w, ctx, r)
    ensures CodeTells(x, ctx, CodeOf(r))
  {
    CodeOfReason(r);
  }

  ghost predicate FoundDuplicate(c: Codec, x: Setup, acts: seq<Action>, src: Source, i: ImageId) {
    exists k, j: ImageId, d :: DuplicateAt(c, x, acts, k, src, i, j, d)
  }

  lemma {:induction false} RefusalTells(c: Codec, x: Setup, acts: seq<Action>, k: nat, src: Source, i: ImageId,
                                        reasons: seq<RejectionReason>)
    requires RefusedBy(c, x, acts, k, src, i, reasons)
    ensures |reasons| == 1 && CodeTells(x, UploadOf(src, i), reasons[0].code)
    ensures reasons[0].code == "DUPLICATE_IMAGE" ==> FoundDuplicate(c, x, acts, src, i)
  {
    var w, ctx := Reached(c, acts[..k]).w, UploadOf(src, i);
    var r :| reasons == [x.Stored(r)] && JustifiedIn(x, w, ctx, r);
    JustifiedCodeTells(x, w, ctx, r);
    CodeOfReason(r);
    if r.DUPLICATE_IMAGE? {
      var j: ImageId :| r.matchedImageId == j && IsDuplicateOf(x, w, ctx, HashOf(x, ctx.buffer), j, r.distance);
      assert DuplicateAt(c, x, acts, k, src, i, j, r.distance);
    }
  }

  /** Read off the row: the one code of a REJECTED image, word for word, is true of its upload -- and a duplicate
      was one, of a then live ACCEPTED row of its user, at the step that found it. */
  lemma {:induction false} CodesAreTrueOfUploads(c: Codec, x: Setup, acts: seq<Action>, i: ImageId)
    requires Decided(c, x, acts, i)
    requires i in Reached(c, acts).w.images && Reached(c, acts).w.images[i].status.REJECTED?
    ensures var s := Reached(c, acts);
            var reasons := s.w.images[i].rejectionReasons;
            && i in s.srcs && reasons.Some? && |reasons.value| == 1
            && CodeTells(x, UploadOf(s.srcs[i], i), reasons.value[0].code)
            && (reasons.value[0].code == "DUPLICATE_IMAGE" ==> FoundDuplicate(c, x, acts, s.srcs[i], i))
  {
    RowsAreTrueOfUploads(c, x, acts, i);
    var s := Reached(c, acts);
    var reasons := s.w.images[i].rejectionReasons.value;
    var k :| RefusedBy(c, x, acts, k, s.srcs[i], i, reasons);
    RefusalTells(c, x, acts, k, s.srcs[i], i, reasons);
  }

  /** And through the gate: an image that was neither seeded nor sent round the validation by a reprocess
      call is ACCEPTED, being processed or COMPLETED only if a check found its upload acceptable. */
  lemma {:induction false} OnlyAcceptableUploadsAreProcessed(c: Codec, x: Setup, acts: seq<Action>, i: ImageId)
    requires Decided(c, x, acts, i) && !Enters(c, acts, i, Convert) && !Bypassed(c, acts, i)
    ensures var s := Reached(c, acts);
            i in s.w.images && Advanced(s.w.images[i].status) ==>
              && i in s.srcs && s.w.images[i].measures.Some?
              && exists k :: AdmittedBy(c, x, acts, k, s.srcs[i], i, s.w.images[i].measures.value)
  {
    RowsAreTrueOfUploads(c, x, acts, i);
    OnlyAdmittedAreProcessed(c, acts, i);
  }
}
