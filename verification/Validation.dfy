/**
 * The five default validators over their shared context, and what the default chain guarantees to the
 * worker that runs it.  Sniffing, HEIC decoding, metadata, raw pixels, face detection and the hash
 * query are parameters; the checks themselves are modelled in full.
 */
module Validation {
  import opened Arithmetic
  import opened Wrappers
  import opened Tables
  import Blur
  import Chain
  import Hex
  import PHash

  // ---- The outside world ---------------------------------------------------------------------------

  datatype Try<+T> = Ok(value: T) | Raised(error: string)

  datatype Size = Size(width: Option<nat>, height: Option<nat>)

  datatype Raster = Raster(data: seq<int>, w: nat, h: nat)

  /** Greyscale, resized to fit 256 x 256. */
  type Grey = g: Raster | |g.data| == g.w * g.h && Blur.IsGrey(g.data) && g.w <= 256 && g.h <= 256
    witness Raster([], 0, 0)

  /** Greyscale, stretched to 32 x 32. */
  type Thumb = s: seq<int> | |s| == PHash.N * PHash.N && Blur.IsGrey(s)
    witness seq(PHash.N * PHash.N, _ => 0)

  datatype Box = Box(width: real, height: real)

  datatype Known = Known(id: string, perceptualHash: string)

  /** Library calls and the repository query, with the failures they may raise. */
  datatype Env = Env(
    sniff: Blob -> Try<Option<string>>,
    heicToJpeg: Blob -> Try<Blob>,
    metadata: Blob -> Try<Size>,
    grey: Blob -> Try<Grey>,
    thumb: Blob -> Try<Thumb>,
    detectFaces: Blob -> Try<seq<Box>>,
    acceptedHashes: (string, string) -> Try<seq<Known>>,
    cosines: PHash.Table)

  datatype Config = Config(
    minFileBytes: nat, minWidth: nat, minHeight: nat, blurThreshold: real,
    faceMaxCount: nat, faceMinAreaRatio: real, hammingThreshold: nat)

  // ---- Context and results ---------------------------------------------------------------------------

  datatype Context = Context(
    imageId: string, userId: string, buffer: Blob, mimeType: string,
    width: Option<nat>, height: Option<nat>, perceptualHash: Option<string>,
    displayBuffer: Option<Blob>, displayMime: Option<string>)

  /** The context the worker starts with. */
  function Fresh(imageId: string, userId: string, buffer: Blob, mimeType: string): Context {
    Context(imageId, userId, buffer, mimeType, None, None, None, None, None)
  }

  predicate IsFresh(c: Context) {
    c == Fresh(c.imageId, c.userId, c.buffer, c.mimeType)
  }

  datatype Reason =
    | UNSUPPORTED_FORMAT | CORRUPT_FILE | FILE_TOO_SMALL_BYTES | RESOLUTION_TOO_LOW | IMAGE_TOO_BLURRY
    | NO_FACE_DETECTED | MULTIPLE_FACES | FACE_TOO_SMALL
    | DUPLICATE_IMAGE(matchedImageId: string, distance: nat)

  type Outcome = Chain.Outcome<Reason>
  type Verdict = Chain.Verdict<Reason>
  type Validator = Chain.Validator<Context, Reason>

  function Reject(r: Reason): Outcome {
    Chain.Rejected(Some(r))
  }

  const JPEG := "image/jpeg"
  const PNG := "image/png"

  predicate IsHeic(mime: string) {
    mime == "image/heic" || mime == "image/heif"
  }

  predicate Allowed(mime: string) {
    mime == JPEG || mime == PNG || IsHeic(mime)
  }

  /** An undefined or zero side is "falsy". */
  predicate Missing(side: Option<nat>) {
    side.None? || side.value == 0
  }

  // ---- The validators, as functions of the context -----------------------------------------------------

  function CheckFormat(env: Env, c: Context): (Context, Outcome) {
    match env.sniff(c.buffer)
    case Raised(e) => (c, Chain.Threw(e))
    case Ok(None) => (c, Reject(UNSUPPORTED_FORMAT))
    case Ok(Some(mime)) =>
      if !Allowed(mime) then (c, Reject(UNSUPPORTED_FORMAT))
      else
        var typed := c.(mimeType := mime);
        if !IsHeic(mime) then Measured(env, typed)
        else
          match env.heicToJpeg(c.buffer)
          case Raised(_) => (typed, Reject(CORRUPT_FILE))
          case Ok(jpeg) =>
            var copied := typed.(displayBuffer := Some(jpeg), displayMime := Some(JPEG));
            Measured(env, copied.(buffer := jpeg, mimeType := JPEG))
  }

  function Measured(env: Env, c: Context): (Context, Outcome) {
    match env.metadata(c.buffer)
    case Raised(_) => (c, Reject(CORRUPT_FILE))
    case Ok(size) => (c.(width := size.width, height := size.height), Chain.Passed)
  }

  function CheckDimension(cfg: Config, c: Context): Outcome {
    if |c.buffer| < cfg.minFileBytes then Reject(FILE_TOO_SMALL_BYTES)
    else if Missing(c.width) || Missing(c.height) then Reject(CORRUPT_FILE)
    else if c.width.value < cfg.minWidth || c.height.value < cfg.minHeight then Reject(RESOLUTION_TOO_LOW)
    else Chain.Passed
  }

  function CheckBlur(env: Env, cfg: Config, c: Context): Outcome {
    match env.grey(c.buffer)
    case Raised(e) => Chain.Threw(e)
    case Ok(g) =>
      if Blur.TooBlurry(Blur.OnePass(Blur.Interior(g.data, g.w, g.h)), cfg.blurThreshold) then Reject(IMAGE_TOO_BLURRY)
      else Chain.Passed
  }

  function Area(b: Box): real {
    b.width * b.height
  }

  /** reduce: of two equal areas the earlier box is kept. */
  function Largest(faces: seq<Box>): (b: Box)
    requires faces != []
    ensures b in faces && forall f :: f in faces ==> Area(f) <= Area(b)
  {
    if |faces| == 1 then faces[0]
    else
      var a, b := Largest(faces[..|faces| - 1]), faces[|faces| - 1];
      assert forall f :: f in faces ==> f in faces[..|faces| - 1] || f == b;
      if Area(a) >= Area(b) then a else b
  }

  function CheckFace(env: Env, cfg: Config, c: Context): Outcome {
    if Missing(c.width) || Missing(c.height) then Reject(CORRUPT_FILE)
    else
      match env.detectFaces(c.buffer)
      case Raised(e) => Chain.Threw(e)
      case Ok(faces) =>
        if |faces| == 0 then Reject(NO_FACE_DETECTED)
        else if |faces| > cfg.faceMaxCount then Reject(MULTIPLE_FACES)
        else if Share(Largest(faces), c.width.value, c.height.value) < cfg.faceMinAreaRatio then Reject(FACE_TOO_SMALL)
        else Chain.Passed
  }

  /** The part of the image a box covers. */
  function Share(b: Box, width: nat, height: nat): real
    requires width > 0 && height > 0
  {
    Area(b) / PositiveArea(width, height)
  }

  function PositiveArea(width: nat, height: nat): (a: real)
    requires width > 0 && height > 0
    ensures a > 0.0 && a == (width * height) as real
  {
    assert width * height >= width;
    (width * height) as real
  }

  function ThumbHash(env: Env, t: Thumb): (hex: string)
    ensures |hex| == 16
  {
    PHash.Hash(env.cosines, PHash.Pixels(t))
  }

  predicate Near(hash: string, row: Known, threshold: nat) {
    Hex.Hamming(hash, row.perceptualHash) <= threshold
  }

  /** The first known hash within the threshold, in the order the repository lists them, looking from
      position `from` on. */
  function FirstNear(hash: string, known: seq<Known>, threshold: nat, from: nat): (i: Option<nat>)
    requires from <= |known|
    ensures i.None? ==> forall k :: from <= k < |known| ==> !Near(hash, known[k], threshold)
    ensures i.Some? ==> from <= i.value < |known| && Near(hash, known[i.value], threshold)
    ensures i.Some? ==> forall k :: from <= k < i.value ==> !Near(hash, known[k], threshold)
    decreases |known| - from
  {
    if from == |known| then None
    else if Near(hash, known[from], threshold) then Some(from)
    else FirstNear(hash, known, threshold, from + 1)
  }

  function CheckSimilarity(env: Env, cfg: Config, c: Context): (Context, Outcome) {
    match env.thumb(c.buffer)
    case Raised(e) => (c, Chain.Threw(e))
    case Ok(t) =>
      var hash := ThumbHash(env, t);
      var c' := c.(perceptualHash := Some(hash));
      match env.acceptedHashes(c.userId, c.imageId)
      case Raised(e) => (c', Chain.Threw(e))
      case Ok(known) =>
        match FirstNear(hash, known, cfg.hammingThreshold, 0)
        case None => (c', Chain.Passed)
        case Some(k) => (c', Reject(DUPLICATE_IMAGE(known[k].id, Hex.Hamming(hash, known[k].perceptualHash))))
  }

  function FormatValidator(env: Env): Validator {
    (c: Context) => CheckFormat(env, c)
  }

  function DimensionValidator(cfg: Config): Validator {
    (c: Context) => (c, CheckDimension(cfg, c))
  }

  function BlurValidator(env: Env, cfg: Config): Validator {
    (c: Context) => (c, CheckBlur(env, cfg, c))
  }

  function FaceValidator(env: Env, cfg: Config): Validator {
    (c: Context) => (c, CheckFace(env, cfg, c))
  }

  function SimilarityValidator(env: Env, cfg: Config): Validator {
    (c: Context) => CheckSimilarity(env, cfg, c)
  }

  /** The default order. */
  function DefaultChain(env: Env, cfg: Config): seq<Validator> {
    [FormatValidator(env), DimensionValidator(cfg), BlurValidator(env, cfg), FaceValidator(env, cfg),
      SimilarityValidator(env, cfg)]
  }

  // ---- The validators that write, in the source's own form -----------------------------------------------

  method ValidateFormat(env: Env, ctx: Chain.Cell<Context>) returns (result: Outcome)
    modifies ctx
    ensures (ctx.value, result) == CheckFormat(env, old(ctx.value))
  {
    var sniffed := env.sniff(ctx.value.buffer);
    if sniffed.Raised? {
      return Chain.Threw(sniffed.error);
    }
    if sniffed.value.None? || !Allowed(sniffed.value.value) {
      return Reject(UNSUPPORTED_FORMAT);
    }
    var mime := sniffed.value.value;
    ctx.value := ctx.value.(mimeType := mime);
    if IsHeic(mime) {
      var jpeg := env.heicToJpeg(ctx.value.buffer);
      if jpeg.Raised? {
        return Reject(CORRUPT_FILE);
      }
      ctx.value := ctx.value.(buffer := jpeg.value);
      ctx.value := ctx.value.(mimeType := JPEG);
      ctx.value := ctx.value.(displayBuffer := Some(jpeg.value));
      ctx.value := ctx.value.(displayMime := Some(JPEG));
    }
    var meta := env.metadata(ctx.value.buffer);
    if meta.Raised? {
      return Reject(CORRUPT_FILE);
    }
    ctx.value := ctx.value.(width := meta.value.width);
    ctx.value := ctx.value.(height := meta.value.height);
    return Chain.Passed;
  }

  method ScanHashes(hash: string, existing: seq<Known>, threshold: nat) returns (result: Outcome)
    ensures var near := FirstNear(hash, existing, threshold, 0);
            result == match near
                      case None => Chain.Passed
                      case Some(k) =>
                        Reject(DUPLICATE_IMAGE(existing[k].id, Hex.Hamming(hash, existing[k].perceptualHash)))
  {
    for k := 0 to |existing|
      invariant forall j :: 0 <= j < k ==> !Near(hash, existing[j], threshold)
    {
      var d := Hex.HammingDistance(hash, existing[k].perceptualHash);
      if d <= threshold {
        return Reject(DUPLICATE_IMAGE(existing[k].id, d));
      }
    }
    return Chain.Passed;
  }

  method ValidateSimilarity(env: Env, cfg: Config, ctx: Chain.Cell<Context>) returns (result: Outcome)
    modifies ctx
    ensures (ctx.value, result) == CheckSimilarity(env, cfg, old(ctx.value))
  {
    var thumb := env.thumb(ctx.value.buffer);
    if thumb.Raised? {
      return Chain.Threw(thumb.error);
    }
    var hash := ThumbHash(env, thumb.value);
    ctx.value := ctx.value.(perceptualHash := Some(hash));
    var existing := env.acceptedHashes(ctx.value.userId, ctx.value.imageId);
    if existing.Raised? {
      return Chain.Threw(existing.error);
    }
    result := ScanHashes(hash, existing.value, cfg.hammingThreshold);
  }

  // ---- What the default chain guarantees -----------------------------------------------------------------

  /** The mime type sniffed from the bytes, when it is an allowed one. */
  function SniffedMime(env: Env, buffer: Blob): Option<string> {
    match env.sniff(buffer)
    case Ok(Some(mime)) => if Allowed(mime) then Some(mime) else None
    case _ => None
  }

  /** The bytes the later validators and the worker look at: the JPEG a HEIC upload decodes to, the
      upload itself otherwise. */
  function Working(env: Env, buffer: Blob): Option<Blob> {
    match SniffedMime(env, buffer)
    case None => None
    case Some(mime) =>
      if !IsHeic(mime) then Some(buffer)
      else
        match env.heicToJpeg(buffer)
        case Ok(jpeg) => Some(jpeg)
        case Raised(_) => None
  }

  predicate BigEnough(env: Env, cfg: Config, b: Blob) {
    && |b| >= cfg.minFileBytes
    && env.metadata(b).Ok?
    && var size := env.metadata(b).value;
       && size.width.Some? && size.height.Some?
       && size.width.value >= 1 && size.width.value >= cfg.minWidth
       && size.height.value >= 1 && size.height.value >= cfg.minHeight
  }

  /** The variance of the Laplacian reaches the threshold -- or is undefined. */
  predicate Sharp(env: Env, cfg: Config, b: Blob) {
    && env.grey(b).Ok?
    && var g := env.grey(b).value;
       var laplacians := Blur.Interior(g.data, g.w, g.h);
       laplacians == [] || Blur.TwoPass(laplacians) >= cfg.blurThreshold
  }

  ghost predicate HasTheFace(env: Env, cfg: Config, b: Blob)
    requires BigEnough(env, cfg, b)
  {
    var size := env.metadata(b).value;
    && env.detectFaces(b).Ok?
    && var faces := env.detectFaces(b).value;
       && 1 <= |faces| <= cfg.faceMaxCount
       && exists f :: f in faces && Covers(f, size.width.value, size.height.value, cfg.faceMinAreaRatio)
  }

  /** Width times height of the box is at least this part of width times height of the image. */
  predicate Covers(f: Box, width: nat, height: nat, ratio: real) {
    f.width * f.height >= ratio * (width * height) as real
  }

  predicate Unseen(env: Env, cfg: Config, b: Blob, userId: string, imageId: string) {
    && env.thumb(b).Ok? && env.acceptedHashes(userId, imageId).Ok?
    && var hash, known := ThumbHash(env, env.thumb(b).value), env.acceptedHashes(userId, imageId).value;
       forall k :: 0 <= k < |known| ==> !Near(hash, known[k], cfg.hammingThreshold)
  }

  /** An acceptable upload, said without the chain. */
  ghost predicate Acceptable(env: Env, cfg: Config, c: Context) {
    && Working(env, c.buffer).Some?
    && var b := Working(env, c.buffer).value;
       BigEnough(env, cfg, b) && Sharp(env, cfg, b) && HasTheFace(env, cfg, b) &&
         Unseen(env, cfg, b, c.userId, c.imageId)
  }

  lemma FormatPasses(env: Env, c: Context)
    requires IsFresh(c)
    ensures var (c', o) := CheckFormat(env, c);
            && !(o.Rejected? && o.reason.None?)
            && (o.Passed? <==> Working(env, c.buffer).Some? && env.metadata(Working(env, c.buffer).value).Ok?)
            && (o.Passed? ==> Formatted(env, c, c'))
  {
  }

  /** What a passed format check leaves in a fresh context. */
  predicate Formatted(env: Env, c: Context, c': Context) {
    && Working(env, c.buffer) == Some(c'.buffer) && env.metadata(c'.buffer) == Ok(Size(c'.width, c'.height))
    && c'.userId == c.userId && c'.imageId == c.imageId && c'.perceptualHash == None
    && SniffedMime(env, c.buffer).Some?
    && (if IsHeic(SniffedMime(env, c.buffer).value)
        then c'.displayBuffer == Some(c'.buffer) && c'.displayMime == Some(JPEG) && c'.mimeType == JPEG
        else c'.displayBuffer == None && c'.displayMime == None && Some(c'.mimeType) == SniffedMime(env, c.buffer))
  }

  lemma DimensionPasses(env: Env, cfg: Config, c: Context)
    requires env.metadata(c.buffer) == Ok(Size(c.width, c.height))
    ensures CheckDimension(cfg, c).Passed? <==> BigEnough(env, cfg, c.buffer)
    ensures !(CheckDimension(cfg, c) == Chain.Rejected(None))
  {
  }

  lemma BlurPasses(env: Env, cfg: Config, c: Context)
    ensures CheckBlur(env, cfg, c).Passed? <==> Sharp(env, cfg, c.buffer)
    ensures !(CheckBlur(env, cfg, c) == Chain.Rejected(None))
  {
    if env.grey(c.buffer).Ok? {
      var g := env.grey(c.buffer).value;
      var ls := Blur.Interior(g.data, g.w, g.h);
      if ls != [] { Blur.OnePassIsTwoPass(ls); }
    }
  }

  lemma FacePasses(env: Env, cfg: Config, c: Context)
    requires BigEnough(env, cfg, c.buffer) && env.metadata(c.buffer) == Ok(Size(c.width, c.height))
    ensures CheckFace(env, cfg, c).Passed? <==> HasTheFace(env, cfg, c.buffer)
    ensures !(CheckFace(env, cfg, c) == Chain.Rejected(None))
  {
    if env.detectFaces(c.buffer).Ok? && env.detectFaces(c.buffer).value != [] {
      LargestShare(env.detectFaces(c.buffer).value, c.width.value, c.height.value, cfg.faceMinAreaRatio);
    }
  }

  /** The largest face is big enough exactly when some face is. */
  lemma LargestShare(faces: seq<Box>, width: nat, height: nat, ratio: real)
    requires faces != [] && width > 0 && height > 0
    ensures Share(Largest(faces), width, height) >= ratio <==>
            exists f :: f in faces && Covers(f, width, height, ratio)
  {
    forall f | f in faces ensures Share(f, width, height) <= Share(Largest(faces), width, height) {
      QuotientMonotone(Area(f), Area(Largest(faces)), PositiveArea(width, height));
    }
    forall f | f in faces ensures Share(f, width, height) >= ratio <==> Covers(f, width, height, ratio) {
      ShareCovers(f, width, height, ratio);
    }
  }

  /** A quotient reaches the ratio exactly when its numerator reaches that part of the denominator. */
  lemma ShareCovers(f: Box, width: nat, height: nat, ratio: real)
    requires width > 0 && height > 0
    ensures Share(f, width, height) >= ratio <==> Covers(f, width, height, ratio)
  {
    var share, area := Share(f, width, height), PositiveArea(width, height);
    Quotient(Area(f), area, share);
    if share >= ratio { ProductMonotone(ratio, share, area); } else { ProductMonotone(share, ratio, area); }
  }

  lemma SimilarityPasses(env: Env, cfg: Config, c: Context)
    ensures var (c', o) := CheckSimilarity(env, cfg, c);
            && (o.Passed? <==> Unseen(env, cfg, c.buffer, c.userId, c.imageId))
            && !(o == Chain.Rejected(None))
            && (o.Passed? ==> c' == c.(perceptualHash := Some(ThumbHash(env, env.thumb(c.buffer).value))))
  {
  }

  /** What the worker may rely on after a pass: its three non-null assertions, the mime type, the
      display copy, and how all of it relates to the upload. */
  ghost predicate Vouched(env: Env, cfg: Config, c: Context, c': Context) {
    && Working(env, c.buffer) == Some(c'.buffer)
    && BigEnough(env, cfg, c'.buffer) && env.metadata(c'.buffer) == Ok(Size(c'.width, c'.height))
    && env.thumb(c'.buffer).Ok? && c'.perceptualHash == Some(ThumbHash(env, env.thumb(c'.buffer).value))
    && env.sniff(c.buffer).Ok? && env.sniff(c.buffer).value.Some?
    && var mime := env.sniff(c.buffer).value.value;
       if mime == "image/heic" || mime == "image/heif"
       then c'.mimeType == "image/jpeg" && c'.displayBuffer == Some(c'.buffer) && c'.displayMime == Some("image/jpeg")
       else c'.mimeType == mime && (mime == "image/jpeg" || mime == "image/png") && c'.buffer == c.buffer
            && c'.displayBuffer == None && c'.displayMime == None
  }

  /** The default chain accepts exactly the acceptable uploads, in both modes, and an accepted context
      carries everything the worker dereferences. */
  lemma DefaultChainAccepts(env: Env, cfg: Config, c: Context, collectAll: bool)
    requires IsFresh(c)
    ensures var (c', verdict) := Chain.RunOf(DefaultChain(env, cfg), collectAll, c);
            && (Chain.Accepts(verdict) <==> Acceptable(env, cfg, c))
            && (Chain.Accepts(verdict) ==> Vouched(env, cfg, c, c'))
  {
    var vs := DefaultChain(env, cfg);
    var (c1, o1) := CheckFormat(env, c);
    FormatPasses(env, c);
    Chain.AcceptedStep(vs, collectAll, c);
    assert vs[0](c) == (c1, o1);
    assert vs[1..] == [DimensionValidator(cfg)] + vs[2..];
    if o1.Passed? {
      AfterFormat(env, cfg, c, c1, collectAll);
    }
  }

  lemma AfterFormat(env: Env, cfg: Config, c: Context, c1: Context, collectAll: bool)
    requires Formatted(env, c, c1)
    ensures var (c', verdict) := Chain.RunOf(DefaultChain(env, cfg)[1..], collectAll, c1);
            && (Chain.Accepts(verdict) <==> Acceptable(env, cfg, c))
            && (Chain.Accepts(verdict) ==> Vouched(env, cfg, c, c'))
  {
    var vs := DefaultChain(env, cfg);
    var vs1 := vs[1..];
    assert vs1[0](c1) == (c1, CheckDimension(cfg, c1));
    Chain.AcceptedStep(vs1, collectAll, c1);
    DimensionPasses(env, cfg, c1);
    assert vs1[1..] == vs[2..];
    if CheckDimension(cfg, c1).Passed? {
      AfterDimension(env, cfg, c, c1, collectAll);
    }
  }

  lemma AfterDimension(env: Env, cfg: Config, c: Context, c1: Context, collectAll: bool)
    requires Formatted(env, c, c1) && BigEnough(env, cfg, c1.buffer)
    ensures var (c', verdict) := Chain.RunOf(DefaultChain(env, cfg)[2..], collectAll, c1);
            && (Chain.Accepts(verdict) <==> Acceptable(env, cfg, c))
            && (Chain.Accepts(verdict) ==> Vouched(env, cfg, c, c'))
  {
    var vs := DefaultChain(env, cfg);
    var vs2, vs3, vs4 := vs[2..], vs[3..], vs[4..];
    assert vs2[1..] == vs3 && vs3[1..] == vs4 && vs4[1..] == [];
    assert vs2[0](c1) == (c1, CheckBlur(env, cfg, c1)) && vs3[0](c1) == (c1, CheckFace(env, cfg, c1));
    var (c', o) := CheckSimilarity(env, cfg, c1);
    assert vs4[0](c1) == (c', o);
    Chain.AcceptedStep(vs2, collectAll, c1);
    Chain.AcceptedStep(vs3, collectAll, c1);
    Chain.AcceptedStep(vs4, collectAll, c1);
    BlurPasses(env, cfg, c1);
    FacePasses(env, cfg, c1);
    SimilarityPasses(env, cfg, c1);
  }

  /** The order matters: run before the format check, the dimension check rejects every upload, since
      nothing has measured it yet. */
  lemma DimensionFirstRejectsEverything(env: Env, cfg: Config, c: Context, rest: seq<Validator>)
    requires IsFresh(c)
    ensures Chain.RunOf([DimensionValidator(cfg)] + rest, false, c).1
         == Chain.Done([if |c.buffer| < cfg.minFileBytes then FILE_TOO_SMALL_BYTES else CORRUPT_FILE])
  {
    var vs := [DimensionValidator(cfg)] + rest;
    assert vs[0](c) == (c, CheckDimension(cfg, c));
  }

  /** A brightness- or contrast-shifted copy of an accepted image is rejected as its duplicate, or as
      the duplicate of an image listed earlier. */
  lemma ShiftedCopyIsDuplicate(env: Env, cfg: Config, c: Context, known: seq<Known>, k: nat, original: Thumb,
                               copy: Thumb, a: real, b: real)
    requires env.acceptedHashes(c.userId, c.imageId) == Ok(known) && k < |known|
    requires known[k].perceptualHash == ThumbHash(env, original) && env.thumb(c.buffer) == Ok(copy)
    requires a > 0.0 && PHash.Pixels(copy) == PHash.Affine(a, PHash.Pixels(original), b) &&
             PHash.ZeroRowSums(env.cosines)
    ensures exists j :: 0 <= j <= k
                     && Near(ThumbHash(env, copy), known[j], cfg.hammingThreshold)
                     && CheckSimilarity(env, cfg, c).1 ==
                           Reject(DUPLICATE_IMAGE(known[j].id,
                             Hex.Hamming(ThumbHash(env, copy), known[j].perceptualHash)))
  {
    var hash := ThumbHash(env, copy);
    PHash.HashIgnoresBrightnessAndContrast(env.cosines, PHash.Pixels(original), a, b);
    assert hash == known[k].perceptualHash;
    Hex.HammingOfSelf(hash);
    assert Near(hash, known[k], cfg.hammingThreshold);
    var j := FirstNear(hash, known, cfg.hammingThreshold, 0).value;
    assert j <= k && Near(hash, known[j], cfg.hammingThreshold);
  }

  // ---- What a rejection means ----------------------------------------------------------------------------

  /** The fact each rejection code reports about the upload. */
  ghost predicate Justified(env: Env, cfg: Config, c: Context, r: Reason) {
    match r
    case UNSUPPORTED_FORMAT => env.sniff(c.buffer).Ok? && SniffedMime(env, c.buffer).None?
    case CORRUPT_FILE =>
      && SniffedMime(env, c.buffer).Some?
      && (Working(env, c.buffer).Some? ==>
            var measured := env.metadata(Working(env, c.buffer).value);
            measured.Raised? || Missing(measured.value.width) || Missing(measured.value.height))
    case _ => Working(env, c.buffer).Some? && JustifiedBy(env, cfg, c, Working(env, c.buffer).value, r)
  }

  ghost predicate JustifiedBy(env: Env, cfg: Config, c: Context, b: Blob, r: Reason) {
    match r
    case FILE_TOO_SMALL_BYTES => |b| < cfg.minFileBytes
    case RESOLUTION_TOO_LOW =>
      && |b| >= cfg.minFileBytes && env.metadata(b).Ok?
      && var size := env.metadata(b).value;
         !Missing(size.width) && !Missing(size.height)
         && (size.width.value < cfg.minWidth || size.height.value < cfg.minHeight)
    case IMAGE_TOO_BLURRY => BigEnough(env, cfg, b) && env.grey(b).Ok? && !Sharp(env, cfg, b)
    case NO_FACE_DETECTED => Sharp(env, cfg, b) && env.detectFaces(b) == Ok([])
    case MULTIPLE_FACES => Sharp(env, cfg, b) && env.detectFaces(b).Ok? && |env.detectFaces(b).value| > cfg.faceMaxCount
    case FACE_TOO_SMALL =>
      && BigEnough(env, cfg, b) && Sharp(env, cfg, b) && env.detectFaces(b).Ok?
      && !HasTheFace(env, cfg, b) && 1 <= |env.detectFaces(b).value| <= cfg.faceMaxCount
    case DUPLICATE_IMAGE(id, distance) =>
      && BigEnough(env, cfg, b) && Sharp(env, cfg, b) && HasTheFace(env, cfg, b)
      && env.thumb(b).Ok? && env.acceptedHashes(c.userId, c.imageId).Ok?
      && var hash, known := ThumbHash(env, env.thumb(b).value), env.acceptedHashes(c.userId, c.imageId).value;
         exists k :: 0 <= k < |known|
                  && known[k].id == id && Hex.Hamming(hash, known[k].perceptualHash) == distance <= cfg.hammingThreshold
    case _ => false
  }

  /** A rejecting default chain gives one reason, and the reason is true of the upload. */
  lemma RejectionIsJustified(env: Env, cfg: Config, c: Context)
    requires IsFresh(c)
    ensures var verdict := Chain.RunOf(DefaultChain(env, cfg), false, c).1;
            verdict.Done? && verdict.reasons != [] ==>
              |verdict.reasons| == 1 && Justified(env, cfg, c, verdict.reasons[0])
  {
    var vs := DefaultChain(env, cfg);
    var (c1, o1) := CheckFormat(env, c);
    FormatPasses(env, c);
    Chain.FailFastStep(vs, c);
    assert vs[0](c) == (c1, o1);
    if o1.Passed? { RejectedAfterFormat(env, cfg, c, c1); }
  }

  lemma RejectedAfterFormat(env: Env, cfg: Config, c: Context, c1: Context)
    requires Formatted(env, c, c1)
    ensures var verdict := Chain.RunOf(DefaultChain(env, cfg)[1..], false, c1).1;
            verdict.Done? && verdict.reasons != [] ==>
              |verdict.reasons| == 1 && Justified(env, cfg, c, verdict.reasons[0])
  {
    var vs := DefaultChain(env, cfg);
    var vs1, vs2, vs3 := vs[1..], vs[2..], vs[3..];
    assert vs1[1..] == vs2 && vs2[1..] == vs3;
    assert vs1[0](c1) == (c1, CheckDimension(cfg, c1)) && vs2[0](c1) == (c1, CheckBlur(env, cfg, c1));
    Chain.FailFastStep(vs1, c1);
    Chain.FailFastStep(vs2, c1);
    DimensionPasses(env, cfg, c1);
    BlurPasses(env, cfg, c1);
    if CheckDimension(cfg, c1).Passed? && CheckBlur(env, cfg, c1).Passed? {
      RejectedAfterBlur(env, cfg, c, c1);
    }
  }

  lemma RejectedAfterBlur(env: Env, cfg: Config, c: Context, c1: Context)
    requires Formatted(env, c, c1) && BigEnough(env, cfg, c1.buffer) && Sharp(env, cfg, c1.buffer)
    ensures var verdict := Chain.RunOf(DefaultChain(env, cfg)[3..], false, c1).1;
            verdict.Done? && verdict.reasons != [] ==>
              |verdict.reasons| == 1 && Justified(env, cfg, c, verdict.reasons[0])
  {
    var vs := DefaultChain(env, cfg);
    var vs3, vs4 := vs[3..], vs[4..];
    assert vs3[1..] == vs4 && vs4[1..] == [];
    var (c', o) := CheckSimilarity(env, cfg, c1);
    assert vs3[0](c1) == (c1, CheckFace(env, cfg, c1)) && vs4[0](c1) == (c', o);
    Chain.FailFastStep(vs3, c1);
    Chain.FailFastStep(vs4, c1);
    FacePasses(env, cfg, c1);
    SimilarityPasses(env, cfg, c1);
  }
}
