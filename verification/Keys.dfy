/**
 * The object-key layout of the media pipeline: every key is a string template over the owner's
 * user id, the image id and the kind of object.
 *
 * User ids are arbitrary strings, slashes included; image ids are 36-character uuids.  Keys are
 * therefore decoded from the right, where the uuid fixes the position of everything else.
 */
module Keys {
  import opened Wrappers

  /** A uuid: 36 characters, none of them a slash or a dot. */
  type ImageId = s: string | |s| == 36 && '/' !in s && '.' !in s
    witness "00000000-0000-4000-8000-000000000000"

  /** A file extension as the sniffer reports it (or "bin"). */
  type Extension = s: string | s != [] && '/' !in s && '.' !in s witness "bin"

  datatype VariantType = THUMBNAIL | WEB | FULL

  datatype Kind =
    | Original(ext: Extension)
    | Display(ext: Extension)  // the HEIC copy, derived from the original key with extension `ext`
    | Normalized
    | Compressed
    | Variant(vtype: VariantType)

  datatype Key = Key(userId: string, imageId: ImageId, kind: Kind)

  // ---- The templates -------------------------------------------------------------------------

  function LowerName(t: VariantType): string {
    match t
    case THUMBNAIL => "thumbnail"
    case WEB => "web"
    case FULL => "full"
  }

  function Base(userId: string, imageId: ImageId): string {
    "users/" + userId + "/" + imageId
  }

  function NormalizedKey(userId: string, imageId: ImageId): string {
    Base(userId, imageId) + "/normalized.jpg"
  }

  function CompressedKey(userId: string, imageId: ImageId): string {
    Base(userId, imageId) + "/compressed.jpg"
  }

  function VariantKey(userId: string, imageId: ImageId, t: VariantType): string {
    Base(userId, imageId) + "/variants/" + LowerName(t) + ".jpg"
  }

  function OriginalKey(userId: string, imageId: ImageId, ext: Extension): string {
    "users/" + userId + "/originals/" + imageId + "." + ext
  }

  predicate OccursAt(s: string, pattern: string, j: int) {
    0 <= j && j + |pattern| <= |s| && s[j..j + |pattern|] == pattern
  }

  /** Position of the first occurrence of `pattern` at or after `from`, or -1. */
  function IndexOf(s: string, pattern: string, from: nat): (i: int)
    requires from <= |s|
    ensures i == -1 || (from <= i && OccursAt(s, pattern, i))
    ensures forall j :: from <= j && OccursAt(s, pattern, j) ==> 0 <= i <= j
    decreases |s| - from
  {
    if OccursAt(s, pattern, from) then from
    else if from == |s| then -1
    else IndexOf(s, pattern, from + 1)
  }

  /** `s.replace(pattern, replacement)` with a string pattern: the first occurrence only. */
  function ReplaceFirst(s: string, pattern: string, replacement: string): string {
    var i := IndexOf(s, pattern, 0);
    if i == -1 then s else s[..i] + replacement + s[i + |pattern|..]
  }

  /** Position of the last `c` in `s`, or -1. */
  function LastIndexOf(s: string, c: char): (i: int)
    ensures -1 <= i < |s|
    ensures i != -1 ==> s[i] == c
    ensures forall j :: i < j < |s| ==> s[j] != c
  {
    if s == [] then -1
    else if s[|s| - 1] == c then |s| - 1
    else LastIndexOf(s[..|s| - 1], c)
  }

  /** Replace a trailing ".ext" (a dot followed by one or more other characters) by ".jpg". */
  function WithJpgExtension(s: string): string {
    var dot := LastIndexOf(s, '.');
    if dot == -1 || dot == |s| - 1 then s else s[..dot] + ".jpg"
  }

  /** The display key is computed from the original key by two textual replacements. */
  function DisplayKey(originalKey: string): string {
    WithJpgExtension(ReplaceFirst(originalKey, "/originals/", "/display/"))
  }

  function Render(k: Key): string {
    match k.kind
    case Original(ext) => OriginalKey(k.userId, k.imageId, ext)
    case Display(ext) => DisplayKey(OriginalKey(k.userId, k.imageId, ext))
    case Normalized => NormalizedKey(k.userId, k.imageId)
    case Compressed => CompressedKey(k.userId, k.imageId)
    case Variant(t) => VariantKey(k.userId, k.imageId, t)
  }

  /** The spelling of every key but a display key's, which is derived from that of the original. */
  lemma KeySpellings(userId: string, imageId: ImageId, ext: Extension)
    ensures Render(Key(userId, imageId, Original(ext))) == "users/" + userId + "/originals/" + imageId + "." + ext
    ensures Render(Key(userId, imageId, Normalized)) == "users/" + userId + "/" + imageId + "/normalized.jpg"
    ensures Render(Key(userId, imageId, Compressed)) == "users/" + userId + "/" + imageId + "/compressed.jpg"
    ensures Render(Key(userId, imageId, Variant(THUMBNAIL)))
         == "users/" + userId + "/" + imageId + "/variants/thumbnail.jpg"
    ensures Render(Key(userId, imageId, Variant(WEB))) == "users/" + userId + "/" + imageId + "/variants/web.jpg"
    ensures Render(Key(userId, imageId, Variant(FULL))) == "users/" + userId + "/" + imageId + "/variants/full.jpg"
  {
    assert "/variants/" + ("thumbnail" + ".jpg") == "/variants/thumbnail.jpg";
    assert "/variants/" + ("web" + ".jpg") == "/variants/web.jpg";
    assert "/variants/" + ("full" + ".jpg") == "/variants/full.jpg";
    var base := "users/" + userId + "/" + imageId;
    assert base + "/variants/" + "thumbnail" + ".jpg" == base + ("/variants/" + ("thumbnail" + ".jpg"));
    assert base + "/variants/" + "web" + ".jpg" == base + ("/variants/" + ("web" + ".jpg"));
    assert base + "/variants/" + "full" + ".jpg" == base + ("/variants/" + ("full" + ".jpg"));
  }

  // ---- Decoding from the right ---------------------------------------------------------------

  /** What stands before and after the last slash. */
  function SplitLast(s: string): (string, string) {
    var i := LastIndexOf(s, '/');
    if i == -1 then ("", s) else (s[..i], s[i + 1..])
  }

  function VariantOfFile(name: string): Option<VariantType> {
    if name == "thumbnail.jpg" then Some(THUMBNAIL)
    else if name == "web.jpg" then Some(WEB)
    else if name == "full.jpg" then Some(FULL)
    else None
  }

  predicate IsImageId(s: string) {
    |s| == 36 && '/' !in s && '.' !in s
  }

  /** The image a key belongs to, whatever its kind and whatever slashes the user id holds. */
  function ImageIdOf(s: string): Option<ImageId> {
    var (dir, file) := SplitLast(s);
    if |file| > 36 then
      if IsImageId(file[..36]) then Some(file[..36]) else None
    else
      var (parent, name) := SplitLast(dir);
      if IsImageId(name) then Some(name)
      else
        var (_, id) := SplitLast(parent);
        if IsImageId(id) then Some(id) else None
  }

  /** "users/U/ID" -> (U, ID) */
  function ParseBase(s: string): Option<(string, ImageId)> {
    if |s| < 43 || s[..6] != "users/" || s[|s| - 37] != '/' || !IsImageId(s[|s| - 36..]) then None
    else Some((s[6..|s| - 37], s[|s| - 36..]))
  }

  /** The whole key, for every kind but Display. */
  function Parse(s: string): Option<Key> {
    var (dir, file) := SplitLast(s);
    if |file| > 36 then ParseOriginalFile(dir, file) else ParseOutputFile(dir, file)
  }

  function ParseOriginalFile(dir: string, file: string): Option<Key> {
    if |file| > 37 && IsImageId(file[..36]) && '.' !in file[37..] && '/' !in file[37..]
       && |dir| >= 16 && dir[..6] == "users/" then
      Some(Key(dir[6..|dir| - 10], file[..36], Original(file[37..])))
    else None
  }

  function ParseOutputFile(dir: string, file: string): Option<Key> {
    if file == "normalized.jpg" then
      match ParseBase(dir)
      case Some((u, i)) => Some(Key(u, i, Normalized))
      case None => None
    else if file == "compressed.jpg" then
      match ParseBase(dir)
      case Some((u, i)) => Some(Key(u, i, Compressed))
      case None => None
    else if VariantOfFile(file).Some? then
      match ParseBase(SplitLast(dir).0)
      case Some((u, i)) => Some(Key(u, i, Variant(VariantOfFile(file).value)))
      case None => None
    else None
  }

  lemma SplitLastAt(p: string, q: string)
    requires '/' !in q
    ensures SplitLast(p + "/" + q) == (p, q)
  {
    var s := p + "/" + q;
    assert s[|p|] == '/';
    assert forall j :: |p| < j < |s| ==> s[j] == q[j - |p| - 1];
    assert LastIndexOf(s, '/') == |p|;
    assert s[..|p|] == p && s[|p| + 1..] == q;
  }

  lemma ParseBaseOfBase(userId: string, imageId: ImageId)
    ensures ParseBase(Base(userId, imageId)) == Some((userId, imageId))
  {
    var s := Base(userId, imageId);
    assert s[..6] == "users/";
    assert s[|s| - 36..] == imageId;
    assert s[6..|s| - 37] == userId;
  }

  lemma LowerNameRoundTrip(t: VariantType)
    ensures VariantOfFile(LowerName(t) + ".jpg") == Some(t)
    ensures '/' !in LowerName(t) + ".jpg" && |LowerName(t) + ".jpg"| < 36
  {
    match t
    case THUMBNAIL => assert LowerName(t) + ".jpg" == "thumbnail.jpg";
    case WEB => assert LowerName(t) + ".jpg" == "web.jpg";
    case FULL => assert LowerName(t) + ".jpg" == "full.jpg";
  }

  /** How the two levels of a stage-output key split from the right. */
  lemma SplitVariantKey(userId: string, imageId: ImageId, t: VariantType)
    ensures SplitLast(VariantKey(userId, imageId, t)) == (Base(userId, imageId) + "/variants", LowerName(t) + ".jpg")
    ensures SplitLast(Base(userId, imageId) + "/variants") == (Base(userId, imageId), "variants")
    ensures SplitLast(Base(userId, imageId)) == ("users/" + userId, imageId)
  {
    var b := Base(userId, imageId);
    LowerNameRoundTrip(t);
    assert VariantKey(userId, imageId, t) == (b + "/variants") + "/" + (LowerName(t) + ".jpg");
    SplitLastAt(b + "/variants", LowerName(t) + ".jpg");
    assert b + "/variants" == b + "/" + "variants";
    SplitLastAt(b, "variants");
    SplitLastAt("users/" + userId, imageId);
  }

  lemma SplitFileKey(userId: string, imageId: ImageId, file: string)
    requires '/' !in file
    ensures SplitLast(Base(userId, imageId) + "/" + file) == (Base(userId, imageId), file)
    ensures SplitLast(Base(userId, imageId)) == ("users/" + userId, imageId)
  {
    SplitLastAt(Base(userId, imageId), file);
    SplitLastAt("users/" + userId, imageId);
  }

  lemma SplitOriginalKey(userId: string, imageId: ImageId, ext: Extension)
    ensures SplitLast(OriginalKey(userId, imageId, ext)) == ("users/" + userId + "/originals", imageId + "." + ext)
  {
    assert OriginalKey(userId, imageId, ext) == ("users/" + userId + "/originals") + "/" + (imageId + "." + ext);
    SplitLastAt("users/" + userId + "/originals", imageId + "." + ext);
  }

  lemma ParseOriginal(userId: string, imageId: ImageId, ext: Extension)
    ensures Parse(OriginalKey(userId, imageId, ext)) == Some(Key(userId, imageId, Original(ext)))
  {
    SplitOriginalKey(userId, imageId, ext);
    OriginalFile(userId, imageId, ext);
  }

  lemma OriginalFile(userId: string, imageId: ImageId, ext: Extension)
    ensures ParseOriginalFile("users/" + userId + "/originals", imageId + "." + ext)
         == Some(Key(userId, imageId, Original(ext)))
  {
    var dir, file := "users/" + userId + "/originals", imageId + "." + ext;
    assert dir[..6] == "users/" && dir[6..|dir| - 10] == userId;
    assert file[..36] == imageId && file[37..] == ext;
  }

  lemma ParseNormalized(userId: string, imageId: ImageId)
    ensures Parse(NormalizedKey(userId, imageId)) == Some(Key(userId, imageId, Normalized))
  {
    ParseBaseOfBase(userId, imageId);
    assert NormalizedKey(userId, imageId) == Base(userId, imageId) + "/" + "normalized.jpg";
    SplitFileKey(userId, imageId, "normalized.jpg");
  }

  lemma ParseCompressed(userId: string, imageId: ImageId)
    ensures Parse(CompressedKey(userId, imageId)) == Some(Key(userId, imageId, Compressed))
  {
    ParseBaseOfBase(userId, imageId);
    assert CompressedKey(userId, imageId) == Base(userId, imageId) + "/" + "compressed.jpg";
    SplitFileKey(userId, imageId, "compressed.jpg");
  }

  lemma ParseVariant(userId: string, imageId: ImageId, t: VariantType)
    ensures Parse(VariantKey(userId, imageId, t)) == Some(Key(userId, imageId, Variant(t)))
  {
    ParseBaseOfBase(userId, imageId);
    SplitVariantKey(userId, imageId, t);
    LowerNameRoundTrip(t);
  }

  /** Round trip: every key other than a display key is recovered whole, user id included. */
  lemma ParseRender(k: Key)
    requires !k.kind.Display?
    ensures Parse(Render(k)) == Some(k)
  {
    match k.kind
    case Original(ext) => ParseOriginal(k.userId, k.imageId, ext);
    case Normalized => ParseNormalized(k.userId, k.imageId);
    case Compressed => ParseCompressed(k.userId, k.imageId);
    case Variant(t) => ParseVariant(k.userId, k.imageId, t);
  }

  // ---- Display keys --------------------------------------------------------------------------

  lemma WithJpgAt(stem: string, ext: Extension)
    ensures WithJpgExtension(stem + "." + ext) == stem + ".jpg"
  {
    var s := stem + "." + ext;
    assert s[|stem|] == '.';
    assert forall j :: |stem| < j < |s| ==> s[j] == ext[j - |stem| - 1];
    assert LastIndexOf(s, '.') == |stem|;
    assert s[..|stem|] == stem;
  }

  /** Replacing the first occurrence leaves everything right of a known occurrence in place. */
  lemma ReplaceShape(prefix: string, pattern: string, replacement: string, tail: string) returns (at: nat, dir: string)
    requires pattern != [] && pattern[|pattern| - 1] == '/'
    requires replacement != [] && replacement[|replacement| - 1] == '/'
    ensures at == IndexOf(prefix + pattern + tail, pattern, 0) && at <= |prefix|
    ensures OccursAt(prefix + pattern + tail, pattern, at)
    ensures ReplaceFirst(prefix + pattern + tail, pattern, replacement) == dir + "/" + tail
    ensures OccursAt(dir + "/", replacement, at)
    ensures at == |prefix| ==> dir + "/" == prefix + replacement
  {
    var s := prefix + pattern + tail;
    assert OccursAt(s, pattern, |prefix|) by {
      assert s[|prefix|..|prefix| + |pattern|] == pattern;
    }
    at := IndexOf(s, pattern, 0);
    var full := CutAt(prefix, pattern, replacement, tail, at);
    dir := full[..|full| - 1];
    assert dir + "/" == full;
  }

  lemma CutAt(prefix: string, pattern: string, replacement: string, tail: string, at: nat) returns (full: string)
    requires pattern != [] && pattern[|pattern| - 1] == '/'
    requires replacement != [] && replacement[|replacement| - 1] == '/'
    requires at <= |prefix|
    ensures var s := prefix + pattern + tail;
            s[..at] + replacement + s[at + |pattern|..] == full + tail
    ensures full != [] && full[|full| - 1] == '/'
    ensures OccursAt(full, replacement, at)
    ensures at == |prefix| ==> full == prefix + replacement
  {
    var front := prefix + pattern;
    var middle := front[at + |pattern|..];
    full := front[..at] + replacement + middle;
    if middle != [] {
      assert full[|full| - 1] == middle[|middle| - 1] == front[|front| - 1];
    }
    assert full[at..at + |replacement|] == replacement;
    if at == |prefix| {
      assert front[..at] == prefix && middle == [];
    }
    Reassemble(front, tail, replacement, at, at + |pattern|);
  }

  lemma Reassemble(front: string, tail: string, replacement: string, at: nat, end: nat)
    requires at <= end <= |front|
    ensures (front + tail)[..at] + replacement + (front + tail)[end..] ==
            front[..at] + replacement + front[end..] + tail
  {
    assert (front + tail)[end..] == front[end..] + tail;
    assert (front + tail)[..at] == front[..at];
  }

  /** Where the replacement happens, and what stands to the left of the file name afterwards. */
  lemma DisplayShape(userId: string, imageId: ImageId, ext: Extension) returns (at: nat, dir: string)
    ensures at == IndexOf(OriginalKey(userId, imageId, ext), "/originals/", 0)
    ensures at <= |"users/" + userId|
    ensures DisplayKey(OriginalKey(userId, imageId, ext)) == dir + "/" + imageId + ".jpg"
    ensures OccursAt(OriginalKey(userId, imageId, ext), "/originals/", at)
    ensures OccursAt(dir + "/", "/display/", at)
    ensures at == |"users/" + userId| ==> dir + "/" == "users/" + userId + "/display/"
  {
    var prefix := "users/" + userId;
    var tail := imageId + "." + ext;
    at, dir := ReplaceShape(prefix, "/originals/", "/display/", tail);
    OriginalKeySplit(userId, imageId, ext);
    JpgTail(dir, imageId, ext);
  }

  lemma OriginalKeySplit(userId: string, imageId: ImageId, ext: Extension)
    ensures OriginalKey(userId, imageId, ext) == ("users/" + userId) + "/originals/" + (imageId + "." + ext)
  {
  }

  lemma JpgTail(dir: string, imageId: ImageId, ext: Extension)
    ensures WithJpgExtension(dir + "/" + (imageId + "." + ext)) == dir + "/" + imageId + ".jpg"
  {
    var stem := dir + "/" + imageId;
    assert dir + "/" + (imageId + "." + ext) == stem + "." + ext;
    WithJpgAt(stem, ext);
  }

  /** Somewhere in "/<userId>/" stands "/originals/". */
  predicate NamesOriginals(userId: string) {
    IndexOf("/" + userId + "/", "/originals/", 0) != -1
  }

  const ORIGINALS := "/originals/"

  lemma SlashesOfOriginals(k: nat)
    requires k < 11
    ensures ORIGINALS[k] == '/' <==> k == 0 || k == 10
  {
  }

  lemma OccurrenceAt(s: string, j: nat, k: nat)
    requires OccursAt(s, ORIGINALS, j) && k < 11
    ensures s[j + k] == ORIGINALS[k]
  {
    assert s[j..j + 11][k] == s[j + k];
  }

  /** An occurrence before the original's own folder lies within "/<userId>/". */
  lemma OccurrenceInUserId(s: string, mid: string, rest: string, j: nat)
    requires s == "users" + mid + rest && mid != [] && mid[|mid| - 1] == '/'
    requires OccursAt(s, ORIGINALS, j) && j + 1 < 5 + |mid|
    ensures j >= 5 && OccursAt(mid, ORIGINALS, j - 5)
  {
    OccurrenceAt(s, j, 0);
    var last := 4 + |mid|;
    assert s[last] == mid[|mid| - 1];
    if last - j < 10 {
      OccurrenceAt(s, j, last - j);
      SlashesOfOriginals(last - j);
    }
    assert mid[j - 5..j - 5 + 11] == s[j..j + 11];
  }

  lemma OccurrenceInKey(s: string, mid: string, rest: string, j: nat)
    requires s == "users" + mid + rest && OccursAt(mid, ORIGINALS, j)
    ensures OccursAt(s, ORIGINALS, j + 5)
  {
    assert s[j + 5..j + 5 + 11] == mid[j..j + 11];
  }

  lemma FirstIsOwnFolder(userId: string, imageId: ImageId, ext: Extension)
    ensures IndexOf(OriginalKey(userId, imageId, ext), ORIGINALS, 0) == |"users/" + userId| <==> !NamesOriginals(userId)
  {
    var s, mid, rest := OriginalKey(userId, imageId, ext), "/" + userId + "/", "originals/" + imageId + "." + ext;
    var own := |"users/" + userId|;
    assert s == "users" + mid + rest;
    assert s[own..own + 11] == ORIGINALS;
    var first, inner := IndexOf(s, ORIGINALS, 0), IndexOf(mid, ORIGINALS, 0);
    assert OccursAt(s, ORIGINALS, own);
    if inner != -1 { OccurrenceInKey(s, mid, rest, inner); }
    if first < own { OccurrenceInUserId(s, mid, rest, first); }
  }

  /** The display key lands in the user's own display folder exactly when the user id does not itself
      spell an originals folder. */
  lemma DisplayKeyLayout(userId: string, imageId: ImageId, ext: Extension)
    ensures DisplayKey(OriginalKey(userId, imageId, ext)) == "users/" + userId + "/display/" + imageId + ".jpg"
       <==> !NamesOriginals(userId)
  {
    FirstIsOwnFolder(userId, imageId, ext);
    var at, dir := DisplayShape(userId, imageId, ext);
    var s, r := OriginalKey(userId, imageId, ext), DisplayKey(OriginalKey(userId, imageId, ext));
    var prefix := "users/" + userId;
    var plain := prefix + "/display/" + imageId + ".jpg";
    if at < |prefix| {
      DiffersAfter(s, r, dir + "/", at);
      if at + 1 < |prefix| {
        assert plain[at + 1] == prefix[at + 1] == s[at + 1];
      }
    }
  }

  // ---- Injectivity ---------------------------------------------------------------------------

  /** Two keys of one upload: same owner, and the original and display keys share the extension. */
  predicate SameUpload(k1: Key, k2: Key) {
    && k1.userId == k2.userId
    && (HasExtension(k1) && HasExtension(k2) ==> k1.kind.ext == k2.kind.ext)
  }

  predicate HasExtension(k: Key) {
    k.kind.Original? || k.kind.Display?
  }

  function FileName(k: Key): string {
    match k.kind
    case Original(ext) => k.imageId + "." + ext
    case Display(_) => k.imageId + ".jpg"
    case Normalized => "normalized.jpg"
    case Compressed => "compressed.jpg"
    case Variant(t) => LowerName(t) + ".jpg"
  }

  lemma FileNameOfRender(k: Key)
    ensures SplitLast(Render(k)).1 == FileName(k)
    ensures ImageIdOf(Render(k)) == Some(k.imageId)
  {
    match k.kind
    case Original(ext) =>
      FileNameOfOriginal(k.userId, k.imageId, ext);
    case Display(ext) =>
      FileNameOfDisplay(k.userId, k.imageId, ext);
    case Normalized =>
      assert Render(k) == Base(k.userId, k.imageId) + "/" + "normalized.jpg";
      FileNameOfOutput(k.userId, k.imageId, "normalized.jpg");
    case Compressed =>
      assert Render(k) == Base(k.userId, k.imageId) + "/" + "compressed.jpg";
      FileNameOfOutput(k.userId, k.imageId, "compressed.jpg");
    case Variant(t) =>
      FileNameOfVariant(k.userId, k.imageId, t);
  }

  lemma FileNameOfOriginal(userId: string, imageId: ImageId, ext: Extension)
    ensures SplitLast(OriginalKey(userId, imageId, ext)).1 == imageId + "." + ext
    ensures ImageIdOf(OriginalKey(userId, imageId, ext)) == Some(imageId)
  {
    SplitOriginalKey(userId, imageId, ext);
    LongFile(imageId, "." + ext);
    assert imageId + "." + ext == imageId + ("." + ext);
  }

  lemma FileNameOfVariant(userId: string, imageId: ImageId, t: VariantType)
    ensures SplitLast(VariantKey(userId, imageId, t)).1 == LowerName(t) + ".jpg"
    ensures ImageIdOf(VariantKey(userId, imageId, t)) == Some(imageId)
  {
    SplitVariantKey(userId, imageId, t);
    LowerNameRoundTrip(t);
  }

  lemma FileNameOfOutput(userId: string, imageId: ImageId, file: string)
    requires '/' !in file && |file| <= 36
    ensures SplitLast(Base(userId, imageId) + "/" + file).1 == file
    ensures ImageIdOf(Base(userId, imageId) + "/" + file) == Some(imageId)
  {
    SplitFileKey(userId, imageId, file);
  }

  lemma FileNameOfDisplay(userId: string, imageId: ImageId, ext: Extension)
    ensures SplitLast(DisplayKey(OriginalKey(userId, imageId, ext))).1 == imageId + ".jpg"
    ensures ImageIdOf(DisplayKey(OriginalKey(userId, imageId, ext))) == Some(imageId)
  {
    var at, dir := DisplayShape(userId, imageId, ext);
    FileNameAfter(dir, imageId);
  }

  lemma FileNameAfter(dir: string, imageId: ImageId)
    ensures SplitLast(dir + "/" + imageId + ".jpg").1 == imageId + ".jpg"
    ensures ImageIdOf(dir + "/" + imageId + ".jpg") == Some(imageId)
  {
    SplitLastAt(dir, imageId + ".jpg");
    assert dir + "/" + imageId + ".jpg" == dir + "/" + (imageId + ".jpg");
    LongFile(imageId, ".jpg");
  }

  lemma LongFile(imageId: ImageId, suffix: string)
    ensures (imageId + suffix)[..36] == imageId
  {
  }

  /** The decoder finds the image of every key, display keys included. */
  lemma ImageIdOfRender(k: Key)
    ensures ImageIdOf(Render(k)) == Some(k.imageId)
  {
    FileNameOfRender(k);
  }

  lemma DisplayIsNotOriginal(userId: string, imageId: ImageId, ext: Extension)
    ensures OriginalKey(userId, imageId, ext) != DisplayKey(OriginalKey(userId, imageId, ext))
  {
    var at, dir := DisplayShape(userId, imageId, ext);
    var s, r := OriginalKey(userId, imageId, ext), DisplayKey(OriginalKey(userId, imageId, ext));
    DiffersAfter(s, r, dir + "/", at);
  }

  lemma DiffersAfter(s: string, r: string, prefix: string, at: nat)
    requires OccursAt(s, "/originals/", at) && OccursAt(prefix, "/display/", at) && prefix <= r
    ensures r[at + 1] == 'd' && s[at + 1] == 'o' && s[at + 2] == 'r' && s != r
  {
    assert prefix[at..at + 9][1] == 'd';
    assert s[at..at + 11][1] == 'o' && s[at..at + 11][2] == 'r';
  }

  /** Different images never share a key, and the keys of one upload are pairwise distinct. */
  lemma RenderInjective(k1: Key, k2: Key)
    requires k1.imageId == k2.imageId ==> SameUpload(k1, k2)
    ensures Render(k1) == Render(k2) ==> k1 == k2
  {
    if Render(k1) == Render(k2) {
      FileNameOfRender(k1);
      FileNameOfRender(k2);
      assert FileName(k1) == FileName(k2);
      if HasExtension(k1) && HasExtension(k2) {
        DisplayIsNotOriginal(k1.userId, k1.imageId, k1.kind.ext);
      } else if !HasExtension(k1) && !HasExtension(k2) {
        ParseRender(k1);
        ParseRender(k2);
      } else {
        ShortFileName(k1);
        ShortFileName(k2);
      }
    }
  }

  lemma ShortFileName(k: Key)
    ensures HasExtension(k) <==> |FileName(k)| > 36
  {
    if k.kind.Variant? { LowerNameRoundTrip(k.kind.vtype); }
  }

  /** Without a common owner the claim fails: for one and the same uuid, a user id that contains
      "/originals/" sends its display key onto another user's original. */
  lemma DisplayKeyCollides(imageId: ImageId)
    ensures var k1, k2 := Key("a/originals/b", imageId, Display("heic")), Key("a/display/b", imageId, Original("jpg"));
            k1 != k2 && Render(k1) == Render(k2)
  {
    var rest := "b/originals/" + imageId;
    assert OriginalKey("a/originals/b", imageId, "heic") == "users/a" + "/originals/" + (rest + ".heic");
    DisplayOfSeven(rest);
    CollidingOriginal(imageId);
  }

  lemma CollidingOriginal(imageId: ImageId)
    ensures OriginalKey("a/display/b", imageId, "jpg") == "users/a" + "/display/" + ("b/originals/" + imageId) + ".jpg"
  {
  }

  lemma DisplayOfSeven(rest: string)
    ensures DisplayKey("users/a" + "/originals/" + (rest + ".heic")) == "users/a" + "/display/" + rest + ".jpg"
  {
    var s := "users/a" + "/originals/" + (rest + ".heic");
    FirstAtSeven(s, rest + ".heic");
    var stem := "users/a" + "/display/" + rest;
    assert ReplaceFirst(s, "/originals/", "/display/") == "users/a" + "/display/" + (rest + ".heic");
    assert "users/a" + "/display/" + (rest + ".heic") == stem + "." + "heic";
    WithJpgAt(stem, "heic");
  }

  lemma HeadOf(s: string, i: nat)
    requires OccursAt(s, "/originals/", i)
    ensures s[i] == '/' && s[i + 1] == 'o'
  {
    var w := s[i..i + 11];
    assert w[0] == s[i] && w[1] == s[i + 1];
  }

  lemma FirstAtSeven(s: string, rest: string)
    requires s == "users/a" + "/originals/" + rest
    ensures IndexOf(s, "/originals/", 0) == 7
    ensures s[..7] == "users/a" && s[18..] == rest
  {
    assert s[7..18] == "/originals/";
    assert OccursAt(s, "/originals/", 7);
    forall i | 0 <= i < 7 ensures !OccursAt(s, "/originals/", i) {
      if OccursAt(s, "/originals/", i) {
        HeadOf(s, i);
      }
    }
  }
}
