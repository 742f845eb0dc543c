/** Names of the objects of one deployment: the configured prefix, the three kinds of object, the broker's target check. */
module ObjectNames {
  import opened Basics
  import opened Text
  import KmsArn
  import Hex

  const MANIFEST_FILE_NAME := "key_manifest.json"
  const PUBLIC_START := "public_key_sha256-"
  const PACKAGE_START := "encrypted_private_key_by_kms-key-"
  const DIRECTORY_START := "kms-key-"
  const HASH_START := "_sha256-"
  const JSON_END := ".json"

  // ----- the configured prefix -----

  function TrimSlashesStart(s: string): string {
    if s != "" && s[0] == '/' then TrimSlashesStart(s[1..]) else s
  }

  function TrimSlashesEnd(s: string): string {
    if s != "" && s[|s| - 1] == '/' then TrimSlashesEnd(s[..|s| - 1]) else s
  }

  datatype PrefixError = EmptyPrefix | ParentComponent

  predicate HasParentComponent(prefix: string) {
    exists k :: 0 <= k < |Split(prefix, '/')| && Split(prefix, '/')[k] == ".."
  }

  function NormalizePrefix(value: string): Result<string, PrefixError> {
    var prefix := TrimSlashesEnd(TrimSlashesStart(value));
    if prefix == "" then Err(EmptyPrefix)
    else if HasParentComponent(prefix) then Err(ParentComponent)
    else Ok(prefix)
  }

  ghost predicate OnlySlashes(s: string) {
    forall i :: 0 <= i < |s| ==> s[i] == '/'
  }

  ghost predicate Bare(s: string) {
    s != "" ==> s[0] != '/' && s[|s| - 1] != '/'
  }

  lemma {:induction false} TrimmedStart(s: string) returns (front: string)
    ensures OnlySlashes(front) && s == front + TrimSlashesStart(s)
    ensures TrimSlashesStart(s) != "" ==> TrimSlashesStart(s)[0] != '/'
  {
    if s != "" && s[0] == '/' {
      var rest := TrimmedStart(s[1..]);
      front := "/" + rest;
      assert s == "/" + s[1..];
    } else {
      front := "";
    }
  }

  lemma {:induction false} TrimmedEnd(s: string) returns (back: string)
    ensures OnlySlashes(back) && s == TrimSlashesEnd(s) + back
    ensures TrimSlashesEnd(s) != "" ==> TrimSlashesEnd(s)[|TrimSlashesEnd(s)| - 1] != '/'
  {
    if s != "" && s[|s| - 1] == '/' {
      var rest := TrimmedEnd(s[..|s| - 1]);
      back := rest + "/";
      assert s == s[..|s| - 1] + "/";
    } else {
      back := "";
    }
  }

  /** A normalised prefix is the slash-free-ended core of the input, and normalising it again changes nothing. */
  lemma NormalizeIdempotent(value: string) returns (front: string, back: string)
    requires NormalizePrefix(value).Ok?
    ensures var p := NormalizePrefix(value).value;
            && p != "" && Bare(p) && !HasParentComponent(p)
            && OnlySlashes(front) && OnlySlashes(back) && value == front + p + back
            && NormalizePrefix(p) == Ok(p)
  {
    front := TrimmedStart(value);
    back := TrimmedEnd(TrimSlashesStart(value));
    var p := NormalizePrefix(value).value;
    assert TrimSlashesStart(value)[0] == p[0];
    assert value == front + p + back;
  }

  /** `..` stands between two slashes of the text with one put at each end. */
  ghost predicate ParentBetweenSlashes(core: string) {
    exists a: string, b: string :: "/" + core + "/" == a + "/../" + b
  }

  lemma ParentIsBetweenSlashes(core: string)
    ensures HasParentComponent(core) <==> ParentBetweenSlashes(core)
  {
    hide Split;
    hide Join;
    if HasParentComponent(core) {
      var parts := Split(core, '/');
      var k :| 0 <= k < |parts| && parts[k] == "..";
      JoinSplit(core, '/');
      var a, b := PartBetweenSeparators(parts, '/', k);
      assert "/" + core + "/" == a + "/../" + b;
    }
    if ParentBetweenSlashes(core) {
      var a: string, b: string :| "/" + core + "/" == a + "/../" + b;
      BetweenSlashesIsParent(core, a, b);
    }
  }

  lemma BetweenSlashesIsParent(core: string, a: string, b: string)
    requires "/" + core + "/" == a + "/../" + b
    ensures HasParentComponent(core)
  {
    hide Split;
    DotsAlone();
    var after := if b == "" then "" else "/" + b[..|b| - 1];
    assert b == "" || b == b[..|b| - 1] + "/" by { LastOfBoth(core, a, b); }
    assert "/" + b == after + "/";
    assert "/../" == "/.." + "/" && "/.." == "/" + "..";
    assert "/" + core + "/" == a + "/.." + ("/" + b);
    assert "/" + core + "/" == a + "/.." + (after + "/");
    if a == "" {
      assert a + "/.." == "/" + "..";
      Regroup(core, "..", after);
      CancelFront('/', core + "/", ".." + after + "/");
      CancelBack(core, ".." + after, '/');
      DotsFirst(core, b);
    } else {
      var x := a[1..];
      assert a == "/" + x by { assert ("/" + core + "/")[0] == '/' == a[0]; }
      assert a + "/.." == "/" + (x + "/..");
      Regroup(core, x + "/..", after);
      CancelFront('/', core + "/", x + "/.." + after + "/");
      CancelBack(core, x + "/.." + after, '/');
      if b == "" {
        assert core == x + ['/'] + "..";
        SplitConcat(x, '/', "..");
      } else {
        var y := b[..|b| - 1];
        assert core == x + ['/'] + (".." + ['/'] + y);
        SplitConcat(x, '/', ".." + ['/'] + y);
        SplitConcat("..", '/', y);
      }
      assert Split(core, '/')[|Split(x, '/')|] == "..";
    }
  }

  lemma Regroup(core: string, inner: string, after: string)
    ensures "/" + core + "/" == "/" + (core + "/")
    ensures "/" + inner + (after + "/") == "/" + (inner + after + "/")
  {
  }

  lemma LastOfBoth(core: string, a: string, b: string)
    requires "/" + core + "/" == a + "/../" + b
    ensures b == "" || b == b[..|b| - 1] + "/"
  {
    var s, t := "/" + core + "/", a + "/../" + b;
    assert s[|s| - 1] == '/';
    assert b != "" ==> t[|t| - 1] == b[|b| - 1];
  }

  lemma DotsFirst(core: string, b: string)
    requires core == ".." + if b == "" then "" else "/" + b[..|b| - 1]
    ensures HasParentComponent(core)
  {
    hide Split;
    DotsAlone();
    if b == "" {
      assert core == "..";
    } else {
      var y := b[..|b| - 1];
      assert core == ".." + ['/'] + y;
      SplitConcat("..", '/', y);
    }
    assert Split(core, '/')[0] == "..";
  }

  lemma DotsAlone()
    ensures Split("..", '/') == [".."]
  {
    SplitWhole("..", '/');
  }

  lemma {:induction false} TrimStartOff(front: string, rest: string)
    requires OnlySlashes(front) && (rest != "" ==> rest[0] != '/')
    ensures TrimSlashesStart(front + rest) == rest
  {
    if front == "" {
      assert front + rest == rest;
    } else {
      assert (front + rest)[1..] == front[1..] + rest;
      TrimStartOff(front[1..], rest);
    }
  }

  lemma {:induction false} TrimEndOff(rest: string, back: string)
    requires OnlySlashes(back) && (rest != "" ==> rest[|rest| - 1] != '/')
    ensures TrimSlashesEnd(rest + back) == rest
  {
    if back == "" {
      assert rest + back == rest;
    } else {
      assert (rest + back)[..|rest + back| - 1] == rest + back[..|back| - 1];
      TrimEndOff(rest, back[..|back| - 1]);
    }
  }

  /**
   * Normalising, for every input: slashes around a core are dropped, and the core is accepted exactly if `..` is none
   * of its components; an input of slashes only is refused.
   */
  lemma NormalizeExact(front: string, core: string, back: string)
    requires OnlySlashes(front) && OnlySlashes(back) && Bare(core)
    ensures NormalizePrefix(front + core + back)
            == if core == "" then Err(EmptyPrefix)
               else if exists a: string, b: string :: "/" + core + "/" == a + "/../" + b then Err(ParentComponent)
               else Ok(core)
  {
    if core == "" {
      var all := front + back;
      assert front + core + back == all + "";
      TrimStartOff(all, "");
    } else {
      assert front + core + back == front + (core + back);
      TrimStartOff(front, core + back);
      TrimEndOff(core, back);
      ParentIsBetweenSlashes(core);
    }
  }

  // ----- object names -----

  datatype Name =
    | Manifest(prefix: string)
    | Public(prefix: string, fingerprint: string)
    | Package(prefix: string, storageId: string, displayId: string, hash: string)

  function ObjectKey(prefix: string, relative: string): string {
    prefix + "/" + relative
  }

  function PublicFile(fingerprint: string): string {
    PUBLIC_START + fingerprint + JSON_END
  }

  function PackageFile(displayId: string, hash: string): string {
    PACKAGE_START + displayId + HASH_START + hash + JSON_END
  }

  function Render(name: Name): string {
    match name
    case Manifest(prefix) => ObjectKey(prefix, MANIFEST_FILE_NAME)
    case Public(prefix, fingerprint) => ObjectKey(prefix, PublicFile(fingerprint))
    case Package(prefix, storageId, displayId, hash) =>
      ObjectKey(prefix, DIRECTORY_START + storageId + "/" + PackageFile(displayId, hash))
  }

  /** What digests and ARN readers guarantee of the variable parts; nothing is asked of the prefix. */
  ghost predicate WellFormed(name: Name) {
    match name
    case Manifest(_) => true
    case Public(_, fingerprint) => |fingerprint| == 64 && !Contains(fingerprint, '/')
    case Package(_, storageId, displayId, hash) =>
      |hash| == 64 && !Contains(storageId, '/') && !Contains(displayId, '/') && !Contains(hash, '/')
  }

  /** Position just after the last slash, or 0. */
  function AfterLastSlash(s: string): (i: nat)
    ensures i <= |s|
  {
    if s == "" then 0 else if s[|s| - 1] == '/' then |s| else AfterLastSlash(s[..|s| - 1])
  }

  lemma {:induction false} AfterLastSlashOf(dir: string, file: string)
    requires !Contains(file, '/')
    ensures AfterLastSlash(dir + "/" + file) == |dir| + 1
  {
    var s := dir + "/" + file;
    if file == "" {
      assert s == dir + "/";
    } else {
      assert s[|s| - 1] == file[|file| - 1];
      assert s[..|s| - 1] == dir + "/" + file[..|file| - 1];
      AfterLastSlashOf(dir, file[..|file| - 1]);
    }
  }

  /** Reads a generated key back: the last path component tells the kind, its fixed-length end the hash. */
  function Parse(key: string): Option<Name> {
    var i := AfterLastSlash(key);
    if i == 0 then None else ParseFile(key[..i - 1], key[i..])
  }

  function ParseFile(dir: string, file: string): Option<Name> {
    if file == MANIFEST_FILE_NAME then Some(Manifest(dir))
    else if StartsWith(file, PUBLIC_START) && |file| >= |PUBLIC_START| + 5 then
      Some(Public(dir, file[|PUBLIC_START|..|file| - 5]))
    else if StartsWith(file, PACKAGE_START) && |file| >= |PACKAGE_START| + 77 then
      ParseFolder(dir, file[|PACKAGE_START|..|file| - 77], file[|file| - 69..|file| - 5])
    else None
  }

  function ParseFolder(dir: string, displayId: string, hash: string): Option<Name> {
    var j := AfterLastSlash(dir);
    if j == 0 || !StartsWith(dir[j..], DIRECTORY_START) then None
    else Some(Package(dir[..j - 1], dir[j..][|DIRECTORY_START|..], displayId, hash))
  }

  lemma SlashFreeConcat(a: string, b: string)
    requires !Contains(a, '/') && !Contains(b, '/')
    ensures !Contains(a + b, '/')
  {
    var s := a + b;
    assert forall i :: 0 <= i < |s| ==> s[i] == if i < |a| then a[i] else b[i - |a|];
  }

  lemma Constants()
    ensures !Contains(MANIFEST_FILE_NAME, '/') && !Contains(PUBLIC_START, '/') && !Contains(PACKAGE_START, '/')
    ensures !Contains(DIRECTORY_START, '/') && !Contains(HASH_START, '/') && !Contains(JSON_END, '/')
    ensures MANIFEST_FILE_NAME[0] == 'k' && PUBLIC_START[0] == 'p' && PACKAGE_START[0] == 'e'
    ensures |HASH_START| == 8 && |JSON_END| == 5
  {
  }

  lemma PackageFileParts(displayId: string, hash: string)
    requires |hash| == 64 && !Contains(displayId, '/') && !Contains(hash, '/')
    ensures var file := PackageFile(displayId, hash);
            && !Contains(file, '/') && file[0] == 'e' && StartsWith(file, PACKAGE_START)
            && |file| == |PACKAGE_START| + |displayId| + 77
            && file[|PACKAGE_START|..|file| - 77] == displayId && file[|file| - 69..|file| - 5] == hash
  {
    Constants();
    SlashFreeConcat(PACKAGE_START, displayId);
    SlashFreeConcat(PACKAGE_START + displayId, HASH_START);
    SlashFreeConcat(PACKAGE_START + displayId + HASH_START, hash);
    SlashFreeConcat(PACKAGE_START + displayId + HASH_START + hash, JSON_END);
  }

  lemma PublicFileParts(fingerprint: string)
    requires |fingerprint| == 64 && !Contains(fingerprint, '/')
    ensures var file := PublicFile(fingerprint);
            && !Contains(file, '/') && file[0] == 'p' && StartsWith(file, PUBLIC_START)
            && |file| == |PUBLIC_START| + 69 && file[|PUBLIC_START|..|file| - 5] == fingerprint
  {
    Constants();
    SlashFreeConcat(PUBLIC_START, fingerprint);
    SlashFreeConcat(PUBLIC_START + fingerprint, JSON_END);
  }

  lemma ParseFlat(prefix: string, file: string)
    requires !Contains(file, '/')
    ensures var key := ObjectKey(prefix, file);
            AfterLastSlash(key) == |prefix| + 1 && key[..|prefix|] == prefix && key[|prefix| + 1..] == file
  {
    AfterLastSlashOf(prefix, file);
  }

  lemma ParsePackageFile(dir: string, displayId: string, hash: string)
    requires |hash| == 64 && !Contains(displayId, '/') && !Contains(hash, '/')
    ensures ParseFile(dir, PackageFile(displayId, hash)) == ParseFolder(dir, displayId, hash)
  {
    hide Contains;
    hide ParseFolder;
    Constants();
    PackageFileParts(displayId, hash);
    hide PackageFile;
    var file := PackageFile(displayId, hash);
    assert file[0] != MANIFEST_FILE_NAME[0] && file[0] != PUBLIC_START[0];
  }

  lemma ParsePackage(name: Name)
    requires WellFormed(name) && name.Package?
    ensures Parse(Render(name)) == Some(name)
  {
    hide Contains;
    hide ParseFile;
    hide ParseFolder;
    hide PackageFile;
    Constants();
    var file, folder := PackageFile(name.displayId, name.hash), DIRECTORY_START + name.storageId;
    PackageFileParts(name.displayId, name.hash);
    SlashFreeConcat(DIRECTORY_START, name.storageId);
    var dir := ObjectKey(name.prefix, folder);
    ParseFlat(dir, file);
    assert Render(name) == ObjectKey(dir, file);
    ParsePackageFile(dir, name.displayId, name.hash);
    PackageFolder(name.prefix, name.storageId, name.displayId, name.hash);
  }

  lemma PackageFolder(prefix: string, storageId: string, displayId: string, hash: string)
    requires !Contains(DIRECTORY_START + storageId, '/')
    ensures ParseFolder(ObjectKey(prefix, DIRECTORY_START + storageId), displayId, hash)
            == Some(Package(prefix, storageId, displayId, hash))
  {
    var folder := DIRECTORY_START + storageId;
    ParseFlat(prefix, folder);
    assert folder[|DIRECTORY_START|..] == storageId;
  }

  /** A generated key determines prefix, kind, ids and hash, whatever the prefix looks like. */
  lemma ParseRender(name: Name)
    requires WellFormed(name)
    ensures Parse(Render(name)) == Some(name)
  {
    hide AfterLastSlash;
    hide ParseFolder;
    hide Contains;
    Constants();
    match name
    case Manifest(prefix) =>
      ParseFlat(prefix, MANIFEST_FILE_NAME);
    case Public(prefix, fingerprint) =>
      PublicFileParts(fingerprint);
      ParseFlat(prefix, PublicFile(fingerprint));
    case Package(_, _, _, _) =>
      ParsePackage(name);
  }

  /** Two generated keys are equal only if every part is; in particular deployments under different prefixes never meet. */
  lemma RenderInjective(a: Name, b: Name)
    requires WellFormed(a) && WellFormed(b) && Render(a) == Render(b)
    ensures a == b
  {
    ParseRender(a);
    ParseRender(b);
  }

  // ----- names of key packages -----

  /** The package name that initialisation derives from an ARN and the hash of the package. */
  function PackageName(prefix: string, arnDigest: Bytes, arn: string, hash: string): Result<Name, KmsArn.ArnError>
    requires |arnDigest| == 32
  {
    match (KmsArn.StorageId(arnDigest, arn), KmsArn.DisplayId(arn))
    case (Ok(storageId), Ok(displayId)) => Ok(Package(prefix, storageId, displayId, hash))
    case (Err(e), _) => Err(e)
    case (_, Err(e)) => Err(e)
  }

  lemma HexHasNoSlash(bytes: Bytes)
    ensures !Contains(Hex.Encode(bytes), '/')
  {
    assert Hex.HexValue('/') == None;
  }

  /** Every accepted ARN yields a well-formed name whose ids agree, and the twelve-digit slice is in range. */
  lemma PackageNameWellFormed(prefix: string, arnDigest: Bytes, arn: string, content: Bytes)
    requires |arnDigest| == 32 && |content| == 32
    requires KmsArn.DisplayId(arn).Ok?
    ensures PackageName(prefix, arnDigest, arn, Hex.Encode(content)).Ok?
    ensures var name := PackageName(prefix, arnDigest, arn, Hex.Encode(content)).value;
            && WellFormed(name) && name.prefix == prefix && name.hash == Hex.Encode(content)
            && name.storageId == name.displayId + "-" + Hex.Encode(arnDigest)[..12]
            && 1 <= |name.displayId| <= 8
  {
    var display := KmsArn.DisplayId(arn).value;
    assert !Contains(display, '/');
    HexHasNoSlash(content);
    HexHasNoSlash(arnDigest);
    SlashFreeConcat(display, "-");
    assert !Contains(Hex.Encode(arnDigest)[..12], '/');
    SlashFreeConcat(display + "-", Hex.Encode(arnDigest)[..12]);
  }

  // ----- the broker's target check -----

  predicate TargetAllowed(bucket: string, key: string, allowedBucket: string, allowedPrefix: string) {
    bucket == allowedBucket && StartsWith(key, allowedPrefix + "/")
  }

  /** A well-formed name whose key is strictly below a normalised prefix and passes the broker's check. */
  ghost predicate Admissible(name: Name, prefix: string) {
    && WellFormed(name) && name.prefix == prefix && NormalizePrefix(prefix) == Ok(prefix)
    && |Render(name)| > |prefix| + 1
    && forall bucket :: TargetAllowed(bucket, Render(name), bucket, prefix)
  }

  lemma NameAdmissible(name: Name)
    requires WellFormed(name) && NormalizePrefix(name.prefix) == Ok(name.prefix)
    ensures Admissible(name, name.prefix)
  {
  }

  /**
   * From raw configuration to the broker: a prefix that normalises and an ARN with a storage id give keys of all
   * three kinds that are well formed, strictly below the normalised prefix, and allowed by a broker that was
   * started from the same raw prefix.
   */
  lemma OwnKeysAllowed(value: string, arnDigest: Bytes, arn: string, content: Bytes)
    requires |arnDigest| == 32 && |content| == 32
    requires NormalizePrefix(value).Ok? && KmsArn.StorageId(arnDigest, arn).Ok?
    ensures var p, hash := NormalizePrefix(value).value, Hex.Encode(content);
            && Admissible(Manifest(p), p) && Admissible(Public(p, hash), p)
            && PackageName(p, arnDigest, arn, hash).Ok?
            && Admissible(PackageName(p, arnDigest, arn, hash).value, p)
  {
    hide NormalizePrefix;
    hide Contains;
    hide Render;
    var p, hash := NormalizePrefix(value).value, Hex.Encode(content);
    var _, _ := NormalizeIdempotent(value);
    PackageNameWellFormed(p, arnDigest, arn, content);
    HexHasNoSlash(content);
    NameAdmissible(Manifest(p));
    NameAdmissible(Public(p, hash));
    NameAdmissible(PackageName(p, arnDigest, arn, hash).value);
  }
}
