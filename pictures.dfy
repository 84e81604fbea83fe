/** The legacy-avatar migration step of `src/pictures.rs`. Decoding and
    resizing the source image (`Avatars::new`), the two name derivations
    (`InternalFileName`, `ExternalFileName`), the clock and the file system
    are supplied in an `Env`; `blank` is `Profile::default()`. */
module Pictures {
  import opened Wrappers
  import opened Schema
  import opened Files

  const LegacyPrefix: string := "https://s3.amazonaws.com/"
  const AvatarRoute: string := "/avatar/get/id/"
  const NameDisplay: string := "staff"
  const Buckets: seq<string> := ["raw", "40", "100", "264"]

  /** The four buffers written per avatar: the original bytes and the
      40, 100 and 264 pixel renditions. */
  datatype Avatars = Avatars(raw: seq<byte>, x40: seq<byte>, x100: seq<byte>, x264: seq<byte>)

  /** The buffers in the order of `Buckets`. */
  function Renditions(a: Avatars): (rs: seq<seq<byte>>)
    ensures |rs| == |Buckets|
    ensures rs[0] == a.raw && rs[1] == a.x40 && rs[2] == a.x100 && rs[3] == a.x264
  {
    [a.raw, a.x40, a.x100, a.x264]
  }

  datatype Env = Env(
    decode: Path -> Result<Avatars, string>,
    internalName: (string, string) -> string,
    externalName: (string, string) -> string,
    fs: FileSystem,
    now: Timestamp,
    blank: Profile)

  /** `str::starts_with`. */
  predicate StartsWith(s: string, prefix: string) {
    |prefix| <= |s| && s[..|prefix|] == prefix
  }

  /** The name of the source image of a user. */
  function SourceFileName(userId: string): string {
    userId + ".jpg"
  }

  /** `has_picture_path`: the source file name of a profile whose picture
      is on the legacy store. The uuid is not consulted. */
  function HasPicturePath(profile: Profile): (r: Option<string>)
    ensures r.Some? <==>
      profile.picture.value.Some? && profile.userId.value.Some? &&
      StartsWith(profile.picture.value.value, LegacyPrefix)
    ensures r.Some? ==> r.value == profile.userId.value.value + ".jpg"
  {
    match (profile.picture.value, profile.userId.value)
    case (Some(pic), Some(userId)) =>
      if StartsWith(pic, LegacyPrefix) then Some(SourceFileName(userId)) else None
    case _ => None
  }

  /** What `process_picture` needs before it touches anything: a legacy
      picture, a uuid and a user id. */
  predicate Migratable(profile: Profile) {
    && profile.picture.value.Some? && profile.uuid.value.Some? && profile.userId.value.Some?
    && StartsWith(profile.picture.value.value, LegacyPrefix)
  }

  /** A profile can be migrated exactly when it is listed as having a legacy
      picture and has a uuid. */
  lemma MigratableIsListedWithUuid(profile: Profile)
    ensures Migratable(profile) <==> HasPicturePath(profile).Some? && profile.uuid.value.Some?
  {
  }

  function SourcePath(inPath: string, userId: string): Path {
    [inPath, SourceFileName(userId)]
  }

  function BucketPath(outPath: string, bucket: string, name: string): Path {
    [outPath, bucket, name]
  }

  /** One file write: where, and with what outcome. */
  datatype Written = Written(path: Path, outcome: FileWrite)

  /** `write_files`: the buckets raw, 40, 100, 264 in that order, each file
      at `out_path/<bucket>/<name>` written with `WriteAll`; the first
      failing write ends it with its error, and no later file is written.
      It succeeds exactly when all four writes do. */
  method WriteFiles(avatar: Avatars, outPath: string, name: string, fs: FileSystem)
    returns (r: Result<(), string>, writes: seq<Written>)
    ensures 1 <= |writes| <= |Buckets|
    ensures forall i :: 0 <= i < |writes| ==>
      writes[i] == Written(BucketPath(outPath, Buckets[i], name),
                           WriteAll(Renditions(avatar)[i], BucketPath(outPath, Buckets[i], name), fs))
    ensures forall i :: 0 <= i < |writes| - 1 ==> writes[i].outcome.result.Success?
    ensures r == writes[|writes| - 1].outcome.result
    ensures r.Success? <==> forall i :: 0 <= i < |Buckets| ==>
      WriteAll(Renditions(avatar)[i], BucketPath(outPath, Buckets[i], name), fs).result.Success?
    ensures r.Success? ==> |writes| == |Buckets|
  {
    var path := BucketPath(outPath, "raw", name);
    var w := WriteAllLoop(avatar.raw, path, fs);
    writes := [Written(path, w)];
    if w.result.Failure? {
      return w.result, writes;
    }
    path := BucketPath(outPath, "40", name);
    w := WriteAllLoop(avatar.x40, path, fs);
    writes := writes + [Written(path, w)];
    if w.result.Failure? {
      return w.result, writes;
    }
    path := BucketPath(outPath, "100", name);
    w := WriteAllLoop(avatar.x100, path, fs);
    writes := writes + [Written(path, w)];
    if w.result.Failure? {
      return w.result, writes;
    }
    path := BucketPath(outPath, "264", name);
    w := WriteAllLoop(avatar.x264, path, fs);
    writes := writes + [Written(path, w)];
    r := w.result;
  }

  /** `process_picture`. A profile that is not migratable yields `None`
      without reading or writing anything. Otherwise the source image
      `in_path/<user_id>.jpg` is read; if it cannot be decoded nothing is
      written and the result is `None`. Otherwise the four renditions are
      written under the internal name of `(uuid, "staff")`; the result is
      `Some` exactly when all four writes succeed (on a healthy file system,
      always), and is then a default profile carrying only `active` and
      `user_id` from the source and a rewritten `picture`. */
  method ProcessPicture(profile: Profile, inPath: string, outPath: string, env: Env)
    returns (r: Option<Profile>, inputs: seq<Path>, writes: seq<Written>)
    ensures !Migratable(profile) ==> r.None? && inputs == [] && writes == []
    ensures Migratable(profile) ==>
      && HasPicturePath(profile).Some?
      && inputs == [SourcePath(inPath, profile.userId.value.value)]
      && inputs[0][1] == HasPicturePath(profile).value
    ensures Migratable(profile) && env.decode(inputs[0]).Failure? ==> r.None? && writes == []
    ensures Migratable(profile) && env.decode(inputs[0]).Success? ==>
      var avatar, name := env.decode(inputs[0]).value, env.internalName(profile.uuid.value.value, NameDisplay);
      && 1 <= |writes| <= |Buckets|
      && (forall i :: 0 <= i < |writes| ==>
            writes[i] == Written(BucketPath(outPath, Buckets[i], name),
                                 WriteAll(Renditions(avatar)[i], BucketPath(outPath, Buckets[i], name), env.fs)))
      && (r.Some? <==> forall i :: 0 <= i < |Buckets| ==>
            WriteAll(Renditions(avatar)[i], BucketPath(outPath, Buckets[i], name), env.fs).result.Success?)
      && (forall i :: 0 <= i < |writes| - 1 ==> writes[i].outcome.result.Success?)
      && (r.None? ==> writes[|writes| - 1].outcome.result.Failure?)
      && (r.Some? ==> |writes| == |Buckets| && forall i :: 0 <= i < |writes| ==>
            writes[i].outcome.stored == Some(Renditions(avatar)[i]))
    ensures Migratable(profile) && env.decode(inputs[0]).Success? && Healthy(env.fs) ==> r.Some?
    ensures r.Some? ==>
      var update, uuid := r.value, profile.uuid.value.value;
      && Migratable(profile)
      && update.active == profile.active
      && update.userId == profile.userId
      && update.picture.value == Some(AvatarRoute + env.externalName(uuid, NameDisplay))
      && update.picture.metadata.created == profile.picture.metadata.created
      && update.picture.metadata.lastModified == env.now
      && update.picture.metadata.verified
      && update.picture.metadata.display == env.blank.picture.metadata.display
      && update.picture.signature == env.blank.picture.signature.(publisher := Mozilliansorg)
      && update.(active := env.blank.active, userId := env.blank.userId, picture := env.blank.picture) == env.blank
  {
    inputs, writes := [], [];
    if !Migratable(profile) {
      return None, inputs, writes;
    }
    var pic, uuid, userId := profile.picture.value.value, profile.uuid.value.value, profile.userId.value.value;
    var source := SourcePath(inPath, userId);
    inputs := [source];
    var avatar := env.decode(source);
    if avatar.Failure? {
      return None, inputs, writes;
    }
    var name := env.internalName(uuid, NameDisplay);
    if Healthy(env.fs) {
      forall i | 0 <= i < |Buckets|
        ensures WriteAll(Renditions(avatar.value)[i], BucketPath(outPath, Buckets[i], name), env.fs).result.Success?
      {
        WriteAllOnHealthy(Renditions(avatar.value)[i], BucketPath(outPath, Buckets[i], name), env.fs);
      }
    }
    var written;
    written, writes := WriteFiles(avatar.value, outPath, name, env.fs);
    if written.Failure? {
      return None, inputs, writes;
    }
    var update := env.blank;
    update := update.(active := profile.active);
    update := update.(userId := profile.userId);
    update := update.(picture := update.picture.(signature := update.picture.signature.(publisher := Mozilliansorg)));
    update := update.(picture := update.picture.(metadata := update.picture.metadata.(lastModified := env.now)));
    update := update.(picture := update.picture.(metadata := update.picture.metadata.(verified := true)));
    update := update.(picture := update.picture.(metadata := update.picture.metadata.(created := profile.picture.metadata.created)));
    update := update.(picture := update.picture.(value := Some(AvatarRoute + env.externalName(uuid, NameDisplay))));
    r := Some(update);
  }

  /** `write_files` over the code of `write_to_file` as written. */
  function WriteFilesAsWritten(avatar: Avatars, outPath: string, name: string, fs: FileSystem): (r: Result<(), string>)
    ensures r.Success? <==> forall i :: 0 <= i < |Buckets| ==>
      WriteToFileAsWritten(Renditions(avatar)[i], BucketPath(outPath, Buckets[i], name), fs).result.Success?
  {
    assert Buckets == ["raw", "40", "100", "264"];
    assert Renditions(avatar) == [avatar.raw, avatar.x40, avatar.x100, avatar.x264];
    var raw := WriteToFileAsWritten(avatar.raw, BucketPath(outPath, "raw", name), fs);
    if raw.result.Failure? then raw.result else
    var x40 := WriteToFileAsWritten(avatar.x40, BucketPath(outPath, "40", name), fs);
    if x40.result.Failure? then x40.result else
    var x100 := WriteToFileAsWritten(avatar.x100, BucketPath(outPath, "100", name), fs);
    if x100.result.Failure? then x100.result else
    WriteToFileAsWritten(avatar.x264, BucketPath(outPath, "264", name), fs).result
  }

  /** As written, `write_files` succeeds on a file system that accepts no
      byte when every rendition is smaller than the writer's buffer, so
      `process_picture` reports the migration although every file is empty;
      the intended write reports each failure. */
  lemma AsWrittenMigratesOntoFullDisk(avatar: Avatars, outPath: string, name: string)
    requires forall i :: 0 <= i < |Buckets| ==> 0 < |Renditions(avatar)[i]| < BufferCapacity
    ensures WriteFilesAsWritten(avatar, outPath, name, FullDisk).Success?
    ensures forall i :: 0 <= i < |Buckets| ==>
      WriteToFileAsWritten(Renditions(avatar)[i], BucketPath(outPath, Buckets[i], name), FullDisk).stored == Some([])
    ensures forall i :: 0 <= i < |Buckets| ==>
      WriteAll(Renditions(avatar)[i], BucketPath(outPath, Buckets[i], name), FullDisk).result.Failure?
  {
  }
}
