/** The profile page's avatar upload: the guards on the chosen file, the
    storage path the file is uploaded under, and the two state cells the
    upload updates.  The signed-in user, the clock and the storage
    service's answers are parameters. */
module Profile {
  import opened Wrappers
  import opened Text

  /** The fields of a browser `File` that the page reads. */
  datatype SelectedFile = SelectedFile(name: string, size: int, mimeType: string)

  /** The size limit, 5 MiB. */
  const MaxAvatarBytes: int := 5 * 1024 * 1024

  /** The outcome of the guards in `handleFileChange`. */
  datatype FileCheck = NoFile | TooLarge | NotAnImage | Accepted

  /** The size guard runs first, then the type guard. */
  function CheckFile(file: Option<SelectedFile>): (c: FileCheck)
    ensures c == NoFile <==> file.None?
    ensures c == TooLarge <==> file.Some? && file.value.size > MaxAvatarBytes
    ensures c == NotAnImage <==>
      file.Some? && file.value.size <= MaxAvatarBytes && !StartsWith(file.value.mimeType, "image/")
    ensures c == Accepted <==>
      file.Some? && file.value.size <= MaxAvatarBytes && StartsWith(file.value.mimeType, "image/")
  {
    match file
    case None => NoFile
    case Some(f) =>
      if f.size > MaxAvatarBytes then TooLarge
      else if !StartsWith(f.mimeType, "image/") then NotAnImage
      else Accepted
  }

  /** `name.split('.').pop()`: the text after the last '.', or the whole
      name when it has none. */
  function Extension(name: string): (ext: string)
    ensures |ext| <= |name|
  {
    if name == [] then []
    else if name[|name| - 1] == '.' then []
    else Extension(name[..|name| - 1]) + [name[|name| - 1]]
  }

  /** The extension is the longest suffix without a '.': it holds no '.',
      ends the name, and is preceded by a '.' unless it is the whole name;
      a name with no '.' is its own extension. */
  lemma {:induction false} ExtensionIsLastSegment(name: string)
    ensures '.' !in Extension(name)
    ensures name[|name| - |Extension(name)|..] == Extension(name)
    ensures |Extension(name)| < |name| ==> name[|name| - |Extension(name)| - 1] == '.'
    ensures '.' !in name ==> Extension(name) == name
  {
    if name != [] && name[|name| - 1] != '.' {
      var init := name[..|name| - 1];
      ExtensionIsLastSegment(init);
      var e := Extension(init);
      assert Extension(name) == e + [name[|name| - 1]];
      assert init[|init| - |e|..] == e;
      assert name[|name| - |e| - 1..] == init[|init| - |e|..] + [name[|name| - 1]];
      if |e| < |init| {
        assert name[|name| - |e| - 2] == init[|init| - |e| - 1];
      }
      if '.' !in name {
        assert '.' !in init;
        assert init + [name[|name| - 1]] == name;
      }
    }
  }

  /** `${userId}/${Date.now()}.${fileExt}`. */
  function StoragePath(userId: string, nowMs: int, ext: string): (path: string)
    ensures |path| > |userId| && path[..|userId| + 1] == userId + "/"
  {
    userId + "/" + IntToDecimal(nowMs) + "." + ext
  }

  /** Whatever precedes the last dot, the extension is what follows it. */
  lemma {:induction false} ExtensionAfterDot(prefix: string, ext: string)
    requires '.' !in ext
    ensures Extension(prefix + "." + ext) == ext
  {
    var s := prefix + "." + ext;
    if ext == [] {
      assert s == prefix + ".";
    } else {
      var init := ext[..|ext| - 1];
      assert s[..|s| - 1] == prefix + "." + init;
      ExtensionAfterDot(prefix, init);
      assert s[|s| - 1] == ext[|ext| - 1];
      assert init + [ext[|ext| - 1]] == ext;
    }
  }

  /** The uploaded object keeps the file's extension: reading the extension
      back from the storage path gives the name's extension. */
  lemma StoragePathKeepsExtension(userId: string, nowMs: int, name: string)
    ensures Extension(StoragePath(userId, nowMs, Extension(name))) == Extension(name)
  {
    ExtensionIsLastSegment(name);
    ExtensionAfterDot(userId + "/" + IntToDecimal(nowMs), Extension(name));
  }

  /** The toast shown after an upload or a rejected file. */
  datatype Notice =
    | SizeLimitNotice
    | ImageRequiredNotice
    | UploadedNotice
    | UploadFailed(message: string)

  /** The toast text when an upload fails without a message. */
  const UploadFailedText: string := "Failed to upload avatar"

  /** The page's avatar state cells. */
  class ProfilePage {
    var avatarUrl: string
    var uploading: bool

    constructor ()
      ensures avatarUrl == "" && !uploading
    {
      avatarUrl := "";
      uploading := false;
    }

    /** `uploadAvatar(file)`: `userId` is the signed-in user, if any;
        `uploadError` the storage service's error, if any; `publicUrl` the
        URL it gives for the stored object.  Returns the storage path
        written, if an upload was attempted. */
    method UploadAvatar(userId: Option<string>, file: SelectedFile, nowMs: int,
                        uploadError: Option<string>, publicUrl: string)
      returns (path: Option<string>, notice: Option<Notice>)
      modifies this
      ensures userId.None? ==>
        path == None && notice == None && avatarUrl == old(avatarUrl) && uploading == old(uploading)
      ensures userId.Some? ==> !uploading
      ensures userId.Some? ==> path == Some(StoragePath(userId.value, nowMs, Extension(file.name)))
      ensures userId.Some? && uploadError.Some? ==>
        avatarUrl == old(avatarUrl) && notice == Some(UploadFailed(OrDefault(uploadError.value, UploadFailedText)))
      ensures userId.Some? && uploadError.None? ==> avatarUrl == publicUrl && notice == Some(UploadedNotice)
    {
      if userId.None? {
        return None, None;
      }
      uploading := true;
      path := Some(StoragePath(userId.value, nowMs, Extension(file.name)));
      if uploadError.Some? {
        notice := Some(UploadFailed(OrDefault(uploadError.value, UploadFailedText)));
      } else {
        avatarUrl := publicUrl;
        notice := Some(UploadedNotice);
      }
      uploading := false;
    }

    /** `handleFileChange(e)`: the first chosen file, if any, is checked and,
        when it passes, uploaded. */
    method HandleFileChange(userId: Option<string>, file: Option<SelectedFile>, nowMs: int,
                            uploadError: Option<string>, publicUrl: string)
      returns (path: Option<string>, notice: Option<Notice>)
      modifies this
      ensures CheckFile(file) != Accepted ==>
        path == None && avatarUrl == old(avatarUrl) && uploading == old(uploading)
      ensures CheckFile(file) == NoFile ==> notice == None
      ensures CheckFile(file) == TooLarge ==> notice == Some(SizeLimitNotice)
      ensures CheckFile(file) == NotAnImage ==> notice == Some(ImageRequiredNotice)
      ensures CheckFile(file) == Accepted && userId.Some? ==>
        !uploading && path == Some(StoragePath(userId.value, nowMs, Extension(file.value.name)))
      ensures CheckFile(file) == Accepted && userId.Some? && uploadError.Some? ==>
        avatarUrl == old(avatarUrl) && notice == Some(UploadFailed(OrDefault(uploadError.value, UploadFailedText)))
      ensures CheckFile(file) == Accepted && userId.Some? && uploadError.None? ==>
        avatarUrl == publicUrl && notice == Some(UploadedNotice)
      ensures CheckFile(file) == Accepted && userId.None? ==>
        path == None && notice == None && avatarUrl == old(avatarUrl) && uploading == old(uploading)
    {
      match CheckFile(file)
      case NoFile =>
        return None, None;
      case TooLarge =>
        return None, Some(SizeLimitNotice);
      case NotAnImage =>
        return None, Some(ImageRequiredNotice);
      case Accepted =>
        path, notice := UploadAvatar(userId, file.value, nowMs, uploadError, publicUrl);
    }
  }
}
