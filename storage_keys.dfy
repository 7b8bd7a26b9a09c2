/**
 * The storage key scheme of one upload and the clip record written once both
 * files are stored. One generated id `u` names both objects: the video under
 * `clips/u.mp4` and its screenshot under `screenshots/u.png`; the record
 * keeps the two file names without their folders.
 */
module StorageKeys {
  import opened Wrappers
  import opened Title

  const ClipFolder: string := "clips/"
  const ScreenshotFolder: string := "screenshots/"
  const ClipExtension: string := ".mp4"
  const ScreenshotExtension: string := ".png"

  /** The clip's file name as the record stores it: the id followed by `.mp4`. */
  function ClipFileName(id: string): (n: string)
    ensures |n| == |id| + |ClipExtension| && n[..|id|] == id && n[|id|..] == ClipExtension
  {
    id + ClipExtension
  }

  /** The screenshot's file name as the record stores it: the id followed by `.png`. */
  function ScreenshotFileName(id: string): (n: string)
    ensures |n| == |id| + |ScreenshotExtension| && n[..|id|] == id && n[|id|..] == ScreenshotExtension
  {
    id + ScreenshotExtension
  }

  /**
   * Where the clip is stored: the clip folder, then the id, then `.mp4`. The
   * part after the folder is the file name the record stores.
   */
  function ClipPath(id: string): (p: string)
    ensures p == ClipFolder + ClipFileName(id)
  {
    assert ClipFolder + id + ClipExtension == ClipFolder + (id + ClipExtension);
    ClipFolder + id + ClipExtension
  }

  /**
   * Where the screenshot is stored: the screenshot folder, then the id, then
   * `.png`. The part after the folder is the file name the record stores.
   */
  function ScreenshotPath(id: string): (p: string)
    ensures p == ScreenshotFolder + ScreenshotFileName(id)
  {
    assert ScreenshotFolder + id + ScreenshotExtension == ScreenshotFolder + (id + ScreenshotExtension);
    ScreenshotFolder + id + ScreenshotExtension
  }

  /**
   * Reads the id back out of a key `folder + id + extension`; `None` when
   * the key does not have that shape.
   */
  function KeyId(folder: string, extension: string, key: string): (r: Option<string>)
    ensures r.Some? ==> key == folder + r.value + extension
    ensures r.None? ==> forall id :: key != folder + id + extension
  {
    if |folder| + |extension| <= |key|
       && key[..|folder|] == folder
       && key[|key| - |extension|..] == extension
    then
      var id := key[|folder|..|key| - |extension|];
      assert key == key[..|folder|] + id + key[|key| - |extension|..];
      Some(id)
    else
      assert forall id :: key != folder + id + extension by {
        forall id ensures key != folder + id + extension {
          KeyShape(folder, extension, id);
        }
      }
      None
  }

  /** The id a clip path was made from. */
  function ClipPathId(path: string): (r: Option<string>) { KeyId(ClipFolder, ClipExtension, path) }

  /** The id a screenshot path was made from. */
  function ScreenshotPathId(path: string): (r: Option<string>) { KeyId(ScreenshotFolder, ScreenshotExtension, path) }

  /** A key built from a folder, an id and an extension has all three in place. */
  lemma KeyShape(folder: string, extension: string, id: string)
    ensures var key := folder + id + extension;
      |folder| + |extension| <= |key| && key[..|folder|] == folder &&
      key[|folder|..|key| - |extension|] == id && key[|key| - |extension|..] == extension
  {
    var key := folder + id + extension;
    assert key[..|folder|] == folder;
    assert key[|key| - |extension|..] == extension;
    assert key[|folder|..|key| - |extension|] == id;
  }

  /** Any key built from a folder, an id and an extension gives that id back. */
  lemma KeyIdRoundTrip(folder: string, extension: string, id: string)
    ensures KeyId(folder, extension, folder + id + extension) == Some(id)
  {
    KeyShape(folder, extension, id);
  }

  /**
   * The two paths of one upload share its id: each path gives the id back,
   * each is its folder followed by the file name the record stores, and
   * stripping the extension from either file name yields the same id.
   */
  lemma {:induction false} PathsShareId(id: string)
    ensures ClipPathId(ClipPath(id)) == Some(id)
    ensures ScreenshotPathId(ScreenshotPath(id)) == Some(id)
    ensures ClipPath(id) == ClipFolder + ClipFileName(id)
    ensures ScreenshotPath(id) == ScreenshotFolder + ScreenshotFileName(id)
    ensures StripExtension(ClipFileName(id)) == id
    ensures StripExtension(ScreenshotFileName(id)) == id
  {
    KeyIdRoundTrip(ClipFolder, ClipExtension, id);
    KeyIdRoundTrip(ScreenshotFolder, ScreenshotExtension, id);
    assert ClipFileName(id) == id + "." + "mp4";
    assert ScreenshotFileName(id) == id + "." + "png";
    StripAppendedExtension(id, "mp4");
    StripAppendedExtension(id, "png");
  }

  /**
   * Different ids never share a path, and no clip path is ever a screenshot
   * path, so one upload cannot overwrite another's objects.
   */
  lemma {:induction false} PathsDistinct(u: string, v: string)
    ensures ClipPath(u) == ClipPath(v) <==> u == v
    ensures ScreenshotPath(u) == ScreenshotPath(v) <==> u == v
    ensures ClipPath(u) != ScreenshotPath(v)
  {
    PathsShareId(u);
    PathsShareId(v);
    assert ClipPath(u)[0] != ScreenshotPath(v)[0];
  }

  /** The server-assigned creation time: a placeholder the database fills in. */
  datatype Timestamp = ServerTimestamp

  /** The signed-in account; Firebase may leave its display name null. */
  datatype User = User(uid: string, displayName: Option<string>)

  /** The clip record handed to the clip service once both uploads finished. */
  datatype ClipRecord = ClipRecord(
    uid: Option<string>,
    displayName: Option<string>,
    title: string,
    fileName: string,
    url: string,
    screenshotUrl: string,
    timestamp: Timestamp,
    screenshotFileName: string)

  /**
   * The record for a finished upload of id `id`: owner and display name from
   * the user (absent when nobody is signed in), the title as given, the two
   * download URLs, and file names that the upload's own storage paths end in.
   */
  function BuildClip(user: Option<User>, title: string, id: string, clipUrl: string, screenshotUrl: string): (c: ClipRecord)
    ensures c.uid.Some? <==> user.Some?
    ensures user.Some? ==> c.uid == Some(user.value.uid) && c.displayName == user.value.displayName
    ensures user.None? ==> c.displayName.None?
    ensures c.title == title && c.url == clipUrl && c.screenshotUrl == screenshotUrl
    ensures c.fileName == ClipFileName(id) && c.screenshotFileName == ScreenshotFileName(id)
    ensures ClipPath(id) == ClipFolder + c.fileName
    ensures ScreenshotPath(id) == ScreenshotFolder + c.screenshotFileName
    ensures StripExtension(c.fileName) == id && StripExtension(c.screenshotFileName) == id
  {
    PathsShareId(id);
    ClipRecord(
      uid := if user.Some? then Some(user.value.uid) else None,
      displayName := if user.Some? then user.value.displayName else None,
      title := title,
      fileName := ClipFileName(id),
      url := clipUrl,
      screenshotUrl := screenshotUrl,
      timestamp := ServerTimestamp,
      screenshotFileName := ScreenshotFileName(id))
  }
}
