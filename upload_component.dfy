/**
 * The upload page's component: the fields its template shows and the
 * handlers that update them. Each handler is a method that receives what its
 * collaborators produced (the frame extractor's busy flag and screenshots,
 * the chosen file, the loaded screenshot blob, the progress reports, the
 * download URLs) as parameters, and whose contract states the component's
 * whole new state. Handlers run one at a time, each to completion.
 */
module UploadComponentModel {
  import opened Wrappers
  import opened Title
  import opened StorageKeys
  import opened Progress

  /** A chosen file, as far as the component looks at it. */
  datatype File = File(name: string, mimeType: string)

  /** What an upload task sends: the chosen file, or the blob fetched from a screenshot URL. */
  datatype Payload = VideoFile(file: Option<File>) | ScreenshotBlob(sourceUrl: string)

  /** A started upload task: where it stores what. */
  datatype UploadTask = UploadTask(path: string, payload: Payload)

  const Mp4Type: string := "video/mp4"

  /** The alert's colour: the source's strings `'blue'`, `'green'` and `'red'`. */
  datatype AlertColor = Blue | Green | Red

  const UploadingText: string := "Your clip is uploading... please wait..."
  const SuccessText: string := "Success! Your clip is now available to the world"
  const FailureText: string := "Upload failed. Please try again later"

  /** A file the component accepts: present and of type `video/mp4`. */
  predicate IsMp4(f: Option<File>) {
    f.Some? && f.value.mimeType == Mp4Type
  }

  /** The text the alert shows with each colour. */
  function AlertTextFor(color: AlertColor): (text: string) {
    match color
    case Blue => UploadingText
    case Green => SuccessText
    case Red => FailureText
  }

  /** Either no upload has started, or the clip and screenshot tasks store under one id. */
  predicate TasksPaired(task: Option<UploadTask>, screenshotTask: Option<UploadTask>) {
    task.Some? == screenshotTask.Some? &&
    (task.Some? ==>
      ClipPathId(task.value.path).Some? &&
      ClipPathId(task.value.path) == ScreenshotPathId(screenshotTask.value.path))
  }

  /** Tasks started for one id are paired, whatever they send. */
  lemma TasksForOneIdPaired(id: string, clipPayload: Payload, screenshotPayload: Payload)
    ensures TasksPaired(Some(UploadTask(ClipPath(id), clipPayload)), Some(UploadTask(ScreenshotPath(id), screenshotPayload)))
  {
    PathsShareId(id);
  }

  class UploadComponent {
    var isDragover: bool
    var file: Option<File>
    var nextStep: bool
    var inSubmission: bool
    var percentage: real
    var showPercentage: bool
    var showAlert: bool
    var alertText: string
    var alertColor: AlertColor
    var user: Option<User>
    /** The value of the title form control. */
    var title: string
    /** Whether the upload form (holding the title control) is enabled. */
    var formEnabled: bool
    var screenshots: seq<string>
    var selectedScreenshot: string
    var task: Option<UploadTask>
    var screenshotTask: Option<UploadTask>

    /**
     * What every handler keeps: the selected screenshot is one of the listed
     * frames (or empty before any list), the alert's colour matches its
     * text, the percentage is only shown while the form is disabled, and the
     * two upload tasks share one id.
     */
    predicate Valid()
      reads this
    {
      (screenshots == [] ==> selectedScreenshot == "") &&
      (screenshots != [] ==> selectedScreenshot in screenshots) &&
      alertText == AlertTextFor(alertColor) &&
      (showPercentage ==> !formEnabled) &&
      TasksPaired(task, screenshotTask)
    }

    /** The component as Angular creates it. */
    constructor ()
      ensures Valid()
      ensures !isDragover && file.None? && !nextStep && !inSubmission
      ensures percentage == 0.0 && !showPercentage
      ensures !showAlert && alertText == UploadingText && alertColor == Blue
      ensures user.None? && title == "" && formEnabled
      ensures screenshots == [] && selectedScreenshot == ""
      ensures task.None? && screenshotTask.None?
    {
      isDragover, file, nextStep, inSubmission := false, None, false, false;
      percentage, showPercentage := 0.0, false;
      showAlert, alertText, alertColor := false, UploadingText, Blue;
      user, title, formEnabled := None, "", true;
      screenshots, selectedScreenshot := [], "";
      task, screenshotTask := None, None;
    }

    /** The authentication state reports the signed-in user (or none). */
    method UserChanged(newUser: Option<User>)
      requires Valid()
      modifies this`user
      ensures Valid()
      ensures user == newUser
    {
      user := newUser;
    }

    /**
     * A file was dropped or picked. Nothing changes while the frame
     * extractor is busy. Otherwise the drag highlight goes off and the file
     * is recorded; only an mp4 goes further. `extracted` is what the frame
     * extraction settled with: `None` when it rejected, and then the handler
     * stops with the earlier screenshots, title and step kept. When it
     * delivers a list, the screenshots are listed, the first selected, the
     * title defaults to the name without extension and the form's next step
     * opens. Nothing outside those six fields changes.
     */
    method StoreFile(extractorBusy: bool, chosen: Option<File>, extracted: Option<seq<string>>)
      requires Valid()
      requires !extractorBusy && IsMp4(chosen) && extracted.Some? ==> extracted.value != []
      modifies this`isDragover, this`file, this`screenshots, this`selectedScreenshot, this`title, this`nextStep
      ensures Valid()
      ensures extractorBusy ==> unchanged(this)
      ensures !extractorBusy ==> !isDragover && file == chosen
      ensures !extractorBusy && (!IsMp4(chosen) || extracted.None?) ==>
        unchanged(this`screenshots, this`selectedScreenshot, this`title, this`nextStep)
      ensures !extractorBusy && IsMp4(chosen) && extracted.Some? ==>
        screenshots == extracted.value && selectedScreenshot == extracted.value[0] &&
        title == StripExtension(chosen.value.name) && nextStep
    {
      if extractorBusy {
        return;
      }
      isDragover := false;
      file := chosen;
      if file.None? || file.value.mimeType != Mp4Type {
        return;
      }
      if extracted.None? {
        return;
      }
      screenshots := extracted.value;
      selectedScreenshot := screenshots[0];
      title := StripExtension(file.value.name);
      nextStep := true;
    }

    /**
     * The form was submitted with generated id `id`. The form is disabled
     * and the blue uploading alert and the percentage are shown. If the blob
     * of the selected screenshot cannot be loaded the handler stops there,
     * still in submission. Otherwise both uploads start, the clip file to
     * `clips/id.mp4` and the selected screenshot to `screenshots/id.png`,
     * and the handler ends with `inSubmission` false.
     */
    method UploadFile(id: string, screenshotLoaded: bool)
      requires Valid()
      modifies this`formEnabled, this`inSubmission, this`showPercentage, this`showAlert,
        this`alertText, this`alertColor, this`task, this`screenshotTask
      ensures Valid()
      ensures !formEnabled && showPercentage && showAlert
      ensures alertColor == Blue && alertText == UploadingText
      ensures inSubmission == !screenshotLoaded
      ensures !screenshotLoaded ==> unchanged(this`task, this`screenshotTask)
      ensures screenshotLoaded ==>
        task == Some(UploadTask(ClipPath(id), VideoFile(file))) &&
        screenshotTask == Some(UploadTask(ScreenshotPath(id), ScreenshotBlob(selectedScreenshot)))
    {
      formEnabled := false;
      inSubmission := true;
      showPercentage := true;
      showAlert := true;
      alertText := UploadingText;
      alertColor := Blue;
      if !screenshotLoaded {
        return;
      }
      TasksForOneIdPaired(id, VideoFile(file), ScreenshotBlob(selectedScreenshot));
      task := Some(UploadTask(ClipPath(id), VideoFile(file)));
      screenshotTask := Some(UploadTask(ScreenshotPath(id), ScreenshotBlob(selectedScreenshot)));
      inSubmission := false;
    }

    /** The latest pair of progress reports arrived; only the percentage may change. */
    method ProgressChanged(clip: Report, shot: Report)
      requires Valid()
      modifies this`percentage
      ensures Valid()
      ensures percentage == Combine(old(percentage), clip, shot)
    {
      if !Truthy(clip) || !Truthy(shot) {
        return;
      }
      percentage := (clip.value + shot.value) / 200.0;
    }

    /**
     * Both uploads of id `id` finished and their download URLs resolved.
     * Returns the record to publish, built from the current user and title,
     * and turns the alert green with the success text, hiding the
     * percentage; the form stays disabled and `inSubmission` stays as it is.
     */
    method UploadSucceeded(id: string, clipUrl: string, screenshotUrl: string) returns (clip: ClipRecord)
      requires Valid()
      modifies this`alertColor, this`alertText, this`showPercentage
      ensures Valid()
      ensures clip == BuildClip(user, title, id, clipUrl, screenshotUrl)
      ensures alertColor == Green && alertText == SuccessText && !showPercentage
    {
      clip := BuildClip(user, title, id, clipUrl, screenshotUrl);
      alertColor := Green;
      alertText := SuccessText;
      showPercentage := false;
    }

    /**
     * An upload or a URL lookup failed: the form is enabled again, the
     * alert turns red with the failure text, the percentage is hidden and
     * `inSubmission` is set. The chosen file, screenshots and title stay.
     */
    method UploadFailed()
      requires Valid()
      modifies this`formEnabled, this`alertColor, this`alertText, this`showPercentage, this`inSubmission
      ensures Valid()
      ensures formEnabled && alertColor == Red && alertText == FailureText
      ensures !showPercentage && inSubmission
    {
      formEnabled := true;
      alertColor := Red;
      alertText := FailureText;
      showPercentage := false;
      inSubmission := true;
    }
  }

  /**
   * Picking `clip.mp4` while the extractor is idle opens the next step with
   * the title `clip` and the first extracted frame selected.
   */
  method PickClipScenario() returns (c: UploadComponent)
    ensures c.Valid() && c.nextStep && c.title == "clip" && c.selectedScreenshot == "frame-1"
  {
    c := new UploadComponent();
    c.StoreFile(false, Some(File("clip.mp4", Mp4Type)), Some(["frame-1", "frame-2"]));
    assert "clip.mp4" == "clip" + ".mp4";
    Mp4Title("clip");
  }

  /**
   * A signed-in user submits under id `id` and the screenshot blob loads:
   * both uploads start under that id, for that user, with the title kept.
   */
  method StartUploadScenario(c: UploadComponent, owner: User, id: string)
    requires c.Valid()
    modifies c
    ensures c.Valid() && c.user == Some(owner) && c.title == old(c.title)
    ensures c.task.Some? && ClipPathId(c.task.value.path) == Some(id)
  {
    c.UserChanged(Some(owner));
    c.UploadFile(id, true);
    PathsShareId(id);
  }

  /**
   * Submitting under id `id` for a signed-in user and then learning that
   * both uploads finished yields a record that belongs to the user and
   * names both objects by that one id.
   */
  method SubmitScenario(c: UploadComponent, owner: User, id: string) returns (clip: ClipRecord)
    requires c.Valid()
    modifies c
    ensures clip.uid == Some(owner.uid) && clip.title == old(c.title)
    ensures clip.fileName == id + ".mp4" && clip.screenshotFileName == id + ".png"
  {
    StartUploadScenario(c, owner, id);
    clip := c.UploadSucceeded(id, "https://storage/clip", "https://storage/screenshot");
  }
}
