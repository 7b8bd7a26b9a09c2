# Upload component of the clips client, in Dafny

This project models the core of the video upload page of an Angular
clip-sharing client: the `UploadComponent` that takes a dropped or picked
video file, derives a default title and a list of screenshot frames, uploads
the video and the selected screenshot to blob storage under one generated
id, shows a combined progress percentage, and builds the clip record that is
published once both uploads are done.

Modules:

- `Wrappers` (`wrappers.dfy`): `Option`, where `None` stands for JavaScript's
  `undefined` or `null`.
- `Title` (`title.dfy`): the default title, i.e. the file name with the
  pattern `/\.[^/.]+$/` removed. `ExtensionAt` says where that pattern
  matches. `TrailingRun` finds the longest trailing run of characters other
  than `/` and `.`, and `StripExtension` removes the match if there is one.
- `StorageKeys` (`storage_keys.dfy`): the key scheme `clips/<id>.mp4` and
  `screenshots/<id>.png`, the record's file names `<id>.mp4` and
  `<id>.png`, an inverse `KeyId` that reads the id back out of a key, and
  the clip record built once both uploads finished.
- `Progress` (`progress.dfy`): the progress handler's formula. A pair with a
  falsy report (undefined or 0) leaves the percentage alone; otherwise the
  percentage becomes `(clip + screenshot) / 200`. Percentages are `real`.
  `AfterTicks` folds the formula over a run of pairs.
- `UploadComponentModel` (`upload_component.dfy`): the component as a class
  whose fields are the source's fields. The form control's value is
  `title`, and the form group's enabled state is `formEnabled`. Each handler
  is a method. What the collaborators produce is passed in as parameters:
  the frame extractor's busy flag and screenshot list, the chosen file, and
  whether the screenshot blob loaded. The same goes for the progress
  reports, the generated id and the download URLs. Every method's
  `modifies` clause names exactly the fields the handler assigns, and its
  `ensures` gives their new values. `Valid()` is kept by every handler. It
  says four things: the selected screenshot is one of the listed frames (or
  empty before any list), the alert's text is the one belonging to its
  colour, the percentage is shown only while the form is disabled, and the
  clip task and the screenshot task store under one id.

Behaviour of the code worth knowing:

- The combined percentage is not clamped against earlier values: a lower
  later pair lowers it (`Progress.FractionCanDecrease`,
  `Progress.LastCountingTickDecides`).
- A pair where either report is 0 does not move the percentage
  (`Progress.ZeroScreenshotHidesVideoProgress`).
- There is no session token, no single-flight guard and no cancellation of
  the upload pair. `UploadFile` may be called again while an upload runs.
  The success handler takes the id its upload was started with; neither
  handler checks it against the current tasks.
- When the uploading handler's body completes, after the screenshot blob
  has loaded, `inSubmission` is already `false` (line 162), while the
  uploads are still running. The error handler sets `inSubmission` to
  `true`. The success handler leaves the form disabled.
- A non-mp4 file chosen after an mp4 was accepted replaces `file` but
  leaves `nextStep`, `title` and the screenshots alone
  (`UploadComponent.StoreFile`). A later `UploadFile` then uploads that file
  under `clips/<id>.mp4` (`UploadComponent.UploadFile`).
- If the frame extraction rejects after an mp4 was chosen, `file` is
  already the new file while the title, the screenshots and the next step
  still belong to the earlier one (`UploadComponent.StoreFile`).

## Model

| member | source | states |
|---|---|---|
| `Title.TrailingRun` | src/app/video/upload/upload.component.ts:83 | the result is the length of the longest suffix whose characters are all in `[^/.]`: every character of that suffix qualifies, and the character just before it (if any) is `/` or `.` |
| `Title.ExtensionStart` | src/app/video/upload/upload.component.ts:83 | when it returns an index, the pattern `\.[^/.]+$` matches there; when it returns none, the pattern matches nowhere in the name |
| `Title.StripExtension` | src/app/video/upload/upload.component.ts:83 | the title is a prefix of the file name; it equals the name exactly when the pattern has no match; otherwise the pattern matches right where the title ends, so exactly one extension segment was removed |
| `Title.MatchIsUnique` | src/app/video/upload/upload.component.ts:83 | the pattern matches at index `i` if and only if `i` is the position the strip uses, so a name has at most one extension match and it starts at the last `.` |
| `Title.StripAppendedExtension` | src/app/video/upload/upload.component.ts:83 | for any base name, including one containing dots or slashes, appending `.` and a non-empty segment without `/` or `.` and then stripping gives the base back |
| `Title.Mp4Title` | src/app/video/upload/upload.component.ts:83 | for every string `x`, the default title of `x + ".mp4"` is `x` |
| `Title.NoDotKeepsName` | src/app/video/upload/upload.component.ts:83 | a name without `.` is its own title |
| `Title.TrailingDotKeepsName` | src/app/video/upload/upload.component.ts:83 | a name ending in `.` is its own title, because the pattern needs at least one character after the dot |
| `Title.SlashAfterLastDotKeepsName` | src/app/video/upload/upload.component.ts:83 | a name in which a `/` follows the last `.` is its own title |
| `StorageKeys.ClipFileName` | src/app/video/upload/upload.component.ts:135 | the record's clip file name is the id followed by `.mp4`: its first characters, as many as the id has, are the id and the rest is `.mp4` |
| `StorageKeys.ScreenshotFileName` | src/app/video/upload/upload.component.ts:139 | the record's screenshot file name is the id followed by `.png`: its first characters, as many as the id has, are the id and the rest is `.png` |
| `StorageKeys.ClipPath` | src/app/video/upload/upload.component.ts:95-96 | the clip's storage key, built as `clips/` + id + `.mp4`, is the folder `clips/` followed by exactly the file name the record stores for the clip (`ClipFileName`); that the id reads back out of it is `PathsShareId` |
| `StorageKeys.ScreenshotPath` | src/app/video/upload/upload.component.ts:101 | the screenshot's storage key, built as `screenshots/` + the clip's id + `.png`, is the folder `screenshots/` followed by exactly the file name the record stores for the screenshot (`ScreenshotFileName`); that the id reads back out of it is `PathsShareId` |
| `StorageKeys.KeyId` | src/app/video/upload/upload.component.ts:95-96 | reading the id out of a key: when it returns an id, the key is folder + id + extension; when it returns none, no id gives that key |
| `StorageKeys.KeyIdRoundTrip` | src/app/video/upload/upload.component.ts:95-101 | every key built from a folder, an id and an extension gives exactly that id back |
| `StorageKeys.PathsShareId` | src/app/video/upload/upload.component.ts:95-101 | the clip path and the screenshot path of one id both give that id back; each is its folder followed by the file name the record stores; stripping the extension from either file name yields the id |
| `StorageKeys.PathsDistinct` | src/app/video/upload/upload.component.ts:95-101 | two clip paths (or two screenshot paths) are equal if and only if their ids are, and no clip path equals any screenshot path |
| `StorageKeys.BuildClip` | src/app/video/upload/upload.component.ts:131-140 | the record has an owner id if and only if a user is signed in, and then carries that user's id and display name. Its title and URLs are the ones given. Its file names are the id's `.mp4` and `.png` names, which the two storage paths end in and which strip back to the id |
| `Progress.Combine` | src/app/video/upload/upload.component.ts:112-119 | if either report is undefined or 0 the shown fraction is unchanged; otherwise it is the mean of the two reports read as fractions of 100; in-range reports keep the shown value in [0, 1] |
| `Progress.NoCountingTickKeepsStart` | src/app/video/upload/upload.component.ts:112-119 | `AfterTicks`, the handler's formula applied to each pair of a run in turn, leaves the percentage where it started when every pair has a falsy report |
| `Progress.LastCountingTickDecides` | src/app/video/upload/upload.component.ts:112-119 | after any run of pairs (`AfterTicks`), the percentage is the mean of the last pair with both reports truthy, whatever the earlier pairs and the starting value were (no clamp) |
| `Progress.AfterTicksIsFraction` | src/app/video/upload/upload.component.ts:112-119 | `AfterTicks` over a run of reports in [0, 100], starting from a fraction in [0, 1], ends at a fraction in [0, 1] |
| `Progress.FractionCanDecrease` | src/app/video/upload/upload.component.ts:112-119 | pairs (50, 50) then (10, 10) show 0.1: the percentage can go down |
| `Progress.ZeroScreenshotHidesVideoProgress` | src/app/video/upload/upload.component.ts:112-119 | reports (0, 0), (40, 0), (40, 100), (100, 100) show 0, 0, 0.7 and 1: video progress is not shown while the screenshot reports 0 |
| `UploadComponentModel.TasksForOneIdPaired` | src/app/video/upload/upload.component.ts:95-106 | the clip task and the screenshot task started for one id are paired: the id read back from the clip path equals the one read back from the screenshot path |
| `UploadComponentModel.UploadComponent.constructor` | src/app/video/upload/upload.component.ts:24-48 | the initial field values: no drag, no file, no next step, not in submission, percentage 0 hidden, alert hidden with the blue uploading text, no user, empty title, form enabled, no screenshots, nothing selected, no tasks |
| `UploadComponentModel.UploadComponent.UserChanged` | src/app/video/upload/upload.component.ts:59 | the authentication callback sets only `user` |
| `UploadComponentModel.UploadComponent.StoreFile` | src/app/video/upload/upload.component.ts:67-85 | with the extractor busy no field changes. Otherwise the drag flag is cleared and `file` becomes the chosen file, and a missing or non-`video/mp4` file changes nothing else. If the frame extraction for an mp4 rejects, the screenshots, the selected screenshot, the title and the next step keep their earlier values, which may belong to an earlier file. Otherwise the mp4 sets the screenshots to the extractor's list, selects its first element, sets the title to the stripped file name and opens the next step |
| `UploadComponentModel.UploadComponent.UploadFile` | src/app/video/upload/upload.component.ts:87-107 | the form is disabled, the percentage and the alert are shown, and the alert is blue with the uploading text. If the screenshot blob fails to load, `inSubmission` stays true and no task starts. Otherwise the clip task stores the current file at `clips/<id>.mp4` and the screenshot task stores the selected screenshot at `screenshots/<id>.png`, and `inSubmission` ends false (line 162) |
| `UploadComponentModel.UploadComponent.ProgressChanged` | src/app/video/upload/upload.component.ts:109-119 | only the percentage changes, to `Combine` of its old value and the latest pair |
| `UploadComponentModel.UploadComponent.UploadSucceeded` | src/app/video/upload/upload.component.ts:129-144 | returns the record built from the current user and title for the finished id and URLs; the alert turns green with the success text and the percentage is hidden; nothing else changes (the form stays disabled) |
| `UploadComponentModel.UploadComponent.UploadFailed` | src/app/video/upload/upload.component.ts:152-157 | the form is enabled again, the alert turns red with the failure text, the percentage is hidden and `inSubmission` becomes true. File, screenshots and title are kept |
| `UploadComponentModel.PickClipScenario` | src/app/video/upload/upload.component.ts:67-85 | picking `clip.mp4` with two frames on a fresh component opens the next step with title `clip` and the first frame selected |
| `UploadComponentModel.StartUploadScenario` | src/app/video/upload/upload.component.ts:87-107 | after a user signs in and submits under id `id` with the screenshot blob loaded, the component is valid, belongs to that user, keeps its title, and its clip task's path reads back as `id` |
| `UploadComponentModel.SubmitScenario` | src/app/video/upload/upload.component.ts:87-144 | a signed-in user's submission under id `id` that succeeds yields a record owned by that user, titled as the form, with file names `<id>.mp4` and `<id>.png` |

## Left out

- The RxJS composition (`combineLatest`, `forkJoin`, `switchMap` and the
  subscriptions' lifetimes) is not modelled. Its callbacks are the handler
  methods `ProgressChanged`, `UploadSucceeded` and `UploadFailed`, which
  the environment may call in any order.
- The Firebase calls are not modelled: `storage.upload`, `ref`,
  `getDownloadURL`, `createClip`, the `auth.user` stream and
  `serverTimestamp()`. A started upload is recorded as its path and payload
  (`UploadTask`). The download URLs are parameters. The timestamp is the
  placeholder `ServerTimestamp`.
- `uuid()` is replaced by the `id` parameter.
- The frame extractor (`init`, `isRunning`, `getScreenshots`,
  `blobFromUrl`) is not modelled. Its results are parameters: the busy
  flag, the screenshot list or `None` when the extraction rejected, and
  whether the screenshot blob loaded.
- The one-second `setTimeout` before `router.navigate` and the navigation
  itself are timers and routing, outside the model.
- `ngOnDestroy`'s `task?.cancel()` cancels a foreign task and is not
  modelled.
- Reading the file out of a drag event or an input element is replaced by
  the `chosen` parameter. The drag-over handlers live in the template, which
  is not part of this model.
- The title control's validators (required, minimum length 3) are library
  behaviour and are not modelled.
- `src/app/user/login/login.component.ts` (a wrapper around the sign-in
  call) and `src/app/nav/nav.component.spec.ts` (a rendering test) are not
  part of this model.
- Floating point is not modelled. Percentages are exact reals, and a NaN
  report, which JavaScript also treats as falsy, does not occur.
- `null` and `undefined` are both `None`. Because of this, the record's
  `uid` and `displayName` do not show which of the two the source would
  store.
- UploadComponentModel.UploadComponent.StoreFile: each handler runs to completion. The await on
  the screenshot extraction is not interleaved with other handlers, so the
  title is taken from the chosen file even though the source re-reads
  `this.file` after the await.
- UploadComponentModel.UploadComponent.StoreFile: requires a non-empty screenshot list when an mp4
  is accepted. With an empty list the source would store `undefined` as the
  selected screenshot, and that case is not modelled.
- UploadComponentModel.UploadComponent.UploadFile: the await on the screenshot blob is not
  interleaved with other handlers either. The part after it runs as one
  step.
- The error handler's `console.error(error)` (line 158) is logging and is
  not modelled.
- UploadComponentModel.UploadComponent.Valid: choosing a different frame
  after extraction happens in the page's template, which is not part of
  this model. `Valid()` therefore only promises that the selected
  screenshot is one of the listed frames, and no handler here changes the
  selection other than `StoreFile`, which selects the first frame.
