# PixelShot: request builder and save task

A Dafny model of the decision core of the PixelShot Android library. It covers the
`PixelShot` request builder, its `save()` dispatch, the background `BitmapSaver` task, and
the `Utils` helpers `getMimeType` and `isAndroidQ`.

- `PixelShot` is a class with the source's fields (`jpgQuality`, `fileExtension`, `filename`,
  `path`, `saveInternal`, the listener, the view and the cached bitmap). Each fluent setter is a
  method that changes its own fields and nothing else.
- `BitmapSaver` is a class too. Its methods `saveLegacy`, `saveScoopedStorage`,
  `doInBackground`, `cancelTask` and `onPostExecute` update `path`, `file` and `bitmap` as the
  source does. They also append to a trace of observable events:
  - `InsertRequested(displayName, mimeType, relativePath)`: the MediaStore record;
  - `WriteAttempted(format, quality)`: an encoder call;
  - `Recycled`: the bitmap is recycled and nulled;
  - `FailPosted`: a failure posted by `cancelTask`;
  - `Success(path)` and `Failed`: the two calls from `onPostExecute`.
- Each method is proved against a specification function: `LegacyTrace`, `ScopedTrace`,
  `BackgroundTrace`, `BackgroundFile`, `PostExecute`, `ExecuteTrace`, and `SaveSpec` for
  `save()`. The lemmas in `SaverProperties` state the source's behaviour about those functions.
- The platform is not reimplemented. Everything the task learns from it is a field of a
  `Platform` value:
  - the SDK level;
  - the external storage directory;
  - whether the directory exists and whether `mkdirs` succeeds;
  - whether the MediaStore insert returns a handle;
  - how the output stream ends: it completes, it fails to open, or it throws after opening.
- `PixelCopyHelper`'s answer for a SurfaceView is a `CopyOutcome`. Whether the framework runs
  `onPostExecute` is a boolean.
- `generateLongBitmap` keeps only its row layout (`Capture.LongBitmapLayout`). The row offsets
  are accumulated one item height at a time. The total height is the single product
  itemHeight * itemCount. Both use 32-bit `int` arithmetic, wrap-around included. All view sizes
  are Java `int` values.

Files: `wrappers.dfy` (Option), `utils.dfy`, `capture.dfy`, `bitmap_saver.dfy`,
`saver_properties.dfy`, `pixel_shot.dfy`.

## Notable behaviour of the code

The model follows the code as written:

- A failed `mkdirs` is not terminal. `cancelTask` posts a failure, then the file is still built
  and the write is still attempted: the stream is opened, and the encoder runs only if that
  open succeeds (`SaverProperties.MkdirsFailureStillWrites`). On a missing directory the open
  normally throws, so the usual outcome is two posted failures and no encoding
  (`SaverProperties.MkdirsFailureWithMissingDirectory`).
- Failure is not always signalled exactly once. `cancelTask` calls `cancel(true)`, and whether
  the framework still runs `onPostExecute` afterwards is an input of the model.
  - If `onPostExecute` still runs after `cancel(true)`, the legacy branch always leaves `file`
    set. A failed write is then followed by a success callback
    (`SaverProperties.LegacyAlwaysReportsFile`, `SaverProperties.LegacyDoubleFailureThenSuccess`).
    A failed scoped write posts one failure and then calls the failure callback again
    (`SaverProperties.ScopedWriteFailureSignalsTwice`).
  - Under AsyncTask's rule that `onPostExecute` does not run after `cancel(true)`, the listener
    hears exactly one notification, with one exception. When `mkdirs` fails and the legacy write
    also throws, two failures are posted; that double failure is the normal result of a failed
    `mkdirs`, since the stream cannot open on the missing directory. Success is reported exactly when nothing was
    cancelled and a file was set (`SaverProperties.NotificationsUnderCancelRule`). So a null
    scoped insert handle, which cancels nothing, still ends in the failure callback.
- The code never tells the media index about a new file.
- An "internal" request (`setInternalPath`) goes through `saveLegacy` with the path exactly as
  given. A null internal path resolves to the public Pictures directory.
- A `.nomedia` request on the scoped branch is inserted with MIME type `image/nomedia`.
  Nothing is encoded. It is still reported as a success when three things hold: the insert
  returns a handle, the stream opens and closes, and `onPostExecute` runs.
- A request built with `of(Bitmap)` has no view. `getAppContext()` therefore throws on every
  `save()`, before any saver exists (`PixelShot.BitmapRequestAlwaysThrows`).

## Model

| member | source | states |
|---|---|---|
| Utils.MimeType | pixelshot/src/main/java/com/muddzdev/pixelshot/Utils.java:15-21 | the result always starts with "image/"; its tail is "jpeg" exactly when the extension's tail is "jpg" or "jpeg"; an empty extension is excluded because substring(1) throws |
| Utils.MimeTypeOfJpg | pixelshot/src/main/java/com/muddzdev/pixelshot/Utils.java:16-20 | ".jpg" maps to "image/jpeg" |
| Utils.MimeTypeOfOther | pixelshot/src/main/java/com/muddzdev/pixelshot/Utils.java:16-20 | an extension whose tail is not "jpg" maps to "image/" followed by the extension minus its first character |
| Utils.MimeTypeCollision | pixelshot/src/main/java/com/muddzdev/pixelshot/Utils.java:16-20 | two extensions give the same MIME type iff their tails are equal or are "jpg" and "jpeg"; the first character is never inspected |
| Utils.MimeTypeNotInjective | pixelshot/src/main/java/com/muddzdev/pixelshot/Utils.java:16-20 | ".jpg" and ".jpeg" both give "image/jpeg", ".JPG" gives "image/JPG", ".png" gives "image/png", ".nomedia" gives "image/nomedia" |
| Utils.IsAndroidQ | pixelshot/src/main/java/com/muddzdev/pixelshot/Utils.java:23-25 | holds iff the SDK level is at least 29 (Build.VERSION_CODES.Q) |
| Utils.IsAndroidQMonotone | pixelshot/src/main/java/com/muddzdev/pixelshot/Utils.java:23-25 | isAndroidQ at some SDK level implies it at every higher level |
| Capture.Wrap32 | pixelshot/src/main/java/com/muddzdev/pixelshot/PixelShot.java:235 | Java int arithmetic: the result is in the int range and congruent to the exact value modulo 2^32, and equal to it when it fits |
| Capture.LongBitmapLayout | pixelshot/src/main/java/com/muddzdev/pixelshot/PixelShot.java:235-252 | the loop draws one row per item, row i at offset i*itemHeight, and the bitmap height is itemHeight*itemCount, all in 32-bit int arithmetic; no rows for a non-positive count |
| Capture.RowsTileLongBitmap | pixelshot/src/main/java/com/muddzdev/pixelshot/PixelShot.java:235-252 | when itemHeight*itemCount fits in an int, nothing wraps and every row lies inside the bitmap |
| Capture.LongBitmapHeightWraps | pixelshot/src/main/java/com/muddzdev/pixelshot/PixelShot.java:235 | 65536 rows of 65536 pixels give height 0 and 32768 such rows a negative height, which createBitmap rejects; 65537 rows give height 65536, and row 65536 is drawn at offset 0, over row 0 |
| PixelShot.DefaultSettings | pixelshot/src/main/java/com/muddzdev/pixelshot/PixelShot.java:53-60 | a fresh request has quality 100, extension ".jpg", the timestamp filename, no path, saveInternal false and no listener |
| PixelShot.PixelShot.OfView | pixelshot/src/main/java/com/muddzdev/pixelshot/PixelShot.java:68-78 | of(View) holds the view, no bitmap, and the default configuration |
| PixelShot.PixelShot.OfBitmap | pixelshot/src/main/java/com/muddzdev/pixelshot/PixelShot.java:72-82 | of(Bitmap) holds the bitmap, no view, and the default configuration |
| PixelShot.PixelShot.SetFilename | pixelshot/src/main/java/com/muddzdev/pixelshot/PixelShot.java:87-90 | only the filename changes |
| PixelShot.PixelShot.SetPath | pixelshot/src/main/java/com/muddzdev/pixelshot/PixelShot.java:98-101 | only the path changes; saveInternal is never reset |
| PixelShot.PixelShot.SetInternalPath | pixelshot/src/main/java/com/muddzdev/pixelshot/PixelShot.java:110-114 | the path is set and saveInternal becomes true; nothing else changes |
| PixelShot.PixelShot.SetResultListener | pixelshot/src/main/java/com/muddzdev/pixelshot/PixelShot.java:119-122 | only the listener changes |
| PixelShot.PixelShot.ToJpg | pixelshot/src/main/java/com/muddzdev/pixelshot/PixelShot.java:131-135 | quality is reset to 100 and the extension becomes ".jpg"; nothing else changes |
| PixelShot.PixelShot.ToJpgWithQuality | pixelshot/src/main/java/com/muddzdev/pixelshot/PixelShot.java:140-144 | the quality is stored unclamped and the extension becomes ".jpg"; nothing else changes |
| PixelShot.PixelShot.ToPng | pixelshot/src/main/java/com/muddzdev/pixelshot/PixelShot.java:149-152 | only the extension changes (to ".png"); the quality is kept |
| PixelShot.PixelShot.ToNomedia | pixelshot/src/main/java/com/muddzdev/pixelshot/PixelShot.java:157-160 | only the extension changes (to ".nomedia"); the quality is kept |
| PixelShot.InternalPathSurvivesSetPath | pixelshot/src/main/java/com/muddzdev/pixelshot/PixelShot.java:98-114 | setPath after setInternalPath leaves saveInternal true, so the scoped branch is never taken at any SDK level |
| PixelShot.QualityAcrossFormats | pixelshot/src/main/java/com/muddzdev/pixelshot/PixelShot.java:131-152 | toPNG after toJPG(q) keeps quality q; a later toJPG() brings it back to 100 |
| PixelShot.PixelShot.GenerateLongBitmap | pixelshot/src/main/java/com/muddzdev/pixelshot/PixelShot.java:219-263 | the list bitmap has the list's measured width, height itemHeight*itemCount in int arithmetic, and one row offset per item |
| PixelShot.PixelShot.GetBitmap | pixelshot/src/main/java/com/muddzdev/pixelshot/PixelShot.java:170-189 | a held bitmap is reused; otherwise a TextureView gives its snapshot, a RecyclerView the long bitmap with the list's width, height itemHeight*itemCount and row i at offset i*itemHeight (32-bit int), any other view a drawing of its size; the result is kept on the request |
| PixelShot.PixelShot.Save | pixelshot/src/main/java/com/muddzdev/pixelshot/PixelShot.java:196-215 | the outcome is SaveSpec: NullViewThrown without a view; for a SurfaceView copy error only the failure callback; otherwise the saver's whole execute trace; for a non-SurfaceView the captured bitmap (or the one already held) is kept on the request |
| PixelShot.BitmapRequestAlwaysThrows | pixelshot/src/main/java/com/muddzdev/pixelshot/PixelShot.java:162-168 | a request with no view (built from a bitmap) throws in save() whatever the platform answers |
| PixelShot.SurfaceCopyErrorSkipsPersistence | pixelshot/src/main/java/com/muddzdev/pixelshot/PixelShot.java:198-211 | a failed pixel copy inserts, writes and recycles nothing; the failure callback fires iff a listener is set |
| Saving.BitmapSaver.constructor | pixelshot/src/main/java/com/muddzdev/pixelshot/PixelShot.java:284-293 | the task holds the request's configuration and the bitmap, no file, an empty trace |
| Saving.BitmapSaver.CancelTask | pixelshot/src/main/java/com/muddzdev/pixelshot/PixelShot.java:295-305 | the task is marked cancelled and one failure is posted iff a listener is set |
| Saving.BitmapSaver.WriteAndRecycle | pixelshot/src/main/java/com/muddzdev/pixelshot/PixelShot.java:316-331 | the encoder runs iff the stream opened (JPEG with the quality or PNG with 0, nothing for other extensions); on an exception a failure is posted; the bitmap is always recycled and nulled |
| Saving.BitmapSaver.SaveLegacy | pixelshot/src/main/java/com/muddzdev/pixelshot/PixelShot.java:307-332 | a null path becomes the external storage directory + "/Pictures"; mkdirs failure posts a failure and execution continues; the file is directory/filename+extension |
| Saving.BitmapSaver.SaveScopedStorage | pixelshot/src/main/java/com/muddzdev/pixelshot/PixelShot.java:335-367 | the record has the filename as display name, the derived MIME type and "Pictures" or "Pictures/"+path; a null handle leaves file, bitmap and trace beyond the insert untouched; an exception nulls the file |
| Saving.BitmapSaver.DoInBackground | pixelshot/src/main/java/com/muddzdev/pixelshot/PixelShot.java:369-378 | the scoped branch runs iff isAndroidQ and not saveInternal, otherwise the legacy branch; the new path, file, trace, bitmap (released iff the try block is entered) and cancelled flag (set iff a failed mkdirs or a throwing try block called cancelTask) |
| Saving.BitmapSaver.OnPostExecute | pixelshot/src/main/java/com/muddzdev/pixelshot/PixelShot.java:380-393 | the context is cleared; with a listener, success with the file's path iff file is set, failure otherwise; nothing without a listener |
| Saving.BitmapSaver.Execute | pixelshot/src/main/java/com/muddzdev/pixelshot/PixelShot.java:213 | execute() produces doInBackground's events followed by onPostExecute's when it runs; it leaves the configuration unchanged and gives the new path, file, bitmap, cancelled flag and context reference |
| SaverProperties.ScopedBranchExactly | pixelshot/src/main/java/com/muddzdev/pixelshot/PixelShot.java:372-376 | a MediaStore insert happens exactly once on the scoped branch and never on the legacy branch |
| SaverProperties.ScopedDirectoryInjective | pixelshot/src/main/java/com/muddzdev/pixelshot/PixelShot.java:336-339 | the relative path always starts with "Pictures", and it determines the request's path |
| SaverProperties.InsertFailureWritesNothing | pixelshot/src/main/java/com/muddzdev/pixelshot/PixelShot.java:345-366 | with a null handle the task only inserts: no write, no recycle, file stays null, and only onPostExecute reports the failure |
| SaverProperties.EncoderChoice | pixelshot/src/main/java/com/muddzdev/pixelshot/PixelShot.java:316-324 | a write WriteAttempted(f, q) occurs iff the stream opened and either the extension is ".jpg" with f JPEG and q the quality, or ".png" with f PNG and q 0 |
| SaverProperties.BackgroundWrites | pixelshot/src/main/java/com/muddzdev/pixelshot/PixelShot.java:316-357 | across both branches, the writes attempted are exactly those of EncoderChoice when the write block is entered, and none otherwise |
| SaverProperties.NomediaNeverEncodes | pixelshot/src/main/java/com/muddzdev/pixelshot/PixelShot.java:317-324 | a ".nomedia" request never calls an encoder |
| SaverProperties.RecycledExactlyOnce | pixelshot/src/main/java/com/muddzdev/pixelshot/PixelShot.java:328-331 | the bitmap is recycled exactly once when the write block is entered and never otherwise |
| SaverProperties.SingleUseBitmap | pixelshot/src/main/java/com/muddzdev/pixelshot/PixelShot.java:328-331 | after the bitmap is recycled no later event encodes it |
| SaverProperties.LegacyAlwaysReportsFile | pixelshot/src/main/java/com/muddzdev/pixelshot/PixelShot.java:307-316 | the legacy branch always leaves file = directory/filename+extension, so with a listener, if onPostExecute runs (an input here), the last event is success with that path, even after a posted failure |
| SaverProperties.MkdirsFailureStillWrites | pixelshot/src/main/java/com/muddzdev/pixelshot/PixelShot.java:312-319 | after a failed mkdirs a failure is posted first and the write is still attempted; if the stream opens nevertheless, the encoder runs |
| SaverProperties.MkdirsFailureWithMissingDirectory | pixelshot/src/main/java/com/muddzdev/pixelshot/PixelShot.java:312-331 | after a failed mkdirs with a stream that cannot open, two failures are posted, nothing is encoded, the bitmap is recycled, and under AsyncTask's rule nothing else reaches the listener |
| SaverProperties.CallbackOutcome | pixelshot/src/main/java/com/muddzdev/pixelshot/PixelShot.java:386-392 | with a listener, onPostExecute makes exactly one of success/failure: success with the file's path iff file is set |
| SaverProperties.NoOutcomeInBackground | pixelshot/src/main/java/com/muddzdev/pixelshot/PixelShot.java:369-378 | doInBackground never calls the listener directly; it only posts failures |
| SaverProperties.NoListenerNoCallbacks | pixelshot/src/main/java/com/muddzdev/pixelshot/PixelShot.java:386-392 | without a listener no callback of any kind is made |
| SaverProperties.ScopedWriteFailureSignalsTwice | pixelshot/src/main/java/com/muddzdev/pixelshot/PixelShot.java:358-361 | if onPostExecute runs after cancel(true) (an input here), a failing scoped write ends with a posted failure, the recycle and then the direct failure callback |
| SaverProperties.LegacyDoubleFailureThenSuccess | pixelshot/src/main/java/com/muddzdev/pixelshot/PixelShot.java:312-327 | a concrete legacy save with failed mkdirs and an unopenable stream posts two failures, recycles, then, if onPostExecute runs after cancel(true) (an input here), reports success for /sdcard/Pictures/shot1.jpg |
| SaverProperties.NotificationsUnderCancelRule | pixelshot/src/main/java/com/muddzdev/pixelshot/PixelShot.java:295-393 | if onPostExecute runs exactly when cancelTask was not called, the listener gets one notification, or two posted failures when mkdirs and the legacy write both fail; success exactly when nothing was cancelled and a file was set |

## Left out

- Threading. AsyncTask scheduling and Handler posting are not modelled. A posted failure is
  recorded when it is posted. Whether `onPostExecute` runs after `cancel(true)` is a framework
  rule, so it is a boolean input.
- PixelCopyHelper is not part of this model. Its two callbacks are the `CopyOutcome` input.
  The configuration is read when save() is called, not when the callback runs.
- Pixel work is not modelled: bitmap creation, canvas drawing, the drawing cache, the list
  background drawable, and JPEG/PNG compression. It is foreign native code. `Bitmap` records
  only where a bitmap came from.
- `Bitmap.compress` throws IllegalArgumentException for a JPEG quality outside 0..100. So a
  JPEG save after `toJPG(q)` with such a q always lands in the catch block, posts a failure and
  calls `cancel(true)`. In the model the `stream` input does not depend on the quality and may
  still be `Completes`.
- PixelShot.PixelShot.Save, PixelShot.PixelShot.GetBitmap, PixelShot.PixelShot.GenerateLongBitmap:
  `Bitmap.createBitmap` rejecting a zero or negative width or height is not modelled.
  `GetBitmap` may return `Drawn(0, 0)`, and `GenerateLongBitmap` a `LongBitmap` whose height
  is 0 or less, where the source throws. Examples are a plain view not yet laid out, a RecyclerView with measured
  width 0, or a wrapped list height of 0 or less. On those, `save()` throws
  IllegalArgumentException on the calling thread before any saver is built. The model instead
  goes on to the saver.
- Platform services are boolean or string inputs: MediaStore insertion, the file system and the
  `Environment` directories.
- Saving.BitmapSaver.SaveLegacy: the platform inputs are independent. Nothing ties the stream's
  opening to the directory's existence, so the model also admits a stream that opens after a
  failed `mkdirs`. On a real file system that happens only if something else creates the
  directory in between. `Utils.isStorageAvailable` and `Utils.isPermissionGranted` are
  platform queries and are left out.
- `System.currentTimeMillis` is left out. The default filename is the `timestamp` parameter.
- The Log calls and `printStackTrace` are diagnostics only and are left out.
- Saving.BitmapSaver.OnPostExecute: `Success` carries `File.getPath()` (directory + "/" + name),
  not `getAbsolutePath()`. Resolving the scoped branch's relative path against the working
  directory, and separator normalisation, are left out.
- `weakContext.get()` is assumed to return the context. The case where it is null, and
  `getContentResolver()` throws a NullPointerException, is not modelled.
- The filename is a string. `setFilename(null)`, which Java would turn into "null" + extension,
  is not modelled.
- The setters do not return the object, so Java's fluent chaining is written as consecutive
  calls.
- The request keeps a reference to the bitmap that the saver recycles. A second `save()` on the
  same request would reuse a recycled bitmap; the model holds the bitmap as a value and does not
  track this aliasing.
