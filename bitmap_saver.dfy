/**
 * The background save task (BitmapSaver): the choice between scoped
 * storage and legacy file storage, the encoder choice, the bitmap release
 * in `finally`, and the callback made when the task finishes.
 *
 * The platform is not reimplemented: everything the task learns from it
 * (SDK level, storage root, directory creation, MediaStore insertion, and
 * whether the output stream throws) arrives as a Platform value. What the
 * task does that the outside world can see is recorded as a trace of
 * Events.
 */
module Saving {
  import opened Wrappers
  import Utils
  import opened Capture

  const ExtensionJpg: string := ".jpg"
  const ExtensionPng: string := ".png"
  const ExtensionNomedia: string := ".nomedia"
  /** Environment.DIRECTORY_PICTURES */
  const DirectoryPictures: string := "Pictures"
  /** The quality argument always passed with the lossless encoder. */
  const PngQuality: int := 0

  datatype CompressFormat = Jpeg | Png

  datatype Event =
    | InsertRequested(displayName: string, mimeType: string, relativePath: string) // MediaStore insert of this record
    | WriteAttempted(format: CompressFormat, quality: int)  // bitmap.compress(format, quality, out)
    | Recycled                                              // bitmap.recycle(); bitmap = null
    | FailPosted                                            // cancelTask posting onPixelShotFailed to the main thread
    | Success(path: string)                                 // onPixelShotSuccess(path) from onPostExecute
    | Failed                                                // onPixelShotFailed() called directly

  /** How the try-with-resources block around the encoder ends. */
  datatype StreamOutcome =
    | Completes    // stream opened, encoder ran, stream closed
    | OpenThrows   // opening the stream threw: nothing was encoded
    | WriteThrows  // the stream opened, then encoding or closing threw

  /** The answers the platform gives to one background save. */
  datatype Platform = Platform(
    sdk: int,
    externalStorageDir: string,  // Environment.getExternalStorageDirectory()
    directoryExists: bool,       // directory.exists()
    mkdirsSucceeds: bool,        // directory.mkdirs()
    insertSucceeds: bool,        // resolver.insert(...) != null
    stream: StreamOutcome)

  /** java.io.File(directory, name). */
  datatype FileRef = FileRef(directory: string, name: string)

  /** File.getPath() of a FileRef. */
  function PathOf(f: FileRef): string
  {
    f.directory + Utils.Separator + f.name
  }

  /** The configuration a request hands to the saver. */
  datatype Settings = Settings(
    jpgQuality: int,
    fileExtension: string,
    filename: string,
    path: Option<string>,
    saveInternal: bool,
    hasListener: bool)

  // ---------------------------------------------------------------------
  // Specification of the task.

  /** The doInBackground branch test. */
  predicate UsesScopedStorage(sdk: int, saveInternal: bool)
  {
    Utils.IsAndroidQ(sdk) && !saveInternal
  }

  /** The legacy directory: the request's path, or the public Pictures directory. */
  function LegacyDirectory(path: Option<string>, externalStorageDir: string): string
  {
    match path
    case Some(p) => p
    case None => externalStorageDir + Utils.Separator + DirectoryPictures
  }

  /** The MediaStore relative path: Pictures, optionally nested under the request's path. */
  function ScopedDirectory(path: Option<string>): string
  {
    match path
    case Some(p) => DirectoryPictures + Utils.Separator + p
    case None => DirectoryPictures
  }

  predicate MkdirsFails(p: Platform)
  {
    !p.directoryExists && !p.mkdirsSucceeds
  }

  /** What the switch on the extension hands to the encoder. */
  function Encoding(fileExtension: string, jpgQuality: int): seq<Event>
  {
    if fileExtension == ExtensionJpg then [WriteAttempted(Jpeg, jpgQuality)]
    else if fileExtension == ExtensionPng then [WriteAttempted(Png, PngQuality)]
    else []
  }

  /** cancelTask as seen from outside: a failure is posted only when a listener is set. */
  function FailurePost(hasListener: bool): seq<Event>
  {
    if hasListener then [FailPosted] else []
  }

  /** The try / catch / finally block shared by both branches. */
  function WriteBlock(fileExtension: string, jpgQuality: int, stream: StreamOutcome, hasListener: bool): seq<Event>
  {
    (if stream == OpenThrows then [] else Encoding(fileExtension, jpgQuality))
      + (if stream == Completes then [] else FailurePost(hasListener))
      + [Recycled]
  }

  function LegacyTrace(s: Settings, p: Platform): seq<Event>
  {
    (if MkdirsFails(p) then FailurePost(s.hasListener) else [])
      + WriteBlock(s.fileExtension, s.jpgQuality, p.stream, s.hasListener)
  }

  function ScopedRecord(s: Settings): Event
    requires |s.fileExtension| >= 1
  {
    InsertRequested(s.filename, Utils.MimeType(s.fileExtension), ScopedDirectory(s.path))
  }

  function ScopedTrace(s: Settings, p: Platform): seq<Event>
    requires |s.fileExtension| >= 1
  {
    [ScopedRecord(s)]
      + (if p.insertSucceeds then WriteBlock(s.fileExtension, s.jpgQuality, p.stream, s.hasListener) else [])
  }

  /** The events doInBackground produces. */
  function BackgroundTrace(s: Settings, p: Platform): seq<Event>
    requires |s.fileExtension| >= 1
  {
    if UsesScopedStorage(p.sdk, s.saveInternal) then ScopedTrace(s, p) else LegacyTrace(s, p)
  }

  /** The `file` field after doInBackground on a fresh task. */
  function BackgroundFile(s: Settings, p: Platform): Option<FileRef>
  {
    if UsesScopedStorage(p.sdk, s.saveInternal) then
      if p.insertSucceeds && p.stream == Completes then Some(FileRef(ScopedDirectory(s.path), s.filename + s.fileExtension))
      else None
    else
      Some(FileRef(LegacyDirectory(s.path, p.externalStorageDir), s.filename + s.fileExtension))
  }

  /** The try block is entered unless the scoped branch got a null insert handle. */
  predicate WriteBlockEntered(s: Settings, p: Platform)
  {
    !UsesScopedStorage(p.sdk, s.saveInternal) || p.insertSucceeds
  }

  /**
   * Whether doInBackground calls cancelTask, and so cancel(true): the legacy
   * branch after a failed mkdirs, and either branch when the try block throws.
   */
  predicate BackgroundCancels(s: Settings, p: Platform)
  {
    (!UsesScopedStorage(p.sdk, s.saveInternal) && MkdirsFails(p))
    || (WriteBlockEntered(s, p) && p.stream != Completes)
  }

  /** The events onPostExecute produces for a given `file`. */
  function PostExecute(file: Option<FileRef>, hasListener: bool): seq<Event>
  {
    if !hasListener then []
    else if file.Some? then [Success(PathOf(file.value))]
    else [Failed]
  }

  /** A whole execute(): doInBackground, then onPostExecute when the framework runs it. */
  function ExecuteTrace(s: Settings, p: Platform, postExecuteRuns: bool): seq<Event>
    requires |s.fileExtension| >= 1
  {
    BackgroundTrace(s, p)
      + (if postExecuteRuns then PostExecute(BackgroundFile(s, p), s.hasListener) else [])
  }

  // ---------------------------------------------------------------------
  // The task itself.

  class BitmapSaver {
    var hasListener: bool
    var bitmap: Option<Bitmap>
    var path: Option<string>
    var saveInternal: bool
    var filename: string
    var fileExtension: string
    var jpgQuality: int
    var file: Option<FileRef>
    var contextHeld: bool   // the weak reference to the application context is still set
    var cancelled: bool     // cancel(true) has been called
    var trace: seq<Event>

    /** The request configuration this task currently holds. */
    function Config(): Settings
      reads this
    {
      Settings(jpgQuality, fileExtension, filename, path, saveInternal, hasListener)
    }

    constructor (s: Settings, b: Bitmap)
      ensures Config() == s && bitmap == Some(b)
      ensures file == None && contextHeld && !cancelled && trace == []
    {
      hasListener := s.hasListener;
      bitmap := Some(b);
      path := s.path;
      saveInternal := s.saveInternal;
      filename := s.filename;
      fileExtension := s.fileExtension;
      jpgQuality := s.jpgQuality;
      file := None;
      contextHeld := true;
      cancelled := false;
      trace := [];
    }

    method CancelTask()
      modifies this`cancelled, this`trace
      ensures cancelled
      ensures trace == old(trace) + FailurePost(hasListener)
    {
      cancelled := true;
      if hasListener {
        trace := trace + [FailPosted];
      }
    }

    /** The try-with-resources block and its finally clause. */
    method WriteAndRecycle(stream: StreamOutcome)
      requires bitmap.Some?
      modifies this`bitmap, this`cancelled, this`trace
      ensures bitmap == None
      ensures cancelled == (old(cancelled) || stream != Completes)
      ensures trace == old(trace) + WriteBlock(fileExtension, jpgQuality, stream, hasListener)
    {
      if stream != OpenThrows {
        if fileExtension == ExtensionJpg {
          trace := trace + [WriteAttempted(Jpeg, jpgQuality)];
        } else if fileExtension == ExtensionPng {
          trace := trace + [WriteAttempted(Png, PngQuality)];
        }
      }
      if stream != Completes {
        CancelTask();
      }
      trace := trace + [Recycled];
      bitmap := None;
    }

    method SaveLegacy(p: Platform)
      requires bitmap.Some?
      modifies this`path, this`file, this`bitmap, this`cancelled, this`trace
      ensures path == Some(LegacyDirectory(old(path), p.externalStorageDir))
      ensures file == Some(FileRef(path.value, filename + fileExtension))
      ensures bitmap == None
      ensures cancelled == (old(cancelled) || MkdirsFails(p) || p.stream != Completes)
      ensures trace == old(trace) + LegacyTrace(old(Config()), p)
    {
      if path.None? {
        path := Some(p.externalStorageDir + Utils.Separator + DirectoryPictures);
      }
      var directory := path.value;
      if !p.directoryExists && !p.mkdirsSucceeds {
        CancelTask();
      }
      file := Some(FileRef(directory, filename + fileExtension));
      WriteAndRecycle(p.stream);
    }

    method SaveScopedStorage(p: Platform)
      requires bitmap.Some? && |fileExtension| >= 1
      modifies this`file, this`bitmap, this`cancelled, this`trace
      ensures trace == old(trace) + ScopedTrace(Config(), p)
      ensures !p.insertSucceeds ==> file == old(file) && bitmap == old(bitmap) && cancelled == old(cancelled)
      ensures p.insertSucceeds ==>
                bitmap == None
                && cancelled == (old(cancelled) || p.stream != Completes)
                && file == (if p.stream == Completes then Some(FileRef(ScopedDirectory(path), filename + fileExtension)) else None)
    {
      var directory := DirectoryPictures;
      if path.Some? {
        directory := directory + Utils.Separator + path.value;
      }
      assert directory == ScopedDirectory(path);
      ghost var before := trace;
      trace := trace + [InsertRequested(filename, Utils.MimeType(fileExtension), directory)];
      assert trace == before + [ScopedRecord(Config())];
      if p.insertSucceeds {
        file := Some(FileRef(directory, filename + fileExtension));
        if p.stream != Completes {
          file := None;
        }
        WriteAndRecycle(p.stream);
        assert trace == before + ([ScopedRecord(Config())] + WriteBlock(fileExtension, jpgQuality, p.stream, hasListener));
      } else {
        assert trace == before + ([ScopedRecord(Config())] + []);
      }
    }

    method DoInBackground(p: Platform)
      requires bitmap.Some? && file == None && |fileExtension| >= 1
      modifies this`path, this`file, this`bitmap, this`cancelled, this`trace
      ensures trace == old(trace) + BackgroundTrace(old(Config()), p)
      ensures file == BackgroundFile(old(Config()), p)
      ensures UsesScopedStorage(p.sdk, saveInternal) ==> path == old(path)
      ensures !UsesScopedStorage(p.sdk, saveInternal) ==> path == Some(LegacyDirectory(old(path), p.externalStorageDir))
      ensures bitmap == if WriteBlockEntered(old(Config()), p) then None else old(bitmap)
      ensures cancelled == (old(cancelled) || BackgroundCancels(old(Config()), p))
    {
      if Utils.IsAndroidQ(p.sdk) && !saveInternal {
        SaveScopedStorage(p);
      } else {
        SaveLegacy(p);
      }
    }

    method OnPostExecute()
      modifies this`contextHeld, this`trace
      ensures !contextHeld
      ensures trace == old(trace) + PostExecute(file, hasListener)
    {
      contextHeld := false;
      if hasListener {
        if file.Some? {
          trace := trace + [Success(PathOf(file.value))];
        } else {
          trace := trace + [Failed];
        }
      }
    }

    /** execute(): onPostExecute runs after doInBackground unless the framework skips it. */
    method Execute(p: Platform, postExecuteRuns: bool)
      requires bitmap.Some? && file == None && |fileExtension| >= 1
      modifies this`path, this`file, this`bitmap, this`cancelled, this`trace, this`contextHeld
      ensures trace == old(trace) + ExecuteTrace(old(Config()), p, postExecuteRuns)
      ensures file == BackgroundFile(old(Config()), p)
      ensures UsesScopedStorage(p.sdk, saveInternal) ==> path == old(path)
      ensures !UsesScopedStorage(p.sdk, saveInternal) ==> path == Some(LegacyDirectory(old(path), p.externalStorageDir))
      ensures bitmap == if WriteBlockEntered(old(Config()), p) then None else old(bitmap)
      ensures cancelled == (old(cancelled) || BackgroundCancels(old(Config()), p))
      ensures contextHeld == (old(contextHeld) && !postExecuteRuns)
    {
      DoInBackground(p);
      if postExecuteRuns {
        OnPostExecute();
      }
    }
  }
}
