/**
 * Properties of the background save task, stated on its specification
 * functions (which the BitmapSaver methods are proved to follow).
 */
module SaverProperties {
  import opened Wrappers
  import opened Saving

  /** Number of events in t that `pick` selects. */
  function CountOf(t: seq<Event>, pick: Event -> bool): (n: nat)
    ensures n <= |t|
    ensures n == 0 <==> forall i :: 0 <= i < |t| ==> !pick(t[i])
  {
    if t == [] then 0
    else (if pick(t[0]) then 1 else 0) + CountOf(t[1..], pick)
  }

  lemma {:induction false} CountOfAppend(a: seq<Event>, b: seq<Event>, pick: Event -> bool)
    ensures CountOf(a + b, pick) == CountOf(a, pick) + CountOf(b, pick)
  {
    if a == [] {
      assert a + b == b;
    } else {
      assert (a + b)[1..] == a[1..] + b;
      CountOfAppend(a[1..], b, pick);
    }
  }

  predicate IsInsert(e: Event) { e.InsertRequested? }
  predicate IsWrite(e: Event) { e.WriteAttempted? }
  predicate IsRecycle(e: Event) { e.Recycled? }
  /** The two callbacks onPostExecute can make. */
  predicate IsOutcome(e: Event) { e.Success? || e.Failed? }
  predicate IsSuccess(e: Event) { e.Success? }
  /** Anything that reaches the listener. */
  predicate IsNotification(e: Event) { e.FailPosted? || e.Success? || e.Failed? }

  /** The scoped branch, and only it, asks MediaStore to insert a record. */
  lemma ScopedBranchExactly(s: Settings, p: Platform)
    requires |s.fileExtension| >= 1
    ensures CountOf(BackgroundTrace(s, p), IsInsert) == if UsesScopedStorage(p.sdk, s.saveInternal) then 1 else 0
  {
    var wb := WriteBlock(s.fileExtension, s.jpgQuality, p.stream, s.hasListener);
    assert CountOf(wb, IsInsert) == 0;
    if UsesScopedStorage(p.sdk, s.saveInternal) {
      CountOfAppend([ScopedRecord(s)], if p.insertSucceeds then wb else [], IsInsert);
    } else {
      CountOfAppend(if MkdirsFails(p) then FailurePost(s.hasListener) else [], wb, IsInsert);
    }
  }

  /** The MediaStore relative path is Pictures or a sub-path of it, and it determines the request's path. */
  lemma ScopedDirectoryInjective(a: Option<string>, b: Option<string>)
    ensures |ScopedDirectory(a)| >= 8 && ScopedDirectory(a)[..8] == DirectoryPictures
    ensures ScopedDirectory(a) == ScopedDirectory(b) ==> a == b
  {
    var da, db := ScopedDirectory(a), ScopedDirectory(b);
    assert da[..8] == DirectoryPictures;
    if da == db {
      match a
      case None =>
        assert |da| == 8;
      case Some(x) =>
        assert da[9..] == x;
        assert |da| > 8;
        assert b.Some?;
        assert db[9..] == b.value;
    }
  }

  /** A null insert handle: nothing is written or recycled, no file, and only onPostExecute reports the failure. */
  lemma InsertFailureWritesNothing(s: Settings, p: Platform)
    requires |s.fileExtension| >= 1
    requires UsesScopedStorage(p.sdk, s.saveInternal) && !p.insertSucceeds
    ensures BackgroundTrace(s, p) == [ScopedRecord(s)]
    ensures BackgroundFile(s, p) == None
    ensures CountOf(BackgroundTrace(s, p), IsWrite) == 0 && CountOf(BackgroundTrace(s, p), IsRecycle) == 0
    ensures ExecuteTrace(s, p, true) == [ScopedRecord(s)] + (if s.hasListener then [Failed] else [])
  {
    assert ScopedTrace(s, p) == [ScopedRecord(s)] + [];
  }

  /** The encoder runs exactly when the stream opened, JPEG with the request's quality or PNG with 0. */
  lemma EncoderChoice(ext: string, quality: int, stream: StreamOutcome, hasListener: bool, f: CompressFormat, q: int)
    ensures WriteAttempted(f, q) in WriteBlock(ext, quality, stream, hasListener) <==>
              stream != OpenThrows
              && ((ext == ExtensionJpg && f == Jpeg && q == quality) || (ext == ExtensionPng && f == Png && q == PngQuality))
  {
    var enc := if stream == OpenThrows then [] else Encoding(ext, quality);
    var rest := (if stream == Completes then [] else FailurePost(hasListener)) + [Recycled];
    assert WriteBlock(ext, quality, stream, hasListener) == enc + rest;
    assert WriteAttempted(f, q) !in rest;
  }

  /** Whole-task form: which writes a save attempts, for each branch and platform answer. */
  lemma BackgroundWrites(s: Settings, p: Platform, f: CompressFormat, q: int)
    requires |s.fileExtension| >= 1
    ensures WriteAttempted(f, q) in BackgroundTrace(s, p) <==>
              WriteBlockEntered(s, p) && p.stream != OpenThrows
              && ((s.fileExtension == ExtensionJpg && f == Jpeg && q == s.jpgQuality)
                  || (s.fileExtension == ExtensionPng && f == Png && q == PngQuality))
  {
    var wb := WriteBlock(s.fileExtension, s.jpgQuality, p.stream, s.hasListener);
    EncoderChoice(s.fileExtension, s.jpgQuality, p.stream, s.hasListener, f, q);
    if UsesScopedStorage(p.sdk, s.saveInternal) {
      assert BackgroundTrace(s, p) == [ScopedRecord(s)] + (if p.insertSucceeds then wb else []);
    } else {
      var pre := if MkdirsFails(p) then FailurePost(s.hasListener) else [];
      assert BackgroundTrace(s, p) == pre + wb;
      assert WriteAttempted(f, q) !in pre;
    }
  }

  /** A .nomedia request never reaches an encoder, whatever the platform answers. */
  lemma NomediaNeverEncodes(s: Settings, p: Platform)
    requires s.fileExtension == ExtensionNomedia
    ensures forall f, q :: WriteAttempted(f, q) !in BackgroundTrace(s, p)
  {
    forall f, q ensures WriteAttempted(f, q) !in BackgroundTrace(s, p) {
      BackgroundWrites(s, p, f, q);
    }
  }

  /** Whenever the try block is entered the bitmap is recycled exactly once, and otherwise never. */
  lemma RecycledExactlyOnce(s: Settings, p: Platform, postExecuteRuns: bool)
    requires |s.fileExtension| >= 1
    ensures CountOf(ExecuteTrace(s, p, postExecuteRuns), IsRecycle) == if WriteBlockEntered(s, p) then 1 else 0
  {
    var wb := WriteBlock(s.fileExtension, s.jpgQuality, p.stream, s.hasListener);
    var pre := (if p.stream == OpenThrows then [] else Encoding(s.fileExtension, s.jpgQuality))
                 + (if p.stream == Completes then [] else FailurePost(s.hasListener));
    assert wb == pre + [Recycled];
    CountOfAppend(pre, [Recycled], IsRecycle);
    assert CountOf(pre, IsRecycle) == 0;
    assert CountOf([Recycled], IsRecycle) == 1;
    var post := if postExecuteRuns then PostExecute(BackgroundFile(s, p), s.hasListener) else [];
    assert CountOf(post, IsRecycle) == 0;
    CountOfAppend(BackgroundTrace(s, p), post, IsRecycle);
    if UsesScopedStorage(p.sdk, s.saveInternal) {
      CountOfAppend([ScopedRecord(s)], if p.insertSucceeds then wb else [], IsRecycle);
    } else {
      var mk := if MkdirsFails(p) then FailurePost(s.hasListener) else [];
      assert CountOf(mk, IsRecycle) == 0;
      CountOfAppend(mk, wb, IsRecycle);
    }
  }

  /** Once the bitmap is recycled, no later event of the trace encodes it. */
  predicate NoWriteAfterRecycle(t: seq<Event>)
  {
    forall i, j :: 0 <= i < j < |t| && t[i] == Recycled ==> !t[j].WriteAttempted?
  }

  lemma NoWriteAfterRecycleSplit(a: seq<Event>, b: seq<Event>)
    requires forall k :: 0 <= k < |a| ==> !a[k].Recycled?
    requires forall k :: 0 <= k < |b| ==> !b[k].WriteAttempted?
    ensures NoWriteAfterRecycle(a + b)
  {
    var t := a + b;
    forall i, j | 0 <= i < j < |t| && t[i] == Recycled ensures !t[j].WriteAttempted? {
      assert t[j] == b[j - |a|];
    }
  }

  /**
   * The background trace is a prefix free of Recycled, then (when the try
   * block is entered) the single Recycled its finally clause adds.
   */
  lemma BackgroundShape(s: Settings, p: Platform) returns (head: seq<Event>)
    requires |s.fileExtension| >= 1
    ensures BackgroundTrace(s, p) == head + (if WriteBlockEntered(s, p) then [Recycled] else [])
    ensures forall k :: 0 <= k < |head| ==> !head[k].Recycled?
  {
    var first := if UsesScopedStorage(p.sdk, s.saveInternal) then [ScopedRecord(s)]
                 else if MkdirsFails(p) then FailurePost(s.hasListener) else [];
    var pre := (if p.stream == OpenThrows then [] else Encoding(s.fileExtension, s.jpgQuality))
                 + (if p.stream == Completes then [] else FailurePost(s.hasListener));
    if WriteBlockEntered(s, p) {
      head := first + pre;
      assert WriteBlock(s.fileExtension, s.jpgQuality, p.stream, s.hasListener) == pre + [Recycled];
    } else {
      head := first;
      assert ScopedTrace(s, p) == first + [];
    }
  }

  /** The bitmap is single-use: once recycled, nothing of the task encodes it again. */
  lemma SingleUseBitmap(s: Settings, p: Platform, postExecuteRuns: bool)
    requires |s.fileExtension| >= 1
    ensures NoWriteAfterRecycle(ExecuteTrace(s, p, postExecuteRuns))
  {
    var post := if postExecuteRuns then PostExecute(BackgroundFile(s, p), s.hasListener) else [];
    assert forall k :: 0 <= k < |post| ==> !post[k].WriteAttempted?;
    var head := BackgroundShape(s, p);
    var tail := if WriteBlockEntered(s, p) then [Recycled] else [];
    assert ExecuteTrace(s, p, postExecuteRuns) == head + (tail + post);
    NoWriteAfterRecycleSplit(head, tail + post);
  }

  /** The legacy branch always leaves a file behind, so onPostExecute reports success even after a failed write. */
  lemma LegacyAlwaysReportsFile(s: Settings, p: Platform)
    requires |s.fileExtension| >= 1
    requires !UsesScopedStorage(p.sdk, s.saveInternal)
    ensures BackgroundFile(s, p) == Some(FileRef(LegacyDirectory(s.path, p.externalStorageDir), s.filename + s.fileExtension))
    ensures s.hasListener ==>
              var t := ExecuteTrace(s, p, true);
              t[|t| - 1] == Success(PathOf(BackgroundFile(s, p).value))
              && (MkdirsFails(p) || p.stream != Completes ==> FailPosted in t)
  {
    var t := ExecuteTrace(s, p, true);
    if s.hasListener {
      var mk := if MkdirsFails(p) then FailurePost(s.hasListener) else [];
      var wb := WriteBlock(s.fileExtension, s.jpgQuality, p.stream, s.hasListener);
      var enc := if p.stream == OpenThrows then [] else Encoding(s.fileExtension, s.jpgQuality);
      var fp := if p.stream == Completes then [] else FailurePost(s.hasListener);
      assert wb == enc + fp + [Recycled];
      assert t == mk + enc + fp + [Recycled] + [Success(PathOf(BackgroundFile(s, p).value))];
      if MkdirsFails(p) {
        assert t[0] == FailPosted;
      } else if p.stream != Completes {
        assert t[|mk| + |enc|] == FailPosted;
      }
    }
  }

  /**
   * A failed mkdirs posts a failure, yet the file is still built and the
   * write is still attempted: when the stream nevertheless opens, the encoder
   * runs.
   */
  lemma MkdirsFailureStillWrites(s: Settings, p: Platform)
    requires !UsesScopedStorage(p.sdk, s.saveInternal) && MkdirsFails(p)
    requires s.hasListener && p.stream != OpenThrows
    requires s.fileExtension == ExtensionJpg || s.fileExtension == ExtensionPng
    ensures BackgroundTrace(s, p)[0] == FailPosted
    ensures BackgroundTrace(s, p)[1] == Encoding(s.fileExtension, s.jpgQuality)[0]
    ensures BackgroundFile(s, p).Some?
  {
  }

  /**
   * The usual outcome of a failed mkdirs: the stream cannot open on the
   * missing directory, so two failures are posted and nothing is encoded.
   * Under AsyncTask's rule (no onPostExecute after cancel(true)) nothing else
   * reaches the listener.
   */
  lemma MkdirsFailureWithMissingDirectory(s: Settings, p: Platform)
    requires !UsesScopedStorage(p.sdk, s.saveInternal) && MkdirsFails(p)
    requires |s.fileExtension| >= 1 && s.hasListener && p.stream == OpenThrows
    ensures BackgroundTrace(s, p) == [FailPosted, FailPosted, Recycled]
    ensures BackgroundCancels(s, p)
    ensures ExecuteTrace(s, p, !BackgroundCancels(s, p)) == [FailPosted, FailPosted, Recycled]
  {
  }

  /** With a listener, onPostExecute makes exactly one of the two callbacks, success exactly when `file` is set. */
  lemma CallbackOutcome(s: Settings, p: Platform)
    requires |s.fileExtension| >= 1 && s.hasListener
    ensures var t := ExecuteTrace(s, p, true);
              CountOf(t, IsOutcome) == 1
              && (BackgroundFile(s, p).Some? <==> t[|t| - 1].Success?)
              && (BackgroundFile(s, p).None? <==> t[|t| - 1] == Failed)
              && (t[|t| - 1].Success? ==> t[|t| - 1].path == PathOf(BackgroundFile(s, p).value))
  {
    var bt := BackgroundTrace(s, p);
    var post := PostExecute(BackgroundFile(s, p), s.hasListener);
    NoOutcomeInBackground(s, p);
    CountOfAppend(bt, post, IsOutcome);
  }

  /** doInBackground itself never calls the listener directly; it can only post failures. */
  lemma NoOutcomeInBackground(s: Settings, p: Platform)
    requires |s.fileExtension| >= 1
    ensures CountOf(BackgroundTrace(s, p), IsOutcome) == 0
  {
    var bt := BackgroundTrace(s, p);
    var wb := WriteBlock(s.fileExtension, s.jpgQuality, p.stream, s.hasListener);
    assert forall k :: 0 <= k < |wb| ==> !IsOutcome(wb[k]);
    if UsesScopedStorage(p.sdk, s.saveInternal) {
      assert bt == [ScopedRecord(s)] + (if p.insertSucceeds then wb else []);
    } else {
      var mk := if MkdirsFails(p) then FailurePost(s.hasListener) else [];
      assert bt == mk + wb;
    }
    assert forall k :: 0 <= k < |bt| ==> !IsOutcome(bt[k]);
  }

  /** Without a listener nothing is ever reported. */
  lemma NoListenerNoCallbacks(s: Settings, p: Platform, postExecuteRuns: bool)
    requires |s.fileExtension| >= 1 && !s.hasListener
    ensures CountOf(ExecuteTrace(s, p, postExecuteRuns), IsNotification) == 0
  {
    var t := ExecuteTrace(s, p, postExecuteRuns);
    var bt := BackgroundTrace(s, p);
    var wb := WriteBlock(s.fileExtension, s.jpgQuality, p.stream, s.hasListener);
    assert forall k :: 0 <= k < |wb| ==> !IsNotification(wb[k]);
    if UsesScopedStorage(p.sdk, s.saveInternal) {
      assert bt == [ScopedRecord(s)] + (if p.insertSucceeds then wb else []);
    } else {
      assert bt == [] + wb;
    }
    assert t == bt;
    assert forall k :: 0 <= k < |t| ==> !IsNotification(t[k]);
  }

  /** A scoped write that throws is reported twice: a posted failure, then the direct one. */
  lemma ScopedWriteFailureSignalsTwice(s: Settings, p: Platform)
    requires |s.fileExtension| >= 1 && s.hasListener
    requires UsesScopedStorage(p.sdk, s.saveInternal) && p.insertSucceeds && p.stream != Completes
    ensures var t := ExecuteTrace(s, p, true);
              |t| >= 3 && t[|t| - 3..] == [FailPosted, Recycled, Failed]
  {
    var t := ExecuteTrace(s, p, true);
    var enc := if p.stream == OpenThrows then [] else Encoding(s.fileExtension, s.jpgQuality);
    assert t == [ScopedRecord(s)] + enc + [FailPosted, Recycled, Failed];
  }

  lemma WriteBlockNotifications(ext: string, quality: int, stream: StreamOutcome)
    ensures CountOf(WriteBlock(ext, quality, stream, true), IsNotification) == if stream == Completes then 0 else 1
    ensures CountOf(WriteBlock(ext, quality, stream, true), IsSuccess) == 0
  {
    var enc := if stream == OpenThrows then [] else Encoding(ext, quality);
    var fp := if stream == Completes then [] else FailurePost(true);
    assert WriteBlock(ext, quality, stream, true) == enc + (fp + [Recycled]);
    CountOfAppend(enc, fp + [Recycled], IsNotification);
    CountOfAppend(enc, fp + [Recycled], IsSuccess);
    CountOfAppend(fp, [Recycled], IsNotification);
    CountOfAppend(fp, [Recycled], IsSuccess);
  }

  lemma PostExecuteNotifications(file: Option<FileRef>)
    ensures CountOf(PostExecute(file, true), IsNotification) == 1
    ensures CountOf(PostExecute(file, true), IsSuccess) == if file.Some? then 1 else 0
  {
  }

  /**
   * Under AsyncTask's rule that onPostExecute does not run once cancel(true)
   * was called, the listener hears exactly one notification, except when both
   * mkdirs and the legacy write fail: then the two posted failures. Success is
   * reported exactly when nothing was cancelled and a file was set.
   */
  lemma NotificationsUnderCancelRule(s: Settings, p: Platform)
    requires |s.fileExtension| >= 1 && s.hasListener
    ensures var t := ExecuteTrace(s, p, !BackgroundCancels(s, p));
              CountOf(t, IsNotification)
                == (if !UsesScopedStorage(p.sdk, s.saveInternal) && MkdirsFails(p) && p.stream != Completes then 2 else 1)
              && CountOf(t, IsSuccess) == (if !BackgroundCancels(s, p) && BackgroundFile(s, p).Some? then 1 else 0)
  {
    var runs := !BackgroundCancels(s, p);
    var wb := WriteBlock(s.fileExtension, s.jpgQuality, p.stream, s.hasListener);
    var post := if runs then PostExecute(BackgroundFile(s, p), s.hasListener) else [];
    var first := if UsesScopedStorage(p.sdk, s.saveInternal) then [ScopedRecord(s)]
                 else if MkdirsFails(p) then FailurePost(s.hasListener) else [];
    var block := if WriteBlockEntered(s, p) then wb else [];
    WriteBlockNotifications(s.fileExtension, s.jpgQuality, p.stream);
    PostExecuteNotifications(BackgroundFile(s, p));
    assert BackgroundTrace(s, p) == first + block;
    assert ExecuteTrace(s, p, runs) == first + block + post;
    CountOfAppend(first + block, post, IsNotification);
    CountOfAppend(first, block, IsNotification);
    CountOfAppend(first + block, post, IsSuccess);
    CountOfAppend(first, block, IsSuccess);
  }

  /** A concrete legacy save: failed mkdirs, then a stream that cannot open. Two failures are posted, then success. */
  lemma LegacyDoubleFailureThenSuccess()
    ensures var s := Settings(100, ExtensionJpg, "shot1", None, false, true);
            var p := Platform(28, "/sdcard", false, false, false, OpenThrows);
            ExecuteTrace(s, p, true) == [FailPosted, FailPosted, Recycled, Success("/sdcard/Pictures/shot1.jpg")]
  {
    var s := Settings(100, ExtensionJpg, "shot1", None, false, true);
    var p := Platform(28, "/sdcard", false, false, false, OpenThrows);
    assert LegacyDirectory(None, "/sdcard") == "/sdcard/Pictures";
    assert PathOf(BackgroundFile(s, p).value) == "/sdcard/Pictures/shot1.jpg";
  }
}
