/**
 * The request builder: a PixelShot object collects filename, path,
 * storage scope, format and quality, and listener through setters that
 * overwrite its fields, then save() captures a bitmap and hands a copy of
 * the configuration to a BitmapSaver.
 */
module PixelShot {
  import opened Wrappers
  import opened Capture
  import opened Saving

  /** JPG_MAX_QUALITY */
  const JpgMaxQuality: int := 100

  /** What PixelCopyHelper reports for a SurfaceView. */
  datatype CopyOutcome = CopyReady | CopyError

  /** How a call to save() ends, with the events it produced. */
  datatype SaveOutcome =
    | NullViewThrown            // getAppContext threw NullPointerException before any saver existed
    | Finished(events: seq<Event>)

  predicate KnownExtension(ext: string)
  {
    ext == ExtensionJpg || ext == ExtensionPng || ext == ExtensionNomedia
  }

  /**
   * What getBitmap captures from a view when the request holds no bitmap:
   * a TextureView's snapshot, a RecyclerView's long bitmap with one row per
   * item, or a drawing of any other view at its size.
   */
  predicate CaptureOf(v: ViewKind, b: Bitmap)
  {
    match v
    case TextureView => b == TextureSnapshot
    case RecyclerView(w, h, n) =>
      b.LongBitmap? && b.listWidth == w && b.totalHeight == Wrap32(h * n)
      && |b.rowTops| == (if n < 0 then 0 else n)
      && forall i :: 0 <= i < |b.rowTops| ==> b.rowTops[i] == Wrap32(i * h)
    case PlainView(w, h) => b == Drawn(w, h)
    case SurfaceView(w, h) => b == Drawn(w, h)
  }

  /** The configuration of a freshly built request. */
  function DefaultSettings(timestamp: string): (s: Settings)
    ensures s.jpgQuality == 100 && s.fileExtension == ".jpg" && s.filename == timestamp
    ensures s.path == None && !s.saveInternal && !s.hasListener
  {
    Settings(JpgMaxQuality, ExtensionJpg, timestamp, None, false, false)
  }

  /**
   * The outcome save() produces for a request built from `view` (None for a
   * request built from a bitmap) with configuration s.
   */
  function SaveSpec(view: Option<ViewKind>, s: Settings, p: Platform, copy: CopyOutcome, postExecuteRuns: bool): SaveOutcome
    requires KnownExtension(s.fileExtension)
  {
    match view
    case None => NullViewThrown
    case Some(v) =>
      if v.SurfaceView? && copy == CopyError then Finished(if s.hasListener then [Failed] else [])
      else Finished(ExecuteTrace(s, p, postExecuteRuns))
  }

  class PixelShot {
    var hasListener: bool
    var jpgQuality: int
    var fileExtension: string
    var filename: string
    var path: Option<string>
    var saveInternal: bool
    var bitmap: Option<Bitmap>
    var view: Option<ViewKind>

    /** The extension only ever takes one of the three constant values. */
    ghost predicate Valid()
      reads this
    {
      KnownExtension(fileExtension)
    }

    /** The configuration save() hands to the saver. */
    function Config(): Settings
      reads this
    {
      Settings(jpgQuality, fileExtension, filename, path, saveInternal, hasListener)
    }

    /** of(View). The default filename, a timestamp, is passed in. */
    constructor OfView(v: ViewKind, timestamp: string)
      ensures Valid() && Config() == DefaultSettings(timestamp)
      ensures view == Some(v) && bitmap == None
    {
      hasListener := false;
      jpgQuality := JpgMaxQuality;
      fileExtension := ExtensionJpg;
      filename := timestamp;
      path := None;
      saveInternal := false;
      bitmap := None;
      view := Some(v);
    }

    /** of(Bitmap): the request has no view. */
    constructor OfBitmap(b: Bitmap, timestamp: string)
      ensures Valid() && Config() == DefaultSettings(timestamp)
      ensures view == None && bitmap == Some(b)
    {
      hasListener := false;
      jpgQuality := JpgMaxQuality;
      fileExtension := ExtensionJpg;
      filename := timestamp;
      path := None;
      saveInternal := false;
      bitmap := Some(b);
      view := None;
    }

    method SetFilename(name: string)
      requires Valid()
      modifies this`filename
      ensures Valid() && Config() == old(Config()).(filename := name)
    {
      filename := name;
    }

    /** setPath: a null argument clears the path; saveInternal is left as it was. */
    method SetPath(p: Option<string>)
      requires Valid()
      modifies this`path
      ensures Valid() && Config() == old(Config()).(path := p)
      ensures saveInternal == old(saveInternal)
    {
      path := p;
    }

    method SetInternalPath(p: Option<string>)
      requires Valid()
      modifies this`path, this`saveInternal
      ensures Valid() && Config() == old(Config()).(path := p, saveInternal := true)
    {
      path := p;
      saveInternal := true;
    }

    /** setResultListener: `present` is false when null is passed. */
    method SetResultListener(present: bool)
      requires Valid()
      modifies this`hasListener
      ensures Valid() && Config() == old(Config()).(hasListener := present)
    {
      hasListener := present;
    }

    /** toJPG(): highest quality. */
    method ToJpg()
      requires Valid()
      modifies this`jpgQuality, this`fileExtension
      ensures Valid() && Config() == old(Config()).(jpgQuality := JpgMaxQuality, fileExtension := ExtensionJpg)
    {
      jpgQuality := JpgMaxQuality;
      fileExtension := ExtensionJpg;
    }

    /** toJPG(int): the quality is stored as given, not clamped to 0..100. */
    method ToJpgWithQuality(quality: int)
      requires Valid()
      modifies this`jpgQuality, this`fileExtension
      ensures Valid() && Config() == old(Config()).(jpgQuality := quality, fileExtension := ExtensionJpg)
    {
      jpgQuality := quality;
      fileExtension := ExtensionJpg;
    }

    /** toPNG: the stored JPEG quality is kept. */
    method ToPng()
      requires Valid()
      modifies this`fileExtension
      ensures Valid() && Config() == old(Config()).(fileExtension := ExtensionPng)
    {
      fileExtension := ExtensionPng;
    }

    method ToNomedia()
      requires Valid()
      modifies this`fileExtension
      ensures Valid() && Config() == old(Config()).(fileExtension := ExtensionNomedia)
    {
      fileExtension := ExtensionNomedia;
    }

    /** generateLongBitmap, with the drawing left out and the row layout kept. */
    static method GenerateLongBitmap(v: ViewKind) returns (b: Bitmap)
      requires v.RecyclerView?
      ensures b.LongBitmap? && b.listWidth == v.measuredWidth
      ensures b.totalHeight == Wrap32(v.itemHeight * v.itemCount)
      ensures |b.rowTops| == if v.itemCount < 0 then 0 else v.itemCount
      ensures forall i :: 0 <= i < |b.rowTops| ==> b.rowTops[i] == Wrap32(i * v.itemHeight)
    {
      var height, tops := LongBitmapLayout(v.itemHeight, v.itemCount);
      b := LongBitmap(v.measuredWidth, height, tops);
    }

    /** getBitmap: a bitmap already held is reused; otherwise one is captured from the view and kept. */
    method GetBitmap() returns (b: Bitmap)
      requires view.Some?
      modifies this`bitmap
      ensures bitmap == Some(b)
      ensures old(bitmap).Some? ==> b == old(bitmap).value
      ensures old(bitmap).None? ==> CaptureOf(view.value, b)
    {
      if bitmap.Some? {
        b := bitmap.value;
      } else {
        match view.value
        case TextureView =>
          b := TextureSnapshot;
        case RecyclerView(_, _, _) =>
          b := GenerateLongBitmap(view.value);
        case PlainView(w, h) =>
          b := Drawn(w, h);
        case SurfaceView(w, h) =>
          b := Drawn(w, h);
      }
      bitmap := Some(b);
    }

    /**
     * save(): a SurfaceView goes through PixelCopyHelper (its answer is
     * `copy`); any other view is captured synchronously. Either way the
     * saver is constructed with getAppContext(), which throws when the
     * request was built from a bitmap. The saver then runs to completion.
     */
    method Save(p: Platform, copy: CopyOutcome, postExecuteRuns: bool) returns (r: SaveOutcome)
      requires Valid()
      modifies this`bitmap
      ensures r == SaveSpec(view, Config(), p, copy, postExecuteRuns)
      ensures view.None? || view.value.SurfaceView? ==> bitmap == old(bitmap)
      ensures view.Some? && !view.value.SurfaceView? ==>
                bitmap.Some?
                && (old(bitmap).Some? ==> bitmap == old(bitmap))
                && (old(bitmap).None? ==> CaptureOf(view.value, bitmap.value))
    {
      if view.Some? && view.value.SurfaceView? {
        if copy == CopyError {
          r := Finished(if hasListener then [Failed] else []);
        } else {
          var saver := new BitmapSaver(Config(), SurfaceCopy);
          saver.Execute(p, postExecuteRuns);
          r := Finished(saver.trace);
        }
      } else if view.None? {
        r := NullViewThrown;
      } else {
        var b := GetBitmap();
        var saver := new BitmapSaver(Config(), b);
        saver.Execute(p, postExecuteRuns);
        r := Finished(saver.trace);
      }
    }
  }

  /** A SurfaceView whose pixel copy fails never reaches the saver: only the failure callback, if any. */
  lemma SurfaceCopyErrorSkipsPersistence(w: Int32, h: Int32, s: Settings, p: Platform, postExecuteRuns: bool)
    requires KnownExtension(s.fileExtension)
    ensures var r := SaveSpec(Some(SurfaceView(w, h)), s, p, CopyError, postExecuteRuns);
            r.Finished?
            && (forall k :: 0 <= k < |r.events| ==> !r.events[k].InsertRequested? && !r.events[k].WriteAttempted? && !r.events[k].Recycled?)
            && (s.hasListener <==> r.events == [Failed])
            && (!s.hasListener <==> r.events == [])
  {
  }

  /** setPath after setInternalPath replaces the path but the request still bypasses scoped storage. */
  method InternalPathSurvivesSetPath(v: ViewKind, timestamp: string, internal: Option<string>, later: Option<string>)
    returns (cfg: Settings)
    ensures cfg.saveInternal && cfg.path == later
    ensures forall sdk :: !UsesScopedStorage(sdk, cfg.saveInternal)
  {
    var shot := new PixelShot.OfView(v, timestamp);
    shot.SetInternalPath(internal);
    shot.SetPath(later);
    cfg := shot.Config();
  }

  /** toPNG keeps a custom JPEG quality, and a later toJPG() resets it to 100. */
  method QualityAcrossFormats(v: ViewKind, timestamp: string, quality: int) returns (afterPng: Settings, afterJpg: Settings)
    ensures afterPng.fileExtension == ".png" && afterPng.jpgQuality == quality
    ensures afterJpg.fileExtension == ".jpg" && afterJpg.jpgQuality == 100
  {
    var shot := new PixelShot.OfView(v, timestamp);
    shot.ToJpgWithQuality(quality);
    shot.ToPng();
    afterPng := shot.Config();
    shot.ToJpg();
    afterJpg := shot.Config();
  }

  /** A request built from a bitmap always throws in save(), before any saver exists. */
  lemma BitmapRequestAlwaysThrows(s: Settings, p: Platform, copy: CopyOutcome, postExecuteRuns: bool)
    requires KnownExtension(s.fileExtension)
    ensures SaveSpec(None, s, p, copy, postExecuteRuns) == NullViewThrown
  {
  }
}
