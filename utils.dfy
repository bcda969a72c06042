/**
 * The pure helpers of the library: MIME-type derivation from a file
 * extension and the platform-level test for the scoped-storage era.
 */
module Utils {

  /** File.separator on the platform. */
  const Separator: string := "/"

  /** Build.VERSION_CODES.Q, the first API level with scoped storage. */
  const AndroidQ: int := 29

  /**
   * getMimeType: drop the first character of the extension (the dot),
   * rewrite exactly "jpg" to "jpeg", and put "image/" in front.
   * An empty argument makes the Java substring(1) call throw, so it is
   * excluded here.
   */
  function MimeType(src: string): (r: string)
    requires |src| >= 1
    ensures |r| >= 6 && r[..6] == "image/"
    ensures r[6..] == "jpeg" <==> src[1..] == "jpg" || src[1..] == "jpeg"
  {
    var sub := src[1..];
    var sub := if sub == "jpg" then "jpeg" else sub;
    var r := "image" + Separator + sub;
    assert r[6..] == sub;
    r
  }

  /** isAndroidQ, with the running SDK level passed in: API level 29 (Android 10) or later. */
  predicate IsAndroidQ(sdk: int): (r: bool)
    ensures r <==> 29 <= sdk
  {
    sdk >= AndroidQ
  }

  lemma MimeTypeOfJpg()
    ensures MimeType(".jpg") == "image/jpeg"
  {
  }

  /** Any extension other than one ending in exactly "jpg" keeps its tail verbatim. */
  lemma MimeTypeOfOther(src: string)
    requires |src| >= 1 && src[1..] != "jpg"
    ensures MimeType(src) == "image/" + src[1..]
  {
  }

  /**
   * Two extensions give the same MIME type exactly when their tails agree,
   * or one tail is "jpg" and the other "jpeg". In particular the first
   * character is never looked at.
   */
  lemma MimeTypeCollision(a: string, b: string)
    requires |a| >= 1 && |b| >= 1
    ensures MimeType(a) == MimeType(b) <==>
              a[1..] == b[1..] || (a[1..] == "jpg" && b[1..] == "jpeg") || (a[1..] == "jpeg" && b[1..] == "jpg")
  {
    var ra, rb := MimeType(a), MimeType(b);
    var ta := if a[1..] == "jpg" then "jpeg" else a[1..];
    var tb := if b[1..] == "jpg" then "jpeg" else b[1..];
    assert ra[6..] == ta;
    assert rb[6..] == tb;
    if ra == rb {
      assert ta == tb;
    }
  }

  /** The mapping is neither injective nor case-insensitive. */
  lemma MimeTypeNotInjective()
    ensures MimeType(".jpg") == MimeType(".jpeg") == "image/jpeg"
    ensures MimeType(".JPG") == "image/JPG"
    ensures MimeType(".png") == "image/png"
    ensures MimeType(".nomedia") == "image/nomedia"
  {
  }

  /** Once the scoped-storage era is reached, every later SDK level is in it too. */
  lemma IsAndroidQMonotone(sdk: int, later: int)
    requires IsAndroidQ(sdk) && sdk <= later
    ensures IsAndroidQ(later)
  {
  }
}
