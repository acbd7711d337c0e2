/**
 * The media page's file picker (src/components/pages/media.rs).
 *
 * The page keeps three state cells: the object URL of the shown file, its
 * kind, and an error message. `MediaPicker` holds them as fields. It also
 * keeps the URL the revoke-on-change effect last captured, and two logs of
 * the browser calls: the object URLs created and the ones revoked. Creating
 * an object URL is given as an outcome; reading the file input is given as
 * the list of selected files.
 */
module Media {
  import opened Wrappers

  datatype MediaKind = Image | Video

  /** Rust's `str::starts_with`. */
  predicate StartsWith(s: string, prefix: string) {
    |prefix| <= |s| && s[..|prefix|] == prefix
  }

  /** The kind of media a MIME type names, if it is one the page can show. */
  function DetectMediaKind(mime: string): (kind: Option<MediaKind>)
    ensures kind == Some(Image) <==> StartsWith(mime, "image/")
    ensures kind == Some(Video) <==> !StartsWith(mime, "image/") && StartsWith(mime, "video/")
    ensures kind == None <==> !StartsWith(mime, "image/") && !StartsWith(mime, "video/")
  {
    if StartsWith(mime, "image/") then Some(Image)
    else if StartsWith(mime, "video/") then Some(Video)
    else None
  }

  /**
   * No MIME type starts with both prefixes, so the order of the two tests
   * never matters: a type is a video exactly when it starts with "video/".
   */
  lemma DetectionOrderIrrelevant(mime: string)
    ensures !(StartsWith(mime, "image/") && StartsWith(mime, "video/"))
    ensures DetectMediaKind(mime) == Some(Video) <==> StartsWith(mime, "video/")
  {
    if StartsWith(mime, "image/") {
      assert mime[..6][0] == 'i';
    }
  }

  /** A file from the file input; only its MIME type matters here. */
  datatype SelectedFile = SelectedFile(mimeType: string)

  /** The outcome of asking the browser for an object URL of the file. */
  datatype UrlCreation = Created(url: string) | CreationFailed(detail: string)

  const UnsupportedTypeMessage: string := "Unsupported file type. Please select an image or video."

  /** The error shown when no object URL could be created; `detail` is the browser's error as debug text. */
  function CreationErrorText(detail: string): (text: string)
    ensures |text| >= 26 && text[..26] == "Error creating media URL: " && text[26..] == detail
  {
    "Error creating media URL: " + detail
  }

  class MediaPicker {
    var mediaUrl: Option<string>
    var mediaKind: Option<MediaKind>
    var errorMessage: Option<string>

    /** The URL the revoke-on-change effect captured when it last ran. */
    var effectUrl: Option<string>
    /** Object URLs created, in order. */
    var created: seq<string>
    /** Object URLs revoked, in order. */
    var revoked: seq<string>

    /**
     * A URL and a kind are shown together or not at all, and every object
     * URL created is either the one shown or already revoked.
     */
    ghost predicate Valid()
      reads this
    {
      && (mediaUrl.Some? <==> mediaKind.Some?)
      && (mediaUrl.Some? ==> mediaUrl.value in created)
      && (forall u :: u in created ==> u in revoked || mediaUrl == Some(u))
    }

    /** Whether the page shows a preview. */
    function HasMedia(): (r: bool)
      reads this
      requires Valid()
      ensures r <==> mediaUrl.Some?
    {
      mediaUrl.Some? && mediaKind.Some?
    }

    constructor ()
      ensures Valid()
      ensures mediaUrl == None && mediaKind == None && errorMessage == None
      ensures effectUrl == None && created == [] && revoked == []
    {
      mediaUrl, mediaKind, errorMessage := None, None, None;
      effectUrl := None;
      created, revoked := [], [];
    }

    /**
     * The file input changed. Without a first file nothing happens.
     * Otherwise the URL shown so far is revoked, and then the three cells
     * show the new file, or the reason it cannot be shown.
     */
    method OnFileChange(files: Option<seq<SelectedFile>>, creation: UrlCreation)
      requires Valid()
      modifies this
      ensures Valid()
      ensures files.None? || files.value == [] ==> unchanged(this)
      ensures files.Some? && files.value != [] ==>
        && revoked == old(revoked) + (if old(mediaUrl).Some? then [old(mediaUrl).value] else [])
        && effectUrl == old(effectUrl)
        && var kind := DetectMediaKind(files.value[0].mimeType);
           if kind.Some? && creation.Created? then
             && mediaUrl == Some(creation.url) && mediaKind == kind && errorMessage == None
             && created == old(created) + [creation.url]
           else
             && mediaUrl == None && mediaKind == None
             && created == old(created)
             && errorMessage == Some(if kind.None? then UnsupportedTypeMessage else CreationErrorText(creation.detail))
    {
      if files.None? {
        return;
      }
      if files.value == [] {
        return;
      }
      var file := files.value[0];

      if mediaUrl.Some? {
        revoked := revoked + [mediaUrl.value];
      }

      match DetectMediaKind(file.mimeType) {
        case Some(kind) =>
          match creation {
            case Created(url) =>
              created := created + [url];
              mediaUrl := Some(url);
              mediaKind := Some(kind);
              errorMessage := None;
            case CreationFailed(err) =>
              mediaUrl := None;
              mediaKind := None;
              errorMessage := Some(CreationErrorText(err));
          }
        case None =>
          mediaUrl := None;
          mediaKind := None;
          errorMessage := Some(UnsupportedTypeMessage);
      }
    }

    /**
     * The render after a change of the URL cell runs the effect keyed on it:
     * the previous run's cleanup revokes the URL that run captured, and the
     * new run captures the current URL.
     */
    method RunUrlEffect()
      requires Valid()
      modifies this`effectUrl, this`revoked
      ensures Valid()
      ensures effectUrl == mediaUrl
      ensures revoked == old(revoked) +
        (if old(effectUrl) != mediaUrl && old(effectUrl).Some? then [old(effectUrl).value] else [])
    {
      if mediaUrl != effectUrl {
        if effectUrl.Some? {
          revoked := revoked + [effectUrl.value];
        }
        effectUrl := mediaUrl;
      }
    }

    /**
     * The page is torn down: the last effect's cleanup revokes the URL it
     * captured. Once that run has seen the current URL, no object URL is
     * left unrevoked.
     */
    method Unmount()
      requires Valid()
      modifies this`revoked
      ensures Valid()
      ensures revoked == old(revoked) + (if effectUrl.Some? then [effectUrl.value] else [])
      ensures effectUrl == mediaUrl ==> forall u :: u in created ==> u in revoked
    {
      if effectUrl.Some? {
        revoked := revoked + [effectUrl.value];
      }
    }
  }

  /**
   * An image and then a video are picked, each render running the effect,
   * and the page is left. The first URL is revoked twice, once by the
   * handler and once by the effect's cleanup; the second by the last cleanup.
   */
  method ReplaceScenario() returns (shown: Option<MediaKind>, revokedUrls: seq<string>)
    ensures shown == Some(Video)
    ensures revokedUrls == ["blob:1", "blob:1", "blob:2"]
  {
    var p := new MediaPicker();
    p.OnFileChange(Some([SelectedFile("image/png")]), Created("blob:1"));
    p.RunUrlEffect();
    p.OnFileChange(Some([SelectedFile("video/mp4")]), Created("blob:2"));
    assert StartsWith("video/mp4", "video/");
    p.RunUrlEffect();
    p.Unmount();
    shown, revokedUrls := p.mediaKind, p.revoked;
  }

  /**
   * An image is shown and then a text file is picked: the image URL is
   * revoked and the page shows only the unsupported-type message.
   */
  method UnsupportedScenario() returns (shown: bool, error: Option<string>, revokedUrls: seq<string>)
    ensures !shown && error == Some(UnsupportedTypeMessage) && revokedUrls == ["blob:1"]
  {
    var p := new MediaPicker();
    p.OnFileChange(Some([SelectedFile("image/png")]), Created("blob:1"));
    assert StartsWith("image/png", "image/");
    p.RunUrlEffect();
    p.OnFileChange(Some([SelectedFile("text/plain")]), Created("blob:2"));
    assert "text/plain"[..6][0] == 't';
    shown, error, revokedUrls := p.HasMedia(), p.errorMessage, p.revoked;
  }
}
