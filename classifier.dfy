/** What one listing post contributes to the media list: the body of the per-post loop of fetchMedia. */
module Classifier {
  import opened Common
  import opened Text

  datatype Kind = Image | Video

  /** One entry of the media list: the URL handed to the img or video element, and which of the two. */
  datatype MediaRef = MediaRef(url: string, kind: Kind)

  /** One value of a gallery post's `media_metadata`: its `status` and its source URL `s.u`. */
  datatype GalleryItem = GalleryItem(status: Option<string>, sourceUrl: Option<string>)

  /** The fields of a listing post that the classification reads. `url` is read without a guard,
      so it is always there; a missing `media_metadata` is an empty one. */
  datatype Post = Post(
    postHint: Option<string>,         // post_hint
    url: string,                      // url
    previewUrl: Option<string>,       // preview.images[0].source.url
    isVideo: bool,                    // is_video
    fallbackUrl: Option<string>,      // media.reddit_video.fallback_url
    isGallery: bool,                  // is_gallery
    mediaMetadata: seq<GalleryItem>)  // media_metadata, values in key order

  /** The three media-type toggles of the setup screen. */
  datatype Flags = Flags(showImages: bool, showGIFs: bool, showVideos: bool)

  /** The Redgifs per-asset request: `gif.urls.hd` of the answer for (asset id, bearer token). */
  type RedgifsLookup = (string, string) -> Option<string>

  const ImgurHost := "https://i.imgur.com/"
  const GfycatHost := "https://giant.gfycat.com/"

  /** The branches that may set the post's single reference, in the order the code tests them. */
  datatype Branch = ImageHint | Preview | NativeVideo | GifSuffix | DirectVideo | Imgur | Gfycat | Redgifs

  function Rank(b: Branch): nat {
    match b
    case ImageHint => 0
    case Preview => 1
    case NativeVideo => 2
    case GifSuffix => 3
    case DirectVideo => 4
    case Imgur => 5
    case Gfycat => 6
    case Redgifs => 7
  }

  /** The media-type toggle each branch is meant to honour. */
  predicate Gate(b: Branch, flags: Flags) {
    match b
    case ImageHint | Preview | Imgur => flags.showImages
    case GifSuffix => flags.showGIFs
    case NativeVideo | DirectVideo | Gfycat | Redgifs => flags.showVideos
  }

  /** The imgur asset id: the last path segment up to its first dot. */
  function ImgurId(url: string): string {
    BeforeFirstDot(LastSegment(url))
  }

  predicate ImageHintTest(post: Post, flags: Flags) {
    post.postHint == Some("image") && flags.showImages && post.url != ""
  }

  predicate PreviewTest(post: Post, flags: Flags) {
    flags.showImages && Present(post.previewUrl)
  }

  predicate NativeVideoTest(post: Post, flags: Flags) {
    post.isVideo && flags.showVideos && Present(post.fallbackUrl)
  }

  predicate GifTest(post: Post, flags: Flags) {
    EndsWithIgnoreCase(post.url, ".gif") && flags.showGIFs
  }

  /** A `.mp4`/`.webm` URL on one of the three direct-media hosts. */
  predicate DirectVideoTest(post: Post, flags: Flags) {
    var url := post.url;
    && (EndsWithIgnoreCase(url, ".mp4") || EndsWithIgnoreCase(url, ".webm"))
    && flags.showVideos
    && (Contains(url, "v.redd.it") || Contains(url, "i.imgur.com") || Contains(url, "giant.gfycat.com"))
  }

  predicate ImgurTest(post: Post, flags: Flags) {
    Contains(post.url, "imgur.com") && flags.showImages
  }

  /** Whether the imgur branch treats the post as a video. */
  predicate ImgurAnimated(url: string) {
    Contains(url, ".gifv") || Contains(url, ".mp4")
  }

  predicate GfycatTest(post: Post, flags: Flags) {
    Contains(post.url, "gfycat.com") && flags.showVideos
  }

  predicate RedgifsTest(post: Post, flags: Flags, token: Option<string>) {
    Contains(post.url, "redgifs.com") && flags.showVideos && Present(token)
  }

  /** What `mediaUrl` and `type` become when branch b's test passes, or None when it fails. The
      preview test also asks that nothing be chosen yet, which at that point means that the image
      hint did not fire. */
  function Fire(b: Branch, post: Post, flags: Flags, token: Option<string>, lookup: RedgifsLookup)
    : (r: Option<MediaRef>)
    ensures r.Some? ==> Gate(b, flags) && r.value.url != ""
  {
    var url := post.url;
    match b
    case ImageHint =>
      if ImageHintTest(post, flags) then Some(MediaRef(url, Image)) else None
    case Preview =>
      if !ImageHintTest(post, flags) && PreviewTest(post, flags)
      then Some(MediaRef(UnescapeAmp(post.previewUrl.value), Image)) else None
    case NativeVideo =>
      if NativeVideoTest(post, flags) then Some(MediaRef(post.fallbackUrl.value, Video)) else None
    case GifSuffix =>
      if GifTest(post, flags) then Some(MediaRef(url, Image)) else None
    case DirectVideo =>
      if DirectVideoTest(post, flags) then Some(MediaRef(url, Video)) else None
    case Imgur =>
      if ImgurTest(post, flags) then
        if ImgurAnimated(url)
        then Some(MediaRef(ImgurHost + ImgurId(url) + ".mp4", Video))
        else Some(MediaRef(ImgurHost + ImgurId(url) + ".jpg", Image))
      else None
    case Gfycat =>
      if GfycatTest(post, flags) then Some(MediaRef(GfycatHost + LastSegment(url) + ".mp4", Video)) else None
    case Redgifs =>
      if !RedgifsTest(post, flags, token) then None
      else
        var answer := lookup(LastSegment(url), token.value);
        if Present(answer) then Some(MediaRef(answer.value, Video)) else None
  }

  /** A branch whose test passes overwrites whatever was chosen before it. */
  function Over(chosen: Option<MediaRef>, b: Branch, post: Post, flags: Flags, token: Option<string>,
                lookup: RedgifsLookup): Option<MediaRef>
  {
    var f := Fire(b, post, flags, token, lookup);
    if f.Some? then f else chosen
  }

  /** The reference chosen by the branches that read the post's own fields (hint, preview,
      native video, .gif suffix, direct video links), in order, each overwriting the last. */
  function FieldRef(post: Post, flags: Flags, token: Option<string>, lookup: RedgifsLookup): Option<MediaRef> {
    var c0 := Fire(ImageHint, post, flags, token, lookup);
    var c1 := Over(c0, Preview, post, flags, token, lookup);
    var c2 := Over(c1, NativeVideo, post, flags, token, lookup);
    var c3 := Over(c2, GifSuffix, post, flags, token, lookup);
    Over(c3, DirectVideo, post, flags, token, lookup)
  }

  /** The host rewrites (imgur, gfycat, redgifs) run after them over what they chose. */
  function HostRef(chosen: Option<MediaRef>, post: Post, flags: Flags, token: Option<string>,
                   lookup: RedgifsLookup): Option<MediaRef>
  {
    var c5 := Over(chosen, Imgur, post, flags, token, lookup);
    var c6 := Over(c5, Gfycat, post, flags, token, lookup);
    Over(c6, Redgifs, post, flags, token, lookup)
  }

  /** The post's single reference: all eight branches in order, each overwriting the last. */
  function SingleRef(post: Post, flags: Flags, token: Option<string>, lookup: RedgifsLookup): Option<MediaRef> {
    HostRef(FieldRef(post, flags, token, lookup), post, flags, token, lookup)
  }

  /** The first five branch tests of the per-post loop, on a local that every passing test
      overwrites (the preview test only while nothing is chosen). */
  method ClassifyFields(post: Post, flags: Flags, token: Option<string>, lookup: RedgifsLookup)
    returns (chosen: Option<MediaRef>)
    ensures chosen == FieldRef(post, flags, token, lookup)
  {
    chosen := None;
    if ImageHintTest(post, flags) {
      chosen := Some(MediaRef(post.url, Image));
    }
    if chosen.None? && PreviewTest(post, flags) {
      chosen := Some(MediaRef(UnescapeAmp(post.previewUrl.value), Image));
    }
    if NativeVideoTest(post, flags) {
      chosen := Some(MediaRef(post.fallbackUrl.value, Video));
    }
    if GifTest(post, flags) {
      chosen := Some(MediaRef(post.url, Image));
    }
    if DirectVideoTest(post, flags) {
      chosen := Some(MediaRef(post.url, Video));
    }
  }

  /** The imgur and gfycat rewrites and then the redgifs lookup, overwriting `chosen` when their
      tests pass. */
  method ClassifyHosts(chosen: Option<MediaRef>, post: Post, flags: Flags, token: Option<string>,
                       lookup: RedgifsLookup)
    returns (r: Option<MediaRef>)
    ensures r == HostRef(chosen, post, flags, token, lookup)
  {
    r := chosen;
    if ImgurTest(post, flags) {
      var imgurId := ImgurId(post.url);
      if ImgurAnimated(post.url) {
        r := Some(MediaRef(ImgurHost + imgurId + ".mp4", Video));
      } else {
        r := Some(MediaRef(ImgurHost + imgurId + ".jpg", Image));
      }
    }
    if GfycatTest(post, flags) {
      var gfyId := LastSegment(post.url);
      r := Some(MediaRef(GfycatHost + gfyId + ".mp4", Video));
    }
    r := ClassifyRedgifs(r, post, flags, token, lookup);
  }

  /** The redgifs branch: with a token, the asset id's lookup answer replaces `chosen` when it
      has an hd URL. */
  method ClassifyRedgifs(chosen: Option<MediaRef>, post: Post, flags: Flags, token: Option<string>,
                       lookup: RedgifsLookup)
    returns (r: Option<MediaRef>)
    ensures r == Over(chosen, Redgifs, post, flags, token, lookup)
  {
    r := chosen;
    if RedgifsTest(post, flags, token) {
      var redgifsId := LastSegment(post.url);
      var redgifsVideoUrl := lookup(redgifsId, token.value);
      if Present(redgifsVideoUrl) {
        r := Some(MediaRef(redgifsVideoUrl.value, Video));
      }
    }
  }

  /** The branch tests of the per-post loop, run on local `mediaUrl`/`type` variables that every
      passing test overwrites; the result is what the `if (mediaUrl)` push would add. */
  method ClassifyPost(post: Post, flags: Flags, token: Option<string>, lookup: RedgifsLookup)
    returns (single: Option<MediaRef>)
    ensures single == SingleRef(post, flags, token, lookup)
  {
    var chosen := ClassifyFields(post, flags, token, lookup);
    single := ClassifyHosts(chosen, post, flags, token, lookup);
  }

  /** The branches in the order the code tests them. */
  const Order: seq<Branch> := [ImageHint, Preview, NativeVideo, GifSuffix, DirectVideo, Imgur, Gfycat, Redgifs]

  /** Running a list of branches over an initial choice, each passing test overwriting it. */
  function Run(chosen: Option<MediaRef>, bs: seq<Branch>, post: Post, flags: Flags, token: Option<string>,
               lookup: RedgifsLookup): Option<MediaRef>
    decreases |bs|
  {
    if bs == [] then chosen else Run(Over(chosen, bs[0], post, flags, token, lookup), bs[1..], post, flags, token, lookup)
  }

  lemma RankIsPosition()
    ensures |Order| == 8
    ensures forall j :: 0 <= j < |Order| ==> Rank(Order[j]) == j
    ensures forall b :: Order[Rank(b)] == b
  {
  }

  /** The single reference is the branches of Order run over nothing. */
  lemma SingleRefRunsOrder(post: Post, flags: Flags, token: Option<string>, lookup: RedgifsLookup)
    ensures SingleRef(post, flags, token, lookup) == Run(None, Order, post, flags, token, lookup)
  {
    var c0 := Over(None, ImageHint, post, flags, token, lookup);
    var c1 := Over(c0, Preview, post, flags, token, lookup);
    var c2 := Over(c1, NativeVideo, post, flags, token, lookup);
    var c3 := Over(c2, GifSuffix, post, flags, token, lookup);
    var c4 := Over(c3, DirectVideo, post, flags, token, lookup);
    var c5 := Over(c4, Imgur, post, flags, token, lookup);
    var c6 := Over(c5, Gfycat, post, flags, token, lookup);
    var c7 := Over(c6, Redgifs, post, flags, token, lookup);
    assert c4 == FieldRef(post, flags, token, lookup);
    assert Run(None, Order, post, flags, token, lookup) == Run(c0, Order[1..], post, flags, token, lookup);
    assert Run(c0, Order[1..], post, flags, token, lookup) == Run(c1, Order[2..], post, flags, token, lookup);
    assert Run(c1, Order[2..], post, flags, token, lookup) == Run(c2, Order[3..], post, flags, token, lookup);
    assert Run(c2, Order[3..], post, flags, token, lookup) == Run(c3, Order[4..], post, flags, token, lookup);
    assert Run(c3, Order[4..], post, flags, token, lookup) == Run(c4, Order[5..], post, flags, token, lookup);
    assert Run(c4, Order[5..], post, flags, token, lookup) == Run(c5, Order[6..], post, flags, token, lookup);
    assert Run(c5, Order[6..], post, flags, token, lookup) == Run(c6, Order[7..], post, flags, token, lookup);
    assert Run(c6, Order[7..], post, flags, token, lookup) == Run(c7, Order[8..], post, flags, token, lookup);
  }

  /** Running branches yields a reference exactly when there was one already or some test passes. */
  lemma {:induction false} RunSome(chosen: Option<MediaRef>, bs: seq<Branch>, post: Post, flags: Flags,
                                   token: Option<string>, lookup: RedgifsLookup)
    ensures Run(chosen, bs, post, flags, token, lookup).Some?
            <==> chosen.Some? || exists j :: 0 <= j < |bs| && Fire(bs[j], post, flags, token, lookup).Some?
    decreases |bs|
  {
    if bs != [] {
      var next := Over(chosen, bs[0], post, flags, token, lookup);
      RunSome(next, bs[1..], post, flags, token, lookup);
      if j :| 0 <= j < |bs[1..]| && Fire(bs[1..][j], post, flags, token, lookup).Some? {
        assert Fire(bs[j + 1], post, flags, token, lookup).Some?;
      }
      if j :| 0 <= j < |bs| && Fire(bs[j], post, flags, token, lookup).Some? {
        if j > 0 {
          assert Fire(bs[1..][j - 1], post, flags, token, lookup).Some?;
        }
      }
    }
  }

  /** Running branches yields the reference of the last branch whose test passes. */
  lemma {:induction false} RunLastFiring(chosen: Option<MediaRef>, bs: seq<Branch>, i: nat, post: Post,
                                         flags: Flags, token: Option<string>, lookup: RedgifsLookup)
    requires i < |bs| && Fire(bs[i], post, flags, token, lookup).Some?
    requires forall j :: i < j < |bs| ==> Fire(bs[j], post, flags, token, lookup).None?
    ensures Run(chosen, bs, post, flags, token, lookup) == Fire(bs[i], post, flags, token, lookup)
    decreases |bs|
  {
    var next := Over(chosen, bs[0], post, flags, token, lookup);
    if i == 0 {
      RunNoneFiring(next, bs[1..], post, flags, token, lookup);
    } else {
      RunLastFiring(next, bs[1..], i - 1, post, flags, token, lookup);
    }
  }

  /** Running branches none of whose tests pass keeps the initial choice. */
  lemma {:induction false} RunNoneFiring(chosen: Option<MediaRef>, bs: seq<Branch>, post: Post, flags: Flags,
                                         token: Option<string>, lookup: RedgifsLookup)
    requires forall j :: 0 <= j < |bs| ==> Fire(bs[j], post, flags, token, lookup).None?
    ensures Run(chosen, bs, post, flags, token, lookup) == chosen
    decreases |bs|
  {
    if bs != [] {
      RunNoneFiring(chosen, bs[1..], post, flags, token, lookup);
    }
  }

  /** The single reference is the one of the last branch whose test passes, and there is one
      exactly when some branch's test passes. */
  lemma SingleRefIsLastFiring(post: Post, flags: Flags, token: Option<string>, lookup: RedgifsLookup)
    ensures SingleRef(post, flags, token, lookup).Some?
            <==> exists b :: Fire(b, post, flags, token, lookup).Some?
    ensures forall b ::
              && Fire(b, post, flags, token, lookup).Some?
              && (forall b' :: Rank(b) < Rank(b') ==> Fire(b', post, flags, token, lookup).None?)
              ==> SingleRef(post, flags, token, lookup) == Fire(b, post, flags, token, lookup)
  {
    SingleRefRunsOrder(post, flags, token, lookup);
    RankIsPosition();
    RunSome(None, Order, post, flags, token, lookup);
    if b :| Fire(b, post, flags, token, lookup).Some? {
      assert Fire(Order[Rank(b)], post, flags, token, lookup).Some?;
    }
    forall b |
      && Fire(b, post, flags, token, lookup).Some?
      && (forall b' :: Rank(b) < Rank(b') ==> Fire(b', post, flags, token, lookup).None?)
      ensures SingleRef(post, flags, token, lookup) == Fire(b, post, flags, token, lookup)
    {
      forall j | Rank(b) < j < |Order| ensures Fire(Order[j], post, flags, token, lookup).None? {
        assert Rank(Order[j]) == j;
      }
      RunLastFiring(None, Order, Rank(b), post, flags, token, lookup);
    }
  }

  /** Whatever the single reference is, it came from a branch whose toggle is on. */
  lemma SingleRefHonoursToggles(post: Post, flags: Flags, token: Option<string>, lookup: RedgifsLookup)
    ensures SingleRef(post, flags, token, lookup).Some? ==>
              exists b :: Gate(b, flags) && Fire(b, post, flags, token, lookup) == SingleRef(post, flags, token, lookup)
  {
    var r := SingleRef(post, flags, token, lookup);
    var b := ImageHint;
    if Fire(Redgifs, post, flags, token, lookup).Some? {
      b := Redgifs;
    } else if Fire(Gfycat, post, flags, token, lookup).Some? {
      b := Gfycat;
    } else if Fire(Imgur, post, flags, token, lookup).Some? {
      b := Imgur;
    } else if Fire(DirectVideo, post, flags, token, lookup).Some? {
      b := DirectVideo;
    } else if Fire(GifSuffix, post, flags, token, lookup).Some? {
      b := GifSuffix;
    } else if Fire(NativeVideo, post, flags, token, lookup).Some? {
      b := NativeVideo;
    } else if Fire(Preview, post, flags, token, lookup).Some? {
      b := Preview;
    }
    assert r.Some? ==> Fire(b, post, flags, token, lookup) == r;
  }

  /** Each branch reads only its own toggle: flags that agree on it give the same outcome. */
  lemma ToggleIndependence(b: Branch, post: Post, flags: Flags, flags': Flags, token: Option<string>,
                           lookup: RedgifsLookup)
    requires Gate(b, flags) == Gate(b, flags')
    ensures Fire(b, post, flags, token, lookup) == Fire(b, post, flags', token, lookup)
  {
  }

  /** The gif toggle gates the `.gif` suffix branch and nothing else. */
  lemma GifToggleGatesOnlyGif(b: Branch, post: Post, flags: Flags, showGIFs: bool, token: Option<string>,
                              lookup: RedgifsLookup)
    requires b != GifSuffix
    ensures Fire(b, post, flags, token, lookup) == Fire(b, post, flags.(showGIFs := showGIFs), token, lookup)
  {
    ToggleIndependence(b, post, flags, flags.(showGIFs := showGIFs), token, lookup);
  }

  /** The gallery branch reads only the image toggle. */
  lemma GalleryToggleIndependence(post: Post, flags: Flags, flags': Flags)
    requires flags.showImages == flags'.showImages
    ensures GalleryRefs(post, flags) == GalleryRefs(post, flags')
  {
  }

  /** The image-hint branch, when it fires, makes the preview irrelevant. */
  lemma HintSuppressesPreview(post: Post, flags: Flags, token: Option<string>, lookup: RedgifsLookup)
    requires ImageHintTest(post, flags)
    ensures SingleRef(post, flags, token, lookup) == SingleRef(post.(previewUrl := None), flags, token, lookup)
  {
  }

  /** A post on the Redgifs domain whose URL also ends in .gif ends up a video when the lookup
      answers: the later branch overwrites the earlier one. */
  lemma RedgifsOverridesGif(post: Post, flags: Flags, token: Option<string>, lookup: RedgifsLookup)
    requires EndsWithIgnoreCase(post.url, ".gif") && Contains(post.url, "redgifs.com")
    requires flags.showGIFs && flags.showVideos && Present(token)
    requires Present(lookup(LastSegment(post.url), token.value))
    ensures Fire(GifSuffix, post, flags, token, lookup).Some?
    ensures SingleRef(post, flags, token, lookup) == Some(MediaRef(lookup(LastSegment(post.url), token.value).value, Video))
  {
    assert GifTest(post, flags);
    assert RedgifsTest(post, flags, token);
    RedgifsDecides(post, flags, token, lookup);
  }

  /** The redgifs branch runs last, so when it fires it decides. */
  lemma RedgifsDecides(post: Post, flags: Flags, token: Option<string>, lookup: RedgifsLookup)
    requires Fire(Redgifs, post, flags, token, lookup).Some?
    ensures SingleRef(post, flags, token, lookup) == Fire(Redgifs, post, flags, token, lookup)
  {
  }

  /** The imgur branch answers to the image toggle even when it produces a video. */
  lemma ImgurVideoIgnoresVideoToggle(post: Post, flags: Flags, token: Option<string>, lookup: RedgifsLookup)
    requires Contains(post.url, "imgur.com") && Contains(post.url, ".gifv")
    requires flags.showImages && !flags.showVideos
    ensures Fire(Imgur, post, flags, token, lookup).Some?
    ensures Fire(Imgur, post, flags, token, lookup).value.kind == Video
  {
  }

  /** The imgur id of `<anything>/<id>.<ext>` is <id>. */
  lemma ImgurIdOfPath(url: string, path: string, id: string, ext: string)
    requires url == path + "/" + id + "." + ext
    requires '/' !in id && '.' !in id && '/' !in ext
    ensures ImgurId(url) == id
  {
    assert url == path + "/" + (id + "." + ext);
    assert '/' !in id + "." + ext;
    LastSegmentAfterSlash(path, id + "." + ext);
    BeforeFirstDotOfJoin(id, ext);
  }

  /** The imgur rewrite: `<anything>/<id>.<ext>` becomes the direct i.imgur.com URL of <id>, as an
      mp4 video when the URL mentions .gifv or .mp4, as a jpg image otherwise. */
  lemma ImgurRewrite(post: Post, flags: Flags, token: Option<string>, lookup: RedgifsLookup,
                     path: string, id: string, ext: string)
    requires post.url == path + "/" + id + "." + ext
    requires '/' !in id && '.' !in id && '/' !in ext
    requires Contains(post.url, "imgur.com") && flags.showImages
    ensures Fire(Imgur, post, flags, token, lookup) ==
              if Contains(post.url, ".gifv") || Contains(post.url, ".mp4")
              then Some(MediaRef(ImgurHost + id + ".mp4", Video))
              else Some(MediaRef(ImgurHost + id + ".jpg", Image))
  {
    ImgurIdOfPath(post.url, path, id, ext);
  }

  /** The gfycat rewrite: `<anything>/<id>` becomes giant.gfycat.com/<id>.mp4. */
  lemma GfycatRewrite(post: Post, flags: Flags, token: Option<string>, lookup: RedgifsLookup,
                      path: string, id: string)
    requires post.url == path + "/" + id && '/' !in id
    requires Contains(post.url, "gfycat.com") && flags.showVideos
    ensures Fire(Gfycat, post, flags, token, lookup) == Some(MediaRef(GfycatHost + id + ".mp4", Video))
  {
    LastSegmentAfterSlash(path, id);
  }

  lemma GfycatHostMentionsGiant(rest: string)
    ensures Contains(GfycatHost + rest, "giant.gfycat.com")
  {
    assert GfycatHost[8..24] == "giant.gfycat.com";
    ContainsInPrefix(GfycatHost, rest, "giant.gfycat.com", 8);
  }

  lemma GfycatHostMentionsGfycat(rest: string)
    ensures Contains(GfycatHost + rest, "gfycat.com")
  {
    assert GfycatHost[14..24] == "gfycat.com";
    ContainsInPrefix(GfycatHost, rest, "gfycat.com", 14);
  }

  /** A direct giant.gfycat.com mp4 link passes the direct-video test. */
  lemma GfycatDirectLinkIsDirectVideo(post: Post, flags: Flags, token: Option<string>, lookup: RedgifsLookup,
                                      id: string)
    requires post.url == GfycatHost + id + ".mp4"
    requires flags.showVideos
    ensures Fire(DirectVideo, post, flags, token, lookup) == Some(MediaRef(post.url, Video))
  {
    EndsWithOwnSuffix(GfycatHost + id, ".mp4");
    assert post.url == GfycatHost + (id + ".mp4");
    GfycatHostMentionsGiant(id + ".mp4");
  }

  /** ... and is then overwritten by the gfycat rewrite, which appends a second ".mp4". */
  lemma GfycatDirectLinkGetsSecondExtension(post: Post, flags: Flags, lookup: RedgifsLookup, id: string)
    requires post.url == GfycatHost + id + ".mp4" && '/' !in id
    requires flags.showVideos
    ensures SingleRef(post, flags, None, lookup) == Some(MediaRef(GfycatHost + id + ".mp4.mp4", Video))
  {
    var tail := id + ".mp4";
    assert Fire(Gfycat, post, flags, None, lookup) == Some(MediaRef(GfycatHost + tail + ".mp4", Video)) by {
      assert post.url == GfycatHost + tail;
      GfycatHostMentionsGfycat(tail);
      assert post.url == "https://giant.gfycat.com" + "/" + tail;
      GfycatRewrite(post, flags, None, lookup, "https://giant.gfycat.com", tail);
    }
    assert GfycatHost + tail + ".mp4" == GfycatHost + id + ".mp4.mp4";
    GfycatWinsWithoutToken(post, flags, lookup);
  }

  /** Without a Redgifs token nothing runs after the gfycat rewrite, so when it fires it decides. */
  lemma GfycatWinsWithoutToken(post: Post, flags: Flags, lookup: RedgifsLookup)
    requires Fire(Gfycat, post, flags, None, lookup).Some?
    ensures SingleRef(post, flags, None, lookup) == Fire(Gfycat, post, flags, None, lookup)
  {
  }

  /** A gallery entry yields a reference when its status is "valid" and it has a source URL. */
  predicate Usable(item: GalleryItem) {
    item.status == Some("valid") && Present(item.sourceUrl)
  }

  /** The gallery loop over `media_metadata`, in key order. */
  function GalleryItemRefs(items: seq<GalleryItem>): (r: seq<MediaRef>)
    ensures |r| <= |items|
  {
    if items == [] then []
    else
      var item := items[|items| - 1];
      GalleryItemRefs(items[..|items| - 1])
        + (if Usable(item) then [MediaRef(UnescapeAmp(item.sourceUrl.value), Image)] else [])
  }

  /** The gallery references of a post; the branch runs only under the image toggle, for a gallery
      post with at least one metadata entry. */
  function GalleryRefs(post: Post, flags: Flags): (r: seq<MediaRef>)
    ensures !flags.showImages || !post.isGallery ==> r == []
  {
    if flags.showImages && post.isGallery && |post.mediaMetadata| > 0
    then GalleryItemRefs(post.mediaMetadata) else []
  }

  /** Gallery references follow the metadata entries piece by piece: one per usable entry, in order. */
  lemma {:induction false} GalleryItemRefsAppend(a: seq<GalleryItem>, b: seq<GalleryItem>)
    ensures GalleryItemRefs(a + b) == GalleryItemRefs(a) + GalleryItemRefs(b)
    decreases |b|
  {
    if b == [] {
      assert a + b == a;
    } else {
      var b' := b[..|b| - 1];
      assert (a + b)[..|a + b| - 1] == a + b';
      assert (a + b)[|a + b| - 1] == b[|b| - 1];
      GalleryItemRefsAppend(a, b');
    }
  }

  /** The number of usable entries. */
  function UsableCount(items: seq<GalleryItem>): nat {
    if items == [] then 0 else (if Usable(items[0]) then 1 else 0) + UsableCount(items[1..])
  }

  /** The gallery branch pushes exactly one reference per usable entry, each an image with a
      non-empty URL. */
  lemma {:induction false} GalleryItemRefsOnePerUsable(items: seq<GalleryItem>)
    ensures |GalleryItemRefs(items)| == UsableCount(items)
    ensures forall m :: m in GalleryItemRefs(items) ==> m.kind == Image && m.url != ""
  {
    if items != [] {
      var rest := items[1..];
      GalleryItemRefsOnePerUsable(rest);
      assert items == [items[0]] + rest;
      GalleryItemRefsAppend([items[0]], rest);
      assert [items[0]][..0] == [];
      assert GalleryItemRefs([items[0]])
          == (if Usable(items[0]) then [MediaRef(UnescapeAmp(items[0].sourceUrl.value), Image)] else []);
    }
  }

  /** Everything one post adds to the media list: its gallery references, then its single one. */
  function PostMedia(post: Post, flags: Flags, token: Option<string>, lookup: RedgifsLookup): seq<MediaRef> {
    var single := SingleRef(post, flags, token, lookup);
    GalleryRefs(post, flags) + (if single.Some? then [single.value] else [])
  }

  /** A post's references are its gallery references followed by at most one more, present
      exactly when the branch cascade chose something; none has an empty URL. */
  lemma PostMediaShape(post: Post, flags: Flags, token: Option<string>, lookup: RedgifsLookup)
    ensures var r := PostMedia(post, flags, token, lookup);
      && |GalleryRefs(post, flags)| <= |r| <= |GalleryRefs(post, flags)| + 1
      && r[..|GalleryRefs(post, flags)|] == GalleryRefs(post, flags)
      && (|r| > |GalleryRefs(post, flags)| <==> SingleRef(post, flags, token, lookup).Some?)
      && (forall m :: m in r ==> m.url != "")
  {
    var single := SingleRef(post, flags, token, lookup);
    GalleryItemRefsOnePerUsable(post.mediaMetadata);
    if single.Some? {
      SingleRefHonoursToggles(post, flags, token, lookup);
      var b :| Gate(b, flags) && Fire(b, post, flags, token, lookup) == single;
    }
  }

  /** With every toggle off a post contributes nothing. */
  lemma AllTogglesOffNothing(post: Post, flags: Flags, token: Option<string>, lookup: RedgifsLookup)
    requires !flags.showImages && !flags.showGIFs && !flags.showVideos
    ensures PostMedia(post, flags, token, lookup) == []
  {
  }
}
