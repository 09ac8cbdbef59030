# reddit-media-viewer: a Dafny model of the slideshow core

The viewer is a single React component, `src/App.jsx`. The user builds a list of subreddits,
presses Start, and watches a shuffled slideshow. The slideshow holds the images and videos
found in the newest posts of the valid subreddits. This project models the logic of that
component in three parts and proves what it promises.

- **Subscription editing** (module `Subscriptions`, with string helpers in `Text`). A submitted
  name is trimmed and stripped of commas. It is rejected when it is empty or equal, ignoring
  case, to a listed name. Otherwise it is appended with the validity the about-page request
  reported. Removing a subscription filters by exact name. The await between the duplicate test
  and the append is modelled explicitly (`AddSubscriptionAsync`).
- **Aggregation** (modules `Classifier` and `Aggregation`). `fetchMedia` keeps the valid
  subscriptions in list order. It requests up to five listing pages per subreddit, chained by
  the `after` cursor. Each post is classified by eight branch tests that overwrite one
  `mediaUrl`/`type` pair, so the last passing test wins. Gallery entries are pushed before the
  post's single reference. The list is then shuffled in place by the Fisher–Yates loop. Every
  gathering loop is a method proved equal to a specification function, the shuffle loop is
  proved to preserve the multiset of its input, and the properties of the classification are
  lemmas about those functions.
- **Playback** (module `Playback`). The component state (`mediaItems`, `currentIndex`,
  `isPaused`, `viewMode`, `isLoading`) is a class. Each event handler is a method: the interval
  tick, the keydown listener, Skip, the video's `ended` and `error` events, Pause/Resume,
  Configure, and the Start button's `fetchMedia`. `currentIndex` is a JavaScript number, so an
  advance on an empty queue (`(i + 1) % 0`) is modelled as NaN.

Network answers are inputs of the model:

- the about-page check is a `bool`;
- the new.json listing is a function from request URL to page;
- the Redgifs token is an `Option<string>`;
- the per-asset Redgifs lookup is a function `(id, token) -> Option<string>`.

`Math.random` becomes a nondeterministic index `j` with `0 <= j <= i`.

The code has the last passing branch decide the single reference: every later test overwrites
`mediaUrl`. Only the preview test looks at whether something was chosen already. A description
of the app as a first-match cascade would disagree with the code, and the model follows the
code. Some consequences are proved as lemmas:

- a Redgifs URL ending in `.gif` becomes a video when a token is present and the lookup answers
  with an hd URL (`RedgifsOverridesGif`); otherwise the gif branch's image stands;
- a direct `giant.gfycat.com/<id>.mp4` link is rewritten to `<id>.mp4.mp4`
  (`GfycatDirectLinkGetsSecondExtension`);
- the imgur branch yields videos under the image toggle (`ImgurVideoIgnoresVideoToggle`);
- two pending submissions of one name both get appended (`PendingAddsDuplicate`).

## Model

| member | source | states |
|---|---|---|
| Text.IsSpace | src/App.jsx:76 | defines the characters `trim` removes: ECMAScript white space and line terminators |
| Common.Present | src/App.jsx:165 | defines JavaScript truthiness of an optional string: present and non-empty |
| Text.TrimStart | src/App.jsx:76 | the result is the suffix left after a run of white space, and it does not itself start with white space |
| Text.TrimEnd | src/App.jsx:76 | the result is the prefix left before a run of white space, and it does not itself end with white space |
| Text.Trim | src/App.jsx:76 | `trim` is the end trim of the start trim: the result neither starts nor ends with white space |
| Text.TrimStripsPadding | src/App.jsx:76 | `trim` removes exactly the white-space padding around a text that neither starts nor ends with white space |
| Text.RemoveCommas | src/App.jsx:76 | no comma is left, every other character keeps its number of occurrences, and a comma-free input is unchanged |
| Text.RemoveCommasAppend | src/App.jsx:76 | comma removal works piecewise, so the kept characters stay in their order |
| Text.ToLower | src/App.jsx:77 | `toLowerCase` maps character by character, keeping the length (ASCII letters only) |
| Text.EndsWithIgnoreCase | src/App.jsx:187 | defines the `$`-anchored case-insensitive suffix tests of lines 187 and 193: the last characters, lower-cased, are the suffix |
| Text.EndsWithOwnSuffix | src/App.jsx:187 | the case-insensitive end-anchored test accepts any text ending in the lower-case suffix |
| Text.Contains | src/App.jsx:195 | defines `includes` (lines 195, 201, 203, 212, 218): the text is a prefix here or occurs further on |
| Text.ContainsIff | src/App.jsx:195 | `includes` holds exactly when the text occurs at some position |
| Text.LastSegment | src/App.jsx:202 | `split("/").pop()` is the longest slash-free suffix, preceded by a slash when shorter than the input |
| Text.LastSegmentAfterSlash | src/App.jsx:213 | the last segment of `a/b`, with b slash-free, is b |
| Text.BeforeFirstDot | src/App.jsx:202 | `split(".")[0]` is the longest dot-free prefix, followed by a dot when shorter than the input |
| Text.BeforeFirstDotOfJoin | src/App.jsx:202 | the first dot-piece of `a.b`, with a dot-free, is a |
| Text.UnescapeAmp | src/App.jsx:178 | the result is no longer than the input, non-empty for a non-empty input, and equal to it exactly when the input has no `&amp;` |
| Text.UnescapeEscapeAmp | src/App.jsx:178 | replacing `&amp;` by `&` undoes the HTML escaping of ampersands |
| Text.UnescapeIsSinglePass | src/App.jsx:178 | the replacement is one pass: a doubly escaped text comes out escaped once, which differs from the original whenever it holds an ampersand |
| Subscriptions.Normalize | src/App.jsx:76 | the name derived from the input never contains a comma |
| Subscriptions.Listed | src/App.jsx:77 | defines the `find` duplicate test: some entry's name equals the name after lower-casing both |
| Subscriptions.NormalizeStripsPadding | src/App.jsx:76 | white-space padding around a comma-free name is removed |
| Subscriptions.NormalizeKeepsSpaceAfterComma | src/App.jsx:76 | trimming happens before the commas go, so `", " + t` gives `" " + t` for every comma-free t without white-space ends |
| Subscriptions.AddSubscriptionAsync | src/App.jsx:74-83 | the list as it is at append time is kept as a prefix; one entry `{name, valid}` is appended exactly when the name is non-empty and not listed, ignoring case, in the list seen at key time |
| Subscriptions.AddSubscription | src/App.jsx:77-80 | adding keeps the names unique ignoring case |
| Subscriptions.PendingAddsDuplicate | src/App.jsx:77-80 | two submissions of a new name, both validating at once, leave a case-insensitive duplicate |
| Subscriptions.HandleSubredditInput | src/App.jsx:74-83 | keys other than Enter and comma change nothing; Enter and comma add; a rejected name leaves the list and the field as they were; an accepted one clears the field |
| Subscriptions.RemoveSub | src/App.jsx:85-87 | an entry is kept exactly when it was in the list and its name differs from the removed one |
| Subscriptions.RemoveSubAppend | src/App.jsx:86 | the filter works piecewise, so the kept entries stay in order |
| Subscriptions.RemoveSubAbsent | src/App.jsx:86 | removing an unlisted name changes nothing |
| Subscriptions.RemoveKeepsUnique | src/App.jsx:85-87 | removing keeps the names unique ignoring case |
| Subscriptions.AddThenRemove | src/App.jsx:74-87 | adding a new name and then removing it restores the list |
| Classifier.Fire | src/App.jsx:172-225 | a branch's reference is only produced under its toggle and always has a non-empty URL |
| Classifier.Over | src/App.jsx:173-223 | defines the overwrite: a branch whose test passes replaces the choice, otherwise the choice is kept |
| Classifier.ImageHintTest | src/App.jsx:172 | defines the image-hint test: hint "image", image toggle on, truthy url |
| Classifier.PreviewTest | src/App.jsx:177 | defines the preview test apart from `!mediaUrl`: image toggle on and a truthy preview source URL |
| Classifier.NativeVideoTest | src/App.jsx:182 | defines the native-video test: `is_video`, video toggle on, truthy fallback URL |
| Classifier.GifTest | src/App.jsx:187 | defines the gif test: url ends in `.gif` ignoring case and the gif toggle is on |
| Classifier.DirectVideoTest | src/App.jsx:192-196 | defines the direct-video test: `.mp4`/`.webm` ending, video toggle on, one of the three hosts mentioned |
| Classifier.ImgurTest | src/App.jsx:201 | defines the imgur test: url mentions imgur.com and the image toggle is on |
| Classifier.ImgurAnimated | src/App.jsx:203 | defines the imgur video test: url mentions `.gifv` or `.mp4` |
| Classifier.ImgurId | src/App.jsx:202 | defines the imgur id as the last slash-segment up to its first dot |
| Classifier.GfycatTest | src/App.jsx:212 | defines the gfycat test: url mentions gfycat.com and the video toggle is on |
| Classifier.RedgifsTest | src/App.jsx:218 | defines the redgifs test: url mentions redgifs.com, video toggle on, truthy token |
| Classifier.ClassifyFields | src/App.jsx:169-199 | the first five branch tests, overwriting one local (the preview only while nothing is chosen), compute the field-based reference |
| Classifier.ClassifyRedgifs | src/App.jsx:218-225 | with a truthy token, a truthy hd URL from the lookup of the last path segment overwrites the choice; otherwise it is kept |
| Classifier.ClassifyHosts | src/App.jsx:201-225 | the imgur, gfycat and redgifs branches overwrite the earlier choice in that order |
| Classifier.ClassifyPost | src/App.jsx:168-225 | the branch cascade computes the post's single reference |
| Classifier.FieldRef | src/App.jsx:169-199 | defines the choice after the five field branches, each overwriting the last |
| Classifier.HostRef | src/App.jsx:201-225 | defines the choice after the imgur, gfycat and redgifs branches run over an earlier one |
| Classifier.SingleRef | src/App.jsx:168-225 | defines the single reference: the field branches, then the host rewrites, each passing test overwriting the choice |
| Classifier.SingleRefRunsOrder | src/App.jsx:168-225 | the single reference is the eight branches, in code order, each overwriting the last |
| Classifier.SingleRefIsLastFiring | src/App.jsx:168-225 | there is a single reference exactly when some branch fires, and it is the one of the last branch that fires |
| Classifier.SingleRefHonoursToggles | src/App.jsx:172-225 | the single reference comes from a branch whose toggle is on |
| Classifier.ToggleIndependence | src/App.jsx:172-218 | each branch test reads only its own toggle: flags that agree on it give the same outcome |
| Classifier.GifToggleGatesOnlyGif | src/App.jsx:187 | the gif toggle changes the outcome of no branch but the `.gif` suffix one |
| Classifier.GalleryToggleIndependence | src/App.jsx:227-231 | the gallery branch reads only the image toggle |
| Classifier.HintSuppressesPreview | src/App.jsx:172-180 | when the image-hint branch fires, the preview URL does not matter |
| Classifier.RedgifsOverridesGif | src/App.jsx:187-225 | a `.gif` URL on redgifs.com passes the gif test, yet ends as the lookup's video |
| Classifier.RedgifsDecides | src/App.jsx:218-225 | when the redgifs branch fires it decides the single reference |
| Classifier.ImgurVideoIgnoresVideoToggle | src/App.jsx:201-206 | a `.gifv` imgur link yields a video with the video toggle off |
| Classifier.ImgurIdOfPath | src/App.jsx:202 | the imgur id of `<path>/<id>.<ext>` is `<id>` |
| Classifier.ImgurRewrite | src/App.jsx:201-210 | an imgur link becomes `https://i.imgur.com/<id>.mp4` as a video when it mentions `.gifv` or `.mp4`, else `<id>.jpg` as an image |
| Classifier.GfycatRewrite | src/App.jsx:212-216 | a gfycat link `<path>/<id>` becomes `https://giant.gfycat.com/<id>.mp4` as a video |
| Classifier.GfycatDirectLinkIsDirectVideo | src/App.jsx:192-199 | a direct giant.gfycat.com mp4 link passes the direct-video test |
| Classifier.GfycatDirectLinkGetsSecondExtension | src/App.jsx:192-216 | without a Redgifs token, that link ends as `<id>.mp4.mp4` because the gfycat rewrite overwrites it |
| Classifier.GfycatWinsWithoutToken | src/App.jsx:212-225 | without a token, a firing gfycat branch decides the single reference |
| Classifier.GalleryItemRefs | src/App.jsx:233-239 | the gallery loop pushes at most one reference per metadata entry |
| Classifier.GalleryRefs | src/App.jsx:227-240 | no gallery references without the image toggle or for a non-gallery post |
| Classifier.Usable | src/App.jsx:235 | defines a usable gallery entry: status "valid" and a truthy `s.u` |
| Classifier.GalleryItemRefsAppend | src/App.jsx:233-239 | the gallery loop works entry by entry, in key order |
| Classifier.GalleryItemRefsOnePerUsable | src/App.jsx:233-239 | exactly one image reference with a non-empty URL per entry with status "valid" and a source URL |
| Classifier.PostMedia | src/App.jsx:227-244 | defines a post's contribution: its gallery references, then its single reference if any |
| Classifier.PostMediaShape | src/App.jsx:227-244 | a post adds its gallery references, then one more exactly when the cascade chose something; no URL is empty |
| Classifier.AllTogglesOffNothing | src/App.jsx:172-244 | with all toggles off a post adds nothing |
| Aggregation.PageUrl | src/App.jsx:158 | the request asks for 100 posts and carries `&after=` exactly when the cursor is truthy |
| Aggregation.FeedPages | src/App.jsx:157-166 | defines the pages of a feed: a page is fetched while budget remains, and the chain continues only from a truthy cursor |
| Aggregation.Flatten | src/App.jsx:163 | defines `allPosts`: the posts of the pages, in page order |
| Aggregation.FeedPosts | src/App.jsx:154-166 | defines one feed's posts: the flattened pages of its cursor chain from no cursor, with five requests at most |
| Aggregation.FeedPagesBounds | src/App.jsx:157-166 | a feed takes at most five requests and at least one |
| Aggregation.FeedPagesChain | src/App.jsx:155-166 | the first request has no cursor; each later one carries the previous page's truthy cursor; fewer than five pages means the last cursor was falsy |
| Aggregation.FullPagination | src/App.jsx:157-166 | when every page carries a truthy cursor, all five pages are requested |
| Aggregation.FeedStep | src/App.jsx:157-166 | one request appends its page and leaves the chain from that page's cursor, if it is truthy |
| Aggregation.FlattenAppend | src/App.jsx:163 | posts are concatenated in page order |
| Aggregation.FetchFeed | src/App.jsx:154-166 | the pagination loop collects the posts of the cursor-chained pages, in order |
| Aggregation.ValidNames | src/App.jsx:149 | the filter yields at most one name per subscription |
| Aggregation.ValidNamesAreValid | src/App.jsx:149 | every fetched name belongs to a valid subscription |
| Aggregation.ValidNamesComplete | src/App.jsx:149 | every valid subscription is fetched |
| Aggregation.ValidNamesAppend | src/App.jsx:149 | the filter keeps list order |
| Aggregation.NoValidNoNames | src/App.jsx:149 | with no valid subscription nothing is fetched |
| Aggregation.PostsMedia | src/App.jsx:168-245 | defines what the per-post loop pushes: each post's media, post after post |
| Aggregation.FeedsMedia | src/App.jsx:153-246 | defines the media of the named feeds: feed by feed, in order, the media of each feed's posts |
| Aggregation.AllMedia | src/App.jsx:149-246 | defines the unshuffled media list: the media of the valid subscriptions' feeds |
| Aggregation.PostsMediaBound | src/App.jsx:168-245 | without the image toggle, each post adds at most one reference |
| Aggregation.PostsNoMedia | src/App.jsx:168-245 | with all toggles off, the posts add nothing |
| Aggregation.AllTogglesOffNoMedia | src/App.jsx:153-246 | with all toggles off, the media list stays empty whatever the feeds hold |
| Aggregation.PushGallery | src/App.jsx:233-239 | the gallery loop appends the gallery references to the list |
| Aggregation.PushPost | src/App.jsx:168-244 | one round of the per-post loop appends the post's gallery references and then its single reference |
| Aggregation.PostsMediaStep | src/App.jsx:168-245 | one round extends the media pushed for the earlier posts |
| Aggregation.FeedsMediaStep | src/App.jsx:153-246 | one subreddit extends the media of the subreddits before it |
| Aggregation.PushPosts | src/App.jsx:168-245 | the per-post loop appends the media of all posts, in order |
| Aggregation.Collect | src/App.jsx:149-246 | the gathering loop produces the media of the valid subscriptions, feed by feed and post by post |
| Aggregation.Swap | src/App.jsx:250 | the destructuring swap exchanges two positions and keeps the rest |
| Aggregation.SwapPermutes | src/App.jsx:250 | a swap is a permutation |
| Aggregation.Shuffle | src/App.jsx:248-251 | the Fisher–Yates loop leaves a permutation of the list |
| Playback.Step | src/App.jsx:94 | on a non-empty queue, an advance moves to the next index and wraps from the last to 0; on an empty queue or from NaN it yields NaN |
| Playback.StepsCycle | src/App.jsx:94 | m advances from index k land on (k + m) mod n |
| Playback.FullCycle | src/App.jsx:94 | n advances bring a queue of n items back to where it was |
| Playback.VisitsEveryItem | src/App.jsx:94 | from the start every item comes up, the j-th after j advances |
| Playback.NaNAbsorbs | src/App.jsx:112 | once NaN, no advance recovers the position |
| Playback.EmptyQueueGivesNaN | src/App.jsx:111-112 | an advance on an empty queue gives NaN |
| Playback.Player.constructor | src/App.jsx:5-14 | the initial state: empty queue, index 0, not paused, setup screen, not loading |
| Playback.Player.CurrentMedia | src/App.jsx:259 | `mediaItems[currentIndex]` is defined exactly for an index of the queue, and is then the item at that index |
| Playback.Player.PlayerShown | src/App.jsx:405 | defines when the player is rendered: player mode and a defined current item |
| Playback.Player.VideoShown | src/App.jsx:417-424 | defines when a video element is rendered: the player is shown and the current item is a video |
| Playback.Player.IntervalArmed | src/App.jsx:92 | defines when the interval is set: player mode, a non-empty queue, not paused |
| Playback.Player.ArmedWhenShown | src/App.jsx:91-98 | in the player, the interval runs exactly when the player is rendered and not paused |
| Playback.Player.Advance | src/App.jsx:94 | the shared advance step changes only the index |
| Playback.Player.Tick | src/App.jsx:91-98 | a tick, possible only while the interval is armed, advances the index and keeps the player rendered |
| Playback.Player.KeyDown | src/App.jsx:101-119 | in the player Space toggles the pause and ArrowRight advances; on the setup screen no key changes anything |
| Playback.Player.Skip | src/App.jsx:451-452 | Skip advances the index |
| Playback.Player.VideoEnded | src/App.jsx:429-431 | a finished video advances the index |
| Playback.Player.VideoError | src/App.jsx:432-435 | a failed video is skipped like any other |
| Playback.Player.PauseButton | src/App.jsx:481-482 | Pause/Resume flips the pause flag and keeps the index |
| Playback.Player.Configure | src/App.jsx:496-497 | Configure returns to setup, keeps the queue and the index, and disarms the interval |
| Playback.Player.Install | src/App.jsx:253-256 | the list becomes the queue, the index is 0, the player is entered and loading ends; an empty list shows neither screen |
| Playback.Player.FetchMedia | src/App.jsx:146-257 | Start installs a permutation of the media of the valid subscriptions and resets the index to 0 |

## Left out

- Rendering, styles and the fullscreen toggle with its timeout: presentation only.
- Loading and saving settings in localStorage and the Clear Settings button: persistence I/O.
- The fetch calls: their answers are inputs (a `bool` for about.json, a `Listing` function for new.json, an `Option<string>` for the Redgifs token, a `RedgifsLookup` function for the gif request). The about.json, token and gif requests catch their failures, which become a falsy answer.
- A page request that throws, or a post without `url` (line 187), rejects all of `fetchMedia` and leaves `isLoading` true: exception plumbing, not modelled; posts always carry a `url` here.
- `setInterval`/`clearInterval` and the listener registration: the timer is the `Tick` event, enabled exactly when the interval would be armed.
- `Math.random`/`Math.floor`: floating point; the swap partner is any index in `[0, i]`.
- The interval-time input (`value * 1000`) and the interval length: string-to-number coercion with no effect on the order of events.
- The mute flag and its button: they change only how a video is rendered.
- The two HTTP relays (reddit-proxy/server.js, api/proxy.js): pass-through network code that the app never calls.
- `fetchMedia` and the key handler run asynchronously; interleavings are modelled only for the duplicate test of `handleSubredditInput` (`AddSubscriptionAsync`).
- Text.ToLower: maps only ASCII letters, where `toLowerCase` folds all of Unicode, because Dafny has no Unicode case tables here. This affects only the duplicate-name test. The case-insensitive suffix tests (`EndsWithIgnoreCase`) are exact: their patterns are ASCII, and non-unicode `/i` matching never maps a non-ASCII character to an ASCII one, so only ASCII letters can match them.
- The keydown listener cancels the default action of Space in every mode (src/App.jsx:104), so on the setup screen a space cannot be typed into the name field; typing into the field, and the browser inserting the pressed key (a submitting comma included) after the handler, are not modelled: the field's text is an input of `HandleSubredditInput`, and `KeyDown` models only the state changes.
- `media_metadata` is a sequence in key order; JavaScript's ordering of integer-like keys first is not modelled.
- Aggregation.Shuffle: states a permutation, not that every permutation is reachable, because randomness is nondeterminism here.
