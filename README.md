# CelFlicks video catalog and checkout, modelled in Dafny

CelFlicks is a streaming front end (React with a Supabase back end). This project models the
parts of it that hold its logic:

- the **featured-video store** (`youtubeStore`): the video library, the ordered featured list of
  each of the seven categories, and the actions that read and write both tables;
- the **URL resolvers**: how the video card, the full-screen player and the modal read a
  platform and a video id out of a link;
- the **admin forms**: the video-library form, the YouTube-id form and the featured-videos tab;
- the **home-page state machines**: the page itself, the video rows, the movie banner, the
  suggested-creators grid and the sidebar;
- the **checkout**: the Stripe card container and form, the payment page with its PayPal
  buttons, and the three server functions that create a card payment intent, verify a card
  payment and verify a PayPal order.

The models follow the code's own form. The store and the components whose state React updates
are classes whose methods change their fields. The values they read and write (video records,
rows, JSON bodies, responses) are datatypes. The server functions are pure request handlers.
Every remote call (database, Stripe, PayPal) is a parameter carrying the reply it gives, so each
contract covers every reply. The methods return the writes and calls they issue, in order, so
the contracts can say what was sent as well as what was stored.

One Dafny module per source file. Four shared modules hold the common ground:

- `JsText`: the JavaScript string operations the code relies on;
- `Remote`: a thrown value as a `catch` block sees it;
- `Catalog`: the video record, the table rows and the categories;
- `Http`: JSON values with JavaScript's property reads, plus responses.

## Model

| member | source | states |
|---|---|---|
| JsText.IndexOf | src/components/YouTubeVideo.tsx:31-45 | `indexOf` finds an occurrence exactly when there is one, and it is the first |
| JsText.CutAt | src/components/YouTubeVideo.tsx:34 | `split(e)[0]` is the longest `e`-free prefix that ends at an `e` or at the end |
| JsText.SplitSecond | src/components/YouTubeVideo.tsx:34 | `split(d)[1]` is undefined exactly when the text has no `d` |
| JsText.SplitPick | src/components/YouTubeVideo.tsx:34-45 | the id read after a marker is `""` without the marker, else the text right after the first marker up to the next marker or stop character |
| JsText.SplitPickBuilt | src/components/YouTubeVideo.tsx:34-45 | writing an id right after the first marker and ending it with the stop character or the end reads back exactly that id |
| JsText.TrimProperties | src/components/admin/VideoManager.tsx:91-92 | `trim` gives a trimmed string, leaves a trimmed one alone, and is empty exactly for all-white-space input |
| JsText.TrimTwice | src/components/admin/VideoManager.tsx:138 | trimming an already trimmed field changes nothing |
| JsText.TrimSkipsLeadingSpace | src/components/admin/VideoManager.tsx:142 | leading white space does not change the trimmed text |
| JsText.Lower | src/components/YouTubeModal.tsx:15-18 | lower-casing keeps the length and folds each character on its own |
| JsText.SplitOn | src/components/admin/VideoManager.tsx:142 | `split(c)` gives at least one piece, no piece holds `c`, and the pieces join back into the input |
| JsText.SplitOnAfter | src/components/admin/VideoManager.tsx:142 | splitting at a first separator right after `x` gives `x` followed by the split of the rest |
| JsText.NatToStringValue | src/components/admin/FeaturedVideosManager.tsx:134 | the decimal rendering of a number reads back as that number |
| JsText.IntToString | src/components/wallet/PaymentPage.tsx:211-223 | an integer renders as its digits, with a minus sign when negative |
| Remote.Thrown | src/stores/youtubeStore.ts:440 | `new Error(m)` is an `Error` instance carrying `m` |
| Remote.ErrorText | src/stores/youtubeStore.ts:139-143 | a catch shows an `Error`'s message and otherwise its fixed fallback |
| Remote.MessageOr | supabase/functions/verify-stripe-payment/index.ts:249 | `err.message \|\| fallback` shows the thrown value's message whenever it is non-empty, `Error` or not, and the fallback otherwise |
| Catalog.CategoriesComplete | src/stores/youtubeStore.ts:7-14 | the seven categories are all the categories there are |
| Catalog.Ordinal | src/stores/youtubeStore.ts:45-53 | each category has one of seven places in the store's key order |
| Catalog.CategoryAt | src/stores/youtubeStore.ts:45-53 | the category at place `k` has place `k` |
| Catalog.CategoryAtOrdinal | src/stores/youtubeStore.ts:45-53 | places and categories are in one-to-one correspondence |
| Catalog.ParseCategory | src/stores/youtubeStore.ts:503-505 | a key names a category exactly when it is that category's key |
| Catalog.KeyRoundTrip | src/stores/youtubeStore.ts:503-505 | every category's key parses back to that category |
| Catalog.FindByIdFirst | src/stores/youtubeStore.ts:377 | `find` by id yields the first video with the id, and nothing exactly when none has it |
| Catalog.Without | src/stores/youtubeStore.ts:305 | filtering by id keeps exactly the videos with a different id |
| Catalog.WithoutConcat | src/stores/youtubeStore.ts:300 | filtering distributes over concatenation, so the kept videos keep their order |
| Catalog.WithoutAbsent | src/stores/youtubeStore.ts:300 | filtering a list that lacks the id changes nothing |
| Catalog.WithoutIdempotent | src/stores/youtubeStore.ts:300 | filtering twice is filtering once |
| Catalog.LowerBoundKept | src/stores/youtubeStore.ts:122-126 | a lower bound of all the keys bounds every key of a rearrangement |
| Catalog.PrependSorted | src/stores/youtubeStore.ts:122-126 | an element no larger than a sorted list's keys can go in front of it |
| Catalog.InsertByPositionCorrect | src/stores/youtubeStore.ts:122-126 | inserting into a sorted list keeps it sorted and adds exactly that element |
| Catalog.SortByPositionCorrect | src/stores/youtubeStore.ts:122-126 | the position sort orders by ascending `featuredPosition \|\| 0` and is a permutation |
| YoutubeStore.EmptyBuckets | src/stores/youtubeStore.ts:97-105 | every category starts with an empty list |
| YoutubeStore.Processed | src/stores/youtubeStore.ts:70-81 | a fetched row keeps its id and both spellings of link and YouTube id, and is not yet a featured copy |
| YoutubeStore.ProcessAll | src/stores/youtubeStore.ts:70-81 | every fetched row is processed, in order |
| YoutubeStore.Inserted | src/stores/youtubeStore.ts:194-200 | an added video is stored as the database returned it: column spellings set, component spellings empty |
| YoutubeStore.NewVideoPayload | src/stores/youtubeStore.ts:165-175 | the inserted row carries the video's title, link, id, description and tags, always with a platform |
| YoutubeStore.Patch | src/stores/youtubeStore.ts:220-229 | the update carries the link and id, always a platform, and a null thumbnail exactly for an empty one |
| YoutubeStore.Refreshed | src/stores/youtubeStore.ts:253-257 | the locally stored edit has both spellings of link and id agreeing with the edited values |
| YoutubeStore.ReplaceById | src/stores/youtubeStore.ts:250-260 | entries with the id are replaced, all others kept in place |
| YoutubeStore.ReplaceByIdStable | src/stores/youtubeStore.ts:250-260 | replacing an absent id changes nothing, and replacing twice is replacing once |
| YoutubeStore.RemovedEverywhere | src/stores/youtubeStore.ts:297-302 | every category is filtered and no category is added or lost |
| YoutubeStore.Unfeatured | src/stores/youtubeStore.ts:411-416 | only the named category changes, and it loses exactly the video's entries |
| YoutubeStore.RemovedEverywhereProperties | src/stores/youtubeStore.ts:295-309 | after a removal no category holds the video and every other entry is still there |
| YoutubeStore.PositionAfter | src/stores/youtubeStore.ts:363 | a new entry's position is 0 in an empty category, else one past the top row's position (null counts as 0) |
| YoutubeStore.PositionAfterExceeds | src/stores/youtubeStore.ts:353-363 | when the top row answers the descending query, the new position exceeds every existing one |
| YoutubeStore.ContributionMembers | src/stores/youtubeStore.ts:109-118 | a row contributes exactly the copy of the video it joins to |
| YoutubeStore.FetchOutcome | src/stores/youtubeStore.ts:57-149 | a failed read fails the fetch with that failure; success publishes the processed videos and all seven categories |
| YoutubeStore.JoinedMembers | src/stores/youtubeStore.ts:108-119 | a category's join holds exactly the copies its rows join to |
| YoutubeStore.JoinedWithoutVideos | src/stores/youtubeStore.ts:107 | with no videos no row joins and no row blocks |
| YoutubeStore.FetchedCategory | src/stores/youtubeStore.ts:107-127 | after a fetch each category is the position-sorted join of its rows |
| YoutubeStore.FetchedSnapshot | src/stores/youtubeStore.ts:107-139 | lists that hold every category's sorted join are exactly what a fetch publishes |
| YoutubeStore.EmptyJoinSorted | src/stores/youtubeStore.ts:105-127 | with no videos no featured row blocks the fetch and every category is empty |
| YoutubeStore.FetchedSorted | src/stores/youtubeStore.ts:122-126 | after a fetch every category is sorted by ascending position |
| YoutubeStore.FetchedMembers | src/stores/youtubeStore.ts:108-119 | after a fetch a category holds exactly the copies of fetched videos its rows name |
| YoutubeStore.FetchedWithoutVideos | src/stores/youtubeStore.ts:107 | with no videos fetched every category is empty |
| YoutubeStore.FetchFailsOnlyOnInheritedKey | src/stores/youtubeStore.ts:108-117 | with both reads successful the fetch fails exactly on a row whose category is an inherited property name, with the engine's TypeError |
| YoutubeStore.JoinFeatured | src/stores/youtubeStore.ts:108-119 | the loop throws exactly when some row blocks, and otherwise builds every category's join |
| YoutubeStore.PushRow | src/stores/youtubeStore.ts:109-118 | one loop pass throws exactly for a blocking row and otherwise appends the row's contribution |
| YoutubeStore.JoinedStep | src/stores/youtubeStore.ts:108-119 | one more row extends each category's join by that row's contribution |
| YoutubeStore.SortedBelow | src/stores/youtubeStore.ts:122-126 | sorting a prefix of the categories keeps the key set |
| YoutubeStore.SortEach | src/stores/youtubeStore.ts:122-126 | after the loop every category is its position-sorted list |
| YoutubeStore.SortedBelowStep | src/stores/youtubeStore.ts:122-126 | sorting one more category extends the sorted prefix |
| YoutubeStore.FindRowIndex | src/stores/youtubeStore.ts:444 | `findIndex` yields the first row with the video id, or none when no row has it |
| YoutubeStore.MovePlan | src/stores/youtubeStore.ts:431-471 | a failed read, an empty category or an absent video is an error; an entry at the edge stays; otherwise the entry swaps positions with its neighbour |
| YoutubeStore.InteriorEntryMoves | src/stores/youtubeStore.ts:450-457 | an interior entry always moves, in either direction |
| YoutubeStore.SwapInRange | src/stores/youtubeStore.ts:481-483 | the local swap exchanges the two slots when both exist and is a permutation |
| YoutubeStore.SwapSlots | src/stores/youtubeStore.ts:482-483 | the in-place swap on the copied list computes `SwapInRange` |
| YoutubeStore.SwapTwiceRestores | src/stores/youtubeStore.ts:483 | swapping the same slots twice restores the list |
| YoutubeStore.Lift | src/stores/youtubeStore.ts:482 | a list of videos is an array with every slot filled |
| YoutubeStore.WriteSlot | src/stores/youtubeStore.ts:483 | assigning past an array's end grows it with undefined holes |
| YoutubeStore.JsSwapInRange | src/stores/youtubeStore.ts:481-483 | inside the list, the swap as written agrees with the corrected swap |
| YoutubeStore.MoveWithShorterLocalList | src/stores/youtubeStore.ts:481-483 | when the database lists more entries than the local copy, the swap as written puts `undefined` into the list |
| YoutubeStore.Store.constructor | src/stores/youtubeStore.ts:44-55 | the store starts with no videos, seven empty categories, not loading and no error |
| YoutubeStore.Store.GetFeaturedVideos | src/stores/youtubeStore.ts:503-505 | a category key yields that category's list, and a key naming no category and no inherited property (such as `sci-fi`) an empty list |
| YoutubeStore.Store.FetchVideos | src/stores/youtubeStore.ts:57-149 | a successful fetch publishes `FetchOutcome`'s snapshot; a failure keeps both lists and records the error text |
| YoutubeStore.Store.AddVideo | src/stores/youtubeStore.ts:151-211 | stamps a missing id, sends the payload, appends the returned row; a failure is recorded and rethrown |
| YoutubeStore.Store.UpdateVideo | src/stores/youtubeStore.ts:213-273 | sends the patch, then replaces the local entries with that id; featured copies are not touched |
| YoutubeStore.Store.RemoveVideo | src/stores/youtubeStore.ts:275-317 | deletes the featured rows, then the video, then drops it from the library and every category; a failed delete changes nothing local |
| YoutubeStore.Store.FeatureVideo | src/stores/youtubeStore.ts:319-396 | an already featured pair is unfeatured; otherwise the video is inserted after the top position and appended locally, or an error is recorded |
| YoutubeStore.Store.UnfeatureVideo | src/stores/youtubeStore.ts:398-425 | deletes the pair's row and filters the video out of that category only |
| YoutubeStore.Store.MoveFeaturedVideo | src/stores/youtubeStore.ts:427-500 | follows `MovePlan`: the two rows trade positions in the database, and when both rows' indices fall inside the local list its two entries trade places exactly as the destructuring swap does (`JsSwap`) |
| YouTubeVideo.GetPlatformInfo | src/components/YouTubeVideo.tsx:27-50 | resolution is total: a YouTube host gives the id rule's id, a Vimeo host the path id, anything else no id |
| YouTubeVideo.WatchUrlId | src/components/YouTubeVideo.tsx:31-34 | a watch link `...v=ID&...` resolves to YouTube with exactly `ID` |
| YouTubeVideo.ShortUrlId | src/components/YouTubeVideo.tsx:35-36 | a short link `youtu.be/ID?...` resolves to YouTube with exactly `ID` |
| YouTubeVideo.VimeoUrlId | src/components/YouTubeVideo.tsx:44-46 | a link `vimeo.com/ID?...` resolves to Vimeo with exactly `ID` |
| YouTubeVideo.ResolvedInfo | src/components/YouTubeVideo.tsx:52-54 | the stored platform and id win only when both are non-empty; otherwise the link is resolved |
| YouTubeVideo.CdnThumbnailInjective | src/components/YouTubeVideo.tsx:62 | different video ids give different thumbnail URLs |
| YouTubeVideo.CdnThumbnailIsNotFallback | src/components/YouTubeVideo.tsx:58-62 | no video thumbnail URL is the placeholder |
| YouTubeVideo.GeneratedThumbnail | src/components/YouTubeVideo.tsx:60-69 | the generated image is the placeholder or a YouTube thumbnail |
| YouTubeVideo.GeneratedThumbnailIsCdn | src/components/YouTubeVideo.tsx:60-69 | it is a given video's thumbnail exactly for a YouTube video with that non-empty id (never for Vimeo) |
| YouTubeVideo.ThumbnailUrl | src/components/YouTubeVideo.tsx:71-72 | a load error shows the placeholder, else the custom thumbnail, else the generated one |
| YouTubeVideo.WatchLinkCardShowsItsImage | src/components/YouTubeVideo.tsx:52-72 | a card for a YouTube watch link without a custom thumbnail shows that video's image |
| FixedCelFlicksVideoPlayer.GetYouTubeId | src/components/player/FixedCelFlicksVideoPlayer.tsx:13-24 | an empty link, or one with none of the three markers, gives no id |
| FixedCelFlicksVideoPlayer.AgreesWithCard | src/components/player/FixedCelFlicksVideoPlayer.tsx:13-24 | on every link the card treats as YouTube, the player reads the card's id |
| FixedCelFlicksVideoPlayer.ForeignHostWatchLink | src/components/player/FixedCelFlicksVideoPlayer.tsx:16-17 | without a host check, a `v=ID` link on any host plays `ID`, where the card finds no id |
| FixedCelFlicksVideoPlayer.PlayerVideoId | src/components/player/FixedCelFlicksVideoPlayer.tsx:26 | the stored id in either spelling wins, else the id read from the link in either spelling |
| FixedCelFlicksVideoPlayer.PlaysFreshlyAddedVideo | src/components/player/FixedCelFlicksVideoPlayer.tsx:26 | a freshly added record (column spellings only) still plays its stored or linked id |
| FixedCelFlicksVideoPlayer.FreshlyAddedCardShowsPlaceholder | src/components/YouTubeVideo.tsx:52-72 | the card of that freshly added record shows the placeholder, because the card reads only `videoUrl` |
| YouTubeModal.ModalFor | src/components/YouTubeModal.tsx:11-56 | nothing without a video; streaming links open the custom player; others a plain frame with a native player exactly for media files |
| YouTubeModal.StreamingTakesPrecedence | src/components/YouTubeModal.tsx:20-22 | a media file on a streaming host opens in the custom player |
| YouTubeModal.ClassificationIgnoresCase | src/components/YouTubeModal.tsx:15-18 | the two case-insensitive tests give the same answer on the lower-cased link |
| YouTubeModal.LowerKeepsOccurrence | src/components/YouTubeModal.tsx:15 | a lower-case pattern found in a link is still found after lower-casing |
| YouTubeModal.HostsStream | src/components/YouTubeModal.tsx:15 | a link naming a YouTube or Vimeo host is a streaming link |
| YouTubeModal.CardPlatformsStream | src/components/YouTubeModal.tsx:15-22 | every link the card resolves to YouTube or Vimeo opens in the custom player |
| AdminForm.WithField | src/components/admin/VideoManager.tsx:78-80 | typing sets exactly the named field and keeps the others |
| AdminForm.ValidationErrorsMeaning | src/components/admin/VideoManager.tsx:88-96 | a message for a blank title and one for a blank link and nothing else, so the form is valid exactly when both are filled in |
| AdminForm.ClearedOnInput | src/components/admin/VideoManager.tsx:82-85 | typing blanks that field's message when it has one and keeps the other messages |
| AdminForm.CleanTags | src/components/admin/VideoManager.tsx:142 | the kept tags are non-empty, trimmed and free of the separator, and never more than the pieces |
| AdminForm.ParseTags | src/components/admin/VideoManager.tsx:142 | every submitted tag is non-empty, trimmed and comma-free |
| AdminForm.Indent | src/components/admin/VideoManager.tsx:173 | every entry after a `", "` separator is seen with one leading space |
| AdminForm.JoinIndent | src/components/admin/VideoManager.tsx:173 | joining the indented entries with `","` is a space followed by the `", "` join |
| AdminForm.JoinAsCommaSplit | src/components/admin/VideoManager.tsx:173 | a `", "` join is a `","` join of the indented entries |
| AdminForm.SplitOnJoin | src/components/admin/VideoManager.tsx:142 | splitting a join on its separator gives back the parts when none contains it |
| AdminForm.CleanIndent | src/components/admin/VideoManager.tsx:142 | trimming the indented entries gives back the entries |
| AdminForm.TagsRoundTrip | src/components/admin/VideoManager.tsx:142-173 | opening a record and submitting it unchanged keeps its tags |
| AdminForm.ParseTagsStable | src/components/admin/VideoManager.tsx:142-173 | re-editing a submitted record and submitting it again changes its tags no further |
| VideoManager.PreviewLabels | src/components/admin/VideoManager.tsx:29-76 | a blank link shows neither label nor image; any other link gets one of four labels |
| VideoManager.PreviewAgreesWithCard | src/components/admin/VideoManager.tsx:29-76 | the preview label names the platform the card resolves, and a YouTube preview is the card's own image |
| VideoManager.SubmittedVideoShape | src/components/admin/VideoManager.tsx:111-144 | the saved record has the edited id or a clock id, trimmed text, the platform and id resolved from the link, and clean tags |
| VideoManager.EditForm | src/components/admin/VideoManager.tsx:167-176 | the edit form holds the record's title, link, description and thumbnail, and its tags joined |
| VideoManager.EditAndResaveUnchanged | src/components/admin/VideoManager.tsx:101-176 | opening a saved record and saving it without changes writes the same record |
| VideoManager.SubmittedIsResavable | src/components/admin/VideoManager.tsx:101-176 | every record saved from a link typed without surrounding spaces can be re-saved unchanged |
| VideoManager.IdReadBeforeTrim | src/components/admin/VideoManager.tsx:115-138 | the id is read from the link as typed, so a trailing space stays in the id while the stored link is trimmed |
| VideoManager.SpacedShortLinkId | src/components/admin/VideoManager.tsx:123-124 | a short link typed with a trailing space resolves to an id ending in that space |
| VideoManager.SpacedShortLinkTrimmed | src/components/admin/VideoManager.tsx:138 | the stored link is that link without the space |
| VideoManager.Manager.constructor | src/components/admin/VideoManager.tsx:16-26 | an empty form, no edit, no errors, no preview, not submitting |
| VideoManager.Manager.SyncPreview | src/components/admin/VideoManager.tsx:29-76 | the preview follows the link and nothing else changes |
| VideoManager.Manager.HandleInputChange | src/components/admin/VideoManager.tsx:78-86 | sets the field, clears its message, and the preview follows |
| VideoManager.Manager.ValidateForm | src/components/admin/VideoManager.tsx:88-96 | records the validation messages and answers whether title and link are both filled in |
| VideoManager.Manager.ResetForm | src/components/admin/VideoManager.tsx:184-194 | empties the form, the edit id and the messages |
| VideoManager.Manager.HandleEdit | src/components/admin/VideoManager.tsx:167-176 | opens the record in the form under its id |
| VideoManager.Manager.HandleSubmit | src/components/admin/VideoManager.tsx:101-165 | an invalid form saves nothing; a valid one updates or adds through the store and clears the form, except when the store rethrows a failed add |
| VideoManager.Manager.SaveEdit | src/components/admin/VideoManager.tsx:148-151 | a failed update is swallowed by the store, so the form is always cleared |
| VideoManager.Manager.SaveNew | src/components/admin/VideoManager.tsx:152-161 | a failed add is rethrown, so the form is kept and the error shown |
| YoutubeVideoManager.IdPreviewMeaning | src/components/admin/YoutubeVideoManager.tsx:28-34 | a preview appears exactly for a non-blank id, and it is that id's image |
| YoutubeVideoManager.SubmittedCardFallsBack | src/components/admin/YoutubeVideoManager.tsx:61-68 | a record from this form resolves to no platform on the card, which shows the placeholder without a custom thumbnail |
| YoutubeVideoManager.SubmittedPayload | src/components/admin/YoutubeVideoManager.tsx:61-73 | the store is asked to add a `youtube` row with the trimmed id and no link |
| YoutubeVideoManager.EditForm | src/components/admin/YoutubeVideoManager.tsx:79-88 | the edit form holds the record's title, id, description, thumbnail and joined tags |
| YoutubeVideoManager.EditAndResaveUnchanged | src/components/admin/YoutubeVideoManager.tsx:56-88 | opening a record saved by this form and saving it again writes the same record |
| YoutubeVideoManager.Manager.constructor | src/components/admin/YoutubeVideoManager.tsx:16-25 | an empty form with no edit, messages or preview |
| YoutubeVideoManager.Manager.SyncPreview | src/components/admin/YoutubeVideoManager.tsx:28-34 | the preview follows the id and nothing else changes |
| YoutubeVideoManager.Manager.HandleInputChange | src/components/admin/YoutubeVideoManager.tsx:36-44 | sets the field and clears its message |
| YoutubeVideoManager.Manager.ValidateForm | src/components/admin/YoutubeVideoManager.tsx:46-54 | records the messages and answers whether title and id are both filled in |
| YoutubeVideoManager.Manager.ResetForm | src/components/admin/YoutubeVideoManager.tsx:96-106 | empties the form, the edit id and the messages |
| YoutubeVideoManager.Manager.HandleEdit | src/components/admin/YoutubeVideoManager.tsx:79-88 | opens the record in the form under its id, with the preview following the copied id (a record without a camelCase id: see Left out) |
| YoutubeVideoManager.Manager.HandleSubmit | src/components/admin/YoutubeVideoManager.tsx:56-77 | an invalid form saves nothing; a valid one starts the update or add and clears the form whatever the store's outcome |
| FeaturedVideosManager.CategoryNameNamesCategory | src/components/admin/FeaturedVideosManager.tsx:7-15 | each tab label names one category |
| FeaturedVideosManager.AvailableVideosMembers | src/components/admin/FeaturedVideosManager.tsx:29-33 | a video is offered exactly when it is in the library and not in the active category |
| FeaturedVideosManager.AvailableWithNothingFeatured | src/components/admin/FeaturedVideosManager.tsx:29-33 | with nothing featured the whole library is offered, in order |
| FeaturedVideosManager.AvailableAfterFeature | src/components/admin/FeaturedVideosManager.tsx:29-33 | featuring a video takes its id out of the picker and keeps the other options in order |
| FeaturedVideosManager.ListThumbnailMeaning | src/components/admin/FeaturedVideosManager.tsx:119-129 | without a custom image the list shows a YouTube image exactly for an entry stored as YouTube with an id |
| FeaturedVideosManager.ListAgreesWithCard | src/components/admin/FeaturedVideosManager.tsx:119-129 | for an entry stored as YouTube with an id, the list and the card show the same image |
| FeaturedVideosManager.PlatformLabel | src/components/admin/FeaturedVideosManager.tsx:134 | the platform line is never empty and shows a stored platform |
| FeaturedVideosManager.PositionLabel | src/components/admin/FeaturedVideosManager.tsx:134 | positions are shown counted from one |
| FeaturedVideosManager.RowIndexInStep | src/components/admin/FeaturedVideosManager.tsx:114-153 | while the list and the database agree, the store finds an entry's row at its list index |
| FeaturedVideosManager.EnabledButtonMoves | src/components/admin/FeaturedVideosManager.tsx:138-153 | a move button is enabled exactly when the store would swap the entry, and then it trades places with the neighbour shown |
| FeaturedVideosManager.Manager.constructor | src/components/admin/FeaturedVideosManager.tsx:19-26 | the tab opens on `trending` with nothing picked and the store's list shown |
| FeaturedVideosManager.Manager.LoadCategory | src/components/admin/FeaturedVideosManager.tsx:24-26 | the shown list is reloaded from the store |
| FeaturedVideosManager.Manager.SelectCategory | src/components/admin/FeaturedVideosManager.tsx:66 | switches the tab and shows its list |
| FeaturedVideosManager.Manager.SelectVideo | src/components/admin/FeaturedVideosManager.tsx:82 | records the pick |
| FeaturedVideosManager.Manager.HandleAddVideo | src/components/admin/FeaturedVideosManager.tsx:35-41 | nothing without a pick; otherwise clears the pick and passes on the store's outcome: a lookup or position failure writes nothing and keeps every list; an existing pair is deleted and the video filtered out of the active category only; a new pair is inserted after the top position and the video appended to the active category only; a failed delete or insert, or a video missing locally, keeps every list |
| FeaturedVideosManager.Manager.HandleRemoveVideo | src/components/admin/FeaturedVideosManager.tsx:43-45 | deletes the pair's row; on success the active category is filtered by id, keeping the other entries in order, and every other category is unchanged; on failure every list is kept |
| FeaturedVideosManager.Manager.HandleMoveVideo | src/components/admin/FeaturedVideosManager.tsx:47-50 | the shown list swaps the two entries exactly when the store swapped them |
| HomePage.CategoryToUse | src/components/HomePage.tsx:35-43 | `popular` reads `trending`; any other section reads its own key |
| HomePage.VideoSections | src/components/HomePage.tsx:15-22 | five sections get video rows, starting with `popular` |
| HomePage.RowsShowFeaturedLists | src/components/HomePage.tsx:35-51 | each row shows exactly its category's featured list, and the `sci-fi` row is always empty |
| HomePage.RowsReadDistinctCategories | src/components/HomePage.tsx:73-95 | different rows read different categories, and documentary, music and original are never shown |
| HomePage.TrendingMovies | src/components/HomePage.tsx:30-32 | the trending row is the first ten movies, or all when fewer |
| HomePage.FindMovieFirst | src/components/HomePage.tsx:54 | the search yields the first movie with the id, and nothing exactly when no movie has it |
| HomePage.Page.constructor | src/components/HomePage.tsx:14 | no series modal is open |
| HomePage.Page.HandlePlayFeatured | src/components/HomePage.tsx:53-55 | opens the modal on the movie with the id, or closes it when none has it |
| HomePage.Page.CloseModal | src/components/HomePage.tsx:101 | closes the modal |
| YouTubeVideoRow.MaxIndex | src/components/YouTubeVideoRow.tsx:24 | the last scroll index shows the last four cards, or is 0 with four or fewer |
| YouTubeVideoRow.StepsStayInRange | src/components/YouTubeVideoRow.tsx:30-36 | scrolling never leaves `0..maxIndex` |
| YouTubeVideoRow.DisabledMeansNoEffect | src/components/YouTubeVideoRow.tsx:51-58 | an arrow is disabled exactly when pressing it would change nothing |
| YouTubeVideoRow.StepsUndoEachOther | src/components/YouTubeVideoRow.tsx:30-36 | next then previous (or the reverse) returns to the same index when the first press moved |
| YouTubeVideoRow.ScrollTarget | src/components/YouTubeVideoRow.tsx:24-70 | every card can be brought into the four-card window |
| YouTubeVideoRow.NextTimesClamps | src/components/YouTubeVideoRow.tsx:30-32 | pressing next scrolls one card at a time up to the last window and stays there |
| YouTubeVideoRow.Row.constructor | src/components/YouTubeVideoRow.tsx:17-18 | a row starts at the first card with no modal |
| YouTubeVideoRow.Row.Renders | src/components/YouTubeVideoRow.tsx:39 | an empty row renders nothing |
| YouTubeVideoRow.Row.NextSlide | src/components/YouTubeVideoRow.tsx:30-32 | moves one card on unless at the last window |
| YouTubeVideoRow.Row.PrevSlide | src/components/YouTubeVideoRow.tsx:34-36 | moves one card back unless at the start |
| YouTubeVideoRow.Row.HandleVideoPlay | src/components/YouTubeVideoRow.tsx:26-28 | opens the modal on the played card |
| YouTubeVideoRow.Row.CloseModal | src/components/YouTubeVideoRow.tsx:90 | closes the modal |
| YouTubeVideoRow.Row.Modal | src/components/YouTubeVideoRow.tsx:87-92 | the modal shows nothing until a card is played, then that card |
| FeaturedBanner.ArrowsWrap | src/components/FeaturedBanner.tsx:39-44 | both arrows stay in range and wrap around at the ends |
| FeaturedBanner.ArrowsUndoEachOther | src/components/FeaturedBanner.tsx:39-44 | each arrow undoes the other |
| FeaturedBanner.NextTimesWithin | src/components/FeaturedBanner.tsx:42-44 | `k` presses of next move `k` movies along while the end is not passed |
| FeaturedBanner.NextTimesCompose | src/components/FeaturedBanner.tsx:42-44 | `a` presses then `b` presses are `a + b` presses |
| FeaturedBanner.FullCircle | src/components/FeaturedBanner.tsx:42-44 | one press per movie visits them all and returns to the start |
| FeaturedBanner.Banner.constructor | src/components/FeaturedBanner.tsx:19-21 | the banner starts on the first movie, muted |
| FeaturedBanner.Banner.Renders | src/components/FeaturedBanner.tsx:23 | an empty list renders nothing |
| FeaturedBanner.Banner.Background | src/components/FeaturedBanner.tsx:54-70 | the current movie's clip when it has one, its still otherwise |
| FeaturedBanner.Banner.ShowsMuteButton | src/components/FeaturedBanner.tsx:74-82 | the mute button appears exactly over a clip |
| FeaturedBanner.Banner.PlayId | src/components/FeaturedBanner.tsx:105 | Play hands over the current movie's id |
| FeaturedBanner.Banner.HandlePrev | src/components/FeaturedBanner.tsx:39-41 | steps back with wrap-around, sound untouched |
| FeaturedBanner.Banner.HandleNext | src/components/FeaturedBanner.tsx:42-44 | steps on with wrap-around, sound untouched |
| FeaturedBanner.Banner.GoToIndex | src/components/FeaturedBanner.tsx:45 | a dot jumps to its own movie |
| FeaturedBanner.Banner.HandleToggleMute | src/components/FeaturedBanner.tsx:26-37 | flips mute; a playing clip follows, and unmuting sets full volume |
| Creators.Ids | src/components/Creators.tsx:38 | the ids of the cards, in order |
| Creators.CandidatesSpec | src/components/Creators.tsx:41-42 | the candidates are exactly the listed creators neither shown nor dismissed |
| Creators.SliceEnd | src/components/Creators.tsx:43-45 | a negative `slice` end counts back from the length |
| Creators.GapFilledSpec | src/components/Creators.tsx:33-48 | gap filling keeps the shown cards in front, adds only free creators, never exceeds nine, fills every slot it can, and repeats no id |
| Creators.WithoutIdSpec | src/components/Creators.tsx:54 | the dismissed creator's cards go, the others stay |
| Creators.FirstCandidateSpec | src/components/Creators.tsx:58-60 | the replacement is a listed creator neither shown nor dismissed, and none exists exactly when every creator is one or the other |
| Creators.AfterDismissSpec | src/components/Creators.tsx:50-67 | a dismissal keeps the other cards in order and adds at most one free creator |
| Creators.DismissedCreatorComesBack | src/components/Creators.tsx:58-60 | checked against the ids dismissed before the click, the dismissed creator can be its own replacement |
| Creators.DismissWithNewIdsExcludes | src/components/Creators.tsx:50-67 | counting the click's own id as dismissed keeps that creator off the grid |
| Creators.Grid.constructor | src/components/Creators.tsx:11-12 | no cards and no dismissals |
| Creators.Grid.FillInitial | src/components/Creators.tsx:20-31 | an empty grid takes the whole list once it has loaded |
| Creators.Grid.FillGaps | src/components/Creators.tsx:33-48 | a non-empty list fills the grid's gaps |
| Creators.Grid.HandleDismiss | src/components/Creators.tsx:50-67 | records the id, keeps the other cards in order, and appends at most one card: a listed creator neither on the remaining cards nor among the ids dismissed before the click, so the dismissed creator itself can return |
| ExpandableSidebar.ActiveTabIsFirstSegment | src/components/ExpandableSidebar.tsx:63-67 | a path highlights its first segment |
| ExpandableSidebar.ItemHighlightsItself | src/components/ExpandableSidebar.tsx:54-67 | an item's own path highlights it |
| ExpandableSidebar.ItemIdsDistinct | src/components/ExpandableSidebar.tsx:54-61 | the items have different ids |
| ExpandableSidebar.EachItemHighlightsItself | src/components/ExpandableSidebar.tsx:54-67 | an item's path highlights that item and no other |
| ExpandableSidebar.HoverFollowsCursorUnlessLocked | src/components/ExpandableSidebar.tsx:31-41 | hovering expands and leaving collapses an unlocked sidebar; a locked one and the lock are untouched |
| ExpandableSidebar.ToggleTwiceRestores | src/components/ExpandableSidebar.tsx:43-46 | the menu button undoes itself and from the start locks the sidebar open |
| ExpandableSidebar.LockWhileHovered | src/components/ExpandableSidebar.tsx:31-46 | clicking the button while hover has expanded the sidebar collapses and locks it |
| ExpandableSidebar.Sidebar.constructor | src/components/ExpandableSidebar.tsx:20-21 | collapsed and unlocked |
| ExpandableSidebar.Sidebar.HandleMouseEnter | src/components/ExpandableSidebar.tsx:31-35 | the state after entering is `Entered` of the state before |
| ExpandableSidebar.Sidebar.HandleMouseLeave | src/components/ExpandableSidebar.tsx:37-41 | the state after leaving is `Left` of the state before |
| ExpandableSidebar.Sidebar.HandleToggleClick | src/components/ExpandableSidebar.tsx:43-46 | the state after a click is `Toggled` of the state before |
| StripePaymentForm.IntentFrom | src/components/wallet/StripePaymentForm.tsx:81-132 | an accepted reply always yields both a client secret and an intent id |
| StripePaymentForm.IntentFromAccepts | src/components/wallet/StripePaymentForm.tsx:81-127 | a reply is accepted exactly when it is, or parses to, an object with both values, and yields those values |
| StripePaymentForm.TextAndDecodedAgree | src/components/wallet/StripePaymentForm.tsx:81-100 | a reply sent as JSON text is treated like the decoded value |
| StripePaymentForm.Shown | src/components/wallet/StripePaymentForm.tsx:152 | a null message reads as empty |
| StripePaymentForm.Container.constructor | src/components/wallet/StripePaymentForm.tsx:44-47 | no secret, no id, not loading, no error |
| StripePaymentForm.Container.GetPaymentIntent | src/components/wallet/StripePaymentForm.tsx:50-139 | nothing without a package; an accepted reply stores the intent; any failure shows the one generic error and keeps the stored values |
| StripePaymentForm.Container.View | src/components/wallet/StripePaymentForm.tsx:140-267 | hidden exactly without a package, and the card form is given the stored secret and id |
| StripePaymentForm.Container.CardFormWhenReady | src/components/wallet/StripePaymentForm.tsx:140-267 | the card form shows exactly with a package, not loading, no error, and both values held |
| StripePaymentForm.Container.RetryUnreachable | src/components/wallet/StripePaymentForm.tsx:167-237 | the "Try Again" prompt is never rendered, and the waiting panel is never reached while secret and id are stored together |
| StripePaymentForm.DependencyMessage | src/components/wallet/StripePaymentForm.tsx:305-312 | the last missing dependency in check order decides the message |
| StripePaymentForm.NoConfirmWithoutDeps | src/components/wallet/StripePaymentForm.tsx:305-316 | nothing is sent to Stripe while a dependency is missing |
| StripePaymentForm.VerifyOnlyAfterSucceeded | src/components/wallet/StripePaymentForm.tsx:334-363 | the server verifies exactly after Stripe confirmed `succeeded` without error, for this intent, user and package |
| StripePaymentForm.SuccessOnlyAfterVerified | src/components/wallet/StripePaymentForm.tsx:342-379 | the success callback fires exactly after a verification that went through, last, with no message shown |
| StripePaymentForm.QuietOutcomes | src/components/wallet/StripePaymentForm.tsx:364-382 | a failed verification shows the prefixed message; another status shows nothing |
| StripePaymentForm.ConfirmThrowShowsMessage | src/components/wallet/StripePaymentForm.tsx:383-386 | a throw from the confirmation shows its message, `Error` or not, or the fixed text when it has none, and nothing else is called |
| StripePaymentForm.PaymentForm.constructor | src/components/wallet/StripePaymentForm.tsx:288-289 | not processing and no message |
| StripePaymentForm.PaymentForm.PayDisabled | src/components/wallet/StripePaymentForm.tsx:435 | the pay button is disabled exactly without Stripe or while processing |
| StripePaymentForm.PaymentForm.HandleSubmit | src/components/wallet/StripePaymentForm.tsx:291-389 | makes exactly `SubmitPlan`'s calls and shows its message; processing ends after every submission that got past the checks |
| PaymentPage.PurchaseFailureMessage | src/components/wallet/PaymentPage.tsx:73-88 | a thrown call or a message-less error gives the crediting-failed text |
| PaymentPage.MissingFunctionIsConfiguration | src/components/wallet/PaymentPage.tsx:76-80 | an error naming the missing database function reads as a configuration problem; any other is shown after the prefix |
| PaymentPage.CreateOrder | src/components/wallet/PaymentPage.tsx:211-223 | one unit, captured immediately, in US dollars at the package price |
| PaymentPage.OrderNamesAmount | src/components/wallet/PaymentPage.tsx:220 | the order description starts with the credit amount, which reads back as that amount |
| PaymentPage.StripePackage | src/components/wallet/PaymentPage.tsx:191-196 | the card checkout gets the package's id and credit amount |
| PaymentPage.Page.constructor | src/components/wallet/PaymentPage.tsx:14-23 | loading, card payment chosen, nothing loaded, nothing navigated |
| PaymentPage.Page.View | src/components/wallet/PaymentPage.tsx:94-263 | the spinner exactly while loading; the checkout exactly once loaded with a package and no error |
| PaymentPage.Page.ErrorReplacesCheckout | src/components/wallet/PaymentPage.tsx:102-119 | any error replaces the checkout with the error screen, so the inline note never shows |
| PaymentPage.Page.FetchPackageDetails | src/components/wallet/PaymentPage.tsx:30-54 | no package id is an error; a failed or empty read is an error; otherwise the package is stored; loading always ends |
| PaymentPage.Page.HandlePaymentSuccess | src/components/wallet/PaymentPage.tsx:59-92 | without user or package nothing happens; otherwise the purchase call is made for the package and a success navigates home; the handler is defined but nothing on the page calls it |
| PaymentPage.Page.SelectMethod | src/components/wallet/PaymentPage.tsx:161-170 | switches the payment method only |
| PaymentPage.Page.StripeSucceeded | src/components/wallet/PaymentPage.tsx:197 | navigates home with the success flag |
| PaymentPage.Page.StripeCancelled | src/components/wallet/PaymentPage.tsx:198 | clears the error |
| PaymentPage.Page.CancelChangesNothingVisible | src/components/wallet/PaymentPage.tsx:102-198 | "Go Back" is only reachable with no error shown |
| PaymentPage.Page.OnApprove | src/components/wallet/PaymentPage.tsx:225-249 | sends the order, user and package to the server; verified goes home, an error or a throw shows its message; no user means no request |
| PaymentPage.Page.OnPayPalError | src/components/wallet/PaymentPage.tsx:250-253 | shows the PayPal failure message |
| PaymentPage.FailuresShowMessage | src/components/wallet/PaymentPage.tsx:73-88 | every failed purchase call leaves a non-empty message |
| Http.Member | supabase/functions/verify-stripe-payment/index.ts:67-69 | a property read throws exactly on `undefined` or `null`, and yields a present member's value |
| Http.Element | supabase/functions/verify-paypal-payment/index.ts:66 | an index read throws exactly on `undefined` or `null` |
| Http.Then | supabase/functions/verify-paypal-payment/index.ts:66 | a read after a throw throws; otherwise it reads the value |
| Http.ThenElement | supabase/functions/verify-paypal-payment/index.ts:66 | an index read after a throw throws; otherwise it reads the value |
| Http.WithMember | supabase/functions/verify-paypal-payment/index.ts:92-97 | a defined member is sent and others are kept; an undefined one is dropped |
| Http.EnvGet | supabase/functions/create-stripe-payment-intent/index.ts:72 | a variable reads as set exactly when it is in the environment |
| Http.ErrorBody | supabase/functions/verify-paypal-payment/index.ts:68 | an error body carries the message under `error` |
| Http.ErrorOf | supabase/functions/create-stripe-payment-intent/index.ts:154-161 | a response has an `error` member only when it is a JSON object |
| VerifyStripePayment.FirstTruthy | supabase/functions/verify-stripe-payment/index.ts:67-69 | `a \|\| b \|\| ''` is truthy exactly when one of them is, and is the first truthy one |
| VerifyStripePayment.Normalize | supabase/functions/verify-stripe-payment/index.ts:67-69 | reading the fields throws exactly for a `null` body |
| VerifyStripePayment.MissingFields | supabase/functions/verify-stripe-payment/index.ts:84-88 | the intent id and package id are listed exactly when empty, in that order; the user id never |
| VerifyStripePayment.RpcParams | supabase/functions/verify-stripe-payment/index.ts:197-208 | package, intent and credits are always sent; the user id exactly when it is non-blank once trimmed; a non-string user id throws |
| VerifyStripePayment.Respond | supabase/functions/verify-stripe-payment/index.ts:58-61 | every response carries the CORS headers |
| VerifyStripePayment.StripeFailure | supabase/functions/verify-stripe-payment/index.ts:240-253 | any throw inside the Stripe block is a 500 reporting a Stripe verification error, with the thrown message as details when it has one, `Error` or not, and "Unknown Stripe error" otherwise |
| VerifyStripePayment.Credit | supabase/functions/verify-stripe-payment/index.ts:195-239 | the purchase RPC step answers with the CORS headers |
| VerifyStripePayment.Verify | supabase/functions/verify-stripe-payment/index.ts:137-253 | Stripe is always asked first, about the request's intent |
| VerifyStripePayment.Handle | supabase/functions/verify-stripe-payment/index.ts:31-271 | every answer carries the CORS headers |
| VerifyStripePayment.PreflightAnswersOk | supabase/functions/verify-stripe-payment/index.ts:36-39 | a preflight request is answered `ok` and calls nothing |
| VerifyStripePayment.MissingFieldsRefused | supabase/functions/verify-stripe-payment/index.ts:84-106 | a request missing the intent or package id is refused with 400 before any call |
| VerifyStripePayment.SnakeCaseWins | supabase/functions/verify-stripe-payment/index.ts:67 | the snake_case field wins when both spellings are sent |
| VerifyStripePayment.CreditOnlyAfterSucceeded | supabase/functions/verify-stripe-payment/index.ts:140-211 | credits are added only for an intent Stripe reports `succeeded` and an existing package, with the row's amount and the request's ids |
| VerifyStripePayment.CreditCalls | supabase/functions/verify-stripe-payment/index.ts:140-211 | the RPC is sent only after all three earlier steps, with `RpcParams` |
| VerifyStripePayment.SuccessMeansCredited | supabase/functions/verify-stripe-payment/index.ts:211-239 | a 200 answer means the RPC was made and reported no error, and vice versa |
| VerifyStripePayment.VerifySucceedsOnlyByRpc | supabase/functions/verify-stripe-payment/index.ts:211-239 | within the verification, 200 exactly when the RPC was made and succeeded |
| VerifyStripePayment.ReportedErrorsIgnored | supabase/functions/verify-stripe-payment/index.ts:163-185 | a lookup error beside a returned row, and an update error, change nothing |
| VerifyStripePayment.UserIdSentWhenNonBlank | supabase/functions/verify-stripe-payment/index.ts:204-208 | a string user id is sent exactly when non-blank once trimmed |
| VerifyPaypalPayment.Respond | supabase/functions/verify-paypal-payment/index.ts:68-71 | every response carries the CORS headers |
| VerifyPaypalPayment.Completed | supabase/functions/verify-paypal-payment/index.ts:64-67 | completed means both the order and its first capture are `COMPLETED`; a `null` order throws on its status; an incomplete order never reads the captures |
| VerifyPaypalPayment.RpcParams | supabase/functions/verify-paypal-payment/index.ts:92-97 | the credits are always sent, and each other argument exactly when defined |
| VerifyPaypalPayment.Credit | supabase/functions/verify-paypal-payment/index.ts:75-110 | the lookup and RPC steps answer with the CORS headers |
| VerifyPaypalPayment.Verify | supabase/functions/verify-paypal-payment/index.ts:41-110 | every answer of the verification carries the CORS headers |
| VerifyPaypalPayment.Handle | supabase/functions/verify-paypal-payment/index.ts:26-118 | every answer carries the CORS headers |
| VerifyPaypalPayment.PreflightAnswersOk | supabase/functions/verify-paypal-payment/index.ts:27-29 | a preflight request is answered `ok` and calls nothing |
| VerifyPaypalPayment.CreditOnlyWhenCompleted | supabase/functions/verify-paypal-payment/index.ts:64-97 | credits are added only for a completed order and capture and a clean lookup, with the row's amount and the order's own id |
| VerifyPaypalPayment.VerifyCredits | supabase/functions/verify-paypal-payment/index.ts:41-97 | the RPC follows a token, a completed order and a clean lookup, with `RpcParams` |
| VerifyPaypalPayment.CreditCalls | supabase/functions/verify-paypal-payment/index.ts:75-97 | the RPC follows a clean lookup, with `RpcParams` |
| VerifyPaypalPayment.IncompleteOrderRefused | supabase/functions/verify-paypal-payment/index.ts:64-72 | an order other than `null` whose status is not `COMPLETED` is refused with 400 and nothing more is called |
| VerifyPaypalPayment.NullOrderIsServerError | supabase/functions/verify-paypal-payment/index.ts:111-116 | a `null` order body throws on its status read (line 64): 500 "Server error", and nothing more is called |
| VerifyPaypalPayment.MissingCapturesIsServerError | supabase/functions/verify-paypal-payment/index.ts:64-67 | a completed order without capture details is a 500, not a 400 |
| VerifyPaypalPayment.LookupErrorRefused | supabase/functions/verify-paypal-payment/index.ts:81-86 | a lookup reporting an error is refused even when a row came back |
| VerifyPaypalPayment.SuccessMeansCredited | supabase/functions/verify-paypal-payment/index.ts:92-110 | 200 with `{ success: true }` exactly when the RPC was made and succeeded |
| CreateStripePaymentIntent.Respond | supabase/functions/create-stripe-payment-intent/index.ts:51-54 | every response carries the CORS headers |
| CreateStripePaymentIntent.ParseFields | supabase/functions/create-stripe-payment-intent/index.ts:36-55 | accepted fields are all truthy |
| CreateStripePaymentIntent.ParseFieldsAccepts | supabase/functions/create-stripe-payment-intent/index.ts:36-55 | a body passes exactly when package, amount and currency are truthy; a zero amount and a `null` body fail |
| CreateStripePaymentIntent.StripeFailure | supabase/functions/create-stripe-payment-intent/index.ts:152-161 | a throw from Stripe or the insert is a 500 reporting a Stripe API error, with the thrown message and type when non-empty and "Unknown Stripe error" and `unknown` otherwise |
| CreateStripePaymentIntent.Open | supabase/functions/create-stripe-payment-intent/index.ts:93-161 | the intent and record steps answer with the CORS headers, and a throw from the insert is reported with its own message |
| CreateStripePaymentIntent.Handle | supabase/functions/create-stripe-payment-intent/index.ts:27-162 | every answer carries the CORS headers |
| CreateStripePaymentIntent.PreflightAnswersOk | supabase/functions/create-stripe-payment-intent/index.ts:28-30 | a preflight request is answered `ok` and calls nothing |
| CreateStripePaymentIntent.IntentOnlyWhenConfigured | supabase/functions/create-stripe-payment-intent/index.ts:36-132 | Stripe is asked only with all three fields and both keys set (the secret starting `sk_`), in the lower-cased currency, which the record repeats |
| CreateStripePaymentIntent.LoweredCurrency | supabase/functions/create-stripe-payment-intent/index.ts:106 | the lowered currency has no upper-case letter |
| CreateStripePaymentIntent.InsertErrorIgnored | supabase/functions/create-stripe-payment-intent/index.ts:134-141 | an insert the client reports as failed does not fail the request |
| CreateStripePaymentIntent.SuccessCarriesIntent | supabase/functions/create-stripe-payment-intent/index.ts:145-151 | a 200 answer carries exactly the created intent's secret and id |
| CreateStripePaymentIntent.StripeRefusalReported | supabase/functions/create-stripe-payment-intent/index.ts:152-161 | a Stripe refusal is a 500 carrying its message and type, or their fallbacks |
| CreateStripePaymentIntent.InsertThrowReported | supabase/functions/create-stripe-payment-intent/index.ts:134-161 | an insert that throws gives a 500 carrying the thrown message, `Error` or not, or its fallback, with type `unknown` |

Behaviours of the code as written that the contracts above make explicit:

- The video-library form reads the video id from the link as typed and only then trims the
  link, so a link typed with a trailing space stores an id ending in that space
  (`VideoManager.IdReadBeforeTrim`).
- A record saved from the YouTube-id form has no link, so its card resolves no platform and
  shows the placeholder image unless a custom thumbnail is given
  (`YoutubeVideoManager.SubmittedCardFallsBack`).
- The home page's `sci-fi` row reads a category the store never holds, so it is always empty,
  and the documentary, music and original lists are never shown (`HomePage.RowsShowFeaturedLists`).
- Clicking the sidebar's menu button while hovering has expanded it collapses the sidebar and
  locks it collapsed (`ExpandableSidebar.LockWhileHovered`).
- The card container's "Try Again" prompt and its waiting panel cannot be reached
  (`StripePaymentForm.Container.RetryUnreachable`).
- The payment page's inline error note is never shown, because any error replaces the
  checkout (`PaymentPage.Page.ErrorReplacesCheckout`).
- Nothing on the payment page calls `handlePaymentSuccess`: the card checkout's `onSuccess`
  navigates home directly and PayPal goes through `onApprove`. `PaymentPage.Page.HandlePaymentSuccess`,
  `PaymentPage.PurchaseFailureMessage`, `PaymentPage.MissingFunctionIsConfiguration` and
  `PaymentPage.FailuresShowMessage` describe that unused handler.
- The PayPal verification answers 500, not 400, for a completed order without capture
  details (`VerifyPaypalPayment.MissingCapturesIsServerError`). It does the same for an order
  body of `null` (`VerifyPaypalPayment.NullOrderIsServerError`).
- Dismissing a suggested creator can put that same creator straight back, because the
  replacement is checked against the ids dismissed before the click
  (`Creators.DismissedCreatorComesBack`).
- The checkout's `err.message || …` fallbacks show the message of any thrown value, not only
  of `Error` instances (`Remote.MessageOr`).

## Left out

- Persistence of the store to `localStorage` is left out, because it has no effect on the state the actions compute.
- Console logging is left out, because nothing reads it.
- The clock is left out. Ids made from `Date.now()` come in through a `now` parameter.
- Package prices are floating-point numbers, and the text they are shown or sent as (`toFixed`, `toLocaleString`) is not modelled. `PaymentPage.CreateOrder` takes the price as an already formatted string.
- Credit amounts are taken as integers, so the `Math.floor` applied to them is not modelled. JSON numbers are integers throughout.
- The internals of the Supabase, Stripe and PayPal SDKs are left out, and so are OAuth and the construction of their clients. Each call is a parameter carrying its reply or its throw.
- The PayPal buttons' own capture call (`actions.order.capture`) is left out, because it runs inside PayPal's SDK. The model starts from the order it returns.
- CORS plumbing beyond the header constants each handler returns is left out.
- CreateStripePaymentIntent.Handle: the outer `catch` at `supabase/functions/create-stripe-payment-intent/index.ts:164-173` is left out. Its reply carries a timestamp, and the steps modelled reach it only on a throw that is not modelled.
- A request body that cannot be read as text, or a failing `clone`, is treated like a body that is not JSON.
- Absent and empty values are told apart only where the code tests them.
- Inherited object properties are modelled where the fetch pushes to a category by name (`YoutubeStore.FetchFailsOnlyOnInheritedKey`) and nowhere else.
- YoutubeStore.Store.GetFeaturedVideos: a key naming an inherited property, such as `constructor`, yields an empty list. The source returns the inherited value, which is truthy. A list of videos cannot hold that value, and the callers pass only category names and `sci-fi`.
- YoutubeStore.Store.MoveFeaturedVideo: swaps the local entries only when both of the database's indices fall inside the local list. The source assigns past the end. When the database lists more rows for the category than the local copy holds, the local list grows with an `undefined` entry: `[a]` becomes `[undefined, a]` (`YoutubeStore.MoveWithShorterLocalList`). That state arises after `FeatureVideo` inserts a row but finds no local entry for the video. The local lists hold videos only, so the model leaves the list as it was. The two swaps agree whenever both indices are in range (`YoutubeStore.JsSwapInRange`, and the method's own contract).
- FeaturedVideosManager.Manager.HandleMoveVideo: shows the store's list, so the `undefined` entry above never appears in the shown list either.
- YouTubeVideoRow.Row and FeaturedBanner.Banner take their list once, at construction. A parent that later passes a shorter list, leaving the current index past its end, is not modelled.
- Overlapping asynchronous actions, and their races on `isLoading`, are left out. Each action runs to completion before the next begins.
- Deleting from the library (`handleDelete` and its `window.confirm`) is left out. It needs a confirmation dialog, and its store action is modelled.
- The wording of JavaScript's `TypeError` messages is taken from V8 and may differ elsewhere.
- Case folding is ASCII-only (`JsText.Lower`). Non-ASCII letters are left unchanged.
- YoutubeVideoManager.Manager.HandleEdit: for a record whose camelCase `youtubeId` is absent or `null`, the source's preview effect throws a `TypeError` on `trim` (`src/components/admin/YoutubeVideoManager.tsx:29`), because `handleEdit` copies the id with no `|| ''` (line 83). Every record added in the current session is such a record, since the store keeps the raw database row with snake_case fields only (`YoutubeStore.Inserted`). So is every fetched row whose `youtube_id` is `null`. `Video` does not tell absent or `null` text from empty text, so the model opens an empty id field instead of failing.
- The movie store and the featured-creators store are not part of this model. Their lists are parameters of the components that read them.
- Fields that the server functions only log are not modelled.

## Findings

| source | as written | input that shows it | evidently intended | confidence | as-written member | corrected member |
|---|---|---|---|---|---|---|
| src/stores/youtubeStore.ts:481-483 | the local swap uses the indices of the rows the database returns on the local copy of the category's list | the local list is `[a]` and the database returns rows `[a, x]` (another session featured `x`); moving `a` down gives the local list `[undefined, a]` | swap only entries that exist locally and leave the list a permutation of itself | not executed | YoutubeStore.MoveWithShorterLocalList | YoutubeStore.SwapInRange |
| src/components/Creators.tsx:58-60 | the replacement card is chosen against the ids dismissed before the click | one creator `c` on the grid; dismissing `c` removes its card and puts `c` straight back | a dismissed creator does not reappear | not executed | Creators.DismissedCreatorComesBack | Creators.DismissWithNewIdsExcludes |
