/** The admin panel's YouTube form: videos are entered by their bare YouTube id rather than
    by link. Submitting does not wait for the store and always clears the form. */
module YoutubeVideoManager {
  import opened JsText
  import opened Remote
  import opened Catalog
  import opened YouTubeVideo
  import opened AdminForm
  import YoutubeStore

  const IdRequired := "YouTube ID is required"

  /** The preview effect: YouTube's image of the id as typed, once the id is not blank. */
  function IdPreview(youtubeId: string): string {
    if Trim(youtubeId) != "" then CdnThumbnail(youtubeId) else ""
  }

  /** A preview is shown exactly for a non-blank id, and it names that id. */
  lemma IdPreviewMeaning(youtubeId: string, other: string)
    ensures IdPreview(youtubeId) == "" <==> Trim(youtubeId) == ""
    ensures IdPreview(youtubeId) == CdnThumbnail(other) <==> Trim(youtubeId) != "" && other == youtubeId
  {
    if IdPreview(youtubeId) == CdnThumbnail(other) {
      CdnThumbnailInjective(youtubeId, other);
    }
  }

  /** The record the form saves: no link and no platform, only the trimmed id. */
  function SubmittedVideo(form: FormData, editMode: string, now: nat): Video {
    Video(if editMode != "" then editMode else "yt-" + NatToString(now),
          Trim(form.title), "", "", "", Trim(form.link), "",
          Trim(form.description), ParseTags(form.tags), Trim(form.thumbnail), None)
  }

  /** The card shows a saved record by its stored id only when a platform is stored too; a
      record from this form has none, and no link to resolve, so without a custom thumbnail
      its card shows the placeholder and resolves to no platform. */
  lemma SubmittedCardFallsBack(form: FormData, editMode: string, now: nat)
    ensures ResolvedInfo(SubmittedVideo(form, editMode, now)) == PlatformInfo("other", "")
    ensures Trim(form.thumbnail) == "" ==> ThumbnailUrl(SubmittedVideo(form, editMode, now), false) == FallbackImage
  {
  }

  /** What the store is asked to add: the `youtube` platform (the store's default), the id,
      and an empty link. */
  lemma SubmittedPayload(form: FormData, editMode: string, now: nat)
    ensures var p := YoutubeStore.NewVideoPayload(SubmittedVideo(form, editMode, now));
      p.platform == "youtube" && p.youtube_id == Trim(form.link) && p.video_url == ""
  {
  }

  /** The form `handleEdit` fills in for a video. */
  function EditForm(v: Video): (r: FormData)
    ensures r.title == v.title && r.link == v.youtubeId && r.description == v.description
    ensures r.thumbnail == v.thumbnail && r.tags == EditTags(v.tags)
  {
    FormData(v.title, v.youtubeId, v.description, EditTags(v.tags), v.thumbnail)
  }

  /** Opening a record saved by this form and saving it without changes writes the same
      record again. */
  lemma EditAndResaveUnchanged(form: FormData, editMode: string, now: nat)
    ensures var v := SubmittedVideo(form, editMode, now);
      v.id != "" && SubmittedVideo(EditForm(v), v.id, now) == v
  {
    var v := SubmittedVideo(form, editMode, now);
    TrimTwice(form.title);
    TrimTwice(form.link);
    TrimTwice(form.description);
    TrimTwice(form.thumbnail);
    TagsRoundTrip(ParseTags(form.tags));
  }

  class Manager {
    var formData: FormData
    var editMode: string
    var errors: map<Field, string>
    var previewUrl: string

    /** The preview always reflects the current id. */
    ghost predicate Synced()
      reads this
    {
      previewUrl == IdPreview(formData.link)
    }

    constructor()
      ensures Synced() && formData == EmptyForm && editMode == "" && errors == map[] && previewUrl == ""
    {
      formData, editMode, errors, previewUrl := EmptyForm, "", map[], "";
    }

    /** The effect that runs when the id changes. */
    method SyncPreview()
      modifies this
      ensures Synced() && formData == old(formData) && editMode == old(editMode) && errors == old(errors)
    {
      previewUrl := IdPreview(formData.link);
    }

    method HandleInputChange(name: Field, value: string)
      modifies this
      ensures Synced() && editMode == old(editMode)
      ensures formData == WithField(old(formData), name, value)
      ensures errors == ClearedOnInput(old(errors), name)
    {
      formData := WithField(formData, name, value);
      errors := ClearedOnInput(errors, name);
      SyncPreview();
    }

    method ValidateForm() returns (ok: bool)
      modifies this
      ensures errors == ValidationErrors(formData, IdRequired)
      ensures ok <==> Trim(formData.title) != "" && Trim(formData.link) != ""
      ensures formData == old(formData) && editMode == old(editMode) && previewUrl == old(previewUrl)
    {
      errors := ValidationErrors(formData, IdRequired);
      ValidationErrorsMeaning(formData, IdRequired);
      ok := |errors| == 0;
    }

    method ResetForm()
      modifies this
      ensures Synced() && formData == EmptyForm && editMode == "" && errors == map[] && previewUrl == ""
    {
      formData, editMode, errors := EmptyForm, "", map[];
      SyncPreview();
    }

    method HandleEdit(video: Video)
      modifies this
      ensures Synced() && editMode == video.id && formData == EditForm(video) && errors == old(errors)
    {
      editMode := video.id;
      formData := EditForm(video);
      SyncPreview();
    }

    /** Validates, then starts the update or the add (an added record's id is stamped from
        the clock reading `now`) and clears the form whatever the store's outcome. */
    method HandleSubmit(store: YoutubeStore.Store, now: nat, insertReply: Reply<VideoRow>, updateReply: Reply<()>)
      returns (saved: Option<Video>)
      requires Synced() && store.Valid()
      modifies this, store
      ensures Synced() && store.Valid() && store.featuredVideos == old(store.featuredVideos)
      ensures saved.None? <==> Trim(old(formData).title) == "" || Trim(old(formData).link) == ""
      ensures saved.None? ==>
        && errors == ValidationErrors(old(formData), IdRequired)
        && formData == old(formData) && editMode == old(editMode) && store.videos == old(store.videos)
      ensures saved.Some? ==>
        && saved.value == SubmittedVideo(old(formData), old(editMode), now)
        && formData == EmptyForm && editMode == "" && errors == map[]
      ensures saved.Some? && old(editMode) != "" ==>
        store.videos == (if updateReply.Ok? then YoutubeStore.ReplaceById(old(store.videos), old(editMode), YoutubeStore.Refreshed(saved.value))
                         else old(store.videos))
      ensures saved.Some? && old(editMode) == "" ==>
        store.videos == old(store.videos) + (if insertReply.Ok? then [YoutubeStore.Inserted(insertReply.value)] else [])
    {
      var ok := ValidateForm();
      if !ok {
        saved := None;
        return;
      }
      var video := SubmittedVideo(formData, editMode, now);
      saved := Some(video);
      if editMode != "" {
        var _ := store.UpdateVideo(editMode, video, updateReply);
      } else {
        var _, _, _ := store.AddVideo(video, "", insertReply);
      }
      ResetForm();
    }
  }
}
