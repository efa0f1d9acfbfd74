/** The admin panel's video library form: it detects the platform of the typed link for a
    preview, validates the required fields, builds the record it saves (platform and id
    resolved from the link, trimmed text, parsed tags) and adds or updates it in the store. */
module VideoManager {
  import opened JsText
  import opened Remote
  import opened Catalog
  import opened YouTubeVideo
  import opened AdminForm
  import YouTubeModal
  import YoutubeStore

  const VimeoPreview := "https://placehold.co/480x360/1E1E2A/00e0ff?text=Vimeo+Video"
  const DirectPreview := "https://placehold.co/480x360/1E1E2A/00e0ff?text=Direct+Video"
  const LinkPreview := "https://placehold.co/480x360/1E1E2A/00e0ff?text=Video+Link"
  const LinkRequired := "Video URL is required"
  const SaveFallback := "Failed to save video. Please try again."

  datatype Preview = Preview(previewUrl: string, detectedPlatform: string)

  /** The preview effect: nothing for a blank link, otherwise a platform label and a preview
      image for the link as typed (YouTube's image when an id is found). */
  function DetectPreview(link: string): Preview {
    if Trim(link) == "" then Preview("", "")
    else if IsYouTubeUrl(link) then
      var id := YouTubeIdRule(link);
      Preview(if id != "" then CdnThumbnail(id) else "", "YouTube")
    else if Includes(link, "vimeo.com") then Preview(VimeoPreview, "Vimeo")
    else if YouTubeModal.IsDirectFile(link) then Preview(DirectPreview, "Direct Video")
    else Preview(LinkPreview, "Unknown")
  }

  /** A blank link (white space only) shows neither label nor image; any other link gets
      one of four labels. */
  lemma PreviewLabels(link: string)
    ensures DetectPreview(link).detectedPlatform in {"", "YouTube", "Vimeo", "Direct Video", "Unknown"}
    ensures DetectPreview(link).detectedPlatform == "" <==> Trim(link) == ""
    ensures Trim(link) == "" ==> DetectPreview(link) == Preview("", "")
  {
  }

  /** The preview's label names the platform the video card will resolve from the same link,
      and a YouTube preview is the very image the card will generate. */
  lemma PreviewAgreesWithCard(link: string)
    requires Trim(link) != ""
    ensures DetectPreview(link).detectedPlatform == "YouTube" <==> GetPlatformInfo(link).platform == "youtube"
    ensures DetectPreview(link).detectedPlatform == "Vimeo" <==> GetPlatformInfo(link).platform == "vimeo"
    ensures DetectPreview(link).detectedPlatform in {"Direct Video", "Unknown"} <==> GetPlatformInfo(link).platform == "other"
    ensures GetPlatformInfo(link).platform == "youtube" && GetPlatformInfo(link).id != "" ==>
      DetectPreview(link).previewUrl == GeneratedThumbnail(GetPlatformInfo(link))
  {
    assert link != "";
  }

  /** The record the form saves. */
  function SubmittedVideo(form: FormData, editMode: string, now: nat): Video {
    var info := GetPlatformInfo(form.link);
    Video(if editMode != "" then editMode else "video-" + NatToString(now),
          Trim(form.title), Trim(form.link), "", info.platform, info.id, "",
          Trim(form.description), ParseTags(form.tags), Trim(form.thumbnail), None)
  }

  /** The saved record always has an id (the edited one, or one stamped from the clock), its
      text fields are trimmed, its platform and id are those resolved from the link as typed,
      and its tags are clean. */
  lemma SubmittedVideoShape(form: FormData, editMode: string, now: nat)
    ensures var v := SubmittedVideo(form, editMode, now);
      && v.id != "" && (editMode != "" ==> v.id == editMode)
      && (editMode == "" ==> v.id == "video-" + NatToString(now))
      && IsTrimmed(v.title) && IsTrimmed(v.videoUrl) && IsTrimmed(v.description) && IsTrimmed(v.thumbnail)
      && PlatformInfo(v.platform, v.youtubeId) == GetPlatformInfo(form.link)
      && CleanTagList(v.tags)
  {
    TrimProperties(form.title);
    TrimProperties(form.link);
    TrimProperties(form.description);
    TrimProperties(form.thumbnail);
  }

  /** The form `handleEdit` fills in for a video. */
  function EditForm(v: Video): (r: FormData)
    ensures r.title == v.title && r.link == v.videoUrl && r.description == v.description
    ensures r.thumbnail == v.thumbnail && r.tags == EditTags(v.tags)
  {
    FormData(v.title, v.videoUrl, v.description, EditTags(v.tags), v.thumbnail)
  }

  predicate CleanTagList(tags: seq<string>) {
    forall i :: 0 <= i < |tags| ==> tags[i] != "" && IsTrimmed(tags[i]) && ',' !in tags[i]
  }

  /** Opening a saved record in the form and saving it without changes writes the same
      record again (in the form's own fields; the column spellings are not part of it). */
  lemma EditAndResaveUnchanged(v: Video, now: nat)
    requires v.id != "" && IsTrimmed(v.title) && IsTrimmed(v.videoUrl) && IsTrimmed(v.description)
    requires IsTrimmed(v.thumbnail) && CleanTagList(v.tags)
    requires PlatformInfo(v.platform, v.youtubeId) == GetPlatformInfo(v.videoUrl)
    ensures SubmittedVideo(EditForm(v), v.id, now) == v.(video_url := "", youtube_id := "", featuredPosition := None)
  {
    TrimProperties(v.title);
    TrimProperties(v.videoUrl);
    TrimProperties(v.description);
    TrimProperties(v.thumbnail);
    TagsRoundTrip(v.tags);
  }

  /** Every record saved from a form whose link was typed without surrounding white space
      can be opened and re-saved unchanged. */
  lemma SubmittedIsResavable(form: FormData, editMode: string, now: nat)
    requires IsTrimmed(form.link)
    ensures var v := SubmittedVideo(form, editMode, now);
      SubmittedVideo(EditForm(v), v.id, now) == v
  {
    var v := SubmittedVideo(form, editMode, now);
    SubmittedVideoShape(form, editMode, now);
    TrimProperties(form.link);
    EditAndResaveUnchanged(v, now);
  }

  /** The platform and id are read from the link as typed, before it is trimmed for the
      record: a short link typed with a trailing space is saved trimmed, with the space kept
      at the end of its id. */
  lemma IdReadBeforeTrim(form: FormData, editMode: string, now: nat)
    requires form.link == "youtu.be/abc "
    ensures SubmittedVideo(form, editMode, now).videoUrl == "youtu.be/abc"
    ensures SubmittedVideo(form, editMode, now).youtubeId == "abc "
  {
    SpacedShortLinkId();
    SpacedShortLinkTrimmed();
  }

  lemma SpacedShortLinkId()
    ensures GetPlatformInfo("youtu.be/abc ") == PlatformInfo("youtube", "abc ")
  {
    var link := "youtu.be/abc ";
    assert link == "" + "youtu.be/" + "abc " + "";
    AbsentCharExcludes(link, "v=", 1);
    AbsentCharExcludes("youtu.be", "youtu.be/", 8);
    ShortUrlId("", "abc ", "");
  }

  lemma SpacedShortLinkTrimmed()
    ensures Trim("youtu.be/abc ") == "youtu.be/abc"
  {
    var link := "youtu.be/abc ";
    assert TrimStart(link) == link;
    assert link[..12] == "youtu.be/abc";
    assert TrimEnd(link) == TrimEnd(link[..12]);
  }

  class Manager {
    var formData: FormData
    var editMode: string
    var errors: map<Field, string>
    var previewUrl: string
    var detectedPlatform: string
    var isSubmitting: bool
    var submitError: Option<string>

    /** The preview always reflects the current link. */
    ghost predicate Synced()
      reads this
    {
      Preview(previewUrl, detectedPlatform) == DetectPreview(formData.link)
    }

    constructor()
      ensures Synced() && formData == EmptyForm && editMode == "" && errors == map[]
      ensures previewUrl == "" && detectedPlatform == "" && !isSubmitting && submitError == None
    {
      formData := EmptyForm;
      editMode := "";
      errors := map[];
      previewUrl, detectedPlatform := "", "";
      isSubmitting := false;
      submitError := None;
    }

    /** The effect that runs when the link changes. */
    method SyncPreview()
      modifies this
      ensures Synced()
      ensures formData == old(formData) && editMode == old(editMode) && errors == old(errors)
      ensures isSubmitting == old(isSubmitting) && submitError == old(submitError)
    {
      var p := DetectPreview(formData.link);
      previewUrl, detectedPlatform := p.previewUrl, p.detectedPlatform;
    }

    method HandleInputChange(name: Field, value: string)
      modifies this
      ensures Synced()
      ensures formData == WithField(old(formData), name, value)
      ensures errors == ClearedOnInput(old(errors), name)
      ensures editMode == old(editMode) && isSubmitting == old(isSubmitting) && submitError == old(submitError)
    {
      formData := WithField(formData, name, value);
      errors := ClearedOnInput(errors, name);
      SyncPreview();
    }

    method ValidateForm() returns (ok: bool)
      modifies this
      ensures errors == ValidationErrors(formData, LinkRequired)
      ensures ok <==> Trim(formData.title) != "" && Trim(formData.link) != ""
      ensures formData == old(formData) && editMode == old(editMode)
      ensures previewUrl == old(previewUrl) && detectedPlatform == old(detectedPlatform)
      ensures isSubmitting == old(isSubmitting) && submitError == old(submitError)
    {
      errors := ValidationErrors(formData, LinkRequired);
      ValidationErrorsMeaning(formData, LinkRequired);
      ok := |errors| == 0;
    }

    method ResetForm()
      modifies this
      ensures Synced() && formData == EmptyForm && editMode == "" && errors == map[]
      ensures previewUrl == "" && detectedPlatform == ""
      ensures isSubmitting == old(isSubmitting) && submitError == old(submitError)
    {
      formData, editMode, errors := EmptyForm, "", map[];
      SyncPreview();
    }

    method HandleEdit(video: Video)
      modifies this
      ensures Synced() && editMode == video.id && formData == EditForm(video)
      ensures errors == old(errors) && isSubmitting == old(isSubmitting) && submitError == old(submitError)
    {
      editMode := video.id;
      formData := EditForm(video);
      SyncPreview();
    }

    /** Validates, then updates the edited video or adds a new one (its id stamped from the
        clock reading `now`), awaiting the store. The form is cleared unless the store
        rethrows; only a failed add rethrows, so a failed update still clears the form. */
    method HandleSubmit(store: YoutubeStore.Store, now: nat, insertReply: Reply<VideoRow>, updateReply: Reply<()>)
      returns (saved: Option<Video>)
      requires Synced() && store.Valid()
      modifies this, store
      ensures Synced() && store.Valid()
      ensures store.featuredVideos == old(store.featuredVideos)
      ensures saved.None? <==> Trim(old(formData).title) == "" || Trim(old(formData).link) == ""
      ensures saved.None? ==>
        && errors == ValidationErrors(old(formData), LinkRequired)
        && formData == old(formData) && editMode == old(editMode) && isSubmitting == old(isSubmitting)
        && submitError == old(submitError) && store.videos == old(store.videos)
      ensures saved.Some? ==> !isSubmitting && saved.value == SubmittedVideo(old(formData), old(editMode), now)
      ensures saved.Some? && old(editMode) != "" ==>
        && store.videos == (if updateReply.Ok? then YoutubeStore.ReplaceById(old(store.videos), old(editMode), YoutubeStore.Refreshed(saved.value))
                            else old(store.videos))
        && formData == EmptyForm && editMode == "" && errors == map[] && submitError == None
      ensures saved.Some? && old(editMode) == "" && insertReply.Ok? ==>
        && store.videos == old(store.videos) + [YoutubeStore.Inserted(insertReply.value)]
        && formData == EmptyForm && editMode == "" && errors == map[] && submitError == None
      ensures saved.Some? && old(editMode) == "" && insertReply.Err? ==>
        && store.videos == old(store.videos)
        && formData == old(formData) && editMode == old(editMode)
        && submitError == Some(ErrorText(insertReply.failure, SaveFallback))
    {
      var ok := ValidateForm();
      if !ok {
        saved := None;
        return;
      }
      var video := SubmittedVideo(formData, editMode, now);
      saved := Some(video);
      if editMode != "" {
        SaveEdit(store, video, updateReply);
      } else {
        SaveNew(store, video, insertReply);
      }
    }

    /** The edit branch of `handleSubmit`: the store records a failed update without
        rethrowing it, so the form is always cleared. */
    method SaveEdit(store: YoutubeStore.Store, video: Video, updateReply: Reply<()>)
      requires Synced() && store.Valid()
      modifies this, store
      ensures Synced() && store.Valid() && !isSubmitting
      ensures store.featuredVideos == old(store.featuredVideos)
      ensures store.videos == (if updateReply.Ok? then YoutubeStore.ReplaceById(old(store.videos), old(editMode), YoutubeStore.Refreshed(video))
                               else old(store.videos))
      ensures formData == EmptyForm && editMode == "" && errors == map[] && submitError == None
    {
      isSubmitting, submitError := true, None;
      var _ := store.UpdateVideo(editMode, video, updateReply);
      ResetForm();
      isSubmitting := false;
    }

    /** The add branch of `handleSubmit`: a failed insert is rethrown by the store, so the
        form is kept and the error shown. */
    method SaveNew(store: YoutubeStore.Store, video: Video, insertReply: Reply<VideoRow>)
      requires Synced() && store.Valid() && video.id != ""
      modifies this, store
      ensures Synced() && store.Valid() && !isSubmitting
      ensures store.featuredVideos == old(store.featuredVideos)
      ensures insertReply.Ok? ==>
        && store.videos == old(store.videos) + [YoutubeStore.Inserted(insertReply.value)]
        && formData == EmptyForm && editMode == "" && errors == map[] && submitError == None
      ensures insertReply.Err? ==>
        && store.videos == old(store.videos)
        && formData == old(formData) && editMode == old(editMode)
        && submitError == Some(ErrorText(insertReply.failure, SaveFallback))
    {
      isSubmitting, submitError := true, None;
      var _, _, thrown := store.AddVideo(video, "", insertReply);
      if thrown.None? {
        ResetForm();
      } else {
        submitError := Some(ErrorText(thrown.value, SaveFallback));
      }
      isSubmitting := false;
    }
  }
}
