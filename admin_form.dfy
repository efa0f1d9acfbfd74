/** What the two video forms of the admin panel share: the form fields, required-field
    validation, the clearing of a field's error on input, and the comma-separated tag
    list with its round trip between the edit form and the submitted record. */
module AdminForm {
  import opened JsText

  /** The form's inputs. `Link` is the video link in the library form and the bare YouTube
      id in the YouTube form. */
  datatype Field = Title | Link | Description | Tags | Thumbnail

  datatype FormData = FormData(title: string, link: string, description: string, tags: string, thumbnail: string)

  const EmptyForm := FormData("", "", "", "", "")

  /** `{ ...prev, [name]: value }`. */
  function WithField(form: FormData, name: Field, value: string): (r: FormData)
    ensures Get(r, name) == value
    ensures forall f: Field :: f != name ==> Get(r, f) == Get(form, f)
  {
    match name
    case Title => form.(title := value)
    case Link => form.(link := value)
    case Description => form.(description := value)
    case Tags => form.(tags := value)
    case Thumbnail => form.(thumbnail := value)
  }

  function Get(form: FormData, name: Field): string {
    match name
    case Title => form.title
    case Link => form.link
    case Description => form.description
    case Tags => form.tags
    case Thumbnail => form.thumbnail
  }

  /** The errors `validateForm` sets. */
  function ValidationErrors(form: FormData, linkMessage: string): map<Field, string> {
    var t: map<Field, string> := if Trim(form.title) == "" then map[Title := "Title is required"] else map[];
    if Trim(form.link) == "" then t[Link := linkMessage] else t
  }

  /** A message for a blank title and one for a blank link, and nothing else; so the form
      is valid (no error recorded) exactly when both are filled in. */
  lemma ValidationErrorsMeaning(form: FormData, linkMessage: string)
    ensures var r := ValidationErrors(form, linkMessage);
      && (Title in r <==> Trim(form.title) == "")
      && (Link in r <==> Trim(form.link) == "")
      && (forall f :: f in r ==> f == Title || f == Link)
      && (Title in r ==> r[Title] == "Title is required")
      && (Link in r ==> r[Link] == linkMessage)
      && (|r| == 0 <==> Trim(form.title) != "" && Trim(form.link) != "")
  {
    var r := ValidationErrors(form, linkMessage);
    if Trim(form.title) != "" && Trim(form.link) != "" {
      assert r == map[];
    } else if Trim(form.title) == "" {
      assert Title in r;
    } else {
      assert Link in r;
    }
  }

  /** Typing into a field blanks that field's error message when there is one; the other
      messages are kept. */
  function ClearedOnInput(errors: map<Field, string>, name: Field): (r: map<Field, string>)
    ensures r.Keys == errors.Keys
    ensures name in r ==> r[name] == ""
    ensures forall f :: f in errors && f != name ==> r[f] == errors[f]
  {
    if name in errors && errors[name] != "" then errors[name := ""] else errors
  }

  /** `.map(tag => tag.trim()).filter(Boolean)`. */
  function CleanTags(pieces: seq<string>, c: char): (r: seq<string>)
    requires forall i :: 0 <= i < |pieces| ==> c !in pieces[i]
    ensures forall i :: 0 <= i < |r| ==> r[i] != "" && IsTrimmed(r[i]) && c !in r[i]
    ensures |r| <= |pieces|
  {
    if pieces == [] then []
    else
      var t := Trim(pieces[0]);
      TrimProperties(pieces[0]);
      TrimKeepsAbsence(pieces[0], c);
      var rest := CleanTags(pieces[1..], c);
      if t == "" then rest else [t] + rest
  }

  /** The tags a submitted form carries: the comma-separated entries, trimmed, blanks
      dropped. Every tag is non-empty, trimmed and free of commas. */
  function ParseTags(s: string): (r: seq<string>)
    ensures forall i :: 0 <= i < |r| ==> r[i] != "" && IsTrimmed(r[i]) && ',' !in r[i]
  {
    CleanTags(SplitOn(s, ','), ',')
  }

  /** The tag text the edit form is filled with. */
  function EditTags(tags: seq<string>): string {
    Join(tags, ", ")
  }

  /** Every entry after the first, as it appears after a comma of `", "`. */
  function Indent(ts: seq<string>): (r: seq<string>)
    ensures |r| == |ts| && forall i :: 0 <= i < |ts| ==> r[i] == " " + ts[i]
  {
    seq(|ts|, i requires 0 <= i < |ts| => " " + ts[i])
  }

  lemma {:induction false} JoinIndent(ts: seq<string>)
    requires |ts| >= 1
    ensures Join(Indent(ts), [',']) == " " + Join(ts, ", ")
    decreases |ts|
  {
    if |ts| >= 2 {
      JoinIndent(ts[1..]);
      assert Indent(ts)[1..] == Indent(ts[1..]);
    }
  }

  /** Joining with `", "` is joining the indented entries with `","`. */
  lemma JoinAsCommaSplit(first: string, more: seq<string>)
    ensures Join([first] + more, ", ") == Join([first] + Indent(more), [','])
  {
    var tags := [first] + more;
    var parts := [first] + Indent(more);
    if more != [] {
      JoinIndent(more);
      assert tags[1..] == more;
      assert parts[1..] == Indent(more);
      var rest := Join(more, ", ");
      calc {
        Join(parts, [',']);
        first + [','] + Join(Indent(more), [',']);
        first + [','] + (" " + rest);
        first + ", " + rest;
        Join(tags, ", ");
      }
    }
  }

  /** Splitting a join on its one-character separator gives back the parts, when no part
      contains the separator. */
  lemma {:induction false} SplitOnJoin(parts: seq<string>, c: char)
    requires |parts| >= 1 && forall i :: 0 <= i < |parts| ==> c !in parts[i]
    ensures SplitOn(Join(parts, [c]), c) == parts
    decreases |parts|
  {
    if |parts| == 1 {
      SplitOnNone(parts[0], c);
    } else {
      SplitOnAfter(parts[0], c, Join(parts[1..], [c]));
      SplitOnJoin(parts[1..], c);
    }
  }

  /** Trimming the indented entries gives back the entries. */
  lemma {:induction false} CleanIndent(ts: seq<string>, c: char)
    requires forall i :: 0 <= i < |ts| ==> ts[i] != "" && IsTrimmed(ts[i]) && c !in ts[i] && c != ' '
    ensures CleanTags(Indent(ts), c) == ts
    decreases |ts|
  {
    if ts != [] {
      TrimSkipsLeadingSpace(' ', ts[0]);
      TrimProperties(ts[0]);
      assert Indent(ts)[1..] == Indent(ts[1..]);
      CleanIndent(ts[1..], c);
    }
  }

  /** Opening a record in the edit form and submitting it unchanged keeps its tags, provided
      each tag is non-empty, trimmed and comma-free, which is what every submitted record
      carries. */
  lemma TagsRoundTrip(tags: seq<string>)
    requires forall i :: 0 <= i < |tags| ==> tags[i] != "" && IsTrimmed(tags[i]) && ',' !in tags[i]
    ensures ParseTags(EditTags(tags)) == tags
  {
    if tags == [] {
      SplitOnNone("", ',');
    } else {
      var parts := [tags[0]] + Indent(tags[1..]);
      JoinAsCommaSplit(tags[0], tags[1..]);
      SplitOnJoin(parts, ',');
      TrimProperties(tags[0]);
      CleanIndent(tags[1..], ',');
      assert parts[1..] == Indent(tags[1..]);
      assert tags == [tags[0]] + tags[1..];
    }
  }

  /** Re-editing a submitted record and submitting it again changes nothing more. */
  lemma ParseTagsStable(s: string)
    ensures ParseTags(EditTags(ParseTags(s))) == ParseTags(s)
  {
    TagsRoundTrip(ParseTags(s));
  }
}
