/**
 * The draft page: the form state, its image handlers, the comma-separated
 * tag parser and the submit handler.
 */
module Draft {
  import opened Wrappers
  import opened Strings
  import opened Types
  import opened Chrome
  import Background

  /** The form's React state; `image` is a data URL or null. */
  datatype DraftState = DraftState(image: Option<string>, title: string, content: string, tags: string)

  /** The initial state: no image and empty fields. */
  function EmptyDraft(): (d: DraftState)
    ensures d.image.None? && d.title == "" && d.content == "" && d.tags == ""
  {
    DraftState(None, "", "", "")
  }

  /** The file input's change event: no file chosen, or a file whose read
      ended with a data URL, or with a null result when the read failed. */
  datatype FileChoice = NoFile | ReadFile(result: Option<string>)

  /** `handleImageUpload`: once a chosen file's read ends, the image becomes
      the reader's result, which is null when the read failed; without a file
      nothing changes. */
  function HandleImageUpload(d: DraftState, file: FileChoice): (r: DraftState)
    ensures r.(image := d.image) == d
    ensures r.image == if file.ReadFile? then file.result else d.image
  {
    match file
    case NoFile => d
    case ReadFile(result) => d.(image := result)
  }

  /** `handleRemoveImage`. */
  function RemoveImage(d: DraftState): (r: DraftState)
    ensures r.image.None? && r.(image := d.image) == d
  {
    d.(image := None)
  }

  /** Removing the image undoes any upload. */
  lemma RemoveAfterUpload(d: DraftState, file: FileChoice)
    ensures RemoveImage(HandleImageUpload(d, file)) == RemoveImage(d)
  {
  }

  /** `.map(t => t.trim())`. */
  function TrimAll(pieces: seq<string>): (r: seq<string>)
    ensures |r| == |pieces|
    ensures forall i :: 0 <= i < |r| ==> r[i] == Trim(pieces[i])
  {
    seq(|pieces|, i requires 0 <= i < |pieces| => Trim(pieces[i]))
  }

  /** `.filter(Boolean)` on strings: the non-empty pieces, in order. */
  function NonEmpty(pieces: seq<string>): (r: seq<string>)
    ensures |r| <= |pieces|
    ensures forall i :: 0 <= i < |r| ==> r[i] != "" && r[i] in pieces
    ensures forall x :: x in pieces && x != "" ==> x in r
    ensures "" !in pieces ==> r == pieces
    ensures |pieces| == 1 ==> r == if pieces[0] == "" then [] else pieces
  {
    if pieces == [] then []
    else if pieces[0] == "" then NonEmpty(pieces[1..])
    else [pieces[0]] + NonEmpty(pieces[1..])
  }

  lemma {:induction false} NonEmptyAppend(a: seq<string>, b: seq<string>)
    ensures NonEmpty(a + b) == NonEmpty(a) + NonEmpty(b)
  {
    if a == [] {
      assert a + b == b;
    } else {
      assert (a + b)[0] == a[0];
      assert (a + b)[1..] == a[1..] + b;
      NonEmptyAppend(a[1..], b);
    }
  }

  lemma TrimAllAppend(a: seq<string>, b: seq<string>)
    ensures TrimAll(a + b) == TrimAll(a) + TrimAll(b)
  {
    var l, r := TrimAll(a + b), TrimAll(a) + TrimAll(b);
    assert |l| == |r|;
    forall i | 0 <= i < |l| ensures l[i] == r[i] {
      if i < |a| {
        assert (a + b)[i] == a[i];
      } else {
        assert (a + b)[i] == b[i - |a|];
      }
    }
  }

  /** `tags.split(",").map(t => t.trim()).filter(Boolean)`. */
  function ParseTags(s: string): (r: seq<string>)
    ensures forall i :: 0 <= i < |r| ==> r[i] != "" && IsTrimmed(r[i])
    ensures |r| <= Count(s, ',') + 1
  {
    NonEmpty(TrimAll(Split(s, ',')))
  }

  /** The tags of two comma-joined strings are the tags of each, in order. */
  lemma ParseTagsAppend(a: string, b: string)
    ensures ParseTags(a + "," + b) == ParseTags(a) + ParseTags(b)
  {
    var pa, pb := Split(a, ',') , Split(b, ',');
    SplitAppend(a, b, ',');
    assert a + "," + b == a + [','] + b;
    TrimAllAppend(pa, pb);
    NonEmptyAppend(TrimAll(pa), TrimAll(pb));
  }

  /** A string without commas is a single tag, its trimmed self, or no tag
      when that is empty. */
  lemma ParseSingleTag(s: string)
    requires ',' !in s
    ensures ParseTags(s) == if Trim(s) == "" then [] else [Trim(s)]
  {
    SplitWithoutSeparator(s, ',');
    var t := TrimAll([s]);
    assert t == [Trim(s)];
    assert NonEmpty(t) == if Trim(s) == "" then [] else [Trim(s)] by {
      assert t[1..] == [];
    }
  }

  /** Parsing tags that are already clean and comma-joined gives them back. */
  lemma {:induction false} ParseJoinedTags(tags: seq<string>)
    requires |tags| >= 1
    requires forall i :: 0 <= i < |tags| ==> tags[i] != "" && IsTrimmed(tags[i]) && ',' !in tags[i]
    ensures ParseTags(Join(tags, ",")) == tags
  {
    var head := tags[0];
    assert Trim(head) == head;
    ParseSingleTag(head);
    if |tags| > 1 {
      var rest := Join(tags[1..], ",");
      assert Join(tags, ",") == head + "," + rest;
      ParseJoinedTags(tags[1..]);
      ParseTagsAppend(head, rest);
      assert [head] + tags[1..] == tags;
    }
  }

  datatype ToastKind = SuccessToast | ErrorToast
  datatype Toast = Toast(message: string, kind: ToastKind)

  /** What submitting does: a toast, and possibly a message to the background. */
  datatype Submission = Submission(toast: Toast, message: Option<RuntimeMessage>)

  /** `handleSubmit`. */
  function HandleSubmit(d: DraftState): (r: Submission)
    ensures r.message.None? <==> d.title == "" || d.content == ""
    ensures r.message.None? ==> r.toast == Toast("Title and content are required", ErrorToast)
    ensures r.message.Some? ==>
      (r.toast.kind == SuccessToast &&
       r.message.value.kind == "POST_TO_LINKEDIN" &&
       r.message.value.payload == PostPayload(Post(d.title, d.content, ParseTags(d.tags), d.image)))
  {
    if d.title == "" || d.content == "" then
      Submission(Toast("Title and content are required", ErrorToast), None)
    else
      Submission(Toast("Post created successfully! Ready to publish.", SuccessToast),
        Some(RuntimeMessage("POST_TO_LINKEDIN", PostPayload(Post(d.title, d.content, ParseTags(d.tags), d.image)))))
  }

  /** A draft with no image uploaded since the last removal is submitted with
      a null image. */
  lemma SubmitAfterRemove(d: DraftState)
    requires d.title != "" && d.content != ""
    ensures HandleSubmit(RemoveImage(d)).message.value.payload.post.image.None?
  {
  }

  /** No handler in the background is registered for what the draft page
      sends, so a submitted draft goes nowhere but a warning. */
  lemma SubmissionUnrouted(d: DraftState, senderTab: Option<int>)
    requires HandleSubmit(d).message.Some?
    ensures Background.Route(HandleSubmit(d).message.value, senderTab).Unknown?
  {
    Background.UnroutedPageMessages(HandleSubmit(d).message.value.payload, senderTab);
  }
}
