/**
 * The LinkedIn content script: the connection probe on the feed page and
 * the automation that fills the share box and clicks its post button.
 */
module LinkedinScrape {
  import opened Wrappers
  import opened Strings
  import opened Types
  import opened Chrome
  import opened Utils
  import opened Handlers

  /** One tag of the hashtag line: a "#" is added unless it is already there. */
  function Hashtag(tag: string): (h: string)
    ensures StartsWith(h, "#")
    ensures h == tag <==> StartsWith(tag, "#")
    ensures |tag| <= |h| <= |tag| + 1 && h[|h| - |tag|..] == tag
  {
    if StartsWith(tag, "#") then tag else "#" + tag
  }

  function Hashtags(tags: seq<string>): (r: seq<string>)
    ensures |r| == |tags|
  {
    seq(|tags|, i requires 0 <= i < |tags| => Hashtag(tags[i]))
  }

  /** The hashtag line: the tags, in order, prefixed, joined by single spaces. */
  function HashtagString(tags: seq<string>): string {
    Join(Hashtags(tags), " ")
  }

  /** Prefixing twice is prefixing once. */
  lemma HashtagsIdempotent(tags: seq<string>)
    ensures Hashtags(Hashtags(tags)) == Hashtags(tags)
  {
  }

  /** Splitting the hashtag line at its spaces gives back one prefixed tag per
      tag, in the original order, provided no tag has a space of its own. */
  lemma HashtagStringRoundTrip(tags: seq<string>)
    requires |tags| >= 1
    requires forall i :: 0 <= i < |tags| ==> ' ' !in tags[i]
    ensures Split(HashtagString(tags), ' ') == Hashtags(tags)
  {
    var hs := Hashtags(tags);
    forall i | 0 <= i < |hs| ensures ' ' !in hs[i] {
      assert hs[i] == Hashtag(tags[i]);
      if !StartsWith(tags[i], "#") {
        assert hs[i] == ['#'] + tags[i];
      }
    }
    SplitJoin(hs, ' ');
  }

  /** The editor's new content. */
  function EditorHtml(title: string, content: string, hashtags: string): string {
    "<p>" + title + "</p><p>" + content + "</p><p>" + hashtags + "</p>"
  }

  /** The first index at or after `i` that holds `c`, or |s|. */
  function IndexFrom(s: string, c: char, i: nat): (k: nat)
    requires i <= |s|
    ensures i <= k <= |s|
    ensures k < |s| ==> s[k] == c
    ensures forall j :: i <= j < k ==> s[j] != c
    decreases |s| - i
  {
    if i == |s| then |s| else if s[i] == c then i else IndexFrom(s, c, i + 1)
  }

  /** Reads the three paragraphs back out of editor HTML. */
  function ParseEditorHtml(html: string): Option<(string, string, string)> {
    if |html| < 3 || html[..3] != "<p>" then None
    else
      var k1 := IndexFrom(html, '<', 3);
      if k1 + 7 > |html| || html[k1..k1 + 7] != "</p><p>" then None
      else
        var k2 := IndexFrom(html, '<', k1 + 7);
        if k2 + 7 > |html| || html[k2..k2 + 7] != "</p><p>" || |html| < k2 + 11 || html[|html| - 4..] != "</p>" then None
        else Some((html[3..k1], html[k1 + 7..k2], html[k2 + 7..|html| - 4]))
  }

  lemma IndexAt(s: string, c: char, i: nat, k: nat)
    requires i <= k < |s| && s[k] == c
    requires forall j :: i <= j < k ==> s[j] != c
    ensures IndexFrom(s, c, i) == k
  {
  }

  /** The editor HTML determines title, content and hashtag line, as long as
      title and content hold no "<". */
  lemma EditorHtmlRoundTrip(title: string, content: string, hashtags: string)
    requires '<' !in title && '<' !in content
    ensures ParseEditorHtml(EditorHtml(title, content, hashtags)) == Some((title, content, hashtags))
  {
    var html := EditorHtml(title, content, hashtags);
    var k1 := 3 + |title|;
    var k2 := k1 + 7 + |content|;
    assert html == "<p>" + title + "</p><p>" + content + "</p><p>" + hashtags + "</p>";
    assert |html| == k2 + 11 + |hashtags|;
    assert html[..3] == "<p>";
    assert html[3..k1] == title;
    assert html[k1..k1 + 7] == "</p><p>";
    assert html[k1 + 7..k2] == content;
    assert html[k2..k2 + 7] == "</p><p>";
    assert html[k2 + 7..|html| - 4] == hashtags;
    assert html[|html| - 4..] == "</p>";
    forall j | 3 <= j < k1 ensures html[j] != '<' {
      assert html[j] == title[j - 3];
    }
    IndexAt(html, '<', 3, k1);
    forall j | k1 + 7 <= j < k2 ensures html[j] != '<' {
      assert html[j] == content[j - k1 - 7];
    }
    IndexAt(html, '<', k1 + 7, k2);
  }

  /** The probe: the trimmed text of the profile card's name and the `src` of
      its picture, "connected" exactly when both are non-empty. */
  function CheckLinkedinConnection(name: Option<Node>, picture: Option<Node>): (p: Probe)
    ensures p.profile_name == if name.Some? then Some(Trim(name.value.text)) else None
    ensures p.profile_image == if picture.Some? then picture.value.src else None
    ensures p.status == Connected <==>
      OrNull(p.profile_name).Some? && OrNull(p.profile_image).Some?
  {
    var profileName := if name.Some? then Some(Trim(name.value.text)) else None;
    var profileImage := if picture.Some? then picture.value.src else None;
    Probe(profileName, profileImage,
      if OrNull(profileName).Some? && OrNull(profileImage).Some? then Connected else NotConnected)
  }

  /** Recorded by the background, a probe result is "connected" exactly when
      it has both a name and an image; a missing name card or picture records
      "not connected". */
  lemma ProbeRecordConsistent(name: Option<Node>, picture: Option<Node>)
    ensures var c := Normalized(CheckLinkedinConnection(name, picture));
      c.status == Connected <==> c.profile_name.Some? && c.profile_image.Some?
    ensures name.None? ==> Normalized(CheckLinkedinConnection(name, picture)).profile_name == None
    ensures name.None? || picture.None? ==> Normalized(CheckLinkedinConnection(name, picture)).status == NotConnected
  {
  }

  /** The feed page as the automation meets it. */
  datatype FeedPage = FeedPage(
    topBar: bool,                    // ".share-box-feed-entry__top-bar"
    startButton: bool,               // its button
    editorTicks: seq<Option<Node>>,  // polls for ".ql-editor" after the click
    editor: bool,                    // ".ql-editor" queried again after the 300 ms delay
    actionsTicks: seq<Option<Node>>, // polls for ".share-box_actions"
    postActions: bool,               // ".share-box_actions" queried again
    postButton: bool)                // its button

  predicate Appears(ticks: seq<Option<Node>>) {
    Found(ticks, DefaultTimeout).Some?
  }

  /** The run reaches the editor. */
  predicate ReachesEditor(page: FeedPage) {
    page.topBar && page.startButton && Appears(page.editorTicks) && page.editor
  }

  /** The run reaches and clicks the post button. */
  predicate Completes(page: FeedPage) {
    ReachesEditor(page) && Appears(page.actionsTicks) && page.postActions && page.postButton
  }

  /**
   * `postLinkedin`: open the share box, fill the editor, paste the image if
   * there is one, click post and report LINKEDIN_POST_DONE with the original
   * post. A missing element, or a wait that times out, ends the run with no
   * completion message.
   */
  method PostLinkedin(post: Post, page: FeedPage) returns (actions: seq<DomAction>, sent: seq<RuntimeMessage>)
    ensures sent == [] || sent == [RuntimeMessage("LINKEDIN_POST_DONE", PostPayload(post))]
    ensures sent != [] <==> Completes(page)
    ensures ClickPost in actions <==> sent != []
    ensures sent != [] ==> actions[|actions| - 1] == ClickPost
    ensures ReachesEditor(page) ==> FillEditor(EditorHtml(post.title, post.content, HashtagString(post.tags))) in actions
    ensures forall a :: a in actions && a.PasteImage? ==> OrNull(post.image) == Some(a.image)
    ensures ReachesEditor(page) && OrNull(post.image).Some? ==> PasteImage(post.image.value) in actions
    ensures ClickStart in actions <==> page.topBar && page.startButton
    ensures forall a :: a in actions ==>
      a == ClickStart || a == FillEditor(EditorHtml(post.title, post.content, HashtagString(post.tags))) ||
      a.PasteImage? || a == ClickPost
    ensures !ReachesEditor(page) ==> actions == if page.topBar && page.startButton then [ClickStart] else []
    // once the editor is reached: one start click, one fill, at most one paste, and the post click on completion
    ensures ReachesEditor(page) ==>
      actions == [ClickStart, FillEditor(EditorHtml(post.title, post.content, HashtagString(post.tags)))] +
        (if OrNull(post.image).Some? then [PasteImage(post.image.value)] else []) +
        (if Completes(page) then [ClickPost] else [])
  {
    sent := [];
    actions := [];
    if !page.topBar || !page.startButton {
      return;
    }
    actions := [ClickStart];
    var editorWait, _, _ := WaitForElement(page.editorTicks, DefaultTimeout);
    if editorWait.Rejected? || !page.editor {
      return;
    }
    actions := actions + [FillEditor(EditorHtml(post.title, post.content, HashtagString(post.tags)))];
    if OrNull(post.image).Some? {
      actions := actions + [PasteImage(post.image.value)];
    }
    var actionsWait, _, _ := WaitForElement(page.actionsTicks, DefaultTimeout);
    if actionsWait.Rejected? || !page.postActions || !page.postButton {
      return;
    }
    actions := actions + [ClickPost];
    sent := [RuntimeMessage("LINKEDIN_POST_DONE", PostPayload(post))];
  }
}
