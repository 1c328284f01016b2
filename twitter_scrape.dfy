/**
 * The Twitter (X) content script: the connection probe on the home page and
 * the automation that writes a tweet into the compose box.
 */
module TwitterScrape {
  import opened Wrappers
  import opened Strings
  import opened Types
  import opened Chrome
  import opened Utils
  import LinkedinScrape

  /** The tag line of a tweet: every tag gets a "#" in front, even one that
      already starts with "#". */
  function TweetTags(tags: seq<string>): string {
    Join(TweetHashtags(tags), " ")
  }

  function TweetHashtags(tags: seq<string>): (r: seq<string>)
    ensures |r| == |tags|
    ensures forall i :: 0 <= i < |tags| ==> r[i] == "#" + tags[i]
  {
    seq(|tags|, i requires 0 <= i < |tags| => "#" + tags[i])
  }

  /** The text inserted into the compose box. */
  function TweetText(title: string, content: string, tags: seq<string>): string {
    title + "\n\n  " + content + "\n\n  " + TweetTags(tags)
  }

  /** The tweet text is five lines: the title, a blank line, the indented
      content, a blank line and the indented tag line; so, for line-free
      fields, the text gives back the title, content and tag line. */
  lemma TweetTextLines(title: string, content: string, tags: seq<string>)
    requires '\n' !in title && '\n' !in content
    requires forall i :: 0 <= i < |tags| ==> '\n' !in tags[i]
    ensures Split(TweetText(title, content, tags), '\n') == [title, "", "  " + content, "", "  " + TweetTags(tags)]
  {
    var hs := TweetHashtags(tags);
    forall i | 0 <= i < |hs| ensures '\n' !in hs[i] {
      assert hs[i] == ['#'] + tags[i];
    }
    JoinAvoids(hs, " ", '\n');
    var lines := [title, "", "  " + content, "", "  " + TweetTags(tags)];
    var tagLine := "  " + TweetTags(tags);
    assert Join(lines[4..], "\n") == tagLine;
    assert Join(lines[3..], "\n") == "\n" + tagLine;
    assert Join(lines[2..], "\n") == "  " + content + "\n\n" + tagLine;
    assert Join(lines[1..], "\n") == "\n  " + content + "\n\n" + tagLine;
    assert Join(lines, "\n") == title + "\n\n  " + content + "\n\n" + tagLine;
    assert "\n\n  " + TweetTags(tags) == "\n\n" + tagLine;
    assert TweetText(title, content, tags) == Join(lines, "\n");
    SplitJoin(lines, '\n');
  }

  /** Splitting the tag line at spaces gives one "#"-prefixed tag per tag. */
  lemma TweetTagsRoundTrip(tags: seq<string>)
    requires |tags| >= 1
    requires forall i :: 0 <= i < |tags| ==> ' ' !in tags[i]
    ensures Split(TweetTags(tags), ' ') == TweetHashtags(tags)
  {
    var hs := TweetHashtags(tags);
    forall i | 0 <= i < |hs| ensures ' ' !in hs[i] {
      assert hs[i] == ['#'] + tags[i];
    }
    SplitJoin(hs, ' ');
  }

  /** Where no tag already starts with "#", the tweet's tag line is the same
      as LinkedIn's. */
  lemma SameTagLineAsLinkedin(tags: seq<string>)
    requires forall i :: 0 <= i < |tags| ==> !StartsWith(tags[i], "#")
    ensures TweetTags(tags) == LinkedinScrape.HashtagString(tags)
  {
    assert TweetHashtags(tags) == LinkedinScrape.Hashtags(tags);
  }

  /** A tag typed with its "#" is doubled on Twitter but kept as typed on
      LinkedIn, wherever it stands in the tag list. */
  lemma PrefixedTagDoubled(tags: seq<string>, i: nat)
    requires i < |tags| && |tags[i]| > 0 && tags[i][0] == '#'
    ensures TweetHashtags(tags)[i] == "##" + tags[i][1..]
    ensures LinkedinScrape.Hashtags(tags)[i] == tags[i]
    ensures TweetHashtags(tags)[i] != LinkedinScrape.Hashtags(tags)[i]
  {
    assert StartsWith(tags[i], "#");
    assert tags[i] == "#" + tags[i][1..];
  }

  /** `textContent.split("@").join("/") || null`: the user-name block with
      every "@" turned into "/", absent when that is empty. */
  function ProfileName(text: string): (r: Option<string>)
    ensures r.Some? <==> text != ""
    ensures r.Some? ==> r.value == ReplaceAll(text, '@', '/') && '@' !in r.value
  {
    SplitJoinIsReplace(text, '@', '/');
    OrNull(Some(Join(Split(text, '@'), "/")))
  }

  /** The piece of the profile name after its first "/", or "undefined" when
      there is no name or no "/". */
  function Handle(name: Option<string>): string {
    if name.None? then "undefined"
    else
      var parts := Split(name.value, '/');
      if |parts| >= 2 then parts[1] else "undefined"
  }

  function AvatarSelector(name: Option<string>): string {
    "[data-testid=\"UserAvatar-Container-" + Handle(name) + "\"] img"
  }

  /** For a user-name block "Display Name@handle" the avatar is looked up by
      the handle. */
  lemma AvatarSelectorUsesHandle(display: string, handle: string)
    requires '@' !in display && '/' !in display
    requires '@' !in handle && '/' !in handle
    ensures ProfileName(display + "@" + handle) == Some(display + "/" + handle)
    ensures AvatarSelector(ProfileName(display + "@" + handle)) ==
      "[data-testid=\"UserAvatar-Container-" + handle + "\"] img"
  {
    SplitAppend(display, handle, '@');
    SplitWithoutSeparator(display, '@');
    SplitWithoutSeparator(handle, '@');
    assert Split(display + "@" + handle, '@') == [display, handle];
    assert [display, handle][1..] == [handle];
    assert Join([display, handle], "/") == display + "/" + handle;
    SplitAppend(display, handle, '/');
    SplitWithoutSeparator(display, '/');
    SplitWithoutSeparator(handle, '/');
    assert Split(display + "/" + handle, '/') == [display, handle];
  }

  /** The home page as the probe meets it. */
  datatype HomePage = HomePage(
    profileButton: bool,                       // "[aria-label='Profile']"
    userNameTicks: seq<Option<Node>>,          // polls for the user-name block after the click
    avatarTicks: map<string, seq<Option<Node>>>) // polls for each avatar selector

  function AvatarTicks(page: HomePage, selector: string): seq<Option<Node>> {
    if selector in page.avatarTicks then page.avatarTicks[selector] else []
  }

  /** What the catch block reports. */
  function NoProfile(): Probe {
    Probe(None, None, NotConnected)
  }

  /**
   * `checkTwitterConnection`: open the profile, wait for the user-name block,
   * derive the avatar selector from the handle, wait for the avatar and
   * report TWITTER_CONNECTION_CHECK_DONE. A missing profile button or a wait
   * that times out lands in the catch block, which reports no profile.
   */
  method CheckTwitterConnection(page: HomePage) returns (sent: seq<RuntimeMessage>)
    ensures |sent| == 1 && sent[0].kind == "TWITTER_CONNECTION_CHECK_DONE" && sent[0].payload.ProbePayload?
    ensures var p := sent[0].payload.probe;
      p.status == Connected <==> p.profile_name.Some? && p.profile_image.Some?
    ensures !page.profileButton || Found(page.userNameTicks, DefaultTimeout).None? ==>
      sent[0].payload.probe == NoProfile()
    ensures page.profileButton && Found(page.userNameTicks, DefaultTimeout).Some? ==>
      var name := ProfileName(Found(page.userNameTicks, DefaultTimeout).value.text);
      var avatar := Found(AvatarTicks(page, AvatarSelector(name)), DefaultTimeout);
      sent[0].payload.probe == if avatar.None? then NoProfile() else
        var image := OrNull(avatar.value.src);
        Probe(name, image, if name.Some? && image.Some? then Connected else NotConnected)
  {
    var probe := NoProfile();
    if page.profileButton {
      var userName, _, _ := WaitForElement(page.userNameTicks, DefaultTimeout);
      if userName.Resolved? {
        var name := ProfileName(userName.element.text);
        var selector := AvatarSelector(name);
        var avatar, _, _ := WaitForElement(AvatarTicks(page, selector), DefaultTimeout);
        if avatar.Resolved? {
          var image := OrNull(avatar.element.src);
          probe := Probe(name, image, if name.Some? && image.Some? then Connected else NotConnected);
        }
      }
    }
    sent := [RuntimeMessage("TWITTER_CONNECTION_CHECK_DONE", ProbePayload(probe))];
  }

  /** The compose page as the automation meets it. */
  datatype ComposePage = ComposePage(
    textboxTicks: seq<Option<Node>>, // polls for 'div[role="textbox"]'
    editor: bool,                    // the editable textbox, queried after the wait
    mainEditor: bool,                // the editable textbox, queried after the 2 s delay
    selection: bool)                 // window.getSelection() is not null

  predicate ReachesEditor(page: ComposePage) {
    Found(page.textboxTicks, DefaultTimeout).Some? && page.editor
  }

  /**
   * `postToTwitter`: wait for the compose box, paste the image if there is
   * one, then insert the tweet text at the end of the box. Nothing is sent to
   * the background: the tweet still has to be posted by the user. A missing
   * main editor makes `focus()` throw and ends the run.
   */
  method PostToTwitter(post: Post, page: ComposePage) returns (actions: seq<DomAction>)
    ensures InsertText(TweetText(post.title, post.content, post.tags)) in actions <==>
      ReachesEditor(page) && page.mainEditor && page.selection
    ensures forall a :: a in actions ==>
      a == InsertText(TweetText(post.title, post.content, post.tags)) ||
      (a.PasteImage? && OrNull(post.image) == Some(a.image))
    ensures (exists a :: a in actions && a.PasteImage?) <==> ReachesEditor(page) && OrNull(post.image).Some?
    ensures |actions| <= 2
    // the image is pasted before the text is inserted
    ensures |actions| == 2 ==>
      actions[0].PasteImage? && actions[1] == InsertText(TweetText(post.title, post.content, post.tags))
  {
    actions := [];
    var textbox, _, _ := WaitForElement(page.textboxTicks, DefaultTimeout);
    if textbox.Rejected? || !page.editor {
      return;
    }
    if OrNull(post.image).Some? {
      actions := [PasteImage(post.image.value)];
    }
    if !page.mainEditor || !page.selection {
      return;
    }
    actions := actions + [InsertText(TweetText(post.title, post.content, post.tags))];
  }
}
