/** The background's LinkedIn handlers. */
module LinkedinActions {
  import opened Wrappers
  import opened Errors
  import opened Types
  import opened Chrome
  import opened Store
  import opened Handlers

  const FeedUrl := "https://www.linkedin.com/feed"

  /** `testLinkedinConnection`: open the feed in a background tab and run the probe once it has loaded. */
  function TestLinkedinConnection(): (r: TabRequest)
    ensures r.url == FeedUrl && !r.active && r.onLoad == RunLinkedinTest
  {
    TabRequest(FeedUrl, false, RunLinkedinTest)
  }

  /** `postToLinkedin`: opens the feed in a background tab whatever the
      stored connection status; it reads no settings at all. */
  function PostToLinkedin(post: Post): (r: TabRequest)
    ensures r.url == FeedUrl && !r.active
    ensures r.onLoad.PostLinkedin? && r.onLoad.post == post
  {
    TabRequest(FeedUrl, false, PostLinkedin(post))
  }

  method PostedToLinkedin(store: Storage, post: Post, tabId: Option<int>) returns (r: Outcome<Error>, effects: seq<Effect>)
    modifies store
    ensures effects == RemoveTabIfSet(tabId, 2500)
    ensures old(store.stored).None? ==> r == Fail(StorageNotFound) && store.stored == old(store.stored)
    ensures old(store.stored).Some? ==> store.stored.Some?
    ensures old(store.stored).Some? ==> store.stored.value.history == [Posted(post, "Linkedin")] + old(store.stored).value.history
    ensures old(store.stored).Some? ==> store.stored.value.settings == old(store.stored).value.settings
  {
    r, effects := RecordPost(store, post, "Linkedin", tabId);
  }

  method CheckLinkedinConnection(store: Storage, payload: Probe, tabId: Option<int>) returns (r: Outcome<Error>, effects: seq<Effect>)
    modifies store
    ensures old(store.stored).None? ==> r == Fail(StorageNotFound) && effects == [] && store.stored == old(store.stored)
    ensures old(store.stored).Some? ==> effects == RemoveTabIfSet(tabId, 0)
    ensures old(store.stored).Some? ==> store.stored == Some(WithRecord(old(store.stored).value, LinkedIn, Normalized(payload)))
  {
    r, effects := RecordProbe(store, LinkedIn, payload, tabId);
  }

  method DisconnectLinkedin(store: Storage) returns (effects: seq<Effect>)
    modifies store
    ensures old(store.stored).None? ==> store.stored == old(store.stored)
    ensures old(store.stored).None? ==> effects == [Alert(DisconnectAlert("LinkedIn", StorageNotFound))]
    ensures old(store.stored).Some? ==> store.stored == Some(WithRecord(old(store.stored).value, LinkedIn, Disconnected()))
    ensures old(store.stored).Some? ==> effects == [ReloadPage]
  {
    effects := ResetConnection(store, LinkedIn, "LinkedIn");
  }
}
