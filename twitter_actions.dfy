/** The background's Twitter/X handlers. */
module TwitterActions {
  import opened Wrappers
  import opened Errors
  import opened Types
  import opened Chrome
  import opened Store
  import opened Handlers

  const HomeUrl := "https://x.com/home"
  const ComposeUrl := "https://x.com/compose/tweet"

  /** `testTwitterConnection`: open the home page in a foreground tab and run the probe once it has loaded. */
  function TestTwitterConnection(): (r: TabRequest)
    ensures r.url == HomeUrl && r.active && r.onLoad == RunTwitterTest
  {
    TabRequest(HomeUrl, true, RunTwitterTest)
  }

  /** `postToTwitter`: the settings are read, and a compose tab is opened
      only when the Twitter record says "connected"; otherwise it fails with
      the not-connected error and opens nothing. */
  method PostToTwitter(store: Storage, post: Post) returns (r: Result<TabRequest, Error>)
    ensures r.Success? <==> store.stored.Some? && store.stored.value.settings.connectionStatus.twitter.status == Connected
    ensures store.stored.None? ==> r == Failure(StorageNotFound)
    ensures store.stored.Some? && store.stored.value.settings.connectionStatus.twitter.status != Connected ==>
      r == Failure(TwitterNotConnected)
    ensures r.Success? ==> r.value == TabRequest(ComposeUrl, true, PostTwitter(post))
  {
    var settings := store.GetSettings();
    if settings.Failure? {
      return Failure(settings.error);
    }
    if settings.value.connectionStatus.twitter.status != Connected {
      return Failure(TwitterNotConnected);
    }
    return Success(TabRequest(ComposeUrl, true, PostTwitter(post)));
  }

  method PostedToTwitter(store: Storage, payload: Post, tabId: Option<int>) returns (r: Outcome<Error>, effects: seq<Effect>)
    modifies store
    ensures effects == RemoveTabIfSet(tabId, 2500)
    ensures old(store.stored).None? ==> r == Fail(StorageNotFound) && store.stored == old(store.stored)
    ensures old(store.stored).Some? ==> store.stored.Some?
    ensures old(store.stored).Some? ==> store.stored.value.history == [Posted(payload, "Twitter")] + old(store.stored).value.history
    ensures old(store.stored).Some? ==> store.stored.value.settings == old(store.stored).value.settings
  {
    r, effects := RecordPost(store, payload, "Twitter", tabId);
  }

  method CheckTwitterConnection(store: Storage, payload: Probe, tabId: Option<int>) returns (r: Outcome<Error>, effects: seq<Effect>)
    modifies store
    ensures old(store.stored).None? ==> r == Fail(StorageNotFound) && effects == [] && store.stored == old(store.stored)
    ensures old(store.stored).Some? ==> effects == RemoveTabIfSet(tabId, 0)
    ensures old(store.stored).Some? ==> store.stored == Some(WithRecord(old(store.stored).value, Twitter, Normalized(payload)))
  {
    r, effects := RecordProbe(store, Twitter, payload, tabId);
  }

  method DisconnectTwitter(store: Storage) returns (effects: seq<Effect>)
    modifies store
    ensures old(store.stored).None? ==> store.stored == old(store.stored)
    ensures old(store.stored).None? ==> effects == [Alert(DisconnectAlert("Twitter", StorageNotFound))]
    ensures old(store.stored).Some? ==> store.stored == Some(WithRecord(old(store.stored).value, Twitter, Disconnected()))
    ensures old(store.stored).Some? ==> effects == [ReloadPage]
  {
    effects := ResetConnection(store, Twitter, "Twitter");
  }
}
