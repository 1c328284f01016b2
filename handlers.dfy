/**
 * The read-modify-write steps the background handlers of every platform
 * share: recording a probe result, recording a finished post and resetting a
 * connection. Each handler runs as one atomic step on the store.
 */
module Handlers {
  import opened Wrappers
  import opened Strings
  import opened Errors
  import opened Types
  import opened Chrome
  import opened Store

  /** The record stored for a probe result: falsy name and image become null,
      the status is copied as reported. */
  function Normalized(probe: Probe): (c: Connection)
    ensures c.status == probe.status
    ensures c.profile_name == OrNull(probe.profile_name)
    ensures c.profile_image == OrNull(probe.profile_image)
  {
    Connection(OrNull(probe.profile_name), OrNull(probe.profile_image), probe.status)
  }

  /** The aggregate with platform `p`'s connection record replaced by `c`. */
  function WithRecord(d: PostPilotStorage, p: Platform, c: Connection): (r: PostPilotStorage)
    ensures r.history == d.history
    ensures r.settings == d.settings.(connectionStatus := WithConnection(d.settings.connectionStatus, p, c))
  {
    d.(settings := d.settings.(connectionStatus := WithConnection(d.settings.connectionStatus, p, c)))
  }

  /** Only `p`'s record differs between an aggregate and `WithRecord` of it. */
  lemma WithRecordFrame(d: PostPilotStorage, p: Platform, c: Connection, q: Platform)
    ensures ConnectionOf(WithRecord(d, p, c).settings.connectionStatus, q) ==
      if q == p then c else ConnectionOf(d.settings.connectionStatus, q)
    ensures WithRecord(d, p, c).settings.tokens == d.settings.tokens
    ensures WithRecord(d, p, c).settings.methods == d.settings.methods
    ensures WithRecord(d, p, c).settings.cloudinary == d.settings.cloudinary
  {
  }

  /** `check<Platform>Connection(payload, tabId)`: store the normalised probe
      result as `p`'s record, then close the probe tab if its id is truthy.
      When nothing is stored, `getSettings` throws first: nothing is written
      and no tab is closed. */
  method RecordProbe(store: Storage, p: Platform, probe: Probe, tabId: Option<int>) returns (r: Outcome<Error>, effects: seq<Effect>)
    modifies store
    ensures old(store.stored).None? ==> r == Fail(StorageNotFound) && effects == [] && store.stored == old(store.stored)
    ensures old(store.stored).Some? ==> r == Pass && effects == RemoveTabIfSet(tabId, 0)
    ensures old(store.stored).Some? ==> store.stored == Some(WithRecord(old(store.stored).value, p, Normalized(probe)))
  {
    var settings := store.GetSettings();
    if settings.Failure? {
      return Fail(settings.error), [];
    }
    var data := settings.value;
    data := data.(connectionStatus := WithConnection(data.connectionStatus, p, Normalized(probe)));
    r := store.SetSettings(data);
    effects := RemoveTabIfSet(tabId, 0);
  }

  /** `posted<Platform>(post, tabId)`: prepend `{...post, postedOn}` to the
      history and close the tab 2500 ms later if its id is truthy. The history
      write is not awaited, so the tab is closed even when it fails. */
  method RecordPost(store: Storage, post: Post, postedOn: string, tabId: Option<int>) returns (r: Outcome<Error>, effects: seq<Effect>)
    modifies store
    ensures effects == RemoveTabIfSet(tabId, 2500)
    ensures old(store.stored).None? ==> r == Fail(StorageNotFound) && store.stored == old(store.stored)
    ensures old(store.stored).Some? ==> r == Pass && store.stored.Some?
    ensures old(store.stored).Some? ==> store.stored.value.history == [Posted(post, postedOn)] + old(store.stored).value.history
    ensures old(store.stored).Some? ==> store.stored.value.settings == old(store.stored).value.settings
  {
    r := store.AddPostHistory(Posted(post, postedOn));
    effects := RemoveTabIfSet(tabId, 2500);
  }

  /** The alert a failed disconnect shows. */
  function DisconnectAlert(name: string, e: Error): string {
    "Failed to disconnect " + name + ": " + Message(e)
  }

  /** `disconnect<Platform>()`: reset `p`'s record and reload the page, or
      alert with the error when the settings cannot be read. */
  method ResetConnection(store: Storage, p: Platform, name: string) returns (effects: seq<Effect>)
    modifies store
    ensures old(store.stored).None? ==> store.stored == old(store.stored)
    ensures old(store.stored).None? ==> effects == [Alert(DisconnectAlert(name, StorageNotFound))]
    ensures old(store.stored).Some? ==> store.stored == Some(WithRecord(old(store.stored).value, p, Disconnected()))
    ensures old(store.stored).Some? ==> effects == [ReloadPage]
  {
    var settings := store.GetSettings();
    if settings.Failure? {
      return [Alert(DisconnectAlert(name, settings.error))];
    }
    var data := settings.value;
    data := data.(connectionStatus := WithConnection(data.connectionStatus, p, Disconnected()));
    var _ := store.SetSettings(data);
    effects := [ReloadPage];
  }
}
