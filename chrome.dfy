/**
 * The browser as the extension sees it, reduced to values: runtime messages,
 * the effects handlers ask the browser for (tabs, reloads, alerts), and the
 * one-shot tab-load listener both scrape adapters register.
 */
module Chrome {
  import opened Wrappers
  import opened Types

  /** What a connection probe running in a platform tab reports. */
  datatype Probe = Probe(profile_name: Option<string>, profile_image: Option<string>, status: Status)

  datatype Payload = NoPayload | ProbePayload(probe: Probe) | PostPayload(post: Post)

  /** `chrome.runtime.sendMessage({type, payload})`. */
  datatype RuntimeMessage = RuntimeMessage(kind: string, payload: Payload)

  /** `chrome.tabs.sendMessage(tabId, ...)`: the background asking a content script to act. */
  datatype TabMessage = RunTwitterTest | RunLinkedinTest | PostTwitter(post: Post) | PostLinkedin(post: Post)

  /** `chrome.tabs.create({url, active})`, with the message the tab's load
      listener sends once the tab has loaded. */
  datatype TabRequest = TabRequest(url: string, active: bool, onLoad: TabMessage)

  datatype Effect =
    | CreateTab(request: TabRequest)
    | RemoveTab(tabId: int, delayMs: nat)
    | ReloadPage
    | Alert(text: string)
    | Warn(text: string)

  /** A DOM element as the scripts read it: its `textContent` and its `src`. */
  datatype Node = Node(text: string, src: Option<string>)

  /** What a content script does to the page. */
  datatype DomAction = ClickStart | FillEditor(html: string) | PasteImage(image: string) | ClickPost | InsertText(text: string)

  /** A tab id as JavaScript tests it: `undefined` and `0` are falsy. */
  predicate Truthy(tabId: Option<int>) {
    tabId.Some? && tabId.value != 0
  }

  /** `if (tabId) chrome.tabs.remove(tabId)`, after `delayMs`. */
  function RemoveTabIfSet(tabId: Option<int>, delayMs: nat): (e: seq<Effect>)
    ensures e != [] <==> Truthy(tabId)
    ensures Truthy(tabId) ==> e == [RemoveTab(tabId.value, delayMs)]
  {
    if Truthy(tabId) then [RemoveTab(tabId.value, delayMs)] else []
  }

  /** One `chrome.tabs.onUpdated` event: the updated tab and its `info.status`. */
  datatype TabUpdate = TabUpdate(tabId: int, status: Option<string>)

  predicate IsLoadOf(tabId: int, u: TabUpdate) {
    u.tabId == tabId && u.status == Some("complete")
  }

  /** The index of the first event that finishes loading tab `tabId`. */
  function FirstLoad(tabId: int, events: seq<TabUpdate>): (k: Option<nat>)
    ensures k.Some? ==> k.value < |events| && IsLoadOf(tabId, events[k.value])
    ensures k.Some? ==> forall j :: 0 <= j < k.value ==> !IsLoadOf(tabId, events[j])
    ensures k.None? ==> forall j :: 0 <= j < |events| ==> !IsLoadOf(tabId, events[j])
  {
    if events == [] then None
    else if IsLoadOf(tabId, events[0]) then Some(0)
    else match FirstLoad(tabId, events[1..])
      case None => None
      case Some(k) => Some(k + 1)
  }

  /**
   * The listener a scrape adapter registers on `chrome.tabs.onUpdated` for
   * the tab it opened: the first time its own tab reports status "complete"
   * it removes itself and sends its message to the tab.
   */
  class LoadListener {
    const tabId: int
    const message: TabMessage
    var registered: bool
    var sent: seq<TabMessage>   // what it has sent to the tab

    ghost predicate Valid()
      reads this
    {
      (registered && sent == []) || (!registered && sent == [message])
    }

    constructor (tabId: int, message: TabMessage)
      ensures Valid() && registered
      ensures this.tabId == tabId && this.message == message
    {
      this.tabId := tabId;
      this.message := message;
      registered := true;
      sent := [];
    }

    /** One `onUpdated` event; the browser no longer calls a removed listener. */
    method OnUpdated(u: TabUpdate)
      requires Valid()
      modifies this
      ensures Valid()
      ensures if old(registered) && IsLoadOf(tabId, u)
        then !registered && sent == [message]
        else registered == old(registered) && sent == old(sent)
    {
      if registered && u.tabId == tabId && u.status == Some("complete") {
        registered := false;
        sent := sent + [message];
      }
    }

    /** A run of `onUpdated` events: the message goes out exactly when one of
        them loads this listener's tab, and then only once. */
    method Deliver(events: seq<TabUpdate>)
      requires Valid() && registered
      modifies this
      ensures Valid()
      ensures registered <==> FirstLoad(tabId, events).None?
      ensures sent == if FirstLoad(tabId, events).Some? then [message] else []
    {
      var i := 0;
      while i < |events|
        invariant 0 <= i <= |events| && Valid()
        invariant registered <==> forall j :: 0 <= j < i ==> !IsLoadOf(tabId, events[j])
      {
        OnUpdated(events[i]);
        i := i + 1;
      }
    }
  }

  /** The `chrome.tabs.create` callback: `if (!tab.id) return;`, otherwise a
      listener for the new tab is registered. */
  method OnTabCreated(request: TabRequest, tab: Option<int>) returns (listener: LoadListener?)
    ensures (listener != null) <==> Truthy(tab)
    ensures listener != null ==> fresh(listener) && listener.Valid() && listener.registered
    ensures listener != null ==> listener.tabId == tab.value && listener.message == request.onLoad
  {
    if !Truthy(tab) {
      return null;
    }
    listener := new LoadListener(tab.value, request.onLoad);
  }
}
