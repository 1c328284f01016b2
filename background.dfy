/**
 * The background service worker's `onMessage` switch: a dispatch from the
 * message type to the handler calls it makes, and the execution of those
 * calls on the store, each handler as one atomic step.
 */
module Background {
  import opened Wrappers
  import opened Types
  import opened Chrome
  import opened Store
  import opened Handlers
  import TwitterActions
  import LinkedinActions

  /** A handler invocation with the arguments the switch passes. */
  datatype Call =
    | CallCheckTwitterConnection(payload: Payload, tabId: Option<int>)
    | CallCheckLinkedinConnection(payload: Payload, tabId: Option<int>)
    | CallPostedToLinkedin(payload: Payload, tabId: Option<int>)
    | CallPostedToTwitter(payload: Payload, tabId: Option<int>)
    | CallPostToLinkedin(payload: Payload)
    | CallPostToTwitter(payload: Payload)
    | CallTestTwitterConnection
    | CallTestLinkedinConnection
  {
    /** The handlers of completion messages, which receive the sender's tab id. */
    predicate CompletionCall() {
      CallCheckTwitterConnection? || CallCheckLinkedinConnection? || CallPostedToLinkedin? || CallPostedToTwitter?
    }
  }

  datatype Routing = Handle(calls: seq<Call>) | Unknown(kind: string)

  /** The completion messages content scripts send; they carry the sender's tab id. */
  const CompletionKinds: set<string> :=
    {"TWITTER_CONNECTION_CHECK_DONE", "LINKEDIN_CONNECTION_CHECK_DONE", "LINKEDIN_POST_DONE", "TWITTER_POST_DONE"}

  const KnownKinds: set<string> :=
    CompletionKinds + {"CREATE_POST", "CHECK_TWITTER_CONNECTION", "CHECK_LINKEDIN_CONNECTION"}

  /** The switch on `message.type`. Every known type but CREATE_POST calls
      exactly one handler; CREATE_POST calls the LinkedIn publish and then the
      Twitter publish with the same payload (and nothing for dev.to); any
      other type is only logged. */
  function Route(msg: RuntimeMessage, senderTab: Option<int>): (r: Routing)
    ensures r.Unknown? <==> msg.kind !in KnownKinds
    ensures r.Unknown? ==> r.kind == msg.kind
    ensures r.Handle? ==> |r.calls| == if msg.kind == "CREATE_POST" then 2 else 1
    ensures msg.kind in CompletionKinds ==>
      r.calls[0].CompletionCall() && r.calls[0].payload == msg.payload && r.calls[0].tabId == senderTab
    ensures msg.kind == "CREATE_POST" ==> r.calls == [CallPostToLinkedin(msg.payload), CallPostToTwitter(msg.payload)]
    ensures msg.kind == "CHECK_TWITTER_CONNECTION" ==> r == Handle([CallTestTwitterConnection])
    ensures msg.kind == "CHECK_LINKEDIN_CONNECTION" ==> r == Handle([CallTestLinkedinConnection])
    ensures msg.kind == "TWITTER_CONNECTION_CHECK_DONE" ==> r == Handle([CallCheckTwitterConnection(msg.payload, senderTab)])
    ensures msg.kind == "LINKEDIN_CONNECTION_CHECK_DONE" ==> r == Handle([CallCheckLinkedinConnection(msg.payload, senderTab)])
    ensures msg.kind == "LINKEDIN_POST_DONE" ==> r == Handle([CallPostedToLinkedin(msg.payload, senderTab)])
    ensures msg.kind == "TWITTER_POST_DONE" ==> r == Handle([CallPostedToTwitter(msg.payload, senderTab)])
  {
    match msg.kind
    case "TWITTER_CONNECTION_CHECK_DONE" => Handle([CallCheckTwitterConnection(msg.payload, senderTab)])
    case "LINKEDIN_CONNECTION_CHECK_DONE" => Handle([CallCheckLinkedinConnection(msg.payload, senderTab)])
    case "LINKEDIN_POST_DONE" => Handle([CallPostedToLinkedin(msg.payload, senderTab)])
    case "TWITTER_POST_DONE" => Handle([CallPostedToTwitter(msg.payload, senderTab)])
    case "CREATE_POST" => Handle([CallPostToLinkedin(msg.payload), CallPostToTwitter(msg.payload)])
    case "CHECK_TWITTER_CONNECTION" => Handle([CallTestTwitterConnection])
    case "CHECK_LINKEDIN_CONNECTION" => Handle([CallTestLinkedinConnection])
    case _ => Unknown(msg.kind)
  }

  /** The messages the pages send to publish from the draft page and to check
      the dev.to connection have no case in the switch. */
  lemma UnroutedPageMessages(payload: Payload, tabId: Option<int>)
    ensures Route(RuntimeMessage("POST_TO_LINKEDIN", payload), tabId) == Unknown("POST_TO_LINKEDIN")
    ensures Route(RuntimeMessage("CHECK_DEVTO_CONNECTION", payload), tabId) == Unknown("CHECK_DEVTO_CONNECTION")
  {
  }

  /** The payload shapes the senders of each message type use. */
  predicate CallWellTyped(c: Call) {
    match c
    case CallCheckTwitterConnection(p, _) => p.ProbePayload?
    case CallCheckLinkedinConnection(p, _) => p.ProbePayload?
    case CallPostedToLinkedin(p, _) => p.PostPayload?
    case CallPostedToTwitter(p, _) => p.PostPayload?
    case CallPostToLinkedin(p) => p.PostPayload?
    case CallPostToTwitter(p) => p.PostPayload?
    case _ => true
  }

  predicate WellTyped(msg: RuntimeMessage) {
    (msg.kind in {"TWITTER_CONNECTION_CHECK_DONE", "LINKEDIN_CONNECTION_CHECK_DONE"} ==> msg.payload.ProbePayload?)
    && (msg.kind in {"LINKEDIN_POST_DONE", "TWITTER_POST_DONE", "CREATE_POST"} ==> msg.payload.PostPayload?)
  }

  predicate TwitterConnected(stored: Option<PostPilotStorage>) {
    stored.Some? && stored.value.settings.connectionStatus.twitter.status == Connected
  }

  /** Runs one handler call; a rejected promise is not handled, so it leaves
      no effect beyond what the handler did before failing. */
  method Execute(store: Storage, c: Call) returns (effects: seq<Effect>)
    requires CallWellTyped(c)
    modifies store
    ensures c.CallPostToLinkedin? ==> effects == [CreateTab(LinkedinActions.PostToLinkedin(c.payload.post))]
    ensures c.CallPostToTwitter? ==>
      effects == if TwitterConnected(old(store.stored))
        then [CreateTab(TabRequest(TwitterActions.ComposeUrl, true, PostTwitter(c.payload.post)))] else []
    ensures c.CallTestTwitterConnection? ==> effects == [CreateTab(TwitterActions.TestTwitterConnection())]
    ensures c.CallTestLinkedinConnection? ==> effects == [CreateTab(LinkedinActions.TestLinkedinConnection())]
    ensures (c.CallPostToLinkedin? || c.CallPostToTwitter? || c.CallTestTwitterConnection? || c.CallTestLinkedinConnection?) ==>
      store.stored == old(store.stored)
    ensures (c.CallCheckTwitterConnection? || c.CallCheckLinkedinConnection?) ==>
      var p := if c.CallCheckTwitterConnection? then Twitter else LinkedIn;
      && (old(store.stored).None? ==> effects == [] && store.stored == old(store.stored))
      && (old(store.stored).Some? ==> effects == RemoveTabIfSet(c.tabId, 0))
      && (old(store.stored).Some? ==> store.stored == Some(WithRecord(old(store.stored).value, p, Normalized(c.payload.probe))))
    ensures (c.CallPostedToTwitter? || c.CallPostedToLinkedin?) ==>
      var postedOn := if c.CallPostedToTwitter? then "Twitter" else "Linkedin";
      && effects == RemoveTabIfSet(c.tabId, 2500)
      && (old(store.stored).None? ==> store.stored == old(store.stored))
      && (old(store.stored).Some? ==>
            (store.stored.Some?
             && store.stored.value.history == [Posted(c.payload.post, postedOn)] + old(store.stored).value.history
             && store.stored.value.settings == old(store.stored).value.settings))
  {
    match c
    case CallCheckTwitterConnection(payload, tabId) =>
      var _, e := TwitterActions.CheckTwitterConnection(store, payload.probe, tabId);
      effects := e;
    case CallCheckLinkedinConnection(payload, tabId) =>
      var _, e := LinkedinActions.CheckLinkedinConnection(store, payload.probe, tabId);
      effects := e;
    case CallPostedToLinkedin(payload, tabId) =>
      var _, e := LinkedinActions.PostedToLinkedin(store, payload.post, tabId);
      effects := e;
    case CallPostedToTwitter(payload, tabId) =>
      var _, e := TwitterActions.PostedToTwitter(store, payload.post, tabId);
      effects := e;
    case CallPostToLinkedin(payload) =>
      effects := [CreateTab(LinkedinActions.PostToLinkedin(payload.post))];
    case CallPostToTwitter(payload) =>
      var r := TwitterActions.PostToTwitter(store, payload.post);
      effects := if r.Success? then [CreateTab(r.value)] else [];
    case CallTestTwitterConnection =>
      effects := [CreateTab(TwitterActions.TestTwitterConnection())];
    case CallTestLinkedinConnection =>
      effects := [CreateTab(LinkedinActions.TestLinkedinConnection())];
  }

  /**
   * The `onMessage` listener. An unknown type only logs a warning. The two
   * check requests open the probe tab of their own platform. CREATE_POST
   * opens the LinkedIn tab first, whatever the store holds, and the Twitter
   * tab after it only when Twitter is connected; it writes nothing.
   */
  method OnMessage(store: Storage, msg: RuntimeMessage, senderTab: Option<int>) returns (effects: seq<Effect>)
    requires WellTyped(msg)
    modifies store
    ensures msg.kind !in KnownKinds ==>
      effects == [Warn("Unknown message type: " + msg.kind)] && store.stored == old(store.stored)
    ensures msg.kind == "CREATE_POST" ==> store.stored == old(store.stored)
    ensures msg.kind == "CREATE_POST" ==>
      effects == [CreateTab(LinkedinActions.PostToLinkedin(msg.payload.post))] +
        (if TwitterConnected(old(store.stored))
         then [CreateTab(TabRequest(TwitterActions.ComposeUrl, true, PostTwitter(msg.payload.post)))] else [])
    ensures msg.kind == "CHECK_TWITTER_CONNECTION" ==>
      effects == [CreateTab(TwitterActions.TestTwitterConnection())] && store.stored == old(store.stored)
    ensures msg.kind == "CHECK_LINKEDIN_CONNECTION" ==>
      effects == [CreateTab(LinkedinActions.TestLinkedinConnection())] && store.stored == old(store.stored)
    ensures msg.kind in {"TWITTER_CONNECTION_CHECK_DONE", "LINKEDIN_CONNECTION_CHECK_DONE"} && old(store.stored).None? ==>
      effects == [] && store.stored == old(store.stored)
    ensures msg.kind in {"TWITTER_CONNECTION_CHECK_DONE", "LINKEDIN_CONNECTION_CHECK_DONE"} && old(store.stored).Some? ==>
      var p := if msg.kind == "TWITTER_CONNECTION_CHECK_DONE" then Twitter else LinkedIn;
      store.stored == Some(WithRecord(old(store.stored).value, p, Normalized(msg.payload.probe)))
      && effects == RemoveTabIfSet(senderTab, 0)
    ensures msg.kind in {"LINKEDIN_POST_DONE", "TWITTER_POST_DONE"} ==>
      var postedOn := if msg.kind == "TWITTER_POST_DONE" then "Twitter" else "Linkedin";
      effects == RemoveTabIfSet(senderTab, 2500)
      && (old(store.stored).None? ==> store.stored == old(store.stored))
      && (old(store.stored).Some? ==>
            (store.stored.Some?
             && store.stored.value.history == [Posted(msg.payload.post, postedOn)] + old(store.stored).value.history
             && store.stored.value.settings == old(store.stored).value.settings))
  {
    var routing := Route(msg, senderTab);
    if routing.Unknown? {
      return [Warn("Unknown message type: " + msg.kind)];
    }
    var calls := routing.calls;
    effects := Execute(store, calls[0]);
    if |calls| == 2 {
      var more := Execute(store, calls[1]);
      effects := effects + more;
    }
  }
}
