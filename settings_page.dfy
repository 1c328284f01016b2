/**
 * The settings page: the field updaters, the "clear all" handler and the
 * rules that decide what each platform's panel shows.
 */
module SettingsPage {
  import opened Wrappers
  import opened Strings
  import opened Types
  import opened Store

  /** `handleTokenChange(platform, value)`: only that platform's token changes. */
  function HandleTokenChange(s: Settings, p: Platform, v: string): (r: Settings)
    ensures TokenOf(r.tokens, p) == v
    ensures forall q :: q != p ==> TokenOf(r.tokens, q) == TokenOf(s.tokens, q)
    ensures r.cloudinary == s.cloudinary && r.methods == s.methods && r.connectionStatus == s.connectionStatus
  {
    s.(tokens := WithToken(s.tokens, p, v))
  }

  /** `handleMethodChange(platform, value)`: only that platform's method
      changes. The page offers no method choice for Dev.to, whose method is
      always "api". */
  function HandleMethodChange(s: Settings, p: Platform, m: Method): (r: Settings)
    requires p == Devto ==> m == Api
    ensures MethodOf(r.methods, p) == m
    ensures forall q :: q != p ==> MethodOf(r.methods, q) == MethodOf(s.methods, q)
    ensures r.tokens == s.tokens && r.cloudinary == s.cloudinary && r.connectionStatus == s.connectionStatus
  {
    s.(methods := WithMethod(s.methods, p, m))
  }

  /** Typing a token and then restoring the old one leaves the settings as
      they were. */
  lemma TokenChangeUndone(s: Settings, p: Platform, v: string)
    ensures HandleTokenChange(HandleTokenChange(s, p, v), p, TokenOf(s.tokens, p)) == s
  {
    var r := HandleTokenChange(HandleTokenChange(s, p, v), p, TokenOf(s.tokens, p));
    assert forall q :: TokenOf(r.tokens, q) == TokenOf(s.tokens, q);
    assert r.tokens.linkedin == TokenOf(r.tokens, LinkedIn) && r.tokens.twitter == TokenOf(r.tokens, Twitter) && r.tokens.devto == TokenOf(r.tokens, Devto);
  }

  /** Changing two different platforms' tokens gives the same result in
      either order. */
  lemma TokenChangesCommute(s: Settings, p: Platform, v: string, q: Platform, w: string)
    requires p != q
    ensures HandleTokenChange(HandleTokenChange(s, p, v), q, w) == HandleTokenChange(HandleTokenChange(s, q, w), p, v)
  {
    var a := HandleTokenChange(HandleTokenChange(s, p, v), q, w);
    var b := HandleTokenChange(HandleTokenChange(s, q, w), p, v);
    assert forall x :: TokenOf(a.tokens, x) == TokenOf(b.tokens, x);
    assert a.tokens.linkedin == TokenOf(b.tokens, LinkedIn) && a.tokens.twitter == TokenOf(b.tokens, Twitter) && a.tokens.devto == TokenOf(b.tokens, Devto);
  }

  /** The page's banner. */
  datatype Notification = Notification(message: string, isError: bool)

  /** The page's React state. */
  datatype View = View(settings: Settings, notification: Option<Notification>)

  /**
   * `handleClear`: only when the user confirms, clear the stored aggregate,
   * show the defaults and report the clear's status.
   */
  method HandleClear(store: Storage, view: View, confirmed: bool) returns (r: View)
    modifies store
    ensures !confirmed ==> r == view && store.stored == old(store.stored)
    ensures confirmed ==> store.stored == Some(DefaultStorage())
    ensures confirmed ==> r == View(DefaultStorage().settings, Some(Notification("success", false)))
  {
    if !confirmed {
      return view;
    }
    var result := store.ClearStorage();
    r := View(DefaultStorage().settings, Some(Notification(result.status, result.error != None)));
  }

  /** The status line of the Twitter panel: the status with "_" turned into " ". */
  function TwitterStatusLabel(st: Status): (r: string)
    ensures r == ReplaceAll(StatusKey(st), '_', ' ')
    ensures r == if st == Connected then "connected" else "not connected"
  {
    SplitJoinIsReplace(StatusKey(st), '_', ' ');
    Join(Split(StatusKey(st), '_'), " ")
  }

  /** What the LinkedIn, Twitter and Dev.to panels show about a connection. */
  datatype ConnectionControls = ConnectionControls(checkLabel: string, showDisconnect: bool)

  function Controls(c: Connection): (r: ConnectionControls)
    ensures r.checkLabel in {"Recheck Connection", "Check Connection"}
    ensures r.checkLabel == "Recheck Connection" <==> c.status == Connected
    ensures r.showDisconnect <==> c.status == Connected
    ensures r.showDisconnect <==> r.checkLabel == "Recheck Connection"
  {
    if c.status == Connected then ConnectionControls("Recheck Connection", true)
    else ConnectionControls("Check Connection", false)
  }

  /** For LinkedIn and Twitter, the token field is shown under "api" and the
      connection panel under "scrape"; exactly one of the two. */
  datatype Panel = TokenField | ConnectionPanel

  function PanelFor(s: Settings, p: Platform): (r: Panel)
    requires p != Devto
    ensures r == TokenField <==> MethodOf(s.methods, p) == Api
    ensures r == ConnectionPanel <==> MethodOf(s.methods, p) == Scrape
  {
    if MethodOf(s.methods, p) == Api then TokenField else ConnectionPanel
  }

  /** The Dev.to token field: disabled, with a placeholder saying so, once
      Dev.to is connected. */
  datatype TokenInput = TokenInput(disabled: bool, placeholder: string)

  function DevtoTokenInput(s: Settings): (r: TokenInput)
    ensures r.disabled <==> s.connectionStatus.devto.status == Connected
    ensures r.placeholder == (if r.disabled then "Dev.to token is connected" else "Enter Dev.to token")
  {
    if s.connectionStatus.devto.status == Connected then TokenInput(true, "Dev.to token is connected")
    else TokenInput(false, "Enter Dev.to token")
  }

  /** The Cloudinary note of the Dev.to panel asks for setup unless both the
      cloud name and the preset are set. */
  function CloudinaryNote(c: Cloudinary): (r: string)
    ensures r == "This is used to upload images to Dev.to" <==> c.cloud_name != "" && c.unsigned_preset != ""
  {
    if c.unsigned_preset != "" && c.cloud_name != "" then "This is used to upload images to Dev.to"
    else " Please set up Cloudinary to upload images to Dev.to"
  }

  /** The page can say Cloudinary is missing while Dev.to still counts as a
      connected account: the account list needs only one of the two fields. */
  lemma CloudinaryNoteWeakerThanAccounts(s: Settings)
    requires s.cloudinary.cloud_name != "" && s.cloudinary.unsigned_preset == ""
    requires s.connectionStatus.devto.status == Connected
    ensures CloudinaryNote(s.cloudinary) != "This is used to upload images to Dev.to"
    ensures "devto" in Keys(ConnectedAccounts(s))
  {
    assert Devto in ConnectedAccounts(s);
  }
}
