/**
 * The persisted aggregate: settings (tokens, image-host config, posting
 * methods, one connection record per platform) and the post history, and the
 * aggregate a fresh installation starts from.
 */
module Types {
  import opened Wrappers

  datatype Platform = LinkedIn | Twitter | Devto

  /** The property name a platform has in `tokens`, `methods` and `connectionStatus`. */
  function Key(p: Platform): string {
    match p
    case LinkedIn => "linkedin"
    case Twitter => "twitter"
    case Devto => "devto"
  }

  datatype Status = Connected | NotConnected

  /** The stored string of a status. */
  function StatusKey(s: Status): string {
    match s
    case Connected => "connected"
    case NotConnected => "not_connected"
  }

  /** One platform's connection record. */
  datatype Connection = Connection(profile_name: Option<string>, profile_image: Option<string>, status: Status)

  /** The record of a platform with no known session. */
  function Disconnected(): Connection {
    Connection(None, None, NotConnected)
  }

  datatype ConnectionStatus = ConnectionStatus(linkedin: Connection, twitter: Connection, devto: Connection)

  datatype Tokens = Tokens(linkedin: string, twitter: string, devto: string)

  datatype Cloudinary = Cloudinary(unsigned_preset: string, cloud_name: string)

  datatype Method = Scrape | Api

  /** dev.to is only ever reached through its API. */
  type DevtoMethod = m: Method | m == Api witness Api

  datatype Methods = Methods(linkedin: Method, twitter: Method, devto: DevtoMethod)

  datatype Settings = Settings(tokens: Tokens, cloudinary: Cloudinary, methods: Methods, connectionStatus: ConnectionStatus)

  /** One published post; the most recent is at index 0 of the history. */
  datatype HistoryItem = HistoryItem(title: string, content: string, tags: seq<string>, image: Option<string>, postedOn: string)

  datatype PostPilotStorage = PostPilotStorage(settings: Settings, history: seq<HistoryItem>)

  /** The post the draft page builds and the publish handlers receive. */
  datatype Post = Post(title: string, content: string, tags: seq<string>, image: Option<string>)

  /** The history record of `post` published on `postedOn` (`{...post, postedOn}`). */
  function Posted(post: Post, postedOn: string): (h: HistoryItem)
    ensures h.postedOn == postedOn
    ensures Post(h.title, h.content, h.tags, h.image) == post
  {
    HistoryItem(post.title, post.content, post.tags, post.image, postedOn)
  }

  function ConnectionOf(cs: ConnectionStatus, p: Platform): Connection {
    match p
    case LinkedIn => cs.linkedin
    case Twitter => cs.twitter
    case Devto => cs.devto
  }

  /** The assignment `connectionStatus[p] = c`: only `p`'s record changes. */
  function WithConnection(cs: ConnectionStatus, p: Platform, c: Connection): (r: ConnectionStatus)
    ensures ConnectionOf(r, p) == c
    ensures forall q :: q != p ==> ConnectionOf(r, q) == ConnectionOf(cs, q)
  {
    match p
    case LinkedIn => cs.(linkedin := c)
    case Twitter => cs.(twitter := c)
    case Devto => cs.(devto := c)
  }

  function TokenOf(t: Tokens, p: Platform): string {
    match p
    case LinkedIn => t.linkedin
    case Twitter => t.twitter
    case Devto => t.devto
  }

  /** `{...tokens, [p]: v}`: only `p`'s token changes. */
  function WithToken(t: Tokens, p: Platform, v: string): (r: Tokens)
    ensures TokenOf(r, p) == v
    ensures forall q :: q != p ==> TokenOf(r, q) == TokenOf(t, q)
  {
    match p
    case LinkedIn => t.(linkedin := v)
    case Twitter => t.(twitter := v)
    case Devto => t.(devto := v)
  }

  function MethodOf(m: Methods, p: Platform): Method {
    match p
    case LinkedIn => m.linkedin
    case Twitter => m.twitter
    case Devto => m.devto
  }

  /** `{...methods, [p]: v}`; dev.to admits only "api". */
  function WithMethod(m: Methods, p: Platform, v: Method): (r: Methods)
    requires p == Devto ==> v == Api
    ensures MethodOf(r, p) == v
    ensures forall q :: q != p ==> MethodOf(r, q) == MethodOf(m, q)
  {
    match p
    case LinkedIn => m.(linkedin := v)
    case Twitter => m.(twitter := v)
    case Devto => m.(devto := v)
  }

  /** `default_storage`: empty tokens and image-host config, LinkedIn and
      Twitter scraped, dev.to through its API, every platform disconnected,
      no history. */
  function DefaultStorage(): (d: PostPilotStorage)
    ensures d.history == []
    ensures forall p :: ConnectionOf(d.settings.connectionStatus, p) == Disconnected()
    ensures forall p :: TokenOf(d.settings.tokens, p) == ""
    ensures d.settings.cloudinary.cloud_name == "" && d.settings.cloudinary.unsigned_preset == ""
    ensures MethodOf(d.settings.methods, LinkedIn) == Scrape
    ensures MethodOf(d.settings.methods, Twitter) == Scrape
    ensures MethodOf(d.settings.methods, Devto) == Api
  {
    PostPilotStorage(
      Settings(
        Tokens("", "", ""),
        Cloudinary("", ""),
        Methods(Scrape, Scrape, Api),
        ConnectionStatus(Disconnected(), Disconnected(), Disconnected())),
      [])
  }
}
