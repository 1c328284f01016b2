/**
 * The dev.to API adapter. HTTP responses are inputs: the handlers see a
 * transport error, or a response with its `ok` flag, status and parsed body.
 */
module DevtoActions {
  import opened Wrappers
  import opened Strings
  import opened Errors
  import opened Types
  import opened Chrome
  import opened Store
  import opened Handlers

  const IdentityUrl := "https://dev.to/api/users/me"
  const ArticlesUrl := "https://dev.to/api/articles"
  /** dev.to accepts at most four tags per article. */
  const MaxTags := 4
  /** The only status a publish may answer with: 201 Created. */
  const Created := 201

  datatype DevtoUser = DevtoUser(name: string, profile_image: string)

  /** The identity request's outcome; a null body is `user == None`. */
  datatype IdentityResponse = IdentityTransportError(reason: string) | IdentityResponse(ok: bool, user: Option<DevtoUser>)

  /** The `article` object sent to the articles endpoint. */
  datatype Article = Article(title: string, body_markdown: string, published: bool, main_image: Option<string>, tags: seq<string>)

  /** The fields of the article response the handler reads. */
  datatype ArticleBody = ArticleBody(title: string, body_markdown: string, cover_image: Option<string>, tags: seq<string>)

  datatype PublishResponse = PublishTransportError(reason: string) | PublishResponse(ok: bool, status: int, body: ArticleBody)

  /** The HTTP requests the adapter makes, with the token they carry. */
  datatype Request =
    | IdentityRequest(url: string, token: string)
    | ImageUpload(image: string)
    | ArticleRequest(url: string, token: string, article: Article)

  /** `checkToken`: the stored dev.to token, or the missing-token error when it is empty. */
  function CheckToken(data: PostPilotStorage): (r: Result<string, Error>)
    ensures r.Failure? <==> data.settings.tokens.devto == ""
    ensures r.Failure? ==> r.error == DevtoTokenMissing
    ensures r.Success? ==> r.value == data.settings.tokens.devto
  {
    var token := data.settings.tokens.devto;
    if token == "" then Failure(DevtoTokenMissing) else Success(token)
  }

  /** What an identity response does: the record to write, if any, and the outcome. */
  datatype Verification = Verification(record: Option<Connection>, outcome: Outcome<Error>)

  /** A failed or non-ok response writes nothing; a null user resets the
      record and fails; a user connects the record with its name and image. */
  function Verify(response: IdentityResponse): (v: Verification)
    ensures v.record.None? <==> response.IdentityTransportError? || !response.ok
    ensures response.IdentityTransportError? ==> v.outcome == Fail(DevtoVerifyTransport(response.reason))
    ensures response.IdentityResponse? && !response.ok ==> v.outcome == Fail(DevtoVerifyRejected)
    ensures v.outcome == Pass <==> response.IdentityResponse? && response.ok && response.user.Some?
    ensures v.record.Some? ==> (v.record.value.status == Connected <==> v.outcome == Pass)
    ensures v.outcome == Pass ==>
      v.record == Some(Connection(Some(response.user.value.name), Some(response.user.value.profile_image), Connected))
    ensures v.record.Some? && v.outcome != Pass ==> v.record == Some(Disconnected()) && v.outcome == Fail(DevtoUserMissing)
  {
    match response
    case IdentityTransportError(reason) => Verification(None, Fail(DevtoVerifyTransport(reason)))
    case IdentityResponse(ok, user) =>
      if !ok then Verification(None, Fail(DevtoVerifyRejected))
      else match user
        case None => Verification(Some(Disconnected()), Fail(DevtoUserMissing))
        case Some(u) => Verification(Some(Connection(Some(u.name), Some(u.profile_image), Connected)), Pass)
  }

  /**
   * `testDevtoConnection`. The token is checked before any request; without
   * stored data or a token nothing is requested or written. The dev.to record
   * is then written as `Verify` says, and the settings page is told to
   * refresh only when the check succeeded.
   */
  method TestDevtoConnection(store: Storage, response: IdentityResponse)
    returns (r: Outcome<Error>, requests: seq<Request>, messages: seq<RuntimeMessage>)
    modifies store
    ensures old(store.stored).None? ==> r == Fail(StorageNotFound) && requests == [] && store.stored == old(store.stored)
    ensures old(store.stored).Some? && old(store.stored).value.settings.tokens.devto == "" ==>
      r == Fail(DevtoTokenMissing) && requests == [] && store.stored == old(store.stored)
    ensures old(store.stored).Some? && old(store.stored).value.settings.tokens.devto != "" ==>
      requests == [IdentityRequest(IdentityUrl, old(store.stored).value.settings.tokens.devto)] && r == Verify(response).outcome
    ensures old(store.stored).Some? && old(store.stored).value.settings.tokens.devto != "" ==>
      store.stored == match Verify(response).record
        case None => old(store.stored)
        case Some(c) => Some(WithRecord(old(store.stored).value, Devto, c))
    ensures messages != [] <==> r == Pass
    ensures r == Pass ==> messages == [RuntimeMessage("DEVTO_CONNECTION_CHECK_DONE", NoPayload)]
  {
    messages := [];
    var data := store.GetStorage();
    if data.Failure? {
      return Fail(data.error), [], [];
    }
    var token := CheckToken(data.value);
    if token.Failure? {
      return Fail(token.error), [], [];
    }
    requests := [IdentityRequest(IdentityUrl, token.value)];
    var v := Verify(response);
    if v.record.Some? {
      store.SetStorage(WithRecord(data.value, Devto, v.record.value));
    }
    r := v.outcome;
    if r == Pass {
      messages := [RuntimeMessage("DEVTO_CONNECTION_CHECK_DONE", NoPayload)];
    }
  }

  method DisconnectDevto(store: Storage) returns (effects: seq<Effect>)
    modifies store
    ensures old(store.stored).None? ==> store.stored == old(store.stored)
    ensures old(store.stored).None? ==> effects == [Alert(DisconnectAlert("Dev.to", StorageNotFound))]
    ensures old(store.stored).Some? ==> store.stored == Some(WithRecord(old(store.stored).value, Devto, Disconnected()))
    ensures old(store.stored).Some? ==> effects == [ReloadPage]
  {
    effects := ResetConnection(store, Devto, "Dev.to");
  }

  /** The article request: published, the uploaded image or null, and the
      first min(4, |tags|) tags in their original order. */
  function BuildArticle(post: Post, mainImage: Option<string>): (a: Article)
    ensures a.title == post.title && a.body_markdown == post.content
    ensures a.published && a.main_image == mainImage
    ensures |a.tags| == if |post.tags| < MaxTags then |post.tags| else MaxTags
    ensures forall i :: 0 <= i < |a.tags| ==> a.tags[i] == post.tags[i]
    ensures |post.tags| <= MaxTags ==> a.tags == post.tags
  {
    var n := if |post.tags| < MaxTags then |post.tags| else MaxTags;
    Article(post.title, post.content, true, mainImage, post.tags[..n])
  }

  /** The publish rule: only an ok response with status 201 yields the
      article; any other status, even a successful one, is a failure. */
  function CheckPublish(response: PublishResponse): (r: Result<ArticleBody, Error>)
    ensures r.Success? <==> response.PublishResponse? && response.ok && response.status == Created
    ensures r.Success? ==> r.value == response.body
    ensures response.PublishTransportError? ==> r == Failure(DevtoPublishTransport(response.reason))
    ensures response.PublishResponse? && !response.ok ==> r == Failure(DevtoPublishRejected)
    ensures response.PublishResponse? && response.ok && response.status != Created ==>
      r == Failure(DevtoUnexpectedStatus(response.status))
  {
    match response
    case PublishTransportError(reason) => Failure(DevtoPublishTransport(reason))
    case PublishResponse(ok, status, body) =>
      if !ok then Failure(DevtoPublishRejected)
      else if status != Created then Failure(DevtoUnexpectedStatus(status))
      else Success(body)
  }

  /** The history record of a published article, taken from the response
      rather than from the request. */
  function ArticleRecord(body: ArticleBody): (h: HistoryItem)
    ensures h.postedOn == "dev.to"
    ensures h.title == body.title && h.content == body.body_markdown && h.tags == body.tags
    ensures h.image.Some? <==> body.cover_image.Some? && body.cover_image.value != ""
    ensures h.image.Some? ==> h.image == body.cover_image
  {
    HistoryItem(body.title, body.body_markdown, body.tags, OrNull(body.cover_image), "dev.to")
  }

  /** The image step of `postToDevto`: a truthy image is uploaded first. */
  predicate HasImage(post: Post) {
    OrNull(post.image).Some?
  }

  /**
   * `postToDevto`. `upload` is what the image host's upload call gives for
   * the post's image (it is only called when there is one): the uploaded
   * URL, or the message it threw with. The steps: upload,
   * read the store, check the token, send the article, apply the publish
   * rule, prepend one history record. Any failure leaves the store as it was.
   */
  method PostToDevto(store: Storage, post: Post, upload: Result<Option<string>, string>, response: PublishResponse)
    returns (r: Outcome<Error>, requests: seq<Request>)
    modifies store
    ensures HasImage(post) && upload.Failure? ==>
      r == Fail(ImageUploadFailed(upload.error)) && requests == [ImageUpload(post.image.value)] && store.stored == old(store.stored)
    ensures !(HasImage(post) && upload.Failure?) && old(store.stored).None? ==>
      r == Fail(StorageNotFound) && store.stored == old(store.stored)
    ensures !(HasImage(post) && upload.Failure?) && old(store.stored).Some? && old(store.stored).value.settings.tokens.devto == "" ==>
      r == Fail(DevtoTokenMissing) && store.stored == old(store.stored)
    ensures (!(HasImage(post) && upload.Failure?) &&
             (old(store.stored).None? || old(store.stored).value.settings.tokens.devto == "")) ==>
      requests == if HasImage(post) then [ImageUpload(post.image.value)] else []
    ensures r == Pass <==>
      !(HasImage(post) && upload.Failure?) && old(store.stored).Some? && old(store.stored).value.settings.tokens.devto != ""
      && CheckPublish(response).Success?
    ensures !(HasImage(post) && upload.Failure?) && old(store.stored).Some? && old(store.stored).value.settings.tokens.devto != ""
            && CheckPublish(response).Failure? ==>
      r == Fail(CheckPublish(response).error)
    ensures r != Pass ==> store.stored == old(store.stored)
    ensures r == Pass ==> store.stored.Some? && store.stored.value.settings == old(store.stored).value.settings
    ensures r == Pass ==> store.stored.value.history == [ArticleRecord(response.body)] + old(store.stored).value.history
    ensures !(HasImage(post) && upload.Failure?) && old(store.stored).Some? && old(store.stored).value.settings.tokens.devto != "" ==>
      requests == (if HasImage(post) then [ImageUpload(post.image.value)] else []) +
        [ArticleRequest(ArticlesUrl, old(store.stored).value.settings.tokens.devto,
                        BuildArticle(post, if HasImage(post) then upload.value else None))]
  {
    var mainImage: Option<string> := None;
    requests := [];
    if HasImage(post) {
      requests := [ImageUpload(post.image.value)];
      if upload.Failure? {
        return Fail(ImageUploadFailed(upload.error)), requests;
      }
      mainImage := upload.value;
    }
    var data := store.GetStorage();
    if data.Failure? {
      return Fail(data.error), requests;
    }
    var token := CheckToken(data.value);
    if token.Failure? {
      return Fail(token.error), requests;
    }
    requests := requests + [ArticleRequest(ArticlesUrl, token.value, BuildArticle(post, mainImage))];
    var published := CheckPublish(response);
    if published.Failure? {
      return Fail(published.error), requests;
    }
    var _ := store.AddPostHistory(ArticleRecord(published.value));
    r := Pass;
  }
}
