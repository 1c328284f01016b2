# PostPilot, modelled in Dafny

PostPilot is a browser extension that posts one draft to LinkedIn, Twitter (X)
and dev.to. This project models its core and proves properties of the model:

- the `Storage` wrapper around the extension's one stored aggregate (settings
  and post history under the key `"postpilot"`) and its default value;
- the background service worker: its message switch and the LinkedIn, Twitter
  and dev.to handlers, which probe connections, open tabs, record completed
  posts and call the dev.to API;
- `waitForElement`, the polling helper the content scripts use;
- the LinkedIn and Twitter content scripts, which read the profile from the
  page and drive the post editors;
- the draft page's submit validation and tag parser, and the settings page's
  field updaters, "clear all" handler and display rules.

The browser stays outside the model. Stored data is a Dafny field. DOM queries
are inputs: a wait reads one observation per 200 ms tick. Tabs, reloads,
alerts and warnings are returned as `Effect` values, and page manipulations as
`DomAction` values. HTTP responses are passed in as parameters, and so is the
image host's upload result. Each asynchronous handler is modelled as one
atomic step.

Modules follow the source files:

| Dafny module | file |
|---|---|
| `Types` | `src/utils/types.ts`, the data shapes and `default_storage` |
| `Store` | `src/utils/storage.ts`, the `Storage` class |
| `Utils` | `src/utils/utils.ts`, `waitForElement` |
| `Handlers`, `TwitterActions`, `LinkedinActions`, `DevtoActions` | `src/background/actions/*.ts` |
| `Background` | `src/background/background.ts` |
| `LinkedinScrape`, `TwitterScrape` | `src/platforms/{linkedin,twitter}/scrape/post.ts` |
| `Draft`, `SettingsPage` | `src/pages/draft.tsx`, `src/pages/settings.tsx` |
| `Wrappers`, `Errors`, `Strings`, `Chrome` | shared helpers |

`Strings` holds the JavaScript string operations the code uses:

- `split` and `join`, written literally;
- `trim`;
- `x || null`, written as `OrNull`.

`LinkedinScrape.ParseEditorHtml` and `LinkedinScrape.IndexFrom` are not in the
source. They are a reader for the editor HTML the LinkedIn script builds, and
`LinkedinScrape.EditorHtmlRoundTrip` uses them to show that this HTML loses
nothing.

In a few places the code does something other than what its comments or the
surrounding design suggest. The model follows the code:

- `postToLinkedin` opens the LinkedIn tab without looking at the stored
  connection status. Only the Twitter publish is gated.
- `CREATE_POST` calls the LinkedIn and Twitter publishers only. Nothing in the
  switch reaches `postToDevto`.
- The draft page sends `POST_TO_LINKEDIN`, and the settings page sends
  `CHECK_DEVTO_CONNECTION`. The background switch has no case for either
  type, so both end in the "Unknown message type" warning.
- When the dev.to identity request fails or returns a non-ok status,
  `testDevtoConnection` throws before it writes anything. Only a null user
  resets the record.
- The Twitter script puts a `#` in front of every tag, so a tag typed as
  `#x` becomes `##x`. The LinkedIn script adds a `#` only when one is
  missing.
- `getConnectedAccounts` keeps dev.to when either Cloudinary field is set.
  The settings page's Cloudinary note asks for both fields.

## Model

| member | source | states |
|---|---|---|
| Types.DefaultStorage | src/utils/types.ts:49-84 | the default aggregate has an empty history, three "not connected" records with null name and image, empty tokens and Cloudinary fields, and methods scrape/scrape/api |
| Types.WithConnection | src/utils/types.ts:17-33 | replacing one platform's connection record leaves the other two records unchanged |
| Errors.Message | src/background/actions/devto.ts:39-56 | each error's `message` as the source builds it, including the dev.to texts the fetch chains wrap around the inner error and the status number in the unexpected-status text |
| Store.Initialized | src/utils/storage.ts:15-22 | after `init` something is always stored: the existing aggregate when there was one, the default otherwise |
| Store.InitIdempotent | src/utils/storage.ts:15-22 | running `init` a second time changes nothing, and existing data is never overwritten |
| Store.ConnectedAccounts | src/utils/storage.ts:80-95 | a platform is listed exactly when its record is "connected", and dev.to additionally needs a Cloudinary cloud name or preset; the list follows the key order linkedin, twitter, devto |
| Store.Storage.constructor | src/utils/storage.ts:8-10 | a new wrapper has already run `init`: the stored value is the existing one, or the default when there was none |
| Store.Storage.Init | src/utils/storage.ts:15-22 | writes the default aggregate only when nothing is stored |
| Store.Storage.GetStorage | src/utils/storage.ts:27-33 | returns the stored aggregate, or fails with "PostPilot storage not found" |
| Store.Storage.SetStorage | src/utils/storage.ts:38-40 | the stored aggregate becomes exactly the argument |
| Store.Storage.GetSettings | src/utils/storage.ts:45-48 | returns the stored settings, or the not-found error |
| Store.Storage.SetSettings | src/utils/storage.ts:53-57 | replaces the settings and keeps the history; fails and changes nothing when nothing is stored |
| Store.Storage.ClearStorage | src/utils/storage.ts:59-67 | afterwards the stored value is the default and the result is status "success" with a null error |
| Store.Storage.AddPostHistory | src/utils/storage.ts:69-73 | the new item comes first, the old history follows unchanged and the settings are kept; fails and changes nothing when nothing is stored |
| Store.Storage.ClearHistory | src/utils/storage.ts:74-78 | the history becomes empty and the settings are kept; fails and changes nothing when nothing is stored |
| Store.Storage.GetConnectedAccounts | src/utils/storage.ts:80-95 | returns the keys of the connected accounts of the stored settings, and changes nothing |
| Store.Storage.SetCloudinarySettings | src/utils/storage.ts:102-110 | only the two Cloudinary fields change; fails and changes nothing when nothing is stored |
| Store.AddTwoPosts | src/utils/storage.ts:69-73 | two additions leave the newer post first: the history is `[b, a]` followed by the old history |
| Utils.TickLimit | src/utils/utils.ts:3-4 | the number of polls before `elapsed >= timeout`: at least one, and the least such count |
| Utils.DefaultTickLimit | src/utils/utils.ts:1 | the default 10000 ms timeout allows exactly 50 polls |
| Utils.FirstPresent | src/utils/utils.ts:6-12 | the first poll, before the limit, that sees the element; no earlier poll sees it |
| Utils.WaitForElement | src/utils/utils.ts:1-20 | resolves with the element of the first poll that sees one, or rejects after exactly the poll limit; `elapsed` is 200 ms per poll |
| Chrome.RemoveTabIfSet | src/background/actions/twitter.ts:101-105 | a tab is removed exactly when its id is truthy; `undefined` and 0 remove nothing |
| Chrome.FirstLoad | src/background/actions/twitter.ts:65-67 | the first tab update that reports "complete" for the given tab |
| Chrome.LoadListener.OnUpdated | src/background/actions/twitter.ts:65-75 | the first "complete" update of the listener's own tab unregisters the listener and sends its message; any other update changes nothing |
| Chrome.LoadListener.Deliver | src/background/actions/twitter.ts:64-78 | over a run of updates, the message is sent exactly once when one of them loads the tab, and not at all otherwise |
| Chrome.OnTabCreated | src/background/actions/twitter.ts:60-79 | a listener is registered exactly when the new tab's id is truthy |
| Handlers.Normalized | src/background/actions/twitter.ts:122-126 | a probe becomes a record with the status copied and an empty name or image turned into null |
| Handlers.WithRecordFrame | src/background/actions/linkedin.ts:78-96 | writing one platform's record keeps the history, the tokens, the methods, Cloudinary and the other two records |
| Handlers.RecordProbe | src/background/actions/linkedin.ts:78-96 | the platform's record becomes the normalised probe and the sender tab is closed when its id is truthy; with nothing stored, nothing is written and no tab is closed |
| Handlers.RecordPost | src/background/actions/linkedin.ts:103-121 | the post is prepended to the history with its platform name, and the tab is closed 2500 ms later whether or not the write succeeded |
| Handlers.ResetConnection | src/background/actions/linkedin.ts:127-142 | the record is reset to "not connected" and the page reloads; with nothing stored, an alert names the platform and the error |
| TwitterActions.PostToTwitter | src/background/actions/twitter.ts:41-81 | a compose tab is requested exactly when the stored Twitter record is "connected"; otherwise the result is the not-connected or storage error |
| TwitterActions.TestTwitterConnection | src/background/actions/twitter.ts:7-33 | the probe opens the Twitter home page in a foreground tab and runs the Twitter test once it has loaded |
| TwitterActions.PostedToTwitter | src/background/actions/twitter.ts:88-106 | prepends the post with `postedOn` "Twitter" and closes the sender tab 2500 ms later when its id is truthy |
| TwitterActions.CheckTwitterConnection | src/background/actions/twitter.ts:113-131 | stores the normalised probe as the Twitter record and closes the probe tab |
| TwitterActions.DisconnectTwitter | src/background/actions/twitter.ts:137-150 | resets the Twitter record and reloads, or alerts "Failed to disconnect Twitter: …" |
| LinkedinActions.PostedToLinkedin | src/background/actions/linkedin.ts:103-121 | prepends the post with `postedOn` "Linkedin" and closes the sender tab 2500 ms later when its id is truthy |
| LinkedinActions.TestLinkedinConnection | src/background/actions/linkedin.ts:7-33 | the probe opens the LinkedIn feed in a background tab and runs the LinkedIn test once it has loaded |
| LinkedinActions.PostToLinkedin | src/background/actions/linkedin.ts:39-71 | the post goes to the LinkedIn feed in a background tab once it has loaded. The function takes only the post, so no stored status can stop it; Background.Execute and Background.OnMessage state that this tab is opened whatever the store holds |
| LinkedinActions.CheckLinkedinConnection | src/background/actions/linkedin.ts:78-96 | stores the normalised probe as the LinkedIn record and closes the probe tab |
| LinkedinActions.DisconnectLinkedin | src/background/actions/linkedin.ts:127-142 | resets the LinkedIn record and reloads, or alerts "Failed to disconnect LinkedIn: …" |
| DevtoActions.CheckToken | src/background/actions/devto.ts:183-189 | the stored dev.to token, or the missing-token error exactly when it is empty |
| DevtoActions.Verify | src/background/actions/devto.ts:32-63 | a failed or non-ok response writes nothing and fails with the wrapped "Error verifying dev.to token: …" error; a null user resets the record and fails; a user connects the record with its name and image; "connected" is written exactly when the check passes |
| DevtoActions.TestDevtoConnection | src/background/actions/devto.ts:28-67 | without stored data or a token, nothing is requested or written; otherwise one identity request is sent with the token, the record is written as `Verify` says, and the check-done message is sent exactly on success |
| DevtoActions.DisconnectDevto | src/background/actions/devto.ts:73-86 | resets the dev.to record and reloads, or alerts "Failed to disconnect Dev.to: …" |
| DevtoActions.BuildArticle | src/background/actions/devto.ts:130-138 | the article is published with the post's title and body, the uploaded image or null, and the first min(4, n) tags in order |
| DevtoActions.CheckPublish | src/background/actions/devto.ts:151-166 | only an ok response with status 201 yields the article; a transport error, a non-ok response and any other ok status each fail with their own wrapped error |
| DevtoActions.ArticleRecord | src/background/actions/devto.ts:168-174 | the history item is taken from the response, with `postedOn` "dev.to" and an empty cover image turned into null |
| DevtoActions.PostToDevto | src/background/actions/devto.ts:124-175 | the upload runs first and only for a truthy image; the store and token are read next and the article is sent with the token; exactly one history record is prepended on success. Each failure gives its own error: the upload's message, storage not found, missing token, or the publish error that `CheckPublish` names. On any failure the store is unchanged |
| Background.Route | src/background/background.ts:34-65 | each of the seven known types calls its own handler: the completions with the payload and sender tab, CHECK_TWITTER_CONNECTION the Twitter probe, CHECK_LINKEDIN_CONNECTION the LinkedIn probe, and CREATE_POST the LinkedIn and then the Twitter publisher with the same payload; any other type is unknown |
| Background.UnroutedPageMessages | src/background/background.ts:61-62 | POST_TO_LINKEDIN and CHECK_DEVTO_CONNECTION are unknown types |
| Background.Execute | src/background/background.ts:36-60 | each handler call has the effects and store update of its handler; the publish and test calls change no stored data |
| Background.OnMessage | src/background/background.ts:34-65 | an unknown type only warns "Unknown message type: " plus the type; each check request opens its own platform's probe tab; CREATE_POST opens the LinkedIn tab and, when Twitter is connected, a Twitter tab; none of these writes storage. A connection result with nothing stored does nothing; otherwise it writes its platform's record and closes the tab. A post result prepends to the history, keeps the settings and closes the tab 2500 ms later |
| LinkedinScrape.Hashtag | src/platforms/linkedin/scrape/post.ts:53-55 | the tag with a leading "#", which is added only when missing |
| LinkedinScrape.HashtagsIdempotent | src/platforms/linkedin/scrape/post.ts:53-55 | prefixing tags that are already prefixed changes nothing |
| LinkedinScrape.HashtagStringRoundTrip | src/platforms/linkedin/scrape/post.ts:53-55 | splitting the hashtag line at spaces gives back one prefixed tag per tag, in order, when no tag holds a space |
| LinkedinScrape.EditorHtmlRoundTrip | src/platforms/linkedin/scrape/post.ts:59 | the editor HTML determines title, content and hashtag line when title and content hold no "<" |
| LinkedinScrape.CheckLinkedinConnection | src/platforms/linkedin/scrape/post.ts:16-33 | the probe reports the trimmed profile name and the picture's src; it is "connected" exactly when both are non-empty |
| LinkedinScrape.ProbeRecordConsistent | src/platforms/linkedin/scrape/post.ts:24-31 | once stored, the record is "connected" exactly when it has both a name and an image; a missing element records "not connected" |
| LinkedinScrape.PostLinkedin | src/platforms/linkedin/scrape/post.ts:35-116 | LINKEDIN_POST_DONE, with the unchanged post, is sent exactly when every element is found. The actions come in the source's order: the start click (exactly when the top bar and its button exist), the editor fill with the three paragraphs, at most one paste of a truthy image, then the post click, last and only on completion. A run that ends before the editor does nothing beyond the start click |
| TwitterScrape.TweetHashtags | src/platforms/twitter/scrape/post.ts:68 | every tag gets a "#" in front, unconditionally |
| TwitterScrape.TweetTextLines | src/platforms/twitter/scrape/post.ts:64-68 | the inserted text is five lines: the title, a blank line, the content indented by two spaces, a blank line, and the tag line indented by two spaces. When no field holds a line break, splitting at line breaks gives them back |
| TwitterScrape.TweetTagsRoundTrip | src/platforms/twitter/scrape/post.ts:64-68 | splitting the tweet's tag line at spaces gives one prefixed tag per tag, in order |
| TwitterScrape.SameTagLineAsLinkedin | src/platforms/twitter/scrape/post.ts:68 | when no tag starts with "#", Twitter's tag line is LinkedIn's |
| TwitterScrape.PrefixedTagDoubled | src/platforms/twitter/scrape/post.ts:68 | any tag typed with a leading "#", at any position, becomes "##…" on Twitter while LinkedIn keeps it as typed |
| TwitterScrape.ProfileName | src/platforms/twitter/scrape/post.ts:116-120 | every "@" of the user-name text becomes "/"; the name is null exactly when the text is empty |
| TwitterScrape.AvatarSelectorUsesHandle | src/platforms/twitter/scrape/post.ts:116-121 | for the text "Display Name@handle", the name is "Display Name/handle" and the avatar selector uses the handle |
| TwitterScrape.CheckTwitterConnection | src/platforms/twitter/scrape/post.ts:105-151 | exactly one TWITTER_CONNECTION_CHECK_DONE is sent; a missing button or a timed-out wait reports no profile; otherwise the name and the avatar src are reported, "connected" exactly when both are present |
| TwitterScrape.PostToTwitter | src/platforms/twitter/scrape/post.ts:19-103 | the tweet text is inserted exactly when the compose box, the main editor and a selection are all found; only a truthy image is pasted, and before the text; nothing is sent to the background |
| Draft.EmptyDraft | src/pages/draft.tsx:5-8 | the form starts with no image and empty fields |
| Draft.HandleImageUpload | src/pages/draft.tsx:19-28 | once a chosen file is read, the image becomes the reader's result: the data URL, or null when the read failed; without a file nothing changes; the other fields are kept |
| Draft.RemoveImage | src/pages/draft.tsx:30 | the image becomes null and the other fields are kept |
| Draft.RemoveAfterUpload | src/pages/draft.tsx:19-30 | removing the image undoes any upload |
| Draft.NonEmpty | src/pages/draft.tsx:48 | `filter(Boolean)` keeps exactly the non-empty strings: none is dropped and none added, an input without empty strings is kept whole, and with `NonEmptyAppend` the order is kept |
| Draft.NonEmptyAppend | src/pages/draft.tsx:48 | filtering a concatenation concatenates the filtered parts, so the kept strings stay in input order |
| Draft.ParseTags | src/pages/draft.tsx:45-48 | no parsed tag is empty or has surrounding whitespace, and there are at most one more tags than commas |
| Draft.ParseTagsAppend | src/pages/draft.tsx:45-48 | the tags of `a + "," + b` are the tags of `a` followed by those of `b` |
| Draft.ParseSingleTag | src/pages/draft.tsx:45-48 | a string without commas is one tag, its trimmed self, or no tag when that is empty |
| Draft.ParseJoinedTags | src/pages/draft.tsx:45-48 | comma-joining clean, comma-free tags and parsing the result gives the tags back |
| Draft.HandleSubmit | src/pages/draft.tsx:32-57 | nothing is sent, and an error toast is shown, exactly when the title or content is empty; otherwise POST_TO_LINKEDIN carries the title, content, parsed tags and image |
| Draft.SubmitAfterRemove | src/pages/draft.tsx:30-49 | after the image is removed, the submitted image is null |
| Draft.SubmissionUnrouted | src/pages/draft.tsx:51-54 | the background has no case for the message a submitted draft sends |
| SettingsPage.HandleTokenChange | src/pages/settings.tsx:35-46 | only the chosen platform's token changes |
| SettingsPage.HandleMethodChange | src/pages/settings.tsx:48-59 | only the chosen platform's method changes |
| SettingsPage.TokenChangeUndone | src/pages/settings.tsx:35-46 | typing a token and then restoring the old one gives back the original settings |
| SettingsPage.TokenChangesCommute | src/pages/settings.tsx:35-46 | token changes to two different platforms give the same result in either order |
| SettingsPage.HandleClear | src/pages/settings.tsx:76-90 | without confirmation nothing changes; with it, storage and page show the defaults and the notification is "success", not an error |
| SettingsPage.TwitterStatusLabel | src/pages/settings.tsx:229-231 | the status with "_" replaced by " ": "connected" or "not connected" |
| SettingsPage.Controls | src/pages/settings.tsx:157-168 | the button reads "Recheck Connection" exactly when connected and "Check Connection" otherwise; Disconnect is shown exactly when connected, so exactly when the button offers a recheck |
| SettingsPage.PanelFor | src/pages/settings.tsx:113-129 | for LinkedIn and Twitter, the token field appears under "api" and the connection panel under "scrape" |
| SettingsPage.DevtoTokenInput | src/pages/settings.tsx:282-293 | the dev.to token field is disabled exactly when dev.to is connected, with the matching placeholder |
| SettingsPage.CloudinaryNote | src/pages/settings.tsx:340-345 | the note says Cloudinary is in use exactly when both the cloud name and the preset are set |
| SettingsPage.CloudinaryNoteWeakerThanAccounts | src/pages/settings.tsx:340-345 | with only a cloud name set, the page asks for Cloudinary setup while dev.to still counts as connected |

## Left out

- Browser APIs are not modelled as such: `chrome.storage`, `chrome.tabs`, `chrome.runtime` messaging, `window.location.reload`, `alert`, `confirm` and the console. Storage is a field, and the rest are effect values or parameters.
- `fetch`, JSON decoding, `FileReader` and base64 are outside the model. Responses are inputs, and so is what a file read gives: a data URL, or nothing when the read fails.
- `UploadBase64ToCloudinary` is not part of this model. Its result is an input of `DevtoActions.PostToDevto`.
- `typeLikeUser` and `delay` are not modelled. The fixed waits (300, 500, 1000, 1200 and 2000 ms) only order steps the model already orders. Timers are counted as polls.
- Interleavings are not modelled. Each asynchronous handler runs as one atomic step. The un-awaited history write in `postedTo…` and `postToDevto` is taken to complete before the next handler runs.
- `src/platforms/linkedin/scrape/helper.ts`, `src/platforms/devto/scrape/post.ts`, `src/pages/history.tsx` and `src/components/layout.tsx` are not part of this model. They are helpers outside the core, or rendering only.
- The JSX, toasts and the timed toast reset of the pages are not modelled. The same goes for `handleSave`, the load of the settings on mount, the settings page's reload-on-"CHECK_DONE" listener and the Cloudinary form submit handler. They are rendering, or thin wrappers over `Store.Storage.SetSettings` and `Store.Storage.SetCloudinarySettings`.
- LinkedinScrape.PostLinkedin: each element queried again after a wait is a separate page input. The model does not tie it to what the wait saw.
- LinkedinScrape.PostLinkedin and TwitterScrape.PostToTwitter: pasting the image starts with a `fetch` of its data URL (`src/platforms/linkedin/scrape/post.ts:74`, `src/platforms/twitter/scrape/post.ts:37`). When that fetch rejects, the run ends: LinkedIn never clicks post nor sends LINKEDIN_POST_DONE, and Twitter never inserts the text. The model takes this fetch to succeed.
- TwitterScrape.CheckTwitterConnection: the elements queried right after each wait are taken to be the ones the wait found.
- Store.Storage.ClearStorage: the reject branch, which gives `{status: "error"}` when the browser's remove or set throws, is not modelled, because storage calls cannot fail in the model.
- The text of a failed `fetch` (a network error, or a response body that is not JSON) is an input of the dev.to handlers: the `reason` of a transport error.
- Background.OnMessage: requires each payload to have the shape its message type expects. The source does not check this, and a mismatched payload is not modelled.
- Twitter records absent from stored settings cannot be represented, because the settings type always holds three connection records. The `!connectionStatus.twitter` branch of `postToTwitter` is therefore not modelled.
- Numbers, strings and objects have no width or encoding limits. Strings are sequences of characters.
