/** The errors the extension's operations throw, with the `message` text of
    each as the source builds it. */
module Errors {
  import opened Strings

  datatype Error =
    | StorageNotFound                        // getStorage: nothing stored under the key
    | DevtoTokenMissing                      // checkToken: empty dev.to token
    | DevtoVerifyTransport(reason: string)   // identity request failed; `reason` is the stringified fetch error
    | DevtoVerifyRejected                    // identity response not ok
    | DevtoUserMissing                       // identity response body was null
    | DevtoPublishTransport(reason: string)  // article request failed; `reason` is the stringified fetch error
    | DevtoPublishRejected                   // article response not ok
    | DevtoUnexpectedStatus(status: int)     // article response ok but not 201 Created
    | ImageUploadFailed(text: string)        // the image host's upload helper threw with this message
    | TwitterNotConnected                    // postToTwitter's connection gate

  /** `error.message`. The dev.to fetch chains rethrow from `.catch`, so their
      texts wrap the stringified inner error ("Error: " + its message). */
  function Message(e: Error): string {
    match e
    case StorageNotFound => "PostPilot storage not found"
    case DevtoTokenMissing => "Dev.to token is missing. Please set it in the settings."
    case DevtoVerifyTransport(reason) => "Error verifying dev.to token: " + reason
    case DevtoVerifyRejected => "Error verifying dev.to token: Error: Failed to verify dev.to token."
    case DevtoUserMissing => "Failed to retrieve dev.to user information."
    case DevtoPublishTransport(reason) => "Error publishing article to dev.to: " + reason
    case DevtoPublishRejected => "Error publishing article to dev.to: Error: Failed to publish article to dev.to."
    case DevtoUnexpectedStatus(status) =>
      "Error publishing article to dev.to: Error: Unexpected response status: " + IntToString(status)
      + ". Expected 201 Created. Failed to publish article to dev.to."
    case ImageUploadFailed(text) => text
    case TwitterNotConnected => "Not connected to Twitter. Please check your connection in settings."
  }
}
