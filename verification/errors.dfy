/**
 * The exceptions the core raises (xilma/errors.py, plus the ProviderError that
 * providers/avalai.py and llm_client.py import). An exception is a value here:
 * operations return `Result<T, Exception>`.
 */
module Errors {
  import opened Wrappers
  import opened Texts

  /** The message an `APIError` of ai_client.py carries. */
  datatype ApiMessage =
    | StatusText            // "API error {status}: {body}"
    | NetworkError
    | RequestFailed
    | ResponseFormatError
    | FailedToFetchModels

  /** The message a `ProviderError` carries. */
  datatype ProviderMessage =
    | AvalAIStatusText      // "AvalAI error {status}: {body}"
    | AvalAINetworkError
    | AvalAIRequestFailed
    | AvalAIResponseFormatError
    | UnknownProvider(name: string)

  /** Why `RuntimeError` is raised by a handler. */
  datatype RuntimeReason = ConfigMissing | AppNotConfigured

  /** Why startup stops with `SystemExit`. */
  datatype ExitReason =
    | TokenNotSet
    | AdminIdsNotIntegers
    | ApiKeyNotSet
    | InvalidFloat(value: string)
    | InvalidInteger(value: string)

  datatype Exception =
    | APIError(apiMessage: ApiMessage, apiStatus: Option<int>)
    | ProviderError(providerMessage: ProviderMessage, providerStatus: Option<int>)
    | UserVisibleError(text: TextKey)
    | RuntimeError(reason: RuntimeReason)
    | SystemExit(exit: ExitReason)
    | ValueError(input: string)
    /** An exception of a class no handler in the core catches by name
        (e.g. `AttributeError` when a reply's `message` is not an object). */
    | Uncaught
}
