/** Optional values, results and the app's error values. */
module Wrappers {

  datatype Option<T> = None | Some(value: T)

  datatype Result<T, E> = Ok(value: T) | Err(error: E)

  /** The errors the services hand to their completion handlers. An `NSError`
      built by the app carries its domain, its numeric code and its description;
      errors raised by the HTTP client, the document store or the JSON decoder
      are kept apart. */
  datatype Error =
    | AppError(domain: string, code: int, description: string)
    | TransportError(reason: string)
    | DecodingError

  const FIRESTORE_DOMAIN: string := "FirestoreManager"
  const OPENAI_DOMAIN: string := "OpenAIService"
}
