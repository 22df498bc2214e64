// The two records the bot stores (models.go) and the error results of the store.
module Models {

  /** An executor's profile, keyed by the Telegram user id. */
  datatype Profile = Profile(
    userId: int,
    username: string,
    description: string,
    photoFileId: string)

  /** A client's request; `complaints` counts confirmed complaints against it. */
  datatype Order = Order(
    id: int,
    creatorId: int,
    category: string,
    text: string,
    photoFileId: string,
    complaints: int)

  /** The errors the JSON store returns, one per `errors.New` / failed file write. */
  datatype StoreError = NotFound | CreatorHasOrder | WriteFailed

  datatype Result<T> = Ok(value: T) | Err(error: StoreError)

  datatype Option<T> = None | Some(value: T)
}
