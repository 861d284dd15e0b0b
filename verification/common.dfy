/** Shared vocabulary of the backend's controllers: optional values, the
    error a controller throws, and the users collection that both the
    subscriber listing and the video feed join against. */
module Common {

  datatype Option<T> = None | Some(value: T) {
    function GetOr(default: T): T {
      match this
      case Some(v) => v
      case None => default
    }
  }

  /** `ApiError(statusCode, message)`: what a controller throws; the
      response envelope built from it is not modelled. */
  datatype ApiError = ApiError(statusCode: nat, message: string)

  datatype Result<T> = Success(value: T) | Failure(error: ApiError)

  /** A document id in the text form in which it arrives as a route or query
      parameter. The store compares the 12 bytes an id decodes to; the model
      compares the text. */
  type Id = string

  /** A media reference kept by the user document: the URL served to
      clients and the storage provider's own identifier. */
  datatype Asset = Asset(url: string, publicId: string)

  /** What a projection with `"avatar.url": 1` keeps of an avatar. */
  datatype AvatarUrl = AvatarUrl(url: string)

  /** A user document, without its `_id`, which is its key in `Users`. */
  datatype User = User(
    username: string,
    email: string,
    fullName: string,
    avatar: Asset,
    coverImage: Option<Asset>,
    watchHistory: seq<Id>)

  /** The `users` collection, keyed by `_id` (so at most one user per id). */
  type Users = map<Id, User>
}
