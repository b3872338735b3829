/**
 * Values shared by every part of the rental store: optional values, the
 * error outcomes the HTTP handlers answer with, record and caller ids, and
 * the caller identity that the token middleware attaches to a request.
 */
module Common {

  datatype Option<T> = None | Some(value: T)

  /** The refusals a handler answers with instead of a success body. */
  datatype Failure =
    | Forbidden        // 403: not an admin, or not the image's owner
    | NotFound         // 404: no record with the requested id
    | UsernameTaken    // 400 on registration: the username already exists
    | InvalidStatus    // 400: a status other than pending / confirmed
    | NoFileSelected   // 400: the upload request carries no file
    | UploadRejected   // multer refused the files (type, size or count)

  datatype Result<T> = Ok(value: T) | Err(error: Failure)

  /**
   * An id as JavaScript sees it: tenant, payment and image ids are numbers,
   * while an admin's token carries the admin's phone-number username, a
   * string, as its id. Strict equality (`===`) never equates the two kinds.
   */
  datatype Id = Num(n: int) | Text(s: string)

  /** The decoded token: who is calling and in which role. */
  datatype Identity = Identity(id: Id, username: string, role: string, name: string)

  /** `req.user.role === 'admin'`, the test applied by checkAdmin. */
  predicate IsAdmin(who: Identity) {
    who.role == "admin"
  }

  /** `req.user.name || req.user.username`: an empty name falls back to the username. */
  function DisplayName(who: Identity): string {
    if who.name != "" then who.name else who.username
  }
}
