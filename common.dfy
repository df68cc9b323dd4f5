/** Values shared by the thumbnail and the video upload handlers. */
module Common {

  datatype Option<+T> = None | Some(value: T)

  /** One element of a Go `[]byte`. */
  type Byte = x: int | 0 <= x < 256

  /** The video record as the handlers read and write it: the key, the owner and the two
      locators the handlers set. Fields the handlers never touch are not modelled. */
  datatype Video = Video(id: string, userID: string, thumbnailURL: Option<string>, videoURL: Option<string>)

  /** What a handler leaves on the HTTP response. */
  datatype Reply =
    | NoReply                                // returned without writing; net/http answers 200 with an empty body
    | ErrorReply(code: int, message: string) // respondWithError
    | JsonReply(code: int, body: Video)      // respondWithJSON
    | Panicked                               // a nil dereference; net/http recovers and drops the connection
}
