/** Record shapes shared by the application's components (types.ts), and the
    Option/Result wrappers used for the source's nullable values and error paths. */
module Types {

  datatype Option<+T> = None | Some(value: T)

  datatype Result<+T, +E> = Ok(value: T) | Err(error: E)

  /** A catalog entry. Optional fields of the record are `Option`s; an absent
      URL and an empty one are both falsy in the source and are told apart here. */
  datatype Content = Content(
    id: string,
    title: string,
    description: string,
    thumbnailUrl: string,
    backdropUrl: string,
    genre: seq<string>,
    rating: string,
    releaseYear: int,
    featured: Option<bool>,
    videoUrl: Option<string>,
    trailerUrl: Option<string>)

  datatype Role = User | Model

  datatype ChatMessage = ChatMessage(role: Role, text: string)

  datatype WebSource = WebSource(uri: string, title: string)

  datatype GroundingChunk = GroundingChunk(web: Option<WebSource>)

  datatype UserProfile = UserProfile(username: string, profilePictureUrl: string)
}
