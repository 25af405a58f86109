/** The input checks of the forms: saving a new profile, saving an edited
    profile, and submitting the header's search box. Each check tests the
    trimmed input, while the profile keeps the username exactly as typed. */
module Forms {
  import opened Types
  import opened Text

  const SetupError: string := "Please enter a username and generate an avatar."
  const EditError: string := "Username cannot be empty."

  /** `ProfileSetupPage.handleSave`: refused (with its message) when the trimmed
      username or the avatar URL is empty; otherwise the profile as typed. */
  function ValidateNewProfile(username: string, pictureUrl: string): (r: Result<UserProfile, string>)
    ensures r.Ok? <==> !AllWhitespace(username) && pictureUrl != ""
    ensures r.Ok? ==> r.value == UserProfile(username, pictureUrl)
    ensures r.Err? ==> r.error == SetupError
  {
    if Trim(username) == "" || pictureUrl == "" then Err(SetupError)
    else Ok(UserProfile(username, pictureUrl))
  }

  /** `ProfileModalContent.handleSave`: only the trimmed username is checked;
      the picture URL may be anything, the empty string included. */
  function ValidateProfileEdit(username: string, pictureUrl: string): (r: Result<UserProfile, string>)
    ensures r.Ok? <==> !AllWhitespace(username)
    ensures r.Ok? ==> r.value == UserProfile(username, pictureUrl)
    ensures r.Err? ==> r.error == EditError
  {
    if Trim(username) == "" then Err(EditError)
    else Ok(UserProfile(username, pictureUrl))
  }

  /** `Header.handleSearchSubmit`: the query handed to the search, if any. A
      query is submitted exactly when the box holds something besides
      whitespace, and then it is that box's text trimmed, which is non-empty,
      has no whitespace at either end and is unchanged by a second trim. */
  function SubmittedQuery(box: string): (r: Option<string>)
    ensures r.Some? <==> !AllWhitespace(box)
    ensures r.Some? ==> r.value == Trim(box)
    ensures r.Some? ==> r.value != [] && !IsWhitespace(r.value[0]) && !IsWhitespace(r.value[|r.value| - 1])
    ensures r.Some? ==> Trim(r.value) == r.value
  {
    var q := Trim(box);
    TrimIdempotent(box);
    if q != "" then Some(q) else None
  }

  /** Every profile the edit form accepts, the setup form accepts too once an
      avatar exists; the setup form never accepts one the edit form refuses. */
  lemma {:induction false} SetupIsStricterThanEdit(username: string, pictureUrl: string)
    ensures ValidateNewProfile(username, pictureUrl).Ok? ==> ValidateProfileEdit(username, pictureUrl).Ok?
    ensures pictureUrl != "" ==>
      (ValidateNewProfile(username, pictureUrl).Ok? <==> ValidateProfileEdit(username, pictureUrl).Ok?)
  {
  }
}
