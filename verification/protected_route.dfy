/** The gate in front of every page: what it renders for the authentication state. */
module ProtectedRoute {
  import opened Wrappers

  const DefaultErrorMessage: string :=
    "Failed to connect to authentication server. Please check if Keycloak is running."

  /** The four screens; `AuthError` carries the text shown in its alert. */
  datatype Gate = Checking | AuthError(message: string) | LoginPrompt | Children

  /** `error` is the message of the reported error object, None when there is none.
      The checks run in a fixed order: loading, then error, then authentication. */
  function Decide(isLoading: bool, hasError: bool, error: Option<string>, isAuthenticated: bool): (g: Gate)
    ensures g.Checking? <==> isLoading
    ensures g.AuthError? <==> !isLoading && hasError && error.Some?
    ensures g.LoginPrompt? <==> !isLoading && !(hasError && error.Some?) && !isAuthenticated
    ensures g.Children? <==> !isLoading && !(hasError && error.Some?) && isAuthenticated
    ensures g.AuthError? && error.value != "" ==> g.message == error.value
    ensures g.AuthError? && error.value == "" ==> g.message == DefaultErrorMessage
  {
    if isLoading then Checking
    else if hasError && error.Some? then
      AuthError(if error.value != "" then error.value else DefaultErrorMessage)
    else if !isAuthenticated then LoginPrompt
    else Children
  }

  /** An error is shown even to an authenticated user. */
  lemma ErrorOverridesAuthentication(error: string, isAuthenticated: bool)
    ensures Decide(false, true, Some(error), isAuthenticated).AuthError?
  {
  }
}
