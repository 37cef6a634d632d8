/** The answers a user can give to a confirmation prompt. */
module ConfirmationOutcomes {
  datatype Outcome =
    | ProceedOnce
    | ProceedAlways
    | ProceedAlwaysForExactPath
    | ProceedAutoRun
    | ProceedAutoRunLow
    | ProceedAutoRunMedium
    | ProceedAutoRunHigh
    | ProceedNewSession
    | ProceedNewSessionLow
    | ProceedNewSessionMedium
    | ProceedNewSessionHigh
    | ProceedEdit
    | ProceedAlwaysTools
    | ProceedAlwaysServer
    | Cancel
}
