/** The protocol-buffer values the error engine produces: status codes,
    suggestion codes, suggestions and the actionable-error message. */
module Proto {

  /** The `StatusCode` enum. The engine itself names the generic unknown code
      and one unknown code per phase; the codes of the known-problem tables
      are defined elsewhere and are carried by `Defined`. */
  datatype StatusCode =
    | UnknownError        // UNKNOWN_ERROR
    | BuildUnknown        // BUILD_UNKNOWN
    | InitUnknown         // INIT_UNKNOWN
    | DeployUnknown       // DEPLOY_UNKNOWN
    | StatusCheckUnknown  // STATUSCHECK_UNKNOWN
    | SyncUnknown         // SYNC_UNKNOWN
    | DevInitUnknown      // DEVINIT_UNKNOWN
    | CleanupUnknown      // CLEANUP_UNKNOWN
    | Defined(name: string)

  /** The `SuggestionCode` enum, with the codes the engine names. */
  datatype SuggestionCode =
    | OpenIssue                     // OPEN_ISSUE
    | CheckDefaultRepo              // CHECK_DEFAULT_REPO
    | CheckDefaultRepoGlobalConfig  // CHECK_DEFAULT_REPO_GLOBAL_CONFIG
    | AddDefaultRepo                // ADD_DEFAULT_REPO
    | GcloudDockerAuthConfigure     // GCLOUD_DOCKER_AUTH_CONFIGURE
    | DockerAuthConfigure           // DOCKER_AUTH_CONFIGURE
    | OtherSuggestion(name: string)

  /** One remedy: a machine-readable code and the text shown to the user. */
  datatype Suggestion = Suggestion(code: SuggestionCode, action: string)

  /** A Go slice of suggestions. A nil slice is distinct from an empty one,
      and the engine tests for nil. */
  datatype Suggestions = Nil | Slice(items: seq<Suggestion>) {

    /** The elements, as a `range` loop visits them (none for nil). */
    function Elems(): seq<Suggestion> {
      match this
      case Nil => []
      case Slice(items) => items
    }
  }

  /** The `ActionableErr` message handed back to callers. */
  datatype ActionableErr = ActionableErr(errCode: StatusCode, message: string, suggestions: Suggestions)
}
