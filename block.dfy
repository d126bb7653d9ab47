/**
 * The inputs of the AutocompleteCustomisation block: the properties an editor
 * configures, the ids the host's route context supplies, and the status of the
 * submission (react-query's mutation status).
 */
module Block {
  import opened Wrappers

  /**
   * The configured properties of the block. The optional properties
   * `actionLabel` and `autocompleteEndpoint` are only ever tested for
   * truthiness, so an absent one is the empty string here.
   */
  datatype Props = Props(
    heading: string,
    actionLabel: string,
    property: string,
    pattern: string,
    adminMessage: string,
    thanks: string,
    autocompleteEndpoint: string)

  /** A route id as the host hands it over: missing, a number or a string. */
  datatype RouteId = Absent | Num(n: int) | Text(s: string)

  /** JavaScript truthiness of a route id: `undefined`, `0` and `''` are falsy. */
  predicate Truthy(id: RouteId) {
    match id
    case Absent => false
    case Num(n) => n != 0
    case Text(s) => s != ""
  }

  /**
   * What the host's route context and user hook give the block: the project
   * and manifest ids, and the signed-in user's name (None when `user` is
   * undefined).
   */
  datatype Route = Route(projectId: RouteId, manifestId: RouteId, userName: Option<string>)

  /** Both route ids are present, the condition the block checks twice. */
  predicate HasIds(route: Route) {
    Truthy(route.projectId) && Truthy(route.manifestId)
  }

  /** The status of the change-request mutation. */
  datatype Status = Idle | Loading | Success | Error
}
