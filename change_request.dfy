/**
 * The delegated change request the block's mutation hands to the host API:
 * an `update-model-config` request with one document change that sets the
 * configured property's `dataSource` to the templated value.
 */
module ChangeRequest {
  import opened Wrappers
  import opened Block
  import opened Interpolation
  import Template

  /** The operation identifier of every request the block builds. */
  const REQUEST_ID: string := "update-model-config"

  /** The field of the document change. */
  const DATA_SOURCE: string := "dataSource"

  datatype DocumentChange = DocumentChange(property: string, field: string, value: string)

  datatype Body = Body(documentChanges: seq<DocumentChange>)

  datatype Query = Query(projectId: RouteId, manifestId: RouteId)

  /** `UpdateModelConfigRequest`; `params` is always empty. */
  datatype Request = Request(id: string, summary: string, body: Body, query: Query, params: map<string, string>)

  /** `part` occurs in `s` starting at index `i`. */
  predicate OccursAt(part: string, s: string, i: int) {
    0 <= i <= |s| - |part| && s[i..i + |part|] == part
  }

  /** `part` occurs in `s` as a contiguous piece. */
  ghost predicate Occurs(part: string, s: string) {
    exists i :: OccursAt(part, s, i)
  }

  /** The sentence shown to an administrator when no admin message is configured. */
  function DefaultSummary(route: Route): (r: string)
    ensures |r| > 5 && r[..5] == "User " && r[|r| - 1] == ')'
  {
    "User " + NameText(route.userName)
    + " wants to update the autocomplete endpoint (manifest: " + IdText(route.manifestId)
    + " in project " + IdText(route.projectId) + ")"
  }

  /** The default sentence names the user, the manifest and the project. */
  lemma DefaultSummaryMentions(route: Route)
    ensures Occurs(NameText(route.userName), DefaultSummary(route))
    ensures Occurs(IdText(route.manifestId), DefaultSummary(route))
    ensures Occurs(IdText(route.projectId), DefaultSummary(route))
  {
    var name, manifest, project := NameText(route.userName), IdText(route.manifestId), IdText(route.projectId);
    var s1 := "User ";
    var s2 := " wants to update the autocomplete endpoint (manifest: ";
    var s3 := " in project ";
    var s := DefaultSummary(route);
    assert s == s1 + name + s2 + manifest + s3 + project + ")";
    var i1 := |s1|;
    var i2 := i1 + |name| + |s2|;
    var i3 := i2 + |manifest| + |s3|;
    assert OccursAt(name, s, i1);
    assert OccursAt(manifest, s, i2);
    assert OccursAt(project, s, i3);
  }

  /** The configured admin message, or the default sentence when that message is empty. */
  function Summary(adminMessage: string, route: Route): (r: string)
    ensures r != ""
    ensures adminMessage != "" ==> r == adminMessage
  {
    if adminMessage != "" then adminMessage else DefaultSummary(route)
  }

  /**
   * The summary is the admin message when one is configured, and otherwise the
   * default sentence naming the user, the manifest and the project; it is
   * never empty.
   */
  lemma SummaryFallback(adminMessage: string, route: Route)
    ensures Summary(adminMessage, route) != ""
    ensures adminMessage != "" ==> Summary(adminMessage, route) == adminMessage
    ensures adminMessage == "" ==>
      && Occurs(NameText(route.userName), Summary(adminMessage, route))
      && Occurs(IdText(route.manifestId), Summary(adminMessage, route))
      && Occurs(IdText(route.projectId), Summary(adminMessage, route))
  {
    DefaultSummaryMentions(route);
  }

  /**
   * The body of the mutation for the submitted input: the request it hands to
   * the host API, or None when a route id is missing and nothing is sent.
   */
  function Build(props: Props, route: Route, newEndpoint: string): (r: Option<Request>)
    ensures r.Some? <==> HasIds(route)
  {
    if HasIds(route) then
      Some(Request(
        REQUEST_ID,
        Summary(props.adminMessage, route),
        Body([DocumentChange(props.property, DATA_SOURCE, Template.Value(props.pattern, newEndpoint))]),
        Query(route.projectId, route.manifestId),
        map[]))
    else None
  }

  /**
   * Every request has the fixed shape: the operation `update-model-config`,
   * no params, exactly one document change of the configured property's
   * `dataSource` to the templated input, and the route's ids as its query.
   */
  lemma BuildShape(props: Props, route: Route, newEndpoint: string)
    requires HasIds(route)
    ensures var req := Build(props, route, newEndpoint).value;
      && req.id == REQUEST_ID
      && req.params == map[]
      && |req.body.documentChanges| == 1
      && req.body.documentChanges[0].property == props.property
      && req.body.documentChanges[0].field == DATA_SOURCE
      && req.body.documentChanges[0].value == Template.Value(props.pattern, newEndpoint)
      && req.query.projectId == route.projectId
      && req.query.manifestId == route.manifestId
      && req.summary == Summary(props.adminMessage, route)
  {
  }
}
