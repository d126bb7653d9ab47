/**
 * What the block renders: nothing, the thank-you text, the error text, or the
 * form (a text input or a select box, and the submit button), decided by an
 * ordered chain of checks on the configuration, the route ids and the
 * mutation status.
 */
module Rendering {
  import opened Wrappers
  import opened Block
  import opened Completions

  const ERROR_TEXT: string := "Something went wrong"
  const LOADING_LABEL: string := "loading..."
  const DEFAULT_LABEL: string := "Submit"

  /** The input of the form: a text box when no autocomplete endpoint is configured, a select box otherwise. */
  datatype Control =
    | TextInput(value: string, disabled: bool)
    | Select(initialValue: string, loading: bool, options: seq<SelectOption>)

  datatype Button = Button(disabled: bool, caption: string)

  /** The rendered outcome; `Nothing` is the component returning `null`. */
  datatype View =
    | Nothing
    | Thanks(message: string)
    | Failed(message: string)
    | Form(heading: Option<string>, control: Control, button: Button)

  /** The submit button is disabled while the mutation is loading or while the input is empty. */
  function ButtonDisabled(status: Status, newId: string): bool {
    status == Loading || newId == ""
  }

  /**
   * The submit button's label: `loading...` while the mutation is loading,
   * otherwise the configured action label, or `Submit` when none is configured.
   */
  function ButtonLabel(status: Status, actionLabel: string): (r: string)
    ensures r != ""
    ensures status == Loading ==> r == LOADING_LABEL
    ensures status != Loading && actionLabel != "" ==> r == actionLabel
    ensures status != Loading && actionLabel == "" ==> r == DEFAULT_LABEL
  {
    if status == Loading then LOADING_LABEL
    else if actionLabel != "" then actionLabel
    else DEFAULT_LABEL
  }

  /**
   * The form's input: a select box over the query's options when an
   * autocomplete endpoint is configured, otherwise a text box holding the
   * current input and disabled while the mutation is loading.
   */
  function FormControl(props: Props, status: Status, newId: string, fetch: Fetch): (r: Control)
    ensures r.Select? <==> props.autocompleteEndpoint != ""
    ensures r.Select? ==>
      && r.initialValue == newId
      && r.loading == QueryLoading(props.autocompleteEndpoint, fetch)
      && r.options == ShownOptions(props.autocompleteEndpoint, fetch)
    ensures r.TextInput? ==> r.value == newId && r.disabled == (status == Loading)
  {
    if props.autocompleteEndpoint != "" then
      Select(newId, QueryLoading(props.autocompleteEndpoint, fetch), ShownOptions(props.autocompleteEndpoint, fetch))
    else
      TextInput(newId, status == Loading)
  }

  /**
   * The component's render, the first check that matches deciding: nothing
   * without a property or without both route ids, whatever the status; then
   * the thank-you text on success, the error text on failure, and the form
   * while the mutation is idle or loading.
   */
  function Render(props: Props, route: Route, status: Status, newId: string, fetch: Fetch): (r: View)
    ensures r == Nothing <==> props.property == "" || !HasIds(route)
    ensures r == Thanks(props.thanks) <==> props.property != "" && HasIds(route) && status == Success
    ensures r == Failed(ERROR_TEXT) <==> props.property != "" && HasIds(route) && status == Error
    ensures r.Form? <==> props.property != "" && HasIds(route) && (status == Idle || status == Loading)
  {
    if props.property == "" then Nothing
    else if !HasIds(route) then Nothing
    else if status == Success then Thanks(props.thanks)
    else if status == Error then Failed(ERROR_TEXT)
    else Form(
      if props.heading != "" then Some(props.heading) else None,
      FormControl(props, status, newId, fetch),
      Button(ButtonDisabled(status, newId), ButtonLabel(status, props.actionLabel)))
  }

  /**
   * While the mutation is loading, the form's button is disabled and reads
   * `loading...`, and a text input is disabled too.
   */
  lemma RenderFormWhileLoading(props: Props, route: Route, status: Status, newId: string, fetch: Fetch)
    ensures Render(props, route, status, newId, fetch).Form? && status == Loading ==>
      var v := Render(props, route, status, newId, fetch);
      && v.button == Button(true, LOADING_LABEL)
      && (v.control.TextInput? ==> v.control.disabled)
  {
  }

  /** The form's button is enabled exactly when nothing is loading and some input is given. */
  lemma RenderButtonEnabled(props: Props, route: Route, status: Status, newId: string, fetch: Fetch)
    requires Render(props, route, status, newId, fetch).Form?
    ensures !Render(props, route, status, newId, fetch).button.disabled <==> status == Idle && newId != ""
  {
  }

  /**
   * The input is a select box over the fetched completions when an
   * autocomplete endpoint is configured, and otherwise a text box holding the
   * current input.
   */
  lemma RenderControl(props: Props, route: Route, status: Status, newId: string, fetch: Fetch)
    requires Render(props, route, status, newId, fetch).Form?
    ensures var c := Render(props, route, status, newId, fetch).control;
      && (props.autocompleteEndpoint != "" <==> c.Select?)
      && (c.Select? && fetch.Fetched? ==> c.options == MapCompletions(fetch.completions))
      && (c.Select? && !fetch.Fetched? ==> c.options == [])
      && (c.TextInput? ==> c.value == newId)
  {
  }
}
