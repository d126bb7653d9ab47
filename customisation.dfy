/**
 * The state the block keeps between renders: the input text `newId` and the
 * status of the change-request mutation, updated by the input's change
 * handlers, the submit button and the host's answer.
 */
module Customisation {
  import opened Wrappers
  import opened Block
  import opened Completions
  import opened ChangeRequest
  import opened Rendering

  class AutocompleteCustomisation {
    const props: Props
    const route: Route

    /** The text the user typed or the value of the option they chose. */
    var newId: string

    /** The mutation's status. */
    var status: Status

    /** A request has been handed to the host API and its answer is outstanding. */
    var awaiting: bool

    /** Every request handed to `api.createDelegatedRequest`, in order. */
    var sent: seq<Request>

    /**
     * Only a loading mutation awaits an answer; an idle block has sent
     * nothing; requests go out only when both route ids are present, and at
     * most one ever does.
     */
    ghost predicate Valid()
      reads this
    {
      && (awaiting ==> status == Loading && |sent| > 0)
      && (status == Idle ==> sent == [] && !awaiting)
      && (|sent| > 0 ==> HasIds(route))
      && |sent| <= 1
    }

    /** The mutation has settled; no action of the block leaves this state. */
    predicate Settled()
      reads this
    {
      status == Success || status == Error
    }

    /** The block as first rendered: empty input, idle mutation, nothing sent. */
    constructor (props: Props, route: Route)
      ensures Valid()
      ensures this.props == props && this.route == route
      ensures newId == "" && status == Idle && !awaiting && sent == []
    {
      this.props := props;
      this.route := route;
      newId := "";
      status := Idle;
      awaiting := false;
      sent := [];
    }

    /** What the block shows now, given where the completions fetch stands. */
    function CurrentView(fetch: Fetch): View
      reads this
    {
      Render(props, route, status, newId, fetch)
    }

    /** The text input's `onChange`; the input is disabled while the mutation is loading. */
    method EditText(text: string)
      requires Valid()
      requires status != Loading
      modifies this`newId
      ensures Valid()
      ensures newId == text
    {
      newId := text;
    }

    /** The select box's `onOptionChange`: the chosen option's value, or the empty text when the choice is cleared. */
    method ChooseOption(choice: Option<SelectOption>)
      requires Valid()
      modifies this`newId
      ensures Valid()
      ensures newId == (if choice.Some? then choice.value.value else "")
    {
      newId := if choice.Some? then choice.value.value else "";
    }

    /**
     * The submit button's click. The button is on screen only in the form of
     * a configured block whose mutation has not settled, and enabled only
     * while nothing is loading and the input is non-empty; so the mutation is
     * idle. It starts loading and hands the request built from the input to
     * the host API, or hands over nothing when a route id is missing.
     */
    method Submit()
      requires Valid()
      requires props.property != "" && status == Idle
      requires !ButtonDisabled(status, newId)
      modifies this`status, this`awaiting, this`sent
      ensures Valid()
      ensures status == Loading
      ensures Build(props, route, newId).Some? ==>
        sent == old(sent) + [Build(props, route, newId).value] && awaiting
      ensures Build(props, route, newId).None? ==> sent == old(sent) && !awaiting
    {
      status := Loading;
      match Build(props, route, newId)
      case Some(request) =>
        sent := sent + [request];
        awaiting := true;
      case None =>
        awaiting := false;
    }

    /**
     * The mutation settles: it fails only when the host API rejected the
     * request it was handed; with nothing handed over it succeeds.
     */
    method Resolve(hostSucceeded: bool)
      requires Valid()
      requires status == Loading
      modifies this`status, this`awaiting
      ensures Valid() && Settled()
      ensures status == (if old(awaiting) && !hostSucceeded then Error else Success)
      ensures !awaiting
    {
      status := if awaiting && !hostSucceeded then Error else Success;
      awaiting := false;
    }
  }

  /**
   * One submission from a freshly rendered, configured block: type the input,
   * press submit, let the host answer. The status goes idle, loading, then
   * success or error, and the block has settled, so it cannot submit again.
   * The host API is called exactly once, with the request for that input,
   * when both route ids are present, and never otherwise; the mutation ends
   * in error only when the host rejected the request.
   */
  method SubmitOnce(props: Props, route: Route, input: string, hostSucceeded: bool)
    returns (sent: seq<Request>, statuses: seq<Status>)
    requires props.property != "" && input != ""
    ensures HasIds(route) ==> |sent| == 1 && sent[0] == Build(props, route, input).value
    ensures !HasIds(route) ==> sent == []
    ensures statuses == [Idle, Loading, if HasIds(route) && !hostSucceeded then Error else Success]
  {
    var block := new AutocompleteCustomisation(props, route);
    block.EditText(input);
    statuses := [block.status];
    block.Submit();
    statuses := statuses + [block.status];
    block.Resolve(hostSucceeded);
    statuses := statuses + [block.status];
    sent := block.sent;
  }
}
