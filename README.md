# AutocompleteCustomisation, modelled in Dafny

The `AutocompleteCustomisation` block of the Muya Madoc plugin lets a user ask
for a change to the `dataSource` of one property of a project's capture
model. The user types a value, or picks one from a list fetched from an
autocomplete endpoint. Submitting builds an `update-model-config` delegated
request and hands it to the host's API. The block then shows a thank-you text
or an error text, depending on how the request went.

This project models the decision and data logic of that block:

- `Template`: the submitted value. With no pattern it is the raw input.
  Otherwise the pattern's first `$id` is replaced as JavaScript's
  `String.prototype.replace` does it for `/\$id/`. Every later `$id` is kept.
  The replacement string's own `$$`, `$&`, `` $` `` and `$'` sequences are
  expanded as JavaScript expands them, so an input without `$` is spliced in
  verbatim.
- `Interpolation`: the text a template literal inserts for the default
  summary's values. Integer ids are written in decimal. A missing user is
  written `undefined`.
- `ChangeRequest`: the request payload, the summary fallback, and the guard
  that sends nothing unless both route ids are present.
- `Completions`: the mapping of `{label, uri}` completions to `{label, value}`
  options, and the options the select box shows before and after the fetch.
- `Rendering`: the ordered chain of checks that picks what is shown (nothing,
  thanks, error, the form, the form while loading), and the submit button's
  enabledness and label.
- `Customisation`: the block's two state cells, `newId` and the mutation
  status, as a class. Its actions are editing the text, choosing an option,
  submitting and resolving. Each request handed to the host API is appended
  to a log.
- `Block`, `Wrappers`: the configured props, the route context, the status
  type, and an Option type.

Modelling choices:

- The host's route-context types are not part of this model. A route id is
  missing, a number or a string. Whether it counts as present follows
  JavaScript truthiness: `undefined`, `0` and `''` are falsy.
- Optional props (`actionLabel`, `autocompleteEndpoint`) are only ever tested
  for truthiness. So an absent one is the empty string here.
- react-query's mutation is a status field. `Submit` moves it to `Loading`.
  `Resolve` settles it with the host's answer, which is a parameter. When a
  route id is missing, the mutation function returns without calling the
  host, so the mutation succeeds. `Resolve` models this too.
- The completions fetch is a `Fetch` value: in flight, fetched with its parsed
  completions, or failed.

The pattern's editor description (line 162) says the pattern "will replace
`$id` with whatever the user inputs". The model follows the code at line 63
instead: only the first `$id` is replaced, and JavaScript's `$` sequences in
the input are expanded (`ValueReplacesFirstToken`). The two agree for an input
without `$` (`ValueSplicesPlainInput`).

`Template.Escape` is not something the block computes. It doubles every `$`
of a text, which is what a caller of `replace` would have to do to get a text
inserted literally. `Template.ExpandEscape` proves that `Expand` undoes it.
This pins down the modelled `$$` rule as a round trip.

`Submit` may be called only where the source's button can be clicked: in the
form of a block with a configured property whose mutation is idle, with a
non-empty input. It does not also require both route ids. The mutation
function checks them itself (line 52), and the model keeps that check.

## Model

| member | source | states |
|---|---|---|
| `Block.HasIds` | src/blocks/AutocompleteCusomisation.tsx:52 | both route ids are present by JavaScript truthiness, the condition checked at lines 52 and 99 |
| `Template.FindFrom` | src/blocks/AutocompleteCusomisation.tsx:63 | the index found is where the leftmost `$id` at or after the start index begins; None means there is no `$id` from there on |
| `Template.FindFirst` | src/blocks/AutocompleteCusomisation.tsx:63 | the `$id` the non-global regular expression matches is the leftmost one; None exactly when the pattern has no `$id` |
| `Template.Expand` | src/blocks/AutocompleteCusomisation.tsx:63 | JavaScript's expansion of the replacement string: `$$`, `$&`, `` $` `` and `$'` are special, every other `$` is literal; a string without `$` is inserted verbatim |
| `Template.ExpandEscape` | src/blocks/AutocompleteCusomisation.tsx:63 | `replace` turns a text with every `$` doubled back into that text, whatever surrounds the match |
| `Template.ReplaceFirst` | src/blocks/AutocompleteCusomisation.tsx:63 | without `$id` the pattern is returned unchanged; otherwise the text before and after the first `$id` is kept and only that `$id` is replaced by the expanded input |
| `Template.Value` | src/blocks/AutocompleteCusomisation.tsx:63 | the raw input with an empty pattern, the pattern itself when it has no `$id`, and otherwise a value keeping the pattern's text around its first `$id` |
| `Template.ValueWithoutPattern` | src/blocks/AutocompleteCusomisation.tsx:63 | with an empty pattern the submitted value is the raw input |
| `Template.ValueWithoutToken` | src/blocks/AutocompleteCusomisation.tsx:63 | a non-empty pattern without `$id` is submitted unchanged |
| `Template.ValueReplacesFirstToken` | src/blocks/AutocompleteCusomisation.tsx:63 | only the first `$id` is replaced; the text before it and everything after it, later `$id`s included, is kept verbatim |
| `Template.ValueSplicesPlainInput` | src/blocks/AutocompleteCusomisation.tsx:162 | an input without `$` takes the place of the first `$id`, as the pattern's editor description promises |
| `Template.ValueCases` | src/blocks/AutocompleteCusomisation.tsx:63 | every non-empty pattern either has no `$id` and is kept, or splits around its first `$id`, which is replaced |
| `Interpolation.NatText` | src/blocks/AutocompleteCusomisation.tsx:57 | a number's text is a non-empty string of decimal digits without leading zeros |
| `Interpolation.NatTextRoundTrip` | src/blocks/AutocompleteCusomisation.tsx:57 | reading back the decimal text of a natural number gives the number |
| `Interpolation.IntTextRoundTrip` | src/blocks/AutocompleteCusomisation.tsx:57 | reading back the text of an integer id gives the id, so distinct numeric ids never render alike |
| `Interpolation.IdText` | src/blocks/AutocompleteCusomisation.tsx:57 | a present id inserts a non-empty text; a numeric id inserts text that reads back as the id, a string id inserts itself |
| `Interpolation.NameText` | src/blocks/AutocompleteCusomisation.tsx:57 | `user?.name` inserts the user's name, or `undefined` without a user |
| `ChangeRequest.DefaultSummary` | src/blocks/AutocompleteCusomisation.tsx:57 | the default sentence starts with `User ` and ends with `)` |
| `ChangeRequest.DefaultSummaryMentions` | src/blocks/AutocompleteCusomisation.tsx:57 | the default sentence names the user, the manifest id and the project id |
| `ChangeRequest.Summary` | src/blocks/AutocompleteCusomisation.tsx:55-57 | the summary is never empty, and it is the admin message whenever one is configured |
| `ChangeRequest.SummaryFallback` | src/blocks/AutocompleteCusomisation.tsx:55-57 | the summary is the admin message when one is configured, otherwise the default sentence with user, manifest and project; it is never empty |
| `ChangeRequest.Build` | src/blocks/AutocompleteCusomisation.tsx:52-75 | a request is built exactly when both route ids are present |
| `ChangeRequest.BuildShape` | src/blocks/AutocompleteCusomisation.tsx:53-72 | every request is `update-model-config` with empty params, exactly one `dataSource` change of the configured property to the templated input, and the route's ids as its query |
| `Completions.MapCompletions` | src/blocks/AutocompleteCusomisation.tsx:85-88 | the mapping keeps length and order, and maps `label` to `label` and `uri` to `value` element by element |
| `Completions.MapCompletionsAppend` | src/blocks/AutocompleteCusomisation.tsx:85-88 | mapping a concatenation is the concatenation of the mappings |
| `Completions.QueryData` | src/blocks/AutocompleteCusomisation.tsx:78-93 | the query has data exactly when an endpoint is configured and the fetch came back, and that data is the mapped completions |
| `Completions.QueryLoading` | src/blocks/AutocompleteCusomisation.tsx:120 | the select box is loading only when an endpoint is configured and the query has no data yet |
| `Completions.ShownOptions` | src/blocks/AutocompleteCusomisation.tsx:121 | the select box shows the mapped completions once fetched, and the empty list otherwise |
| `Rendering.ButtonDisabled` | src/blocks/AutocompleteCusomisation.tsx:138 | the button is disabled while the mutation is loading or while the input is empty |
| `Rendering.ButtonLabel` | src/blocks/AutocompleteCusomisation.tsx:139 | the label is `loading...` while loading, otherwise the action label if non-empty, else `Submit`; it is never empty |
| `Rendering.FormControl` | src/blocks/AutocompleteCusomisation.tsx:115-137 | a select box starting at the input, with the query's loading flag and options, when an endpoint is configured; otherwise a text box holding the input, disabled exactly while loading |
| `Rendering.Render` | src/blocks/AutocompleteCusomisation.tsx:95-143 | first match wins: nothing exactly when the property or a route id is missing, whatever the status; else the thanks text exactly on success, the error text exactly on failure, and the form exactly while idle or loading |
| `Rendering.RenderFormWhileLoading` | src/blocks/AutocompleteCusomisation.tsx:132-139 | while loading, the form's button is disabled with `loading...` and the text input is disabled |
| `Rendering.RenderButtonEnabled` | src/blocks/AutocompleteCusomisation.tsx:138 | the shown button is enabled exactly when the mutation is idle and the input is non-empty |
| `Rendering.RenderControl` | src/blocks/AutocompleteCusomisation.tsx:115-137 | the form shows a select box over the fetched completions when an endpoint is configured, otherwise a text box holding the input |
| `Customisation.AutocompleteCustomisation.constructor` | src/blocks/AutocompleteCusomisation.tsx:49-51 | the block starts with empty input, an idle mutation and nothing sent |
| `Customisation.AutocompleteCustomisation.EditText` | src/blocks/AutocompleteCusomisation.tsx:131-136 | typing, allowed only while the input is enabled (not loading), sets the input and nothing else |
| `Customisation.AutocompleteCustomisation.ChooseOption` | src/blocks/AutocompleteCusomisation.tsx:125-127 | choosing sets the input to the option's value, clearing sets it to the empty text |
| `Customisation.AutocompleteCustomisation.Submit` | src/blocks/AutocompleteCusomisation.tsx:138 | allowed only when the button is on screen and enabled (configured property, idle mutation, non-empty input); the mutation starts loading and the log grows by the built request, or by nothing when a route id is missing; at most one request is ever sent |
| `Customisation.AutocompleteCustomisation.Resolve` | src/blocks/AutocompleteCusomisation.tsx:51-76 | the mutation settles, in error only when the host rejected a request it was handed, and in success otherwise |
| `Customisation.SubmitOnce` | src/blocks/AutocompleteCusomisation.tsx:51-76 | one submission from a configured block goes idle, loading, then success or error; it calls the host API exactly once with the request for the input when both ids are present, and never otherwise |

## Left out

- Rendering details: the JSX markup, the styled components (lines 14-27), the
  heading element, and the select box's label and option renderers. `View`
  keeps only what is shown and the state of its controls.
- The `fetch` of the autocomplete endpoint and its JSON parsing (lines 82-83)
  are network I/O. The parsed completions are an input. A completion missing
  its `label` or `uri` is not modelled.
- react-query's caching, query keys, retries and the timing of its status
  updates (lines 51, 78-93). The status is a field driven by explicit actions.
- The host hooks `useApi`, `useUser` and `useRouteContext`, and the call
  `api.createDelegatedRequest` (lines 46-48, 74). These are host code. Their
  values are parameters, and the call is a log of the requests handed over.
- `blockConfigFor` and its default props (lines 146-186). This is static
  registration metadata with no behaviour.
- `Interpolation.IntText`: does not model JavaScript's exponent form for
  numbers of 1e21 and above, or non-integer ids. Numeric route ids are integers
  here.
