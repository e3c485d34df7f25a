# Registration form: validator and form state machine

A Dafny model of the account-registration form in `frontend/components/App.js`.
The form has four fields: username, favourite language, favourite food and a terms-agreement checkbox.
It validates each field as it changes against a fixed schema of rules with fixed messages.
It allows submission only while the whole form is valid.
It posts the values and then shows the server's success message or the request's error message.

- `wrappers.dfy`, module `Wrappers`: `Option`, used for the nullable `submitSuccess`/`submitError` and for the validator's "no error / message" answer.
- `text.dfy`, module `Text`: `Trim`. It keeps the slice of the string between the first and the last character that is not ECMAScript white space or a line terminator.
- `schema.dfy`, module `Schema`:
  - The message dictionary, the `FormValues` and `FieldErrors` records, and the initial values and errors.
  - The schema: each field is a tagged rule list (`Required`, `Min`, `Max`, `OneOf`, `IsTrue`) in declaration order. Only the username trims its value first.
  - `ValidateField` models ``yup.reach(schema, name).validate``. It returns the first failing rule's message; `FirstFailingRule` picks that rule.
  - `ValidateAll` models `schema.isValid`: every rule of every field holds.
- `form.dfy`, module `Form`:
  - The component's five state fields as a `FormState` value, with pure transitions:
    - `Changed`, for `onChange` followed by the values effect;
    - `Submitting`, for `onSubmit` up to the POST;
    - `Resolved`, for the POST's `then`/`catch`.
  - Class `App` holds the same five fields and updates them in place.
    - The handlers `OnChange`, `BeginSubmit` and `ResolveSubmit` are proved to produce exactly the state that `Changed`, `Submitting` and `Resolved` give.
    - The two inner steps are proved against field-level updates under narrow frames: `Validate` changes only `errors`, and `ValuesEffect` changes only `disabled`.
    - A ghost `history` records the handled events. `Valid()` states that the object's state is `Run` of that history from the initial state, and every handler keeps it. So what is proved about the transitions holds of the object (`App.ReachedStateCoherent`).
  - `Coherent` is the reachable-state invariant:
    - an enabled submit control implies a valid form;
    - every shown error is blank or is the current value's message.
  - `Run` folds a sequence of events over the transitions. `RunCoherent` proves the invariant holds after any sequence.

The values effect (`useEffect(..., [values])`) is modelled as a synchronous recomputation, `disabled := !ValidateAll(values)`.
It runs only after a step that assigns `values`: a field change or a successful submission.
A failed submission assigns no values, so `disabled` stays `true` after it, even for a valid form, until the next field change (`SubmitFailure`, `ChangeAfterFailureRederives`).

Facts about the code that the model reproduces:
- The `catch` branch of the POST (App.js:116-119) stores only the error message. It does not re-enable the submit control, even though the comment at App.js:101-105 says the form should be re-enabled.
- `onSubmit` (App.js:106-110) has no "already pending" guard. The only protection against a second submit is the `disabled` attribute, so `BeginSubmit` has no precondition on `disabled`.
- The agreement messages are swapped relative to their dictionary keys (App.js:58-59): `required` reports `agreementOptions`, and `isTrue` reports `agreementRequired`.
  The `required` rule therefore carries "agreement must be accepted", and the `isTrue` rule carries "agreement is required". The boolean field always has a value, so only the second message can appear (`AgreementMessages`).
- `favLanguage` and `favFood` are plain `yup.string()` fields (App.js:49, 53). Any string can reach the validator, and a value outside the options gets the "must be either" message.

## Model

| member | source | states |
|---|---|---|
| Text.Trim | frontend/components/App.js:44 | definition: the slice of the string from `TrimStart` to `TrimEnd`, the first and last non-white positions |
| Text.SkipLeading | frontend/components/App.js:44 | the position returned is the first non-white one from the start point on, or the end; everything skipped is white space |
| Text.SkipTrailing | frontend/components/App.js:44 | the end returned drops only white space, and the character before it, if any is kept, is not white space |
| Text.TrimIsMiddle | frontend/components/App.js:44 | trim keeps a contiguous slice, drops only white space on both sides, and the slice has no white space at either end |
| Text.TrimEmptyIff | frontend/components/App.js:44-45 | a string trims to empty exactly when every character is white space |
| Text.TrimKeepsClean | frontend/components/App.js:44 | a string with non-white ends is its own trim |
| Text.TrimIdempotent | frontend/components/App.js:44 | trimming twice equals trimming once |
| Schema.FormValues.Get | frontend/components/App.js:25-30 | the values record holds text for username, favLanguage and favFood and a boolean for agreement |
| Schema.FormValues.With | frontend/components/App.js:96 | setting one field gives it the new value and keeps every other field |
| Schema.FieldErrors.With | frontend/components/App.js:83-84 | setting one field's message gives it the new text and keeps every other field's message |
| Schema.Passes | frontend/components/App.js:45-59 | definition: what each rule tests. `required` fails only the empty string, since a boolean is always present; `min`/`max` bound the length; `oneOf` is membership in the options; `isTrue` accepts only `true` |
| Schema.SchemaOf | frontend/components/App.js:41-60 | definition: each field's rules in declaration order, with the dictionary's exact messages. Username trims, then is required, then at least 3, then at most 20; favLanguage is required, then one of javascript and rust; favFood is required, then one of broccoli, spaghetti and pizza; agreement is `required` with "agreement must be accepted", then `isTrue` with "agreement is required" |
| Schema.Cast | frontend/components/App.js:42-44 | definition: the value the rules see, trimmed for the username and unchanged for the other fields |
| Schema.FirstFailingRule | frontend/components/App.js:84 | the index returned is the first rule the value fails: all earlier rules pass, and the indexed rule fails; it is the rule count when all pass |
| Schema.ValidateField | frontend/components/App.js:80-85 | no error exactly when the field's every rule holds of its cast value; a reported message is never empty |
| Schema.ValidateAll | frontend/components/App.js:77 | the whole-form check holds exactly when no single-field check reports an error |
| Schema.UsernameMessages | frontend/components/App.js:42-47 | after trimming: empty gives "username is required"; shorter than 3 gives the min message; longer than 20 gives the max message; otherwise no error |
| Schema.UsernameRequiredIffBlank | frontend/components/App.js:44-45 | the required message is reported exactly for an all-white-space username |
| Schema.FavLanguageMessages | frontend/components/App.js:48-51 | empty gives "favLanguage is required"; a non-empty value other than javascript or rust gives "favLanguage must be either javascript or rust"; javascript and rust give no error |
| Schema.FavFoodMessages | frontend/components/App.js:52-55 | empty gives "favFood is required"; a non-empty value other than broccoli, spaghetti or pizza gives the options message; those three give no error |
| Schema.OneOfMessages | frontend/components/App.js:48-55 | a required-then-oneOf field reports the required message for "", the options message outside the options, and nothing for an option |
| Schema.AgreementMessages | frontend/components/App.js:56-59 | false gives "agreement is required"; true gives no error; "agreement must be accepted" is never reported for a boolean |
| Schema.ValidateAllExactly | frontend/components/App.js:41-60 | the form is valid exactly when the trimmed username has 3 to 20 characters, the language is javascript or rust, the food is broccoli, spaghetti or pizza, and agreement is true |
| Schema.InitialValuesInvalid | frontend/components/App.js:25-30 | the initial values fail the whole-form check |
| Schema.ShortUsernameForm | frontend/components/App.js:42-47 | username "ab" gives the min-length message, and the form with it is invalid |
| Schema.ValidForm | frontend/components/App.js:41-60 | username "abc", language rust, food pizza and agreement true form a valid form |
| Form.ValueToSet | frontend/components/App.js:91-92 | definition: `checked` for an input whose type is "checkbox", `value` otherwise |
| Form.AfterValuesEffect | frontend/components/App.js:76-78 | definition: `disabled` becomes the negation of the whole-form check on the current values; nothing else changes |
| Form.Changed | frontend/components/App.js:87-97 | definition: the field's error becomes its value's check, the field's value becomes the new value, then the values effect runs |
| Form.Submitting | frontend/components/App.js:106-109 | definition: `disabled` becomes true and both submission messages become absent |
| Form.Resolved | frontend/components/App.js:111-119 | definition: on success, store the message, reset values and errors, then run the values effect; on failure, store the error's message only |
| Form.Run | frontend/components/App.js:87-119 | definition: the state after applying a sequence of change, submit and reply events in order |
| Form.RunSnoc | frontend/components/App.js:87-119 | running one more event is one more step after the run, and the longer sequence stays well formed |
| Form.RunExtended | frontend/components/App.js:87-119 | a state equal to the run of a well-formed history, stepped by one more fitting event, is the run of the extended history, which stays well formed |
| Form.App.ReachedStateCoherent | frontend/components/App.js:67-120 | every state the object reaches through its handlers is coherent |
| Form.App.constructor | frontend/components/App.js:67-71 | the component starts with the initial values and blank errors, disabled, with no submission messages and an empty history |
| Form.App.ValuesEffect | frontend/components/App.js:76-78 | disabled becomes the negation of the whole-form check on the current values |
| Form.App.Validate | frontend/components/App.js:80-85 | only the named field's error changes, to the first failing message or blank |
| Form.App.OnChange | frontend/components/App.js:87-97 | the new state is `Changed` of the old: the field's value and its check are stored, then disabled is re-derived; the change is appended to the history |
| Form.App.BeginSubmit | frontend/components/App.js:106-110 | returns the current values as the POST body; disabled becomes true; both submission messages are cleared; nothing else changes; the submit is appended to the history |
| Form.App.ResolveSubmit | frontend/components/App.js:111-119 | the new state is `Resolved` of the old: on success the message is stored, values and errors reset and disabled re-derived; on failure only the error message is stored; the reply is appended to the history |
| Form.InitialCoherent | frontend/components/App.js:67-71 | the initial state is coherent, disabled, and its values are invalid |
| Form.MountEffectKeepsInitial | frontend/components/App.js:76-78 | running the values effect on the initial state changes nothing |
| Form.ChangeUpdatesOneField | frontend/components/App.js:87-97 | a change stores checked for a checkbox and value otherwise; it stores that value's message in the field's error; it keeps every other value, every other error and both submission messages; afterwards disabled equals the form's invalidity |
| Form.ChangeIdempotent | frontend/components/App.js:87-97 | repeating the same change event yields the same state |
| Form.ChangedCoherent | frontend/components/App.js:87-97 | a change keeps the invariant |
| Form.SubmittingCoherent | frontend/components/App.js:106-109 | beginning a submission keeps the invariant |
| Form.ResolvedCoherent | frontend/components/App.js:111-119 | resolving a submission either way keeps the invariant |
| Form.StepCoherent | frontend/components/App.js:87-119 | every event keeps the invariant |
| Form.RunCoherent | frontend/components/App.js:76-119 | any well-formed event sequence keeps the invariant |
| Form.ReachableSubmitOnlyWhenValid | frontend/components/App.js:67-120 | in every state reachable from the initial one, an enabled submit control implies a valid form |
| Form.EnabledShowsNoErrors | frontend/components/App.js:76-85 | in a coherent state with submission enabled, every field's error is blank |
| Form.SubmitSuccess | frontend/components/App.js:106-115 | submit then success: success message set, error cleared, values and errors reset, disabled true |
| Form.SubmitFailure | frontend/components/App.js:106-119 | submit then failure: error message set, success cleared, values and errors kept, disabled stays true |
| Form.ChangeAfterFailureRederives | frontend/components/App.js:76-119 | after a failure, the next change re-derives disabled from the values and keeps the error message |
| Form.ResolvedBanners | frontend/components/App.js:126-127 | after a submission resolves, the success banner shows exactly for a non-empty success message and the error banner exactly for a non-empty failure message |

## Left out

- The POST is network I/O. Its target URL and the axios client are not modelled. The reply is the `PostOutcome` parameter of `ResolveSubmit`, and `BeginSubmit` returns the body that would be posted.
- Promise asynchrony and React's batching of state updates are not modelled. Each handler is one atomic step. So are the asynchronous `isValid` in the effect and the stale `errors` captured by `validate`'s callbacks.
- yup's internals are not modelled: type coercion, `reach`, and strict or transform modes. Only the schema's rule list is encoded.
- Field names are the four the markup emits, so `reach` of an unknown name, which throws, is not modelled.
- A change event's kind must fit its field (`WellFormed`): the agreement checkbox is the only checkbox. yup's casting of text into the boolean field, or of a boolean into a text field, is not modelled.
- Characters are Unicode code points. JavaScript's UTF-16 code-unit length is not modelled, so `Min` and `Max` count code points. Space separators are those of the current Unicode category Zs.
- A success reply whose payload has no `message` would store `undefined`. Here the message is always a string.
- The JSX markup, banner texts, `console.error` and `evt.preventDefault()` are rendering, logging and browser plumbing. Only the banners' show condition is modelled (`ShowsSuccessBanner`, `ShowsErrorBanner`).
- A submit-state enumeration (idle, pending, succeeded, failed) does not exist in the code. The model keeps the code's five fields instead.
