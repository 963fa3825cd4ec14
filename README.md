# wpsp-validation, modelled in Dafny

This package brings a web framework's request-validation conventions to a
WordPress plugin. The rule engine underneath is a third-party validation
library. The package itself is glue around that engine, and this project
models the four pieces of that glue that have behaviour of their own:

- **`FormRequest`** (`form_request.dfy`, module `FormRequests`): a request
  object. It holds its input as the field `data` and its validated data as
  the cache `validatedData`. `merge`, `replace`, `only`, `except`, `has`,
  `filled`, `missing`, `input` and `all` work on the input. `validate` is
  guarded by the subclass's `authorize()`. `validated` and `safe` fill the
  cache when it is empty.
- **`ValidatesRequestTrait`** (`validates_request.dfy`, module
  `ValidatesRequest`): a mixin for HTTP requests. `all()` merges the query,
  body and file bags, and then the REST parameters when the request has
  `get_params()`. `only`/`except` are taken from `all()`. `passes`, `fails`,
  `errors` and `validated` are defined by whether one validation call throws.
- **`Validation`** (`validation.dfy`, module `ValidationFacade`): the facade
  class. It builds the engine's translator and rule factory lazily, resets
  them when the language paths change, and attaches a database presence
  verifier when an Eloquent capsule is available.
- **`ValidatesAttributesTrait`** (`validates_attributes.dfy`, module
  `ValidatesAttributes`): a model mixin. It stores rules, messages and custom
  attribute names, validates the model's attributes with them, and runs that
  validation from the model's saving hook.

Shared definitions:

- `php_arrays.dfy` (module `PhpArrays`) models PHP values and string-keyed
  arrays as `map<string, Value>`. It defines `isset`, `??` and `empty()`,
  plus `array_merge` (binary and variadic), `array_intersect_key` and
  `array_diff_key` over `array_flip`.
- `outcomes.dfy` (module `Outcomes`) models the exceptions. A validation
  call yields `Ok(data)` or `Err(failure)`. The failure is one of:
  - `ValidationFailed(errors)`: a `ValidationException`;
  - `GenericException(message)`: a plain `\Exception`;
  - `CallOnNull(member)`: the PHP `Error` raised by a method call on null.

The engine is never modelled. `Validation` has a constant `engine`, an
arbitrary function from a factory token and the four arrays (data, rules,
messages, attributes) to a result: the validated data, a
`ValidationException`, or any other exception the engine throws (for
example a `RuntimeException` when an `exists` rule meets a factory without
a presence verifier). The traits' call `Validation::validate(...)` is
modelled twice: as written (see "## Findings") and as the validation
service it evidently means, an arbitrary function parameter of type
`ValidateFn`. `FormRequest::$validation` is null by default and assigned
outside `FormRequest.php`, so it is a constructor parameter of type
`Option<Validation>`.
Translator, factory, presence verifier, capsule and database manager are
value tokens that record how they were configured (paths, locale, verifier).
The host's `get_locale()` is a parameter: `None` means the function does not
exist, and then the locale is `"en"`. Superglobals, request bags and
`getAttributes()` are parameters too.

Behaviour the proofs make explicit:

- `Validation.validate` works only after `initFactory` has run. No path in
  `Validation` calls `initFactory` by itself, so before that `make` is a
  call on null, which the model returns as `Err(CallOnNull("make"))`.
- `FormRequest::validated` re-validates whenever the cache is *empty*. A
  validation that passes with empty validated data is therefore redone on
  every call. Once the cache is non-empty it is never refreshed, even after
  `merge` or `replace`.
- `setEloquentForPresenceVerifier(null)` keeps the presence verifier that an
  existing factory already has. The invariant `PresenceCurrent` promises
  only what the code keeps: whenever a factory and a capsule both exist,
  the factory verifies against that capsule's database.
- Both traits call `Validation::validate(...)` statically, but that method is
  an instance method. In PHP 8 that call raises an `Error`, so as written
  `passes`, `fails`, `errors`, `validated` and a model's saving hook never
  decide anything. "## Findings" records this. The rest of the model follows
  the evident intent: the call goes to a validation service, a parameter of
  the model.

## Model

| member | source | states |
|---|---|---|
| `PhpArrays.Merge` | src/FormRequest.php:114 | array_merge on string keys: the keys of both arrays; on a shared key the later array's value, elsewhere the earlier array's |
| `PhpArrays.MergeAllKeys` | src/Traits/ValidatesRequestTrait.php:77-81 | variadic array_merge: a key is present exactly when some argument has it (induction) |
| `PhpArrays.MergeAllLastWins` | src/Traits/ValidatesRequestTrait.php:77-86 | in a variadic array_merge a key's value is the one in the last argument that has it (induction) |
| `PhpArrays.IntersectKeys` | src/FormRequest.php:93-95 | array_intersect_key with array_flip: domain is the array's keys intersected with the listed keys; values unchanged |
| `PhpArrays.DiffKeys` | src/FormRequest.php:97-99 | array_diff_key with array_flip: domain is the array's keys minus the listed keys; values unchanged |
| `PhpArrays.OnlyExceptPartition` | src/FormRequest.php:93-99 | the only-part and the except-part share no key, and merged they give back the array |
| `ValidationFacade.EffectivePaths` | src/Validation.php:27-30 | a new translator loads the custom paths when there are any, else the default lang directory; never no directory |
| `ValidationFacade.Validation.constructor` | src/Validation.php:20-23 | a new facade has no factory, translator or Eloquent, no custom paths, and satisfies the invariant |
| `ValidationFacade.Validation.SetupTranslator` | src/Validation.php:25-39 | an existing translator is kept; otherwise one is built from the effective paths and the host locale (or "en") |
| `ValidationFacade.Validation.SetupPresenceVerifier` | src/Validation.php:41-47 | the factory gets a presence verifier for the capsule's database exactly when Eloquent and its capsule are present; otherwise nothing changes |
| `ValidationFacade.Validation.SetLangPaths` | src/Validation.php:53-59 | stores the (array)-cast paths and clears both translator and factory |
| `ValidationFacade.Validation.SetEloquentForPresenceVerifier` | src/Validation.php:61-70 | stores the Eloquent wrapper; never creates or clears factory or translator; an existing factory gets the new capsule's verifier only when it has a capsule |
| `ValidationFacade.Validation.InitFactory` | src/Validation.php:76-87 | idempotent once a factory exists; afterwards factory and translator exist, the factory is built on the translator, with a presence verifier exactly when a capsule is present; the invariant is kept |
| `ValidationFacade.Validation.Make` | src/Validation.php:89-91 | fails with a call on null exactly when there is no factory; otherwise a validator for the current factory and exactly the given arguments |
| `ValidationFacade.Validation.Validate` | src/Validation.php:105-108 | validate is running the validator make builds: the null-call error without a factory, else exactly the engine's result (data or any exception) for these arguments under the current factory |
| `ValidationFacade.ValidateAfterInit` | src/Validation.php:76-108 | under the invariant and with a factory, validate is the engine's result under a factory whose translator loads the current paths and whose presence verifier is the current capsule's when there is one |
| `ValidatesRequest.All` | src/Traits/ValidatesRequestTrait.php:76-89 | the two-step merge (bags, then REST params) equals one merge of all sources in order |
| `ValidatesRequest.AllKeys` | src/Traits/ValidatesRequestTrait.php:76-89 | a key is in all() exactly when the query, body, files or REST params have it |
| `ValidatesRequest.AllParamsWin` | src/Traits/ValidatesRequestTrait.php:84-86 | a REST parameter overrides every bag |
| `PhpArrays.LatestSourceWins` | src/Traits/ValidatesRequestTrait.php:77-86 | of three (or four, the fourth lacking the key) merged arrays the latest one holding the key supplies its value |
| `PhpArrays.MergeThreePrecedence` | src/FormRequest.php:27-31 | in a merge of three arrays, for every key, the third beats the second, which beats the first |
| `ValidatesRequest.AllPrecedence` | src/Traits/ValidatesRequestTrait.php:77-81 | without a REST parameter of that name, files beat body and body beats query |
| `ValidatesRequest.Only` | src/Traits/ValidatesRequestTrait.php:97-100 | only() is all() restricted to the listed keys |
| `ValidatesRequest.Except` | src/Traits/ValidatesRequestTrait.php:108-111 | except() is all() without the listed keys |
| `ValidatesRequest.OnlyExceptSplitAll` | src/Traits/ValidatesRequestTrait.php:97-111 | only() and except() with the same keys are disjoint and together give all() |
| `ValidatesRequest.Validate` | src/Traits/ValidatesRequestTrait.php:19-23 | validate() validates the merge of all sources with the given rules, messages and attributes |
| `ValidatesRequest.ValidateOnly` | src/Traits/ValidatesRequestTrait.php:65-69 | validateOnly() validates exactly the listed keys of the merged input |
| `ValidatesRequest.Validated` | src/Traits/ValidatesRequestTrait.php:47-53 | null exactly when validation throws a ValidationException; the validated data exactly when it succeeds; other exceptions pass through |
| `ValidatesRequest.Passes` | src/Traits/ValidatesRequestTrait.php:121-128 | true exactly when validate() throws nothing, false exactly when it throws a ValidationException |
| `ValidatesRequest.Fails` | src/Traits/ValidatesRequestTrait.php:138-140 | fails() is the negation of passes(), and raises whatever passes() raises |
| `ValidatesRequest.Errors` | src/Traits/ValidatesRequestTrait.php:150-157 | the empty array when validation passes, the exception's error bag when it fails; it raises exactly when validation raises something other than a ValidationException, and then that exception |
| `ValidatesRequest.ErrorsEmptyIffPasses` | src/Traits/ValidatesRequestTrait.php:121-157 | when failures carry at least one message, errors() is empty exactly when passes() is true |
| `ValidatesRequest.ValidatedNullIffFails` | src/Traits/ValidatesRequestTrait.php:47-53 | validated() is null exactly when fails() is true |
| `ValidatesRequest.AsWrittenStaticCallRaises` | src/Traits/ValidatesRequestTrait.php:19-23 | with the static call as written, validate, validateOnly, passes, fails, errors and validated all raise the non-static-call Error |
| `ValidatesAttributes.ValidatingModel.constructor` | src/Traits/ValidatesAttributesTrait.php:14-28 | rules, messages and custom attributes start empty |
| `ValidatesAttributes.ValidatingModel.ValidateAttributes` | src/Traits/ValidatesAttributesTrait.php:37-48 | the data itself when there are no rules; otherwise the validation of the data with exactly the stored rules, messages and custom attributes |
| `ValidatesAttributes.ValidatingModel.GetValidationRules` | src/Traits/ValidatesAttributesTrait.php:55-57 | returns the stored rules |
| `ValidatesAttributes.ValidatingModel.SetValidationRules` | src/Traits/ValidatesAttributesTrait.php:65-68 | the getter then returns the new rules; messages and custom attributes unchanged; returns the receiver |
| `ValidatesAttributes.ValidatingModel.GetValidationMessages` | src/Traits/ValidatesAttributesTrait.php:75-77 | returns the stored messages |
| `ValidatesAttributes.ValidatingModel.SetValidationMessages` | src/Traits/ValidatesAttributesTrait.php:85-88 | the getter then returns the new messages; rules and custom attributes unchanged; returns the receiver |
| `ValidatesAttributes.ValidatingModel.Saving` | src/Traits/ValidatesAttributesTrait.php:93-99 | never fails without rules; otherwise aborts the save exactly when validateAttributes throws, with that exception |
| `ValidatesAttributes.AsWrittenSavingRaises` | src/Traits/ValidatesAttributesTrait.php:37-48 | with the static call as written and some rules, validateAttributes and the saving hook raise the non-static-call Error |
| `FormRequests.CollectData` | src/FormRequest.php:26-32 | the merged input has exactly the keys of GET, POST and FILES, a missing superglobal counting as empty; on a shared key FILES beats POST, which beats GET |
| `FormRequests.Select` | src/FormRequest.php:74-78 | the whole cache for a null key, else the cached value when set and not null, else the default |
| `FormRequests.FormRequest.constructor` | src/FormRequest.php:12-14 | input and cache start empty; the facade (possibly null) and the subclass's rules, messages, attributes and authorization are fixed |
| `FormRequests.FormRequest.Attempt` | src/FormRequest.php:54-64 | the unauthorized exception without authorization, else the null-call Error when there is no facade, else the facade's validation of the input with the subclass's rules, messages and attributes |
| `FormRequests.FormRequest.Validate` | src/FormRequest.php:54-67 | returns the attempt; caches its data on success; leaves the cache unchanged on any failure, in particular when unauthorized |
| `FormRequests.FormRequest.Validated` | src/FormRequest.php:69-79 | a non-empty cache is read without re-validating; an empty one is first filled by validate, whose failure is propagated with the cache unchanged |
| `FormRequests.FormRequest.Safe` | src/FormRequest.php:81-83 | the cache when non-empty, else the outcome of validating; a success is what the cache holds afterwards, a failure leaves the cache unchanged |
| `FormRequests.FormRequest.Input` | src/FormRequest.php:85-87 | the input's value when present and not null, else the default; reads only |
| `FormRequests.FormRequest.All` | src/FormRequest.php:89-91 | the input as stored; merge and replace state their effect through it |
| `FormRequests.FormRequest.Only` | src/FormRequest.php:93-95 | domain is the input's keys intersected with the listed keys, values unchanged |
| `FormRequests.FormRequest.Except` | src/FormRequest.php:97-99 | domain is the input's keys minus the listed keys, values unchanged |
| `FormRequests.FormRequest.Has` | src/FormRequest.php:101-103 | false for an absent key and for a key holding null, true otherwise |
| `FormRequests.FormRequest.Filled` | src/FormRequest.php:105-107 | implies has(); true exactly when the key is present with a non-empty value |
| `FormRequests.FormRequest.Missing` | src/FormRequest.php:109-111 | exactly the negation of has() |
| `FormRequests.FormRequest.Merge` | src/FormRequest.php:113-115 | all() afterwards has the old keys and the given ones; every given key takes its given value, every other key keeps its old value; the cache is unchanged |
| `FormRequests.FormRequest.Replace` | src/FormRequest.php:117-119 | all() afterwards is exactly the given array; the cache is unchanged |

## Left out

- src/Handler.php is not part of this model. It renders responses and
  halts: JSON output, die pages, headers, redirects and `exit`.
- src/ValidatedRequest.php and src/RequestWithValidation.php are not part of
  this model. They are subclasses of the HTTP request that only mix in the
  request trait (and a public field).
- The rule engine, translation file loading, the container singleton and
  `DatabasePresenceVerifier` are opaque. The engine is an arbitrary function,
  and the others are tokens.
- `Validation::extend`, `extendImplicit`, `replacer` and `factory()` are
  not modelled. They only forward to the factory.
- `ValidatesRequestTrait::validator()` is not modelled. It returns an
  engine object, and only that engine can use it.
- `FormRequest::prepareForValidation` is not modelled. It is an empty hook
  that nothing in the package calls.
- `rules()`, `messages()`, `attributes()` and `authorize()` are fixed per
  request object. A subclass whose `authorize()` reads changing state is
  not modelled.
- PHP array order is not modelled, nor the renumbering of integer and
  numeric-string keys by `array_merge`. Arrays are maps with non-numeric
  string keys.
- Floats are not among the modelled values. `IsEmpty` is PHP's `empty()`
  for the values that are modelled.
- The factory is a value, so aliasing is not modelled. A factory object
  handed out by `factory()` would share the presence-verifier update that
  the model makes by reassigning the field.
- Eloquent's `getCapsule()` is one fixed value per wrapper. A wrapper whose
  capsule changes over time is not modelled.
- Which rules make the engine throw which exception is not modelled. The
  engine may return any result, so `ValidationFacade.ValidateAfterInit`
  promises only that validate is the engine's result, not that every
  failure is a `ValidationException`.
- The base class `BaseInstances`, which is expected to assign
  `FormRequest::$validation`, is not part of this model. The facade is a
  constructor parameter, and its null case is modelled.

## Findings

| source | as written | input that shows it | evidently intended | confidence | as-written member | corrected member |
|---|---|---|---|---|---|---|
| src/Traits/ValidatesRequestTrait.php:22 | `Validation::validate(...)` is called statically, but `validate` is an instance method (src/Validation.php:105), so PHP 8 raises an `Error` | any request and any rules: `passes()`, `fails()`, `errors()` and `validated()` raise instead of returning | a call to a validation service, whose ValidationException decides passes, fails, errors and validated | high (not executed) | `ValidatesRequest.AsWrittenStaticCallRaises` | `ValidatesRequest.Passes`, `ValidatesRequest.ValidatedNullIffFails` |
| src/Traits/ValidatesAttributesTrait.php:42 | the same static call of the instance method `Validation::validate` | a model with any non-empty rules: every save is aborted by the `Error` | the model's attributes validated by a validation service, the save aborted only when validation throws | high (not executed) | `ValidatesAttributes.AsWrittenSavingRaises` | `ValidatesAttributes.ValidatingModel.Saving` |
