/** The request mixin (src/Traits/ValidatesRequestTrait.php): it assembles a
    request's input from its parameter bags and defines validate, passes,
    fails, errors and validated by whether one validation call throws. */
module ValidatesRequest {
  import opened PhpArrays
  import opened Outcomes

  /** The request's query, body and file bags, and get_params() when the
      request has that method (a WordPress REST request). */
  datatype Request = Request(query: PhpArray, request: PhpArray, files: PhpArray, params: Option<PhpArray>)

  predicate InParams(q: Request, k: string) {
    q.params.Some? && k in q.params.value
  }

  /** The sources of all(), earliest first. */
  function Sources(q: Request): seq<PhpArray> {
    [q.query, q.request, q.files] + (if q.params.Some? then [q.params.value] else [])
  }

  /** all(): query, body and files merged, then the REST parameters merged
      over them. */
  function All(q: Request): (r: PhpArray)
    ensures r == MergeAll(Sources(q))
  {
    var data := MergeAll([q.query, q.request, q.files]);
    if q.params.Some? then
      assert Sources(q)[..3] == [q.query, q.request, q.files];
      Merge(data, q.params.value)
    else
      assert Sources(q) == [q.query, q.request, q.files];
      data
  }

  /** A key is in all() exactly when some source has it. */
  lemma AllKeys(q: Request, k: string)
    ensures k in All(q) <==> k in q.query || k in q.request || k in q.files || InParams(q, k)
  {
    var s := Sources(q);
    assert All(q) == MergeAll(s);
    MergeAllKeys(s);
    assert s[0] == q.query && s[1] == q.request && s[2] == q.files;
    assert |s| == if q.params.Some? then 4 else 3;
    assert q.params.Some? ==> s[3] == q.params.value;
    if k in MergeAll(s) {
      var i :| 0 <= i < |s| && k in s[i];
      assert i == 0 || i == 1 || i == 2 || i == 3;
    }
    if k in q.query || k in q.request || k in q.files || InParams(q, k) {
      var i := if k in q.query then 0 else if k in q.request then 1 else if k in q.files then 2 else 3;
      assert k in s[i];
    }
  }

  /** The REST parameters override every request bag in all(). */
  lemma AllParamsWin(q: Request, k: string)
    requires InParams(q, k)
    ensures k in All(q) && All(q)[k] == q.params.value[k]
  {
  }

  /** Without a REST parameter of that name, the value of a key in all()
      comes from the latest bag that has it: files, then body, then query. */
  lemma AllPrecedence(q: Request, k: string)
    requires !InParams(q, k)
    ensures k in q.files ==> k in All(q) && All(q)[k] == q.files[k]
    ensures k in q.request && k !in q.files ==> k in All(q) && All(q)[k] == q.request[k]
    ensures k in q.query && k !in q.request && k !in q.files ==> k in All(q) && All(q)[k] == q.query[k]
  {
    var s := Sources(q);
    assert s[0] == q.query && s[1] == q.request && s[2] == q.files;
    assert q.params.Some? ==> |s| == 4 && k !in s[3];
    LatestSourceWins(s, k);
  }

  /** only($keys): the entries of all() whose key is listed. */
  function Only(q: Request, keys: seq<string>): (r: PhpArray)
    ensures r.Keys == All(q).Keys * KeySet(keys)
    ensures forall k :: k in r ==> r[k] == All(q)[k]
  {
    IntersectKeys(All(q), keys)
  }

  /** except($keys): the entries of all() whose key is not listed. */
  function Except(q: Request, keys: seq<string>): (r: PhpArray)
    ensures r.Keys == All(q).Keys - KeySet(keys)
    ensures forall k :: k in r ==> r[k] == All(q)[k]
  {
    DiffKeys(All(q), keys)
  }

  /** only() and except() with the same keys split all() in two. */
  lemma OnlyExceptSplitAll(q: Request, keys: seq<string>)
    ensures Only(q, keys).Keys !! Except(q, keys).Keys
    ensures Merge(Only(q, keys), Except(q, keys)) == All(q)
  {
  }

  /** validate(): the validation service applied to all() and the given
      rules, messages and attribute names. */
  function Validate(q: Request, validate: ValidateFn, rules: PhpArray, messages: PhpArray, attributes: PhpArray): (r: Result<PhpArray>)
    ensures r == validate(MergeAll(Sources(q)), rules, messages, attributes)
  {
    validate(All(q), rules, messages, attributes)
  }

  /** validateOnly(): the validation service applied to exactly the listed
      keys of all(). */
  function ValidateOnly(q: Request, validate: ValidateFn, keys: seq<string>, rules: PhpArray, messages: PhpArray, attributes: PhpArray): (r: Result<PhpArray>)
    ensures r == validate(IntersectKeys(MergeAll(Sources(q)), keys), rules, messages, attributes)
  {
    validate(Only(q, keys), rules, messages, attributes)
  }

  /** validated(): the validated data, null (None) when validation fails;
      any other exception passes through. */
  function Validated(q: Request, validate: ValidateFn, rules: PhpArray, messages: PhpArray, attributes: PhpArray): (r: Result<Option<PhpArray>>)
    ensures var v := Validate(q, validate, rules, messages, attributes);
      && (r == Ok(None) <==> v.Err? && v.failure.ValidationFailed?)
      && (v.Ok? <==> r.Ok? && r.value.Some?)
      && (v.Ok? ==> r.value.value == v.value)
      && (r.Err? ==> v == Err(r.failure) && !r.failure.ValidationFailed?)
  {
    match Validate(q, validate, rules, messages, attributes)
    case Ok(d) => Ok(Some(d))
    case Err(ValidationFailed(_)) => Ok(None)
    case Err(f) => Err(f)
  }

  /** passes(): true exactly when validate() throws nothing, false when it
      throws a ValidationException; other exceptions pass through. */
  function Passes(q: Request, validate: ValidateFn, rules: PhpArray, messages: PhpArray, attributes: PhpArray): (r: Result<bool>)
    ensures var v := Validate(q, validate, rules, messages, attributes);
      && (r == Ok(true) <==> v.Ok?)
      && (r == Ok(false) <==> v.Err? && v.failure.ValidationFailed?)
      && (r.Err? ==> v == Err(r.failure))
  {
    match Validate(q, validate, rules, messages, attributes)
    case Ok(_) => Ok(true)
    case Err(ValidationFailed(_)) => Ok(false)
    case Err(f) => Err(f)
  }

  /** fails(): the negation of passes(). */
  function Fails(q: Request, validate: ValidateFn, rules: PhpArray, messages: PhpArray, attributes: PhpArray): (r: Result<bool>)
    ensures var p := Passes(q, validate, rules, messages, attributes);
      && (r.Ok? <==> p.Ok?)
      && (r.Ok? ==> r.value == !p.value)
      && (r.Err? ==> r == p)
  {
    var p := Passes(q, validate, rules, messages, attributes);
    if p.Err? then Err(p.failure) else Ok(!p.value)
  }

  /** errors(): the empty array when validation passes, the exception's error
      bag when it fails; other exceptions pass through. */
  function Errors(q: Request, validate: ValidateFn, rules: PhpArray, messages: PhpArray, attributes: PhpArray): (r: Result<ErrorBag>)
    ensures var v := Validate(q, validate, rules, messages, attributes);
      && (v.Ok? ==> r == Ok(map[]))
      && (v.Err? && v.failure.ValidationFailed? ==> r == Ok(v.failure.errors))
      && (r.Err? <==> v.Err? && !v.failure.ValidationFailed?)
      && (r.Err? ==> v == Err(r.failure))
  {
    match Validate(q, validate, rules, messages, attributes)
    case Ok(_) => Ok(map[])
    case Err(ValidationFailed(e)) => Ok(e)
    case Err(f) => Err(f)
  }

  /** When a failure always carries at least one message, errors() is empty
      exactly when passes() is true. */
  lemma ErrorsEmptyIffPasses(q: Request, validate: ValidateFn, rules: PhpArray, messages: PhpArray, attributes: PhpArray)
    requires var v := Validate(q, validate, rules, messages, attributes);
      v.Err? && v.failure.ValidationFailed? ==> |v.failure.errors| > 0
    ensures Errors(q, validate, rules, messages, attributes) == Ok(map[])
            <==> Passes(q, validate, rules, messages, attributes) == Ok(true)
  {
  }

  /** validated() is null exactly when fails() is true. */
  lemma ValidatedNullIffFails(q: Request, validate: ValidateFn, rules: PhpArray, messages: PhpArray, attributes: PhpArray)
    ensures Validated(q, validate, rules, messages, attributes) == Ok(None)
            <==> Fails(q, validate, rules, messages, attributes) == Ok(true)
  {
  }

  /** As written, the trait calls Validation::validate statically, which PHP 8
      rejects with an Error: validate, validateOnly, passes, fails, errors and
      validated then all raise that Error, so none of them ever yields a
      verdict, a boolean or an error bag. */
  lemma AsWrittenStaticCallRaises(q: Request, keys: seq<string>, rules: PhpArray, messages: PhpArray, attributes: PhpArray)
    ensures Validate(q, StaticValidateAsWritten, rules, messages, attributes) == Err(StaticCallError)
    ensures ValidateOnly(q, StaticValidateAsWritten, keys, rules, messages, attributes) == Err(StaticCallError)
    ensures Passes(q, StaticValidateAsWritten, rules, messages, attributes) == Err(StaticCallError)
    ensures Fails(q, StaticValidateAsWritten, rules, messages, attributes) == Err(StaticCallError)
    ensures Errors(q, StaticValidateAsWritten, rules, messages, attributes) == Err(StaticCallError)
    ensures Validated(q, StaticValidateAsWritten, rules, messages, attributes) == Err(StaticCallError)
  {
  }
}
