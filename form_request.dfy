/** The form request base class (src/FormRequest.php): it holds the request's
    input, validates it with the subclass's rules through the Validation
    facade when the subclass authorizes it, and caches the validated data. */
module FormRequests {
  import opened PhpArrays
  import opened Outcomes
  import opened ValidationFacade

  /** The message of the exception validate() throws when not authorized. */
  const UnauthorizedMessage: string := "This action is unauthorized."

  /** collectData(): the query string, the form body and the uploaded files
      merged in that order, a missing superglobal counting as []. */
  function CollectData(get: Option<PhpArray>, post: Option<PhpArray>, files: Option<PhpArray>): (r: PhpArray)
    ensures var g, p, f := get.GetOr(map[]), post.GetOr(map[]), files.GetOr(map[]);
      && r.Keys == g.Keys + p.Keys + f.Keys
      && (forall k :: k in f ==> r[k] == f[k])
      && (forall k :: k in p && k !in f ==> r[k] == p[k])
      && (forall k :: k in g && k !in p && k !in f ==> r[k] == g[k])
  {
    var sources := [get.GetOr(map[]), post.GetOr(map[]), files.GetOr(map[])];
    MergeAllKeys(sources);
    KeysOfThree(sources);
    MergeThreePrecedence(sources);
    MergeAll(sources)
  }

  /** validated($key, $default) once the cache is known: the whole cache for
      a null key, else $cache[$key] ?? $default. */
  function Select(cache: PhpArray, key: Option<string>, default: Value): (r: Value)
    ensures key.None? ==> r == Arr(cache)
    ensures key.Some? && IsSet(cache, key.value) ==> r == cache[key.value]
    ensures key.Some? && !IsSet(cache, key.value) ==> r == default
  {
    if key.None? then Arr(cache) else Coalesce(cache, key.value, default)
  }

  class FormRequest {
    var data: PhpArray
    var validatedData: PhpArray
    /** $this->validation: the facade, or null (None) when nothing has
        assigned it. */
    const validation: Option<Validation>
    /** What the subclass's rules(), messages(), attributes() and
        authorize() return. */
    const rules: PhpArray
    const messages: PhpArray
    const attributes: PhpArray
    const authorized: bool

    constructor (validation: Option<Validation>, rules: PhpArray, messages: PhpArray := map[],
                 attributes: PhpArray := map[], authorized: bool := true)
      ensures data == map[] && validatedData == map[]
      ensures this.validation == validation && this.rules == rules && this.messages == messages
      ensures this.attributes == attributes && this.authorized == authorized
    {
      this.validation, this.rules, this.messages := validation, rules, messages;
      this.attributes, this.authorized := attributes, authorized;
      data, validatedData := map[], map[];
    }

    /** What one call of validate() yields for the current input: the
        unauthorized exception, the Error of a call on a null facade, or the
        facade's verdict on the input with the subclass's rules, messages and
        attribute names. */
    function Attempt(): (r: Result<PhpArray>)
      reads this, (if validation.Some? then {validation.value} else {})
      ensures !authorized ==> r == Err(GenericException(UnauthorizedMessage))
      ensures authorized && validation.None? ==> r == Err(CallOnNull("validate"))
      ensures authorized && validation.Some? ==>
        r == validation.value.Validate(data, rules, messages, attributes)
    {
      if !authorized then Err(GenericException(UnauthorizedMessage))
      else if validation.None? then Err(CallOnNull("validate"))
      else validation.value.Validate(data, rules, messages, attributes)
    }

    /** validate(): fails without authorization or when the facade throws,
        leaving the cache as it was; on success caches and returns the
        validated data. */
    method Validate() returns (r: Result<PhpArray>)
      modifies this`validatedData
      ensures r == Attempt()
      ensures r.Ok? ==> validatedData == r.value
      ensures r.Err? ==> validatedData == old(validatedData)
      ensures !authorized ==> r.Err? && validatedData == old(validatedData)
    {
      if !authorized {
        return Err(GenericException(UnauthorizedMessage));
      }
      if validation.None? {
        return Err(CallOnNull("validate"));
      }
      var result := validation.value.Validate(data, rules, messages, attributes);
      if result.Err? {
        return result;
      }
      validatedData := result.value;
      r := Ok(validatedData);
    }

    /** validated($key, $default): validates first only when the cache is
        empty, then reads the cache. A non-empty cache is never refreshed. */
    method Validated(key: Option<string>, default: Value) returns (r: Result<Value>)
      modifies this`validatedData
      ensures |old(validatedData)| > 0 ==>
        validatedData == old(validatedData) && r == Ok(Select(old(validatedData), key, default))
      ensures |old(validatedData)| == 0 && Attempt().Err? ==>
        r == Err(Attempt().failure) && validatedData == old(validatedData)
      ensures |old(validatedData)| == 0 && Attempt().Ok? ==>
        validatedData == Attempt().value && r == Ok(Select(validatedData, key, default))
    {
      if |validatedData| == 0 {
        var v := Validate();
        if v.Err? {
          return Err(v.failure);
        }
      }
      r := Ok(Select(validatedData, key, default));
    }

    /** safe(): the validated data, as validated() with no key gives it. */
    method Safe() returns (r: Result<PhpArray>)
      modifies this`validatedData
      ensures |old(validatedData)| > 0 ==> validatedData == old(validatedData) && r == Ok(validatedData)
      ensures |old(validatedData)| == 0 ==> r == Attempt()
      ensures r.Ok? ==> validatedData == r.value
      ensures r.Err? ==> validatedData == old(validatedData)
    {
      var v := Validated(None, Null);
      if v.Err? {
        r := Err(v.failure);
      } else {
        r := Ok(v.value.entries);
      }
    }

    /** input($key, $default): the value when present and not null, else the
        default. */
    function Input(key: string, default: Value): (r: Value)
      reads this
      ensures key in data && data[key] != Null ==> r == data[key]
      ensures key !in data || data[key] == Null ==> r == default
    {
      Coalesce(data, key, default)
    }

    /** all(): the input as it stands. */
    function All(): (r: PhpArray)
      reads this
      ensures r == data
    {
      data
    }

    /** only($keys): the input entries whose key is listed. */
    function Only(keys: seq<string>): (r: PhpArray)
      reads this
      ensures r.Keys == data.Keys * KeySet(keys)
      ensures forall k :: k in r ==> r[k] == data[k]
    {
      IntersectKeys(data, keys)
    }

    /** except($keys): the input entries whose key is not listed. */
    function Except(keys: seq<string>): (r: PhpArray)
      reads this
      ensures r.Keys == data.Keys - KeySet(keys)
      ensures forall k :: k in r ==> r[k] == data[k]
    {
      DiffKeys(data, keys)
    }

    /** has($key): false for an absent key and for a key holding null. */
    function Has(key: string): (r: bool)
      reads this
      ensures key !in data ==> !r
      ensures key in data ==> (r <==> data[key] != Null)
    {
      IsSet(data, key)
    }

    /** filled($key): present and not empty(); so filled implies has. */
    function Filled(key: string): (r: bool)
      reads this
      ensures r ==> Has(key)
      ensures r <==> key in data && !IsEmpty(data[key])
    {
      Has(key) && !IsEmpty(data[key])
    }

    /** missing($key): exactly not has($key). */
    function Missing(key: string): (r: bool)
      reads this
      ensures r <==> !Has(key)
      ensures r <==> key !in data || data[key] == Null
    {
      !Has(key)
    }

    /** merge($data): every given key takes the given value, every other key
        keeps its value; the cache is untouched. */
    method Merge(d: PhpArray)
      modifies this`data
      ensures All().Keys == old(All()).Keys + d.Keys
      ensures forall k :: k in d ==> All()[k] == d[k]
      ensures forall k :: k in old(All()) && k !in d ==> All()[k] == old(All())[k]
      ensures validatedData == old(validatedData)
    {
      data := PhpArrays.Merge(data, d);
    }

    /** replace($data): the input becomes exactly the given array; the cache
        is untouched. */
    method Replace(d: PhpArray)
      modifies this`data
      ensures All() == d
      ensures validatedData == old(validatedData)
    {
      data := d;
    }
  }
}
