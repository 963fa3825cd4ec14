/** The Validation facade (src/Validation.php): it builds the engine's rule
    factory and message translator lazily, attaches a database presence
    verifier when an Eloquent capsule is available, and forwards
    validation calls to the factory. The engine, the translator and the
    database are opaque: tokens that record how they were configured. */
module ValidationFacade {
  import opened PhpArrays
  import opened Outcomes

  /** The capsule's database manager, as an opaque token. */
  datatype DatabaseManager = DatabaseManager(id: nat)
  datatype Capsule = Capsule(manager: DatabaseManager)
  /** The host's Eloquent wrapper; getCapsule() may return null. */
  datatype Eloquent = Eloquent(capsule: Option<Capsule>)

  /** A Translator over a FileLoader for the given directories. */
  datatype Translator = Translator(paths: seq<string>, locale: string)
  datatype PresenceVerifier = DatabasePresenceVerifier(db: DatabaseManager)
  /** A Factory built on a translator, with the presence verifier set on it. */
  datatype Factory = Factory(translator: Translator, presence: Option<PresenceVerifier>)

  /** A validator returned by make(): the factory and the four arguments. */
  datatype PendingValidator =
    PendingValidator(factory: Factory, data: PhpArray, rules: PhpArray, messages: PhpArray, attributes: PhpArray)

  /** The rule engine: what $validator->validate() does for a validator made
      by a factory. Besides the validated data or a ValidationException it
      may throw anything else, such as the RuntimeException for an exists or
      unique rule on a factory without a presence verifier, or the
      BadMethodCallException for an unknown rule. */
  type Engine = (Factory, PhpArray, PhpArray, PhpArray, PhpArray) -> Result<PhpArray>

  /** The argument of setLangPaths before the (array) cast. */
  datatype PathsArg = NullPaths | OnePath(path: string) | PathList(paths: seq<string>)

  /** The package's own language directory, src/../lang. */
  const DefaultLangDir: string := "lang"
  /** The locale used when the host has no get_locale(). */
  const FallbackLocale: string := "en"

  /** (array) $paths: null gives [], a string gives [string], an array stays. */
  function CastToArray(p: PathsArg): seq<string> {
    match p
    case NullPaths => []
    case OnePath(s) => [s]
    case PathList(ps) => ps
  }

  /** The directories a new translator loads from: the custom paths when
      there are any, else the default directory; never none. */
  function EffectivePaths(langPaths: seq<string>): (r: seq<string>)
    ensures |r| > 0
    ensures |langPaths| > 0 ==> r == langPaths
    ensures |langPaths| == 0 ==> r == [DefaultLangDir]
  {
    if |langPaths| > 0 then langPaths else [DefaultLangDir]
  }

  /** function_exists('get_locale') ? get_locale() : 'en' */
  function HostLocale(getLocale: Option<string>): string {
    getLocale.GetOr(FallbackLocale)
  }

  /** $eloquent && $eloquent->getCapsule() */
  predicate HasCapsule(e: Option<Eloquent>) {
    e.Some? && e.value.capsule.Some?
  }

  /** new DatabasePresenceVerifier($eloquent->getCapsule()->getDatabaseManager()) */
  function VerifierFor(e: Eloquent): PresenceVerifier
    requires e.capsule.Some?
  {
    DatabasePresenceVerifier(e.capsule.value.manager)
  }

  class Validation {
    var factory: Option<Factory>
    var translator: Option<Translator>
    var eloquent: Option<Eloquent>
    var langPaths: seq<string>
    /** The validation library behind the factory. */
    const engine: Engine

    /** A translator, once built, reflects the current language paths. */
    ghost predicate TranslatorCurrent()
      reads this
    {
      translator.Some? ==> translator.value.paths == EffectivePaths(langPaths)
    }

    /** A factory is always built on the current translator. */
    ghost predicate FactoryOnTranslator()
      reads this
    {
      factory.Some? ==> translator.Some? && factory.value.translator == translator.value
    }

    /** While a factory and an Eloquent capsule both exist, the factory checks
        presence against that capsule's database. */
    ghost predicate PresenceCurrent()
      reads this
    {
      factory.Some? && HasCapsule(eloquent) ==> factory.value.presence == Some(VerifierFor(eloquent.value))
    }

    ghost predicate Valid()
      reads this
    {
      TranslatorCurrent() && FactoryOnTranslator() && PresenceCurrent()
    }

    constructor (engine: Engine)
      ensures Valid()
      ensures factory == None && translator == None && eloquent == None && langPaths == []
      ensures this.engine == engine
    {
      this.engine := engine;
      factory, translator, eloquent, langPaths := None, None, None, [];
    }

    /** Builds the translator unless one exists already. */
    method SetupTranslator(getLocale: Option<string>)
      requires Valid()
      modifies this`translator
      ensures Valid()
      ensures old(translator).Some? ==> translator == old(translator)
      ensures old(translator).None? ==>
        translator == Some(Translator(EffectivePaths(langPaths), HostLocale(getLocale)))
    {
      if translator.None? {
        translator := Some(Translator(EffectivePaths(langPaths), HostLocale(getLocale)));
      }
    }

    /** Sets a database presence verifier on the factory when an Eloquent
        capsule is available; without a factory that would be a call on null. */
    method SetupPresenceVerifier()
      requires factory.Some? || !HasCapsule(eloquent)
      modifies this`factory
      ensures HasCapsule(eloquent) ==>
        factory == Some(old(factory).value.(presence := Some(VerifierFor(eloquent.value))))
      ensures !HasCapsule(eloquent) ==> factory == old(factory)
    {
      if HasCapsule(eloquent) {
        factory := Some(factory.value.(presence := Some(VerifierFor(eloquent.value))));
      }
    }

    /** Stores the paths and drops translator and factory, so that both are
        rebuilt from the new paths. */
    method SetLangPaths(paths: PathsArg)
      modifies this`langPaths, this`translator, this`factory
      ensures Valid()
      ensures langPaths == CastToArray(paths)
      ensures translator == None && factory == None
    {
      langPaths := CastToArray(paths);
      translator := None;
      factory := None;
    }

    /** Stores the Eloquent wrapper; an existing factory gets a presence
        verifier for its capsule, and no factory or translator is created or
        dropped. */
    method SetEloquentForPresenceVerifier(e: Option<Eloquent>)
      requires Valid()
      modifies this`eloquent, this`factory
      ensures Valid()
      ensures eloquent == e
      ensures factory.Some? <==> old(factory).Some?
      ensures old(factory).Some? && HasCapsule(e) ==>
        factory == Some(old(factory).value.(presence := Some(VerifierFor(e.value))))
      ensures !(old(factory).Some? && HasCapsule(e)) ==> factory == old(factory)
    {
      eloquent := e;
      if factory.Some? && HasCapsule(e) {
        factory := Some(factory.value.(presence := Some(VerifierFor(e.value))));
      }
    }

    /** Builds translator, factory and presence verifier unless a factory
        exists; afterwards both a factory and a translator exist. */
    method InitFactory(getLocale: Option<string>)
      requires Valid()
      modifies this`translator, this`factory
      ensures Valid()
      ensures factory.Some? && translator.Some?
      ensures old(factory).Some? ==> factory == old(factory) && translator == old(translator)
      ensures old(translator).Some? ==> translator == old(translator)
      ensures old(translator).None? ==>
        translator == Some(Translator(EffectivePaths(langPaths), HostLocale(getLocale)))
      ensures old(factory).None? ==>
        factory == Some(Factory(translator.value,
                                if HasCapsule(eloquent) then Some(VerifierFor(eloquent.value)) else None))
    {
      if factory.None? {
        SetupTranslator(getLocale);
        factory := Some(Factory(translator.value, None));
        SetupPresenceVerifier();
      }
    }

    /** make(): a validator from the factory, or an Error when there is no
        factory yet. */
    function Make(data: PhpArray, rules: PhpArray, messages: PhpArray, attributes: PhpArray): (r: Result<PendingValidator>)
      reads this
      ensures r.Err? <==> factory.None?
      ensures r.Err? ==> r.failure == CallOnNull("make")
      ensures r.Ok? ==> r.value.factory == factory.value && r.value.data == data && r.value.rules == rules
                        && r.value.messages == messages && r.value.attributes == attributes
    {
      if factory.None? then Err(CallOnNull("make"))
      else Ok(PendingValidator(factory.value, data, rules, messages, attributes))
    }

    /** $validator->validate() on a validator made here. */
    function Run(v: PendingValidator): Result<PhpArray> {
      engine(v.factory, v.data, v.rules, v.messages, v.attributes)
    }

    /** validate(): running the validator that make() builds for the same
        arguments, so an Error without a factory, else the engine's verdict
        on exactly these arguments under the current factory. */
    function Validate(data: PhpArray, rules: PhpArray, messages: PhpArray, attributes: PhpArray): (r: Result<PhpArray>)
      reads this
      ensures Make(data, rules, messages, attributes).Err? ==> r == Err(CallOnNull("make"))
      ensures Make(data, rules, messages, attributes).Ok? ==> r == Run(Make(data, rules, messages, attributes).value)
      ensures factory.None? ==> r == Err(CallOnNull("make"))
      ensures factory.Some? ==> r == engine(factory.value, data, rules, messages, attributes)
    {
      var v := Make(data, rules, messages, attributes);
      if v.Err? then Err(v.failure) else Run(v.value)
    }
  }

  /** Once a factory exists (as InitFactory guarantees), validate() no longer
      fails for want of one: it is the engine's verdict under that factory,
      and by the invariant that factory is built on a translator for the
      current language paths and, when a capsule is present, checks presence
      against the capsule's database. */
  lemma ValidateAfterInit(v: Validation, data: PhpArray, rules: PhpArray, messages: PhpArray, attributes: PhpArray)
    requires v.Valid() && v.factory.Some?
    ensures v.Validate(data, rules, messages, attributes) == v.engine(v.factory.value, data, rules, messages, attributes)
    ensures v.factory.value.translator.paths == EffectivePaths(v.langPaths)
    ensures HasCapsule(v.eloquent) ==> v.factory.value.presence == Some(VerifierFor(v.eloquent.value))
  {
  }
}
