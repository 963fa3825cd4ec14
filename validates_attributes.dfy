/** The model mixin (src/Traits/ValidatesAttributesTrait.php): a model keeps
    its validation rules, messages and custom attribute names, validates its
    attributes with them, and does so from its saving hook. */
module ValidatesAttributes {
  import opened PhpArrays
  import opened Outcomes

  class ValidatingModel {
    var validationRules: PhpArray
    var validationMessages: PhpArray
    var validationCustomAttributes: PhpArray
    /** The validation service the trait evidently means by its static call
        Validation::validate(...). */
    const validate: ValidateFn

    constructor (validate: ValidateFn)
      ensures validationRules == map[] && validationMessages == map[] && validationCustomAttributes == map[]
      ensures this.validate == validate
    {
      this.validate := validate;
      validationRules, validationMessages, validationCustomAttributes := map[], map[], map[];
    }

    /** validateAttributes(): the data itself when no rule is configured,
        otherwise the verdict of the validation service on the data with
        exactly the stored rules, messages and attribute names. */
    function ValidateAttributes(data: PhpArray): (r: Result<PhpArray>)
      reads this
      ensures |validationRules| == 0 ==> r == Ok(data)
      ensures |validationRules| > 0 ==>
        r == validate(data, validationRules, validationMessages, validationCustomAttributes)
    {
      if |validationRules| == 0 then Ok(data)
      else validate(data, validationRules, validationMessages, validationCustomAttributes)
    }

    function GetValidationRules(): (r: PhpArray)
      reads this
      ensures r == validationRules
    {
      validationRules
    }

    /** Replaces the rules only, and returns the model itself. */
    method SetValidationRules(rules: PhpArray) returns (self: ValidatingModel)
      modifies this`validationRules
      ensures self == this
      ensures GetValidationRules() == rules
      ensures validationMessages == old(validationMessages)
      ensures validationCustomAttributes == old(validationCustomAttributes)
    {
      validationRules := rules;
      self := this;
    }

    function GetValidationMessages(): (r: PhpArray)
      reads this
      ensures r == validationMessages
    {
      validationMessages
    }

    /** Replaces the messages only, and returns the model itself. */
    method SetValidationMessages(messages: PhpArray) returns (self: ValidatingModel)
      modifies this`validationMessages
      ensures self == this
      ensures GetValidationMessages() == messages
      ensures validationRules == old(validationRules)
      ensures validationCustomAttributes == old(validationCustomAttributes)
    {
      validationMessages := messages;
      self := this;
    }

    /** The saving callback registered by bootValidatesAttributes(): with
        rules it validates the model's attributes and lets any exception
        abort the save; without rules it does nothing. */
    function Saving(attributes: PhpArray): (r: Result<()>)
      reads this
      ensures |validationRules| == 0 ==> r == Ok(())
      ensures r.Err? <==> ValidateAttributes(attributes).Err?
      ensures r.Err? ==> r.failure == ValidateAttributes(attributes).failure
    {
      if |validationRules| > 0 then
        match ValidateAttributes(attributes)
        case Ok(_) => Ok(())
        case Err(f) => Err(f)
      else Ok(())
    }
  }

  /** As written, validateAttributes calls Validation::validate statically,
      which PHP 8 rejects with an Error: a model with rules then never
      validates, and its saving hook aborts every save with that Error. */
  lemma AsWrittenSavingRaises(m: ValidatingModel, attributes: PhpArray)
    requires m.validate == StaticValidateAsWritten
    requires |m.validationRules| > 0
    ensures m.ValidateAttributes(attributes) == Err(StaticCallError)
    ensures m.Saving(attributes) == Err(StaticCallError)
  {
  }
}
