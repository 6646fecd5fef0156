/** `validateField`: the dispatch from a parameter-type tag stored with a
    problem to the schema that checks and rewrites one test-case line. */
module Validator {
  import opened Wrappers
  import opened Strings
  import opened Schema

  /** The six parameter types a problem may declare. */
  datatype TypeTag = Integer | IntegerArray | Str | StringArray | Character | CharacterArray

  /** The tag as it is stored in the database. */
  function TagName(t: TypeTag): string {
    match t
    case Integer => "integer"
    case IntegerArray => "integer[]"
    case Str => "string"
    case StringArray => "string[]"
    case Character => "character"
    case CharacterArray => "character[]"
  }

  /** The tag a stored name stands for; any other name is unsupported. */
  function ParseTag(name: string): (r: Option<TypeTag>)
    ensures r.Some? ==> TagName(r.value) == name
  {
    if name == "integer" then Some(Integer)
    else if name == "integer[]" then Some(IntegerArray)
    else if name == "string" then Some(Str)
    else if name == "string[]" then Some(StringArray)
    else if name == "character" then Some(Character)
    else if name == "character[]" then Some(CharacterArray)
    else None
  }

  /** The six names are recognised, each as its own tag, and no other name
      is. */
  lemma ParseTagIff(name: string)
    ensures ParseTag(name).Some? <==> exists t: TypeTag :: TagName(t) == name
    ensures forall t: TypeTag :: ParseTag(TagName(t)) == Some(t)
  {
    if ParseTag(name).Some? {
      assert TagName(ParseTag(name).value) == name;
    }
  }

  function RunSchema(t: TypeTag, line: string): Result<string, string> {
    match t
    case Integer => IntegerSchema(line)
    case IntegerArray => IntegerArraySchema(line)
    case Str => StringSchema(line)
    case StringArray => StringArraySchema(line)
    case Character => CharacterSchema(line)
    case CharacterArray => CharacterArraySchema(line)
  }

  /** Checks `line` against the schema named `requiredType`: the rewritten
      line, or the message of the error thrown. */
  function ValidateField(line: string, requiredType: string): (r: Result<string, string>)
    ensures ParseTag(requiredType).None? ==>
      r == Err("Unsupported requiredType from database: " + requiredType)
    ensures ParseTag(requiredType).Some? ==>
      var s := RunSchema(ParseTag(requiredType).value, line);
      (r.Ok? <==> s.Ok?) &&
      (r.Ok? ==> r.value == s.value) &&
      (r.Err? ==> r.error == "Validation failed for " + requiredType + ": " + s.error)
  {
    match ParseTag(requiredType)
    case None => Err("Unsupported requiredType from database: " + requiredType)
    case Some(t) =>
      match RunSchema(t, line)
      case Ok(v) => Ok(v)
      case Err(e) => Err("Validation failed for " + requiredType + ": " + e)
  }

  /** A `string` line always passes unchanged. */
  lemma ValidateStringIdentity(line: string)
    ensures ValidateField(line, "string") == Ok(line)
  {
  }

  /** Rewriting is idempotent for the scalar tags: a rewritten `integer`,
      `string` or `character` line passes again unchanged. */
  lemma ValidateScalarIdempotent(line: string, requiredType: string)
    requires requiredType in {"integer", "string", "character"}
    requires ValidateField(line, requiredType).Ok?
    ensures ValidateField(ValidateField(line, requiredType).value, requiredType) ==
      ValidateField(line, requiredType)
  {
    if requiredType == "integer" {
      IntegerSchemaCanonical(line);
    }
  }

  /** A schema failure is reported with the tag's name before its message. */
  lemma ValidateFailureNamesTag(line: string, requiredType: string)
    requires ParseTag(requiredType).Some? && ValidateField(line, requiredType).Err?
    ensures var m := "Validation failed for " + requiredType + ": ";
      |m| <= |ValidateField(line, requiredType).error| &&
      ValidateField(line, requiredType).error[..|m|] == m
  {
  }
}
