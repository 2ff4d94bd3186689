/** The answer store every backend fills, its errors, and the test backend
    that hands back answers set up in advance. */
module Backend {
  import opened Wrappers
  import opened RustNum
  import opened Interviews

  /** A single answer; a nested answer is itself a whole answer map. */
  datatype AnswerValue =
    | String(str: string)
    | Int(i: I64)
    | Float(float: F64)
    | Bool(b: bool)
    | Nested(nested: map<string, AnswerValue>)

  datatype AnswerError =
    | MissingKey(key: string)
    | TypeMismatch(key: string, expected: string)

  /** The I/O error's payload is kept as its message only. */
  datatype BackendError =
    | Answer(answer: AnswerError)
    | Validation(message: string)
    | ExecutionError(message: string)
    | Io(message: string)
    | Custom(message: string)

  /** A flat, string-keyed answer store, updated in place. */
  class Answers {
    var values: map<string, AnswerValue>

    /** `Answers::new`: no answers yet. */
    constructor ()
      ensures values == map[]
    {
      values := map[];
    }

    /** `insert`: the key now holds the value, every other key keeps what it
        had (or its absence). */
    method Insert(key: string, value: AnswerValue)
      modifies this
      ensures values == old(values)[key := value]
      ensures Get(key) == Some(value)
      ensures forall k :: k != key ==> Get(k) == old(Get(k))
    {
      values := values[key := value];
    }

    /** `get`: the stored value, if any. */
    function Get(key: string): (r: Option<AnswerValue>)
      reads this
      ensures r.Some? <==> key in values
      ensures r.Some? ==> r.value == values[key]
    {
      if key in values then Some(values[key]) else None
    }

    /** `merge`: every key of `other` takes `other`'s value, keys only here
        keep theirs, and no other key appears. */
    method Merge(other: Answers)
      modifies this
      ensures values == old(values) + old(other.values)
      ensures values.Keys == old(values.Keys) + old(other.values.Keys)
      ensures forall k :: k in old(other.values) ==> Get(k) == Some(old(other.values[k]))
      ensures forall k :: k !in old(other.values) ==> Get(k) == old(Get(k))
    {
      values := values + other.values;
    }

    /** `as_string`. */
    function AsString(key: string): (r: Result<string, AnswerError>)
      reads this
      ensures r.Ok? <==> key in values && values[key].String?
      ensures r.Ok? ==> r.value == values[key].str
      ensures r.Err? && key in values ==> r.error == TypeMismatch(key, "String")
      ensures key !in values ==> r == Err(MissingKey(key))
    {
      match Get(key)
      case Some(String(s)) => Ok(s)
      case Some(_) => Err(TypeMismatch(key, "String"))
      case None => Err(MissingKey(key))
    }

    /** `as_int`. */
    function AsInt(key: string): (r: Result<I64, AnswerError>)
      reads this
      ensures r.Ok? <==> key in values && values[key].Int?
      ensures r.Ok? ==> r.value == values[key].i
      ensures r.Err? && key in values ==> r.error == TypeMismatch(key, "Int")
      ensures key !in values ==> r == Err(MissingKey(key))
    {
      match Get(key)
      case Some(Int(i)) => Ok(i)
      case Some(_) => Err(TypeMismatch(key, "Int"))
      case None => Err(MissingKey(key))
    }

    /** `as_float`. */
    function AsFloat(key: string): (r: Result<F64, AnswerError>)
      reads this
      ensures r.Ok? <==> key in values && values[key].Float?
      ensures r.Ok? ==> r.value == values[key].float
      ensures r.Err? && key in values ==> r.error == TypeMismatch(key, "Float")
      ensures key !in values ==> r == Err(MissingKey(key))
    {
      match Get(key)
      case Some(Float(f)) => Ok(f)
      case Some(_) => Err(TypeMismatch(key, "Float"))
      case None => Err(MissingKey(key))
    }

    /** `as_bool`. */
    function AsBool(key: string): (r: Result<bool, AnswerError>)
      reads this
      ensures r.Ok? <==> key in values && values[key].Bool?
      ensures r.Ok? ==> r.value == values[key].b
      ensures r.Err? && key in values ==> r.error == TypeMismatch(key, "Bool")
      ensures key !in values ==> r == Err(MissingKey(key))
    {
      match Get(key)
      case Some(Bool(b)) => Ok(b)
      case Some(_) => Err(TypeMismatch(key, "Bool"))
      case None => Err(MissingKey(key))
    }

    /** `as_nested`: the nested answers' own map. */
    function AsNested(key: string): (r: Result<map<string, AnswerValue>, AnswerError>)
      reads this
      ensures r.Ok? <==> key in values && values[key].Nested?
      ensures r.Ok? ==> r.value == values[key].nested
      ensures r.Err? && key in values ==> r.error == TypeMismatch(key, "Nested")
      ensures key !in values ==> r == Err(MissingKey(key))
    {
      match Get(key)
      case Some(Nested(n)) => Ok(n)
      case Some(_) => Err(TypeMismatch(key, "Nested"))
      case None => Err(MissingKey(key))
    }
  }

  /** The typed accessors agree: at a present key exactly one of them
      succeeds, and every other reports a type mismatch for that key. */
  lemma AccessorsExclusive(a: Answers, key: string)
    requires key in a.values
    ensures (if a.AsString(key).Ok? then 1 else 0) + (if a.AsInt(key).Ok? then 1 else 0)
          + (if a.AsFloat(key).Ok? then 1 else 0) + (if a.AsBool(key).Ok? then 1 else 0)
          + (if a.AsNested(key).Ok? then 1 else 0) == 1
  {
  }

  /** The error the default `execute_section` of a backend gives for any
      section. */
  function DefaultExecuteSection(section: Section): (r: Result<map<string, AnswerValue>, BackendError>)
    ensures r.Err? && r.error.Custom?
    ensures r.error.message == "execute_section not implemented"
  {
    Err(Custom("execute_section not implemented"))
  }

  /** A backend that returns answers set up in advance with its builder
      calls, whatever interview it is given. */
  class TestBackend {
    const answers: Answers

    constructor ()
      ensures fresh(answers) && answers.values == map[]
    {
      answers := new Answers();
    }

    /** `with_string`: a later call for the same key overwrites an earlier one. */
    method WithString(key: string, value: string)
      modifies answers
      ensures answers.values == old(answers.values)[key := AnswerValue.String(value)]
    {
      answers.Insert(key, AnswerValue.String(value));
    }

    /** `with_int`. */
    method WithInt(key: string, value: I64)
      modifies answers
      ensures answers.values == old(answers.values)[key := AnswerValue.Int(value)]
    {
      answers.Insert(key, AnswerValue.Int(value));
    }

    /** `with_float`. */
    method WithFloat(key: string, value: F64)
      modifies answers
      ensures answers.values == old(answers.values)[key := AnswerValue.Float(value)]
    {
      answers.Insert(key, AnswerValue.Float(value));
    }

    /** `with_bool`. */
    method WithBool(key: string, value: bool)
      modifies answers
      ensures answers.values == old(answers.values)[key := AnswerValue.Bool(value)]
    {
      answers.Insert(key, AnswerValue.Bool(value));
    }

    /** `execute`: a fresh copy of exactly the preloaded answers; the
        interview is not looked at. */
    method Execute(interview: Interview) returns (r: Result<Answers, BackendError>)
      ensures r.Ok? && fresh(r.value) && r.value.values == answers.values
    {
      var copy := new Answers();
      copy.values := answers.values;
      r := Ok(copy);
    }
  }
}
