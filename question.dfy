/** A single question of an interview: its identity, its prompt and its
    kind, each kind with its own configuration (default, bounds, validator
    names). */
module Questions {
  import opened Wrappers
  import opened RustNum

  datatype InputQuestion = InputQuestion(
    default: Option<string>, validateOnKey: Option<string>, validateOnSubmit: Option<string>)

  datatype MultilineQuestion = MultilineQuestion(
    default: Option<string>, validateOnKey: Option<string>, validateOnSubmit: Option<string>)

  datatype MaskedQuestion = MaskedQuestion(
    mask: Option<char>, validateOnKey: Option<string>, validateOnSubmit: Option<string>)

  datatype IntQuestion = IntQuestion(
    default: Option<I64>, min: Option<I64>, max: Option<I64>,
    validateOnKey: Option<string>, validateOnSubmit: Option<string>)

  datatype FloatQuestion = FloatQuestion(
    default: Option<F64>, min: Option<F64>, max: Option<F64>,
    validateOnKey: Option<string>, validateOnSubmit: Option<string>)

  datatype ConfirmQuestion = ConfirmQuestion(default: bool)

  datatype NestedQuestion = NestedQuestion(typePath: string)

  /** The closed set of question kinds. */
  datatype QuestionKind =
    | Input(input: InputQuestion)
    | Multiline(multiline: MultilineQuestion)
    | Masked(masked: MaskedQuestion)
    | Int(integer: IntQuestion)
    | Float(float: FloatQuestion)
    | Confirm(confirm: ConfirmQuestion)
    | Nested(nested: NestedQuestion)

  /** A default value offered to `set_default`. */
  datatype QuestionDefault =
    | String(str: string)
    | Int(i: I64)
    | Float(float: F64)
    | Bool(b: bool)

  datatype Question = Question(id: Option<string>, name: string, prompt: string, kind: QuestionKind)
  {
    function Id(): Option<string> { id }
    function Name(): string { name }
    function Prompt(): string { prompt }
    function Kind(): QuestionKind { kind }
  }

  /** `Question::new`: the accessors give back the four components. */
  function New(id: Option<string>, name: string, prompt: string, kind: QuestionKind): (q: Question)
    ensures q.Id() == id && q.Name() == name && q.Prompt() == prompt && q.Kind() == kind
  {
    Question(id, name, prompt, kind)
  }

  /** `Question::kind_mut` followed by an assignment: only the kind changes. */
  function WithKind(q: Question, kind: QuestionKind): (q': Question)
    ensures q'.Kind() == kind
    ensures q'.Id() == q.Id() && q'.Name() == q.Name() && q'.Prompt() == q.Prompt()
  {
    q.(kind := kind)
  }

  /** The (kind, default) pairs for which a default can be set. */
  predicate AcceptsDefault(kind: QuestionKind, value: QuestionDefault)
  {
    || (kind.Input? && value.String?)
    || (kind.Multiline? && value.String?)
    || (kind.Int? && value.Int?)
    || (kind.Float? && value.Float?)
    || (kind.Confirm? && value.Bool?)
  }

  /** Everything but the default is the same in both kinds: same variant,
      same validators, same bounds, same mask, same nested type. */
  predicate SameExceptDefault(k: QuestionKind, k': QuestionKind)
  {
    match k
    case Input(c) => k'.Input? && k'.input.(default := c.default) == c
    case Multiline(c) => k'.Multiline? && k'.multiline.(default := c.default) == c
    case Masked(c) => k' == k
    case Int(c) => k'.Int? && k'.integer.(default := c.default) == c
    case Float(c) => k'.Float? && k'.float.(default := c.default) == c
    case Confirm(c) => k'.Confirm?
    case Nested(c) => k' == k
  }

  /** The default a kind currently offers, as a `QuestionDefault`
      (a Confirm question always has one). */
  function CurrentDefault(k: QuestionKind): Option<QuestionDefault>
  {
    match k
    case Input(c) => if c.default.Some? then Some(QuestionDefault.String(c.default.value)) else None
    case Multiline(c) => if c.default.Some? then Some(QuestionDefault.String(c.default.value)) else None
    case Masked(_) => None
    case Int(c) => if c.default.Some? then Some(QuestionDefault.Int(c.default.value)) else None
    case Float(c) => if c.default.Some? then Some(QuestionDefault.Float(c.default.value)) else None
    case Confirm(c) => Some(QuestionDefault.Bool(c.default))
    case Nested(_) => None
  }

  /** `Question::set_default`, on values: the flag it returns and the
      question as it is afterwards. */
  function SetDefault(q: Question, value: QuestionDefault): (r: (bool, Question))
    ensures r.0 <==> AcceptsDefault(q.kind, value)
    ensures !r.0 ==> r.1 == q
    ensures r.0 ==> CurrentDefault(r.1.kind) == Some(value)
    ensures r.1.id == q.id && r.1.name == q.name && r.1.prompt == q.prompt
    ensures SameExceptDefault(q.kind, r.1.kind)
  {
    match (q.kind, value)
    case (Input(c), String(v)) => (true, q.(kind := Input(c.(default := Some(v)))))
    case (Multiline(c), String(v)) => (true, q.(kind := Multiline(c.(default := Some(v)))))
    case (Int(c), Int(v)) => (true, q.(kind := QuestionKind.Int(c.(default := Some(v)))))
    case (Float(c), Float(v)) => (true, q.(kind := QuestionKind.Float(c.(default := Some(v)))))
    case (Confirm(c), Bool(v)) => (true, q.(kind := Confirm(c.(default := v))))
    case _ => (false, q)
  }

  /** Masked and Nested questions never take a default. */
  lemma MaskedAndNestedRefuseDefaults(q: Question, value: QuestionDefault)
    requires q.kind.Masked? || q.kind.Nested?
    ensures SetDefault(q, value) == (false, q)
  {
  }

  /** Setting two accepted defaults in a row keeps only the second: the
      result is the same as setting the second alone. */
  lemma SetDefaultOverwrites(q: Question, first: QuestionDefault, second: QuestionDefault)
    requires SetDefault(q, first).0 && SetDefault(q, second).0
    ensures SetDefault(SetDefault(q, first).1, second).1 == SetDefault(q, second).1
  {
  }

  /** `impl From<String> for QuestionDefault`. */
  function DefaultFromString(v: string): (d: QuestionDefault)
    ensures d.String? && d.str == v
  {
    QuestionDefault.String(v)
  }

  /** `impl From<i64> for QuestionDefault`. */
  function DefaultFromI64(v: I64): (d: QuestionDefault)
    ensures d.Int? && d.i == v
  {
    QuestionDefault.Int(v)
  }

  /** `impl From<f64> for QuestionDefault`. */
  function DefaultFromF64(v: F64): (d: QuestionDefault)
    ensures d.Float? && d.float == v
  {
    QuestionDefault.Float(v)
  }

  /** `impl From<bool> for QuestionDefault`. */
  function DefaultFromBool(v: bool): (d: QuestionDefault)
    ensures d.Bool? && d.b == v
  {
    QuestionDefault.Bool(v)
  }
}
