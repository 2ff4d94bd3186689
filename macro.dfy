/** The `Wizard` derive: how each field of a struct is classified from its
    attributes and its type, which errors abort the derive, and what is
    generated for each field. Token streams are not modelled: a field is an
    abstract descriptor (its name, its attributes' paths and argument
    shapes, its type path), and the output is the list of generated
    bindings rather than code. */
module WizardMacro {
  import opened Wrappers
  import opened RustStr

  // ---------------------------------------------------------------------
  // Syntax descriptors
  // ---------------------------------------------------------------------

  /** A path such as `std::vec::Vec<ListItem>`. */
  datatype SynPath = SynPath(leadingColon: bool, segments: seq<PathSegment>)

  datatype PathSegment = PathSegment(ident: string, arguments: PathArguments)

  datatype PathArguments =
    | NoArguments
    | AngleBracketed(args: seq<GenericArgument>)
    | Parenthesized

  /** A generic argument: a type, or anything else (lifetime, constant,
      binding). */
  datatype GenericArgument = TypeArg(ty: FieldType) | OtherArg

  /** A field's type: a path type, or any other type form (reference,
      tuple, array, ...). */
  datatype FieldType = PathType(path: SynPath) | OtherType

  /** The argument shape of an attribute: `#[a]`, `#[a(...)]`, `#[a = ...]`. */
  datatype AttrMeta = PathMeta | ListMeta(tokens: string) | NameValueMeta

  datatype Attribute = Attribute(path: SynPath, meta: AttrMeta)

  /** A struct field; tuple-struct fields have no name. */
  datatype Field = Field(ident: Option<string>, attrs: seq<Attribute>, ty: FieldType)

  datatype Data = StructData(fields: seq<Field>) | EnumData | UnionData

  datatype DeriveInput = DeriveInput(name: string, data: Data)

  /** `Path::get_ident`: the identifier of a plain one-segment path. */
  function GetIdent(p: SynPath): (r: Option<string>)
    ensures r.Some? <==> !p.leadingColon && |p.segments| == 1 && p.segments[0].arguments.NoArguments?
    ensures r.Some? ==> r.value == p.segments[0].ident
  {
    if !p.leadingColon && |p.segments| == 1 && p.segments[0].arguments.NoArguments?
    then Some(p.segments[0].ident) else None
  }

  /** `Path::is_ident`. */
  predicate IsIdent(p: SynPath, name: string)
  {
    GetIdent(p) == Some(name)
  }

  function SegmentIdents(segments: seq<PathSegment>): (ids: seq<string>)
    ensures |ids| == |segments| && forall i :: 0 <= i < |segments| ==> ids[i] == segments[i].ident
  {
    if |segments| == 0 then [] else SegmentIdents(segments[..|segments| - 1]) + [segments[|segments| - 1].ident]
  }

  /** The segment names joined with `::`: the leading `::` and every generic
      argument are dropped. */
  function TypeString(p: SynPath): string
  {
    Join(SegmentIdents(p.segments), "::")
  }

  predicate StartsWith(s: string, prefix: string)
  {
    |prefix| <= |s| && s[..|prefix|] == prefix
  }

  // ---------------------------------------------------------------------
  // The attribute scan (first pass)
  // ---------------------------------------------------------------------

  const WIZARD_COMBINED: string := "#[wizard] attribute cannot be combined with #[prompt], #[mask], or #[editor]"
  const MASK_AND_EDITOR: string := "Cannot use both #[mask] and #[editor] on the same field. They are mutually exclusive."
  const MISSING_PROMPT: string := "Missing required #[prompt(\"...\")] or #[wizard] attribute"
  const NOT_A_STRUCT: string := "Wizard can only be derived for structs (for now)"
  const EXPECTED_PROMPT_LIST: string := "Expected #[prompt(\"...\")]"
  const UNSUPPORTED_VEC: string := "Unsupported Vec type for Wizard derive. Only Vec<ListItem> is supported."
  const UNSUPPORTED_TYPE_FORM: string := "Unsupported field type for Wizard derive"
  const WIZARD_NOT_NAMED: string := "#[wizard] attribute can only be used on named types"

  const UNSUPPORTED_TYPE_OPEN: string := "Unsupported field type '"
  const UNSUPPORTED_TYPE_CLOSE: string :=
    "' for Wizard derive. Supported types: String, bool, i8-i64, u8-u64, f32, f64, ListItem, ExpandItem, Vec<ListItem>"

  function UnsupportedType(typeStr: string): string
  {
    UNSUPPORTED_TYPE_OPEN + typeStr + UNSUPPORTED_TYPE_CLOSE
  }

  /** Whether some attribute is exactly `#[name]`-pathed. */
  predicate HasAttr(attrs: seq<Attribute>, name: string)
  {
    exists i :: 0 <= i < |attrs| && IsIdent(attrs[i].path, name)
  }

  /** The last `#[prompt]` attribute, if any: a later one replaces an
      earlier one. */
  function LastPrompt(attrs: seq<Attribute>): (r: Option<Attribute>)
    ensures r.None? <==> !HasAttr(attrs, "prompt")
  {
    if |attrs| == 0 then None
    else if IsIdent(attrs[|attrs| - 1].path, "prompt") then Some(attrs[|attrs| - 1])
    else
      var r := LastPrompt(attrs[..|attrs| - 1]);
      assert forall i :: 0 <= i < |attrs| - 1 ==> attrs[..|attrs| - 1][i] == attrs[i];
      r
  }

  /** The prompt kept is a `#[prompt]` attribute of the field with no
      other `#[prompt]` after it. */
  lemma {:induction false} LastPromptIsLast(attrs: seq<Attribute>)
    requires LastPrompt(attrs).Some?
    ensures exists j :: (0 <= j < |attrs| && attrs[j] == LastPrompt(attrs).value && IsIdent(attrs[j].path, "prompt")
                         && forall i :: j < i < |attrs| ==> !IsIdent(attrs[i].path, "prompt"))
  {
    var n := |attrs| - 1;
    if IsIdent(attrs[n].path, "prompt") {
      assert attrs[n] == LastPrompt(attrs).value;
    } else {
      var init := attrs[..n];
      LastPromptIsLast(init);
      var j :| 0 <= j < n && init[j] == LastPrompt(init).value && IsIdent(init[j].path, "prompt")
        && forall i :: j < i < n ==> !IsIdent(init[i].path, "prompt");
      assert forall i :: j < i < n ==> init[i] == attrs[i];
      assert attrs[j] == LastPrompt(attrs).value;
    }
  }

  /** What the first pass keeps of a field. A `#[wizard]` field keeps no
      prompt and no flags. */
  datatype FieldPlan = FieldPlan(field: Field, prompt: Option<Attribute>, hasMask: bool, hasEditor: bool)

  /** The first pass's verdict on one field. */
  function ClassifyField(f: Field): Result<FieldPlan, string>
  {
    var prompt := LastPrompt(f.attrs);
    var hasMask := HasAttr(f.attrs, "mask");
    var hasEditor := HasAttr(f.attrs, "editor");
    if HasAttr(f.attrs, "wizard") then
      if prompt.Some? || hasMask || hasEditor then Err(WIZARD_COMBINED)
      else Ok(FieldPlan(f, None, false, false))
    else if prompt.Some? then
      if hasMask && hasEditor then Err(MASK_AND_EDITOR)
      else Ok(FieldPlan(f, prompt, hasMask, hasEditor))
    else Err(MISSING_PROMPT)
  }

  /** The rules of the first pass, in the order the macro checks them:
      `#[wizard]` excludes the other three; otherwise a prompt is required,
      and `#[mask]` excludes `#[editor]`. */
  lemma ClassifyFieldRules(f: Field)
    ensures var r := ClassifyField(f);
      && (HasAttr(f.attrs, "wizard")
        ==> r == (if HasAttr(f.attrs, "prompt") || HasAttr(f.attrs, "mask") || HasAttr(f.attrs, "editor")
                  then Err(WIZARD_COMBINED) else Ok(FieldPlan(f, None, false, false))))
      && (!HasAttr(f.attrs, "wizard") && !HasAttr(f.attrs, "prompt") ==> r == Err(MISSING_PROMPT))
      && (!HasAttr(f.attrs, "wizard") && HasAttr(f.attrs, "prompt")
        ==> r == (if HasAttr(f.attrs, "mask") && HasAttr(f.attrs, "editor") then Err(MASK_AND_EDITOR)
                  else Ok(FieldPlan(f, LastPrompt(f.attrs), HasAttr(f.attrs, "mask"), HasAttr(f.attrs, "editor")))))
  {
  }

  /** The first pass over the fields in declaration order: the plans, or
      the error of the first field that has one. */
  function PlanFields(fields: seq<Field>): Result<seq<FieldPlan>, string>
  {
    if |fields| == 0 then Ok([])
    else
      var before := PlanFields(fields[..|fields| - 1]);
      if before.Err? then before
      else
        var last := ClassifyField(fields[|fields| - 1]);
        if last.Err? then Err(last.error) else Ok(before.value + [last.value])
  }

  /** The first pass fails exactly with the error of the first offending
      field, and otherwise keeps one plan per field, in order. */
  lemma PlanFieldsFirstError(fields: seq<Field>)
    ensures PlanFields(fields).Ok?
        <==> forall i :: 0 <= i < |fields| ==> ClassifyField(fields[i]).Ok?
    ensures PlanFields(fields).Ok? ==> (|PlanFields(fields).value| == |fields|
        && forall i :: 0 <= i < |fields| ==> PlanFields(fields).value[i] == ClassifyField(fields[i]).value)
    ensures PlanFields(fields).Err? ==> exists k :: (0 <= k < |fields|
        && ClassifyField(fields[k]) == Err(PlanFields(fields).error)
        && forall i :: 0 <= i < k ==> ClassifyField(fields[i]).Ok?)
  {
    PlanFieldsOk(fields);
    PlanFieldsErr(fields);
  }

  lemma {:induction false} PlanFieldsOk(fields: seq<Field>)
    ensures PlanFields(fields).Ok?
        <==> forall i :: 0 <= i < |fields| ==> ClassifyField(fields[i]).Ok?
    ensures PlanFields(fields).Ok? ==> (|PlanFields(fields).value| == |fields|
        && forall i :: 0 <= i < |fields| ==> PlanFields(fields).value[i] == ClassifyField(fields[i]).value)
  {
    if |fields| > 0 {
      var init := fields[..|fields| - 1];
      var n := |init|;
      var last := ClassifyField(fields[n]);
      PlanFieldsOk(init);
      assert forall i :: 0 <= i < n ==> init[i] == fields[i];
      if PlanFields(init).Ok? && last.Ok? {
        var plans := PlanFields(init).value + [last.value];
        assert PlanFields(fields) == Ok(plans);
        assert forall i :: 0 <= i < n ==> plans[i] == PlanFields(init).value[i];
      }
    }
  }

  lemma {:induction false} PlanFieldsErr(fields: seq<Field>)
    ensures PlanFields(fields).Err? ==> exists k :: (0 <= k < |fields|
        && ClassifyField(fields[k]) == Err(PlanFields(fields).error)
        && forall i :: 0 <= i < k ==> ClassifyField(fields[i]).Ok?)
  {
    if |fields| > 0 {
      var init := fields[..|fields| - 1];
      var n := |init|;
      var last := ClassifyField(fields[n]);
      PlanFieldsErr(init);
      if PlanFields(init).Err? {
        var k :| 0 <= k < n && ClassifyField(init[k]) == Err(PlanFields(init).error)
          && forall i :: 0 <= i < k ==> ClassifyField(init[i]).Ok?;
        assert forall i :: 0 <= i <= k ==> init[i] == fields[i];
        assert PlanFields(fields) == PlanFields(init);
      } else if last.Err? {
        PlanFieldsOk(init);
        assert forall i :: 0 <= i < n ==> init[i] == fields[i];
        assert PlanFields(fields) == Err(last.error);
      }
    }
  }

  // ---------------------------------------------------------------------
  // The type table
  // ---------------------------------------------------------------------

  /** The question builders the macro can emit. */
  datatype QuestionType = Input | Confirm | Int | Float | Select | Expand | MultiSelect | Editor | Password

  predicate IsIntName(s: string)
  {
    s in {"i8", "i16", "i32", "i64", "isize", "u8", "u16", "u32", "u64", "usize"}
  }

  predicate IsFloatName(s: string)
  {
    s in {"f32", "f64"}
  }

  /** The names the type table knows outright. */
  predicate IsTableName(s: string)
  {
    s == "String" || s == "PathBuf" || s == "bool" || IsIntName(s) || IsFloatName(s) || s == "ListItem" || s == "ExpandItem"
  }

  /** The `Vec<ListItem>` test: the last segment's first generic argument
      is the plain path `ListItem`. */
  predicate LastArgIsListItem(p: SynPath)
  {
    && |p.segments| > 0
    && p.segments[|p.segments| - 1].arguments.AngleBracketed?
    && var args := p.segments[|p.segments| - 1].arguments.args;
    && |args| > 0
    && args[0].TypeArg?
    && args[0].ty.PathType?
    && GetIdent(args[0].ty.path) == Some("ListItem")
  }

  /** The question type inferred from a field's type, or the error. */
  function InferQuestionType(ty: FieldType): (r: Result<QuestionType, string>)
    ensures ty.OtherType? ==> r == Err(UNSUPPORTED_TYPE_FORM)
    ensures r.Ok? ==> r.value != Editor && r.value != Password
  {
    match ty
    case OtherType => Err(UNSUPPORTED_TYPE_FORM)
    case PathType(p) => MatchTypeName(TypeString(p), p)
  }

  /** The `match` on the type's name; `p` is consulted only for a `Vec`. */
  function MatchTypeName(s: string, p: SynPath): (r: Result<QuestionType, string>)
    ensures r.Ok? ==> r.value != Editor && r.value != Password
  {
    if s == "PathBuf" || s == "String" then Ok(Input)
    else if s == "bool" then Ok(Confirm)
    else if IsIntName(s) then Ok(Int)
    else if IsFloatName(s) then Ok(Float)
    else if s == "ListItem" then Ok(Select)
    else if s == "ExpandItem" then Ok(Expand)
    else if StartsWith(s, "Vec") then
      if LastArgIsListItem(p) then Ok(MultiSelect) else Err(UNSUPPORTED_VEC)
    else Err(UnsupportedType(s))
  }

  /** The type table: each name it knows maps to one question type. */
  lemma KnownTypeNames(p: SynPath)
    ensures var s := TypeString(p); var r := InferQuestionType(PathType(p));
      && (s == "String" || s == "PathBuf" ==> r == Ok(Input))
      && (s == "bool" ==> r == Ok(Confirm))
      && (IsIntName(s) ==> r == Ok(Int))
      && (IsFloatName(s) ==> r == Ok(Float))
      && (s == "ListItem" ==> r == Ok(Select))
      && (s == "ExpandItem" ==> r == Ok(Expand))
  {
  }

  /** A name starting with `Vec` is a multi-select exactly when its first
      generic argument is `ListItem`; any other unknown name is refused
      with the name in the message. */
  lemma OtherTypeNames(p: SynPath)
    ensures var s := TypeString(p); var r := InferQuestionType(PathType(p));
      && (StartsWith(s, "Vec") ==> r == if LastArgIsListItem(p) then Ok(MultiSelect) else Err(UNSUPPORTED_VEC))
      && (!IsTableName(s) && !StartsWith(s, "Vec") ==> r == Err(UnsupportedType(s)))
  {
    var s := TypeString(p);
    if StartsWith(s, "Vec") {
      assert s[0] == 'V';
    }
  }

  /** The conversion applied to the prompted answer (`infer_into`); `None`
      where the macro reaches `unimplemented!()` and panics. */
  datatype Conversion =
    | IntoPathBuf | IntoString | IntoBool | IntoInt(target: string) | IntoFloat(target: string)
    | IntoListItem | IntoExpandItem | IntoListItems

  function InferInto(ty: FieldType): (r: Option<Conversion>)
    ensures ty.OtherType? ==> r.None?
  {
    match ty
    case OtherType => None
    case PathType(p) =>
      var s := TypeString(p);
      if s == "PathBuf" then Some(IntoPathBuf)
      else if s == "String" then Some(IntoString)
      else if s == "bool" then Some(IntoBool)
      else if IsIntName(s) then Some(IntoInt(s))
      else if IsFloatName(s) then Some(IntoFloat(s))
      else if s == "ListItem" then Some(IntoListItem)
      else if s == "ExpandItem" then Some(IntoExpandItem)
      else if StartsWith(s, "Vec") then Some(IntoListItems)
      else None
  }

  /** The two tables agree: every type that gets a question type also has
      a conversion, and the conversion reads the answer as that type. */
  lemma InferIntoCoversTable(ty: FieldType)
    requires InferQuestionType(ty).Ok?
    ensures InferInto(ty).Some?
    ensures var q := InferQuestionType(ty).value; var c := InferInto(ty).value;
      && (q == Input <==> c == IntoPathBuf || c == IntoString)
      && (q == Confirm <==> c == IntoBool)
      && (q == Int <==> c.IntoInt?)
      && (q == Float <==> c.IntoFloat?)
      && (q == Select <==> c == IntoListItem)
      && (q == Expand <==> c == IntoExpandItem)
      && (q == MultiSelect <==> c == IntoListItems)
  {
  }

  // ---------------------------------------------------------------------
  // The second pass: one question per prompted field
  // ---------------------------------------------------------------------

  /** The question built for a prompted field: builder, name and prompt text. */
  datatype PromptedQuestion = PromptedQuestion(qtype: QuestionType, name: string, prompt: string)

  /** A field after the second pass; a `#[wizard]` field has no question. */
  datatype Entry = Entry(ident: string, question: Option<PromptedQuestion>, ty: FieldType)

  /** The outcome of a pass: its value, a compile error that replaces the
      whole output, or a panic of the macro. */
  datatype Pass<T> = Done(value: T) | Fail(message: string) | Panicked

  /** The question type of a prompted field: `#[editor]` first, then
      `#[mask]`, then the type table. */
  function ChooseQuestionType(plan: FieldPlan): (r: Result<QuestionType, string>)
    ensures plan.hasEditor ==> r == Ok(Editor)
    ensures !plan.hasEditor && plan.hasMask ==> r == Ok(Password)
    ensures !plan.hasEditor && !plan.hasMask ==> r == InferQuestionType(plan.field.ty)
  {
    if plan.hasEditor then Ok(Editor)
    else if plan.hasMask then Ok(Password)
    else InferQuestionType(plan.field.ty)
  }

  /** The second pass on one field. */
  function BuildEntry(plan: FieldPlan): (r: Pass<Entry>)
    ensures plan.field.ident.None? <==> r.Panicked?
    ensures r.Done? ==> r.value.ident == plan.field.ident.value && r.value.ty == plan.field.ty
    ensures r.Done? ==> (r.value.question.None? <==> plan.prompt.None?)
    ensures plan.field.ident.Some? && plan.prompt.Some? && !plan.prompt.value.meta.ListMeta?
        ==> r == Fail(EXPECTED_PROMPT_LIST)
    ensures r.Done? && r.value.question.Some? ==> (ChooseQuestionType(plan).Ok?
        && r.value.question.value.qtype == ChooseQuestionType(plan).value
        && r.value.question.value.prompt == plan.prompt.value.meta.tokens)
  {
    match plan.field.ident
    case None => Panicked
    case Some(ident) =>
      if plan.prompt.None? then Done(Entry(ident, None, plan.field.ty))
      else
        match plan.prompt.value.meta
        case ListMeta(tokens) =>
          var qt := ChooseQuestionType(plan);
          if qt.Err? then Fail(qt.error)
          else Done(Entry(ident, Some(PromptedQuestion(qt.value, ident, tokens)), plan.field.ty))
        case _ => Fail(EXPECTED_PROMPT_LIST)
  }

  /** The second pass over the plans in order, stopping at the first
      failure or panic. */
  function BuildEntries(plans: seq<FieldPlan>): Pass<seq<Entry>>
  {
    if |plans| == 0 then Done([])
    else
      var before := BuildEntries(plans[..|plans| - 1]);
      if !before.Done? then before
      else
        var last := BuildEntry(plans[|plans| - 1]);
        match last
        case Done(e) => Done(before.value + [e])
        case Fail(m) => Fail(m)
        case Panicked => Panicked
  }

  /** Two passes that did not finish stopped the same way. */
  predicate SameStop<T, U>(a: Pass<T>, b: Pass<U>)
  {
    match a
    case Done(_) => false
    case Fail(m) => b == Fail(m)
    case Panicked => b.Panicked?
  }

  /** The second pass keeps one entry per field, in declaration order, and
      otherwise stops at the first field that fails or panics. */
  lemma {:induction false} BuildEntriesInOrder(plans: seq<FieldPlan>)
    ensures BuildEntries(plans).Done? <==> forall i :: 0 <= i < |plans| ==> BuildEntry(plans[i]).Done?
    ensures BuildEntries(plans).Done? ==> (|BuildEntries(plans).value| == |plans|
        && forall i :: 0 <= i < |plans| ==> BuildEntries(plans).value[i] == BuildEntry(plans[i]).value)
    ensures !BuildEntries(plans).Done? ==> exists k :: (0 <= k < |plans|
        && SameStop(BuildEntry(plans[k]), BuildEntries(plans))
        && forall i :: 0 <= i < k ==> BuildEntry(plans[i]).Done?)
  {
    if |plans| > 0 {
      var init := plans[..|plans| - 1];
      BuildEntriesInOrder(init);
      assert forall i :: 0 <= i < |init| ==> init[i] == plans[i];
      if !BuildEntries(init).Done? {
        var k :| 0 <= k < |init| && SameStop(BuildEntry(init[k]), BuildEntries(init))
          && forall i :: 0 <= i < k ==> BuildEntry(init[i]).Done?;
        assert SameStop(BuildEntry(plans[k]), BuildEntries(plans));
      }
    }
  }

  // ---------------------------------------------------------------------
  // The third pass: one binding per field
  // ---------------------------------------------------------------------

  /** How a field's value is obtained in the generated `wizard()`: the
      nested type's own `wizard()`, an error emitted in place of a
      `#[wizard]` field whose type is not a path, or the prompted answer
      converted. */
  datatype Binding = WizardCall(typeIdent: string) | WizardNotNamed | PromptOne(conversion: Conversion)

  /** `None` where the macro panics: `infer_into` on an unknown type, or a
      path type without segments. */
  function BindEntry(e: Entry): (r: Option<Binding>)
    ensures e.question.None? && e.ty.OtherType? ==> r == Some(WizardNotNamed)
    ensures e.question.Some? ==> (r.Some? <==> InferInto(e.ty).Some?)
    ensures r.Some? && e.question.Some? ==> r.value == PromptOne(InferInto(e.ty).value)
  {
    if e.question.None? then
      match e.ty
      case PathType(p) =>
        if |p.segments| == 0 then None else Some(WizardCall(p.segments[|p.segments| - 1].ident))
      case OtherType => Some(WizardNotNamed)
    else
      var c := InferInto(e.ty);
      if c.None? then None else Some(PromptOne(c.value))
  }

  /** A generated field of the `Self { ... }` literal. */
  datatype GeneratedField = GeneratedField(ident: string, question: Option<PromptedQuestion>, binding: Binding)

  function BindEntries(entries: seq<Entry>): Option<seq<GeneratedField>>
  {
    if |entries| == 0 then Some([])
    else
      var before := BindEntries(entries[..|entries| - 1]);
      var e := entries[|entries| - 1];
      var last := BindEntry(e);
      if before.None? || last.None? then None
      else Some(before.value + [GeneratedField(e.ident, e.question, last.value)])
  }

  /** What the derive produces: a single compile error, a panic, or the
      `impl Wizard` with its fields in order. */
  datatype Output = CompileError(message: string) | Panic | Impl(name: string, fields: seq<GeneratedField>)

  /** `implement_wizard`, on values. */
  function Derive(input: DeriveInput): Output
  {
    match input.data
    case StructData(fields) =>
      var plans := PlanFields(fields);
      if plans.Err? then CompileError(plans.error)
      else
        match BuildEntries(plans.value) {
          case Fail(m) => CompileError(m)
          case Panicked => Panic
          case Done(entries) =>
            var bound := BindEntries(entries);
            if bound.None? then Panic else Impl(input.name, bound.value)
        }
    case _ => CompileError(NOT_A_STRUCT)
  }

  // ---------------------------------------------------------------------
  // Properties of the derive
  // ---------------------------------------------------------------------

  /** Only structs derive. */
  lemma OnlyStructs(input: DeriveInput)
    requires !input.data.StructData?
    ensures Derive(input) == CompileError(NOT_A_STRUCT)
  {
  }

  /** A successful derive generates the struct's fields in declaration
      order, each with the question its attributes ask for. */
  lemma {:induction false} DeriveKeepsFieldOrder(input: DeriveInput)
    requires Derive(input).Impl?
    ensures input.data.StructData?
    ensures var fields := input.data.fields; var out := Derive(input).fields;
      && |out| == |fields|
      && forall i :: 0 <= i < |fields| ==> (fields[i].ident == Some(out[i].ident)
           && (out[i].question.None? <==> HasAttr(fields[i].attrs, "wizard")))
  {
    var fields := input.data.fields;
    PlanFieldsFirstError(fields);
    var plans := PlanFields(fields).value;
    BuildEntriesInOrder(plans);
    var entries := BuildEntries(plans).value;
    BindEntriesInOrder(entries);
    var out := BindEntries(entries).value;
    assert Derive(input).fields == out;
    forall i | 0 <= i < |fields|
      ensures fields[i].ident == Some(out[i].ident)
      ensures out[i].question.None? <==> HasAttr(fields[i].attrs, "wizard")
    {
      ClassifiedPlan(fields[i]);
      assert plans[i] == ClassifyField(fields[i]).value;
      assert entries[i] == BuildEntry(plans[i]).value;
    }
  }

  /** A field that passes the first pass keeps itself in its plan, and has
      no prompt exactly when it is a `#[wizard]` field. */
  lemma ClassifiedPlan(f: Field)
    requires ClassifyField(f).Ok?
    ensures ClassifyField(f).value.field == f
    ensures ClassifyField(f).value.prompt.None? <==> HasAttr(f.attrs, "wizard")
  {
  }

  lemma {:induction false} BindEntriesInOrder(entries: seq<Entry>)
    requires BindEntries(entries).Some?
    ensures |BindEntries(entries).value| == |entries|
    ensures forall i :: 0 <= i < |entries| ==> (BindEntries(entries).value[i].ident == entries[i].ident
        && BindEntries(entries).value[i].question == entries[i].question
        && Some(BindEntries(entries).value[i].binding) == BindEntry(entries[i]))
  {
    if |entries| > 0 {
      var init := entries[..|entries| - 1];
      BindEntriesInOrder(init);
      assert forall i :: 0 <= i < |init| ==> init[i] == entries[i];
    }
  }

  /** A field with neither a mask nor an editor attribute never makes the
      third pass panic: its type already passed the type table. */
  lemma PlainPromptNeverPanics(plan: FieldPlan)
    requires !plan.hasMask && !plan.hasEditor
    requires BuildEntry(plan).Done? && BuildEntry(plan).value.question.Some?
    ensures BindEntry(BuildEntry(plan).value).Some?
  {
    InferIntoCoversTable(plan.field.ty);
  }

  // Concrete descriptors used by the lemmas below.

  function Ident(name: string): FieldType
  {
    PathType(SynPath(false, [PathSegment(name, NoArguments)]))
  }

  function Generic(outer: string, inner: string): FieldType
  {
    PathType(SynPath(false, [PathSegment(outer, AngleBracketed([TypeArg(Ident(inner))]))]))
  }

  function Attr(name: string, meta: AttrMeta): Attribute
  {
    Attribute(SynPath(false, [PathSegment(name, NoArguments)]), meta)
  }

  /** The `Vec` test is a prefix test on the type's name: any name that
      starts with `Vec` is a multi-select exactly when its argument is
      `ListItem`, and refused otherwise. */
  lemma VecPrefixTest(name: string, inner: string)
    requires StartsWith(name, "Vec")
    ensures InferQuestionType(Generic(name, inner))
        == if inner == "ListItem" then Ok(MultiSelect) else Err(UNSUPPORTED_VEC)
  {
    var p := Generic(name, inner).path;
    assert SegmentIdents(p.segments) == [name];
    OtherTypeNames(p);
  }

  /** So a `VecDeque<ListItem>` field is accepted as a multi-select, while
      a `Vec<String>` is refused. */
  lemma VecDequeIsMultiSelect()
    ensures InferQuestionType(Generic("VecDeque", "ListItem")) == Ok(MultiSelect)
    ensures InferQuestionType(Generic("Vec", "String")) == Err(UNSUPPORTED_VEC)
  {
    var vd, v := "VecDeque", "Vec";
    assert StartsWith(vd, v) by { assert vd[..3] == v; }
    VecPrefixTest(vd, "ListItem");
    assert StartsWith(v, v) by { assert v[..3] == v; }
    VecPrefixTest(v, "String");
  }

  function Qualified(a: string, b: string, c: string): SynPath
  {
    SynPath(false, [PathSegment(a, NoArguments), PathSegment(b, NoArguments), PathSegment(c, NoArguments)])
  }

  /** The type name is the full path: a path of three segments whose first
      does not start with `V` (and whose segments have seven or more
      letters between them) is refused, whatever its last segment is. */
  lemma QualifiedNameRefused(a: string, b: string, c: string)
    requires a != "" && a[0] != 'V' && |a| + |b| + |c| >= 7
    ensures InferQuestionType(PathType(Qualified(a, b, c))) == Err(UnsupportedType(a + "::" + b + "::" + c))
  {
    var p := Qualified(a, b, c);
    assert SegmentIdents(p.segments) == [a, b, c];
    assert [a, b, c][1..] == [b, c];
    assert [b, c][1..] == [c];
    var sep := "::";
    assert Join([b, c], sep) == b + sep + c by { assert Join([c], sep) == c; }
    var t := TypeString(p);
    assert t == a + sep + (b + sep + c);
    assert t == a + sep + b + sep + c;
    assert !StartsWith(t, "Vec") by { assert t[0] == a[0]; }
    assert !IsTableName(t) by { assert |t| >= 11; }
    OtherTypeNames(p);
  }

  /** So a qualified `std::string::String` is not recognised as `String`. */
  lemma QualifiedStringRefused()
    ensures InferQuestionType(PathType(Qualified("std", "string", "String")))
        == Err(UnsupportedType("std::string::String"))
  {
    var a := "std";
    assert a[0] == 's';
    QualifiedNameRefused(a, "string", "String");
    assert a + "::" + "string" + "::" + "String" == "std::string::String";
  }

  /** `#[mask]` skips the type table but not `infer_into`: a masked field of
      a type outside the table makes the derive panic instead of reporting
      an error. */
  lemma MaskedUnknownTypePanics(structName: string, fieldName: string, prompt: string, typeName: string)
    requires !IsTableName(typeName) && !StartsWith(typeName, "Vec")
    ensures Derive(DeriveInput(structName, StructData([
              Field(Some(fieldName), [Attr("prompt", ListMeta(prompt)), Attr("mask", PathMeta)], Ident(typeName))
            ]))) == Panic
  {
    var attrs := [Attr("prompt", ListMeta(prompt)), Attr("mask", PathMeta)];
    var f := Field(Some(fieldName), attrs, Ident(typeName));
    assert IsIdent(attrs[0].path, "prompt") && IsIdent(attrs[1].path, "mask");
    assert !HasAttr(attrs, "wizard") && !HasAttr(attrs, "editor");
    assert LastPrompt(attrs) == Some(attrs[0]);
    var plan := FieldPlan(f, Some(attrs[0]), true, false);
    assert ClassifyField(f) == Ok(plan);
    assert [f][..0] == [] && PlanFields([]) == Ok([]);
    assert PlanFields([f]) == Ok([] + [plan]);
    var e := Entry(fieldName, Some(PromptedQuestion(Password, fieldName, prompt)), Ident(typeName));
    assert BuildEntry(plan) == Done(e);
    assert [plan][..0] == [] && BuildEntries([]) == Done([]);
    assert BuildEntries([plan]) == Done([] + [e]);
    assert SegmentIdents(Ident(typeName).path.segments) == [typeName];
    assert InferInto(Ident(typeName)).None?;
    assert [e][..0] == [];
    assert BindEntries([e]).None?;
  }

  // ---------------------------------------------------------------------
  // The passes as the macro runs them
  // ---------------------------------------------------------------------

  /** One more attribute: the flags and the last prompt are updated as
      the scan updates them. */
  lemma AttrSnoc(attrs: seq<Attribute>, a: Attribute)
    ensures LastPrompt(attrs + [a]) == if IsIdent(a.path, "prompt") then Some(a) else LastPrompt(attrs)
    ensures forall name :: HasAttr(attrs + [a], name) <==> HasAttr(attrs, name) || IsIdent(a.path, name)
  {
    assert (attrs + [a])[..|attrs|] == attrs;
    forall name
      ensures HasAttr(attrs + [a], name) <==> HasAttr(attrs, name) || IsIdent(a.path, name)
    {
      if HasAttr(attrs, name) {
        var i :| 0 <= i < |attrs| && IsIdent(attrs[i].path, name);
        assert (attrs + [a])[i] == attrs[i];
      }
      if IsIdent(a.path, name) {
        assert (attrs + [a])[|attrs|] == a;
      }
    }
  }

  /** The flags of the attribute scan: the last prompt, and whether a
      mask, editor or wizard attribute is present. */
  method ScanAttributes(attrs: seq<Attribute>) returns (prompt: Option<Attribute>, hasMask: bool, hasEditor: bool, hasWizard: bool)
    ensures prompt == LastPrompt(attrs)
    ensures hasMask == HasAttr(attrs, "mask") && hasEditor == HasAttr(attrs, "editor")
    ensures hasWizard == HasAttr(attrs, "wizard")
  {
    prompt, hasMask, hasEditor, hasWizard := None, false, false, false;
    var i := 0;
    while i < |attrs|
      invariant 0 <= i <= |attrs|
      invariant prompt == LastPrompt(attrs[..i])
      invariant hasMask == HasAttr(attrs[..i], "mask") && hasEditor == HasAttr(attrs[..i], "editor")
      invariant hasWizard == HasAttr(attrs[..i], "wizard")
    {
      var path := attrs[i].path;
      if IsIdent(path, "prompt") {
        prompt := Some(attrs[i]);
      } else if IsIdent(path, "mask") {
        hasMask := true;
      } else if IsIdent(path, "editor") {
        hasEditor := true;
      } else if IsIdent(path, "wizard") {
        hasWizard := true;
      }
      assert attrs[..i + 1] == attrs[..i] + [attrs[i]];
      AttrSnoc(attrs[..i], attrs[i]);
      i := i + 1;
    }
    assert attrs[..i] == attrs;
  }

  /** The first pass of `implement_wizard`: classify every field by its
      attributes, returning at the first field that breaks a rule. */
  method PlanPass(fields: seq<Field>) returns (r: Result<seq<FieldPlan>, string>)
    ensures r == PlanFields(fields)
  {
    var plans: seq<FieldPlan> := [];
    var i := 0;
    while i < |fields|
      invariant 0 <= i <= |fields|
      invariant PlanFields(fields[..i]) == Ok(plans)
    {
      var prompt, hasMask, hasEditor, hasWizard := ScanAttributes(fields[i].attrs);
      assert fields[..i + 1][..i] == fields[..i];
      if hasWizard {
        if prompt.Some? || hasMask || hasEditor {
          PlanFieldsStopsAtError(fields, i + 1);
          return Err(WIZARD_COMBINED);
        }
        plans := plans + [FieldPlan(fields[i], None, false, false)];
      } else if prompt.Some? {
        if hasMask && hasEditor {
          PlanFieldsStopsAtError(fields, i + 1);
          return Err(MASK_AND_EDITOR);
        }
        plans := plans + [FieldPlan(fields[i], prompt, hasMask, hasEditor)];
      } else {
        PlanFieldsStopsAtError(fields, i + 1);
        return Err(MISSING_PROMPT);
      }
      i := i + 1;
    }
    assert fields[..i] == fields;
    return Ok(plans);
  }

  /** The second pass: a question for every prompted field, returning at
      the first field whose prompt or type is refused; a tuple-struct field
      panics at `unwrap`. */
  method EntryPass(plans: seq<FieldPlan>) returns (r: Pass<seq<Entry>>)
    ensures r == BuildEntries(plans)
  {
    var entries: seq<Entry> := [];
    var j := 0;
    while j < |plans|
      invariant 0 <= j <= |plans|
      invariant BuildEntries(plans[..j]) == Done(entries)
    {
      var plan := plans[j];
      assert plans[..j + 1][..j] == plans[..j];
      if plan.field.ident.None? {
        BuildEntriesStops(plans, j + 1);
        return Panicked;
      }
      var ident := plan.field.ident.value;
      if plan.prompt.None? {
        entries := entries + [Entry(ident, None, plan.field.ty)];
      } else {
        if !plan.prompt.value.meta.ListMeta? {
          BuildEntriesStops(plans, j + 1);
          return Fail(EXPECTED_PROMPT_LIST);
        }
        var qtype: QuestionType;
        if plan.hasEditor {
          qtype := Editor;
        } else if plan.hasMask {
          qtype := Password;
        } else {
          var inferred := InferQuestionType(plan.field.ty);
          if inferred.Err? {
            BuildEntriesStops(plans, j + 1);
            return Fail(inferred.error);
          }
          qtype := inferred.value;
        }
        entries := entries + [Entry(ident, Some(PromptedQuestion(qtype, ident, plan.prompt.value.meta.tokens)), plan.field.ty)];
      }
      j := j + 1;
    }
    assert plans[..j] == plans;
    return Done(entries);
  }

  /** The third pass: how each field's value is obtained; `None` where the
      macro panics. */
  method BindPass(entries: seq<Entry>) returns (r: Option<seq<GeneratedField>>)
    ensures r == BindEntries(entries)
  {
    var generated: seq<GeneratedField> := [];
    var k := 0;
    while k < |entries|
      invariant 0 <= k <= |entries|
      invariant BindEntries(entries[..k]) == Some(generated)
    {
      var e := entries[k];
      assert entries[..k + 1][..k] == entries[..k];
      var binding: Binding;
      if e.question.None? {
        if e.ty.PathType? {
          if |e.ty.path.segments| == 0 {
            BindEntriesStops(entries, k + 1);
            return None;
          }
          binding := WizardCall(e.ty.path.segments[|e.ty.path.segments| - 1].ident);
        } else {
          binding := WizardNotNamed;
        }
      } else {
        var conversion := InferInto(e.ty);
        if conversion.None? {
          BindEntriesStops(entries, k + 1);
          return None;
        }
        binding := PromptOne(conversion.value);
      }
      generated := generated + [GeneratedField(e.ident, e.question, binding)];
      k := k + 1;
    }
    assert entries[..k] == entries;
    return Some(generated);
  }

  /** `implement_wizard`: the three passes, each stopping where the macro
      returns or panics. */
  method ImplementWizard(input: DeriveInput) returns (out: Output)
    ensures out == Derive(input)
  {
    if !input.data.StructData? {
      return CompileError(NOT_A_STRUCT);
    }
    var plans := PlanPass(input.data.fields);
    if plans.Err? {
      return CompileError(plans.error);
    }
    var entries := EntryPass(plans.value);
    match entries {
      case Fail(m) => return CompileError(m);
      case Panicked => return Panic;
      case Done(_) =>
    }
    var generated := BindPass(entries.value);
    if generated.None? {
      return Panic;
    }
    out := Impl(input.name, generated.value);
  }

  /** Once a prefix of the fields fails the first pass, all of them fail
      it with the same error. */
  lemma {:induction false} PlanFieldsStopsAtError(fields: seq<Field>, n: nat)
    requires n <= |fields| && PlanFields(fields[..n]).Err?
    ensures PlanFields(fields) == PlanFields(fields[..n])
    decreases |fields| - n
  {
    if n < |fields| {
      assert fields[..n + 1][..n] == fields[..n];
      PlanFieldsStopsAtError(fields, n + 1);
    } else {
      assert fields[..n] == fields;
    }
  }

  lemma {:induction false} BuildEntriesStops(plans: seq<FieldPlan>, n: nat)
    requires n <= |plans| && !BuildEntries(plans[..n]).Done?
    ensures BuildEntries(plans) == BuildEntries(plans[..n])
    decreases |plans| - n
  {
    if n < |plans| {
      assert plans[..n + 1][..n] == plans[..n];
      BuildEntriesStops(plans, n + 1);
    } else {
      assert plans[..n] == plans;
    }
  }

  lemma {:induction false} BindEntriesStops(entries: seq<Entry>, n: nat)
    requires n <= |entries| && BindEntries(entries[..n]).None?
    ensures BindEntries(entries).None?
    decreases |entries| - n
  {
    if n < |entries| {
      assert entries[..n + 1][..n] == entries[..n];
      BindEntriesStops(entries, n + 1);
    } else {
      assert entries[..n] == entries;
    }
  }
}
