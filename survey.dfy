/** The survey vocabulary that the LaTeX serialiser and the example
    validators are written against: survey definitions, response paths,
    response values and the response map.  Only the parts those callers use
    are declared. */
module Surveys {
  import opened Wrappers
  import opened RustStr
  import opened RustNum

  // ---------------------------------------------------------------------
  // Response paths
  // ---------------------------------------------------------------------

  /** The position of a field in a survey: the field names from the root
      down, written `a.b.c` by `as_str`. */
  datatype ResponsePath = ResponsePath(segments: seq<string>)

  /** `ResponsePath::as_str`: the segments joined by `.`. */
  function AsStr(p: ResponsePath): string
  {
    Join(p.segments, ".")
  }

  /** `ResponsePath::parent`: the path with its last segment dropped (the
      root is its own parent). */
  function Parent(p: ResponsePath): (r: ResponsePath)
    ensures |p.segments| > 0 ==> |r.segments| == |p.segments| - 1
    ensures |r.segments| <= |p.segments| && r.segments == p.segments[..|r.segments|]
  {
    if |p.segments| == 0 then p else ResponsePath(p.segments[..|p.segments| - 1])
  }

  /** `ResponsePath::child`: the path one level down, at field `name`. */
  function Child(p: ResponsePath, name: string): (r: ResponsePath)
    ensures |r.segments| == |p.segments| + 1
    ensures r.segments[..|p.segments|] == p.segments && r.segments[|p.segments|] == name
  {
    ResponsePath(p.segments + [name])
  }

  /** Going one level down and back up returns to the same path, and the
      sibling `name` of a field is the child `name` of its parent. */
  lemma ParentOfChild(p: ResponsePath, name: string)
    ensures Parent(Child(p, name)) == p
  {
    assert (p.segments + [name])[..|p.segments|] == p.segments;
  }

  // ---------------------------------------------------------------------
  // Response values and the response map
  // ---------------------------------------------------------------------

  /** A collected answer.  `Other` stands for every further variant, none of
      which any validator here inspects. */
  datatype ResponseValue =
    | String(str: string)
    | Int(i: I64)
    | ChosenVariants(picks: seq<nat>)
    | Other

  /** All answers collected so far, by path. */
  type Responses = map<ResponsePath, ResponseValue>

  /** A typed accessor for a string field: present only when the stored
      value is a string. */
  function GetString(responses: Responses, path: ResponsePath): (r: Option<string>)
    ensures r.Some? <==> path in responses && responses[path].String?
    ensures r.Some? ==> r.value == responses[path].str
  {
    if path in responses && responses[path].String? then Some(responses[path].str) else None
  }

  /** A typed accessor for an integer field: present only when the stored
      value is an integer. */
  function GetInt(responses: Responses, path: ResponsePath): (r: Option<int>)
    ensures r.Some? <==> path in responses && responses[path].Int?
    ensures r.Some? ==> r.value == responses[path].i
  {
    if path in responses && responses[path].Int? then Some(responses[path].i as int) else None
  }

  /** The top-level field `name`, where the generated sibling accessors
      (`get_base`, `get_strength`, ...) look. */
  function Field(name: string): ResponsePath
  {
    ResponsePath([name])
  }

  /** `Result<(), String>`, the verdict every validator returns. */
  type Verdict = Result<(), string>

  const OK: Verdict := Ok(())

  // ---------------------------------------------------------------------
  // Survey definitions
  // ---------------------------------------------------------------------

  datatype Variant = Variant(name: string)

  /** The kind of a survey question.  The per-kind settings that the
      serialiser never reads are not carried. */
  datatype SurveyKind =
    | Unit
    | Input
    | Multiline
    | Masked
    | Int
    | Float
    | Confirm
    | List
    | OneOf(variants: seq<Variant>)
    | AnyOf(variants: seq<Variant>)
    | AllOf(questions: seq<SurveyQuestion>)

  datatype SurveyQuestion = SurveyQuestion(path: ResponsePath, ask: string, kind: SurveyKind)

  datatype SurveyDefinition = SurveyDefinition(
    prelude: Option<string>, epilogue: Option<string>, questions: seq<SurveyQuestion>)
}
