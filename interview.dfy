/** The interview tree: an ordered list of sections, each one empty, a
    sequence of questions, or a choice among named alternatives that each
    carry a whole section of their own. */
module Interviews {
  import opened Wrappers
  import opened Questions

  /** A choice offered by an `Alternatives` section. */
  datatype Alternative = Alternative(name: string, section: Section)

  /** Exactly one of the three section shapes. The default index of
      `Alternatives` is not bounded by the number of alternatives. */
  datatype Section =
    | Empty
    | Sequence(sequence: seq<Question>)
    | Alternatives(defaultIdx: nat, alternatives: seq<Alternative>)

  datatype Interview = Interview(sections: seq<Section>)

  /** `alternatives.get(i)`: the alternative at an index, or nothing when
      the index is out of range. */
  function GetAlternative(alternatives: seq<Alternative>, i: nat): (r: Option<Alternative>)
    ensures r.Some? <==> i < |alternatives|
    ensures r.Some? ==> r.value == alternatives[i]
  {
    if i < |alternatives| then Some(alternatives[i]) else None
  }
}
