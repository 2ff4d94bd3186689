/** Answer collection in the egui backend, rendering left aside: a walk over
    the interview tree that reads the per-question edit buffers and the
    per-section chosen alternatives, fills an answer map, records parse
    errors, and reports whether every question passed.

    The walk is specified on values first (a `Walk` snapshot of the three
    maps it touches, and functions that step it question by question), then
    the backend's state is a class whose methods are proved to move their
    fields exactly as those functions say. */
module EguiBackend {
  import opened Wrappers
  import opened RustNum
  import opened Questions
  import opened Interviews
  import opened Backend

  /** The answer key under which the chosen alternative's name is stored
      (the crate-wide `SELECTED_ALTERNATIVE_KEY`). */
  const SELECTED_ALTERNATIVE_KEY: string := "selected_alternative"

  const INVALID_INTEGER: string := "Please enter a valid integer"
  const INVALID_DECIMAL: string := "Please enter a valid decimal number"
  const EXECUTE_REFUSED: string :=
    "EguiBackend::execute should not be called directly. Use show() method instead."

  /** A question's answer key: its id if it has one, otherwise its name. */
  function AnswerKey(q: Question): (k: string)
    ensures q.id.Some? ==> k == q.id.value
    ensures q.id.None? ==> k == q.name
  {
    q.id.UnwrapOr(q.name)
  }

  /** The key under which the chosen alternative of the section with index
      `idx` is kept: `section_{idx}`. */
  function AltKey(idx: nat): string
  {
    "section_" + NatToString(idx)
  }

  /** Different section indices never share a choice key. */
  lemma AltKeyInjective(i: nat, j: nat)
    requires AltKey(i) == AltKey(j)
    ensures i == j
  {
    assert NatToString(i) == AltKey(i)[8..];
    assert NatToString(j) == AltKey(j)[8..];
    NatToStringInjective(i, j);
  }

  /** The index given to the sub-section of the alternative `selected`
      chosen in the section with index `sectionIdx`. */
  function NestedIndex(sectionIdx: nat, selected: nat): nat
  {
    sectionIdx * 1000 + selected
  }

  /** Nested indices identify their parent and choice as long as fewer than
      1000 alternatives are offered. */
  lemma NestedIndexInjective(i: nat, s: nat, i': nat, s': nat)
    requires s < 1000 && s' < 1000
    requires NestedIndex(i, s) == NestedIndex(i', s')
    ensures i == i' && s == s'
  {
  }

  /** They do not stay apart from the top-level indices: the alternative `k`
      chosen inside top-level section 0 reads its own choice from the same
      key as top-level section `k`. */
  lemma NestedIndexMeetsTopLevel(k: nat)
    ensures AltKey(NestedIndex(0, k)) == AltKey(k)
  {
  }

  /** The alternative chosen in section `idx`: the stored choice, else the
      section's default. */
  function SelectedIndex(selected: map<string, nat>, idx: nat, defaultIdx: nat): (choice: nat)
    ensures AltKey(idx) in selected ==> choice == selected[AltKey(idx)]
    ensures AltKey(idx) !in selected ==> choice == defaultIdx
  {
    if AltKey(idx) in selected then selected[AltKey(idx)] else defaultIdx
  }

  // ---------------------------------------------------------------------
  // The walk, on values
  // ---------------------------------------------------------------------

  /** The three maps the walk reads and writes: the edit buffers, the
      validation errors and the answers collected so far. */
  datatype Walk = Walk(buffers: map<string, string>, errors: map<string, string>, answers: map<string, AnswerValue>)

  /** The text in a question's buffer, a missing buffer reading as empty. */
  function BufferOf(buffers: map<string, string>, key: string): string
  {
    if key in buffers then buffers[key] else ""
  }

  /** `get_or_init_buffer` on the buffer map: an existing buffer is kept, a
      missing one is created empty. */
  function InitBuffer(buffers: map<string, string>, key: string): (b: map<string, string>)
    ensures b.Keys == buffers.Keys + {key}
    ensures b[key] == BufferOf(buffers, key)
    ensures forall k :: k in buffers ==> b[k] == buffers[k]
  {
    if key in buffers then buffers else buffers[key := ""]
  }

  /** Whether a question passes with the given buffer: a Nested question
      never does, a numeric one needs an empty or parseable buffer, every
      other kind always does. */
  predicate QuestionOk(q: Question, buffer: string, parseFloat: string -> Option<F64>)
  {
    match q.kind
    case Nested(_) => false
    case Int(_) => buffer == "" || ParseI64(buffer).Some?
    case Float(_) => buffer == "" || parseFloat(buffer).Some?
    case _ => true
  }

  /** `validate_and_save_question`, on values: whether the question passed,
      and the maps afterwards. */
  function SaveQuestion(q: Question, w: Walk, parseFloat: string -> Option<F64>): (r: (bool, Walk))
    ensures var key := AnswerKey(q); var buffer := BufferOf(w.buffers, key);
      && r.1.buffers == InitBuffer(w.buffers, key)
      && (r.0 <==> QuestionOk(q, buffer, parseFloat))
      // a pass stores one answer under the key and nothing else; a failure stores nothing
      && (r.0 ==> key in r.1.answers && r.1.answers == w.answers[key := r.1.answers[key]])
      && (!r.0 ==> r.1.answers == w.answers)
      // only numeric questions touch the errors: a pass clears theirs, a failure sets it
      && (!(q.kind.Int? || q.kind.Float?) ==> r.1.errors == w.errors)
      && ((q.kind.Int? || q.kind.Float?) && r.0 ==> r.1.errors == w.errors - {key})
      && (q.kind.Int? && !r.0 ==> r.1.errors == w.errors[key := INVALID_INTEGER])
      && (q.kind.Float? && !r.0 ==> r.1.errors == w.errors[key := INVALID_DECIMAL])
  {
    var key := AnswerKey(q);
    var buffer := BufferOf(w.buffers, key);
    var w := w.(buffers := InitBuffer(w.buffers, key));
    match q.kind
    case Input(c) =>
      (true, w.(answers := w.answers[key := AnswerValue.String(if buffer == "" then c.default.UnwrapOr("") else buffer)]))
    case Multiline(c) =>
      (true, w.(answers := w.answers[key := AnswerValue.String(if buffer == "" then c.default.UnwrapOr("") else buffer)]))
    case Masked(_) =>
      (true, w.(answers := w.answers[key := AnswerValue.String(buffer)]))
    case Int(c) =>
      if buffer == "" then
        (true, w.(answers := w.answers[key := AnswerValue.Int(c.default.UnwrapOr(0))], errors := w.errors - {key}))
      else if ParseI64(buffer).Some? then
        (true, w.(answers := w.answers[key := AnswerValue.Int(ParseI64(buffer).value)], errors := w.errors - {key}))
      else
        (false, w.(errors := w.errors[key := INVALID_INTEGER]))
    case Float(c) =>
      if buffer == "" then
        (true, w.(answers := w.answers[key := AnswerValue.Float(c.default.UnwrapOr(F64_ZERO))], errors := w.errors - {key}))
      else if parseFloat(buffer).Some? then
        (true, w.(answers := w.answers[key := AnswerValue.Float(parseFloat(buffer).value)], errors := w.errors - {key}))
      else
        (false, w.(errors := w.errors[key := INVALID_DECIMAL]))
    case Confirm(_) =>
      (true, w.(answers := w.answers[key := AnswerValue.Bool(buffer == "true")]))
    case Nested(_) =>
      (false, w)
  }

  /** What one question stores, kind by kind: the text (or the default
      when the buffer is empty), `true` for a checked box, the parsed
      number. */
  lemma SaveQuestionStores(q: Question, w: Walk, parseFloat: string -> Option<F64>)
    ensures var r := SaveQuestion(q, w, parseFloat); var key := AnswerKey(q); var buffer := BufferOf(w.buffers, key);
      && ((q.kind.Input? || q.kind.Multiline?) ==>
           (r.1.answers[key].String?
            && r.1.answers[key].str == (if buffer == "" then
                 (if q.kind.Input? then q.kind.input.default else q.kind.multiline.default).UnwrapOr("")
               else buffer)))
      && (q.kind.Masked? ==> r.1.answers[key] == AnswerValue.String(buffer))
      && (q.kind.Confirm? ==> r.1.answers[key] == AnswerValue.Bool(buffer == "true"))
      && (q.kind.Int? && r.0 ==>
           (r.1.answers[key].Int?
            && (buffer == "" ==> r.1.answers[key].i == q.kind.integer.default.UnwrapOr(0))
            && (buffer != "" ==> ParseI64(buffer) == Some(r.1.answers[key].i))))
      && (q.kind.Float? && r.0 ==>
           (r.1.answers[key].Float?
            && (buffer == "" ==> r.1.answers[key].float == q.kind.float.default.UnwrapOr(F64_ZERO))
            && (buffer != "" ==> parseFloat(buffer) == Some(r.1.answers[key].float))))
  {
  }

  /** The questions of a sequence in order, every one visited even after a
      failure; the result is whether all passed. */
  function SaveQuestions(qs: seq<Question>, w: Walk, parseFloat: string -> Option<F64>): (bool, Walk)
  {
    if |qs| == 0 then (true, w)
    else
      var before := SaveQuestions(qs[..|qs| - 1], w, parseFloat);
      var last := SaveQuestion(qs[|qs| - 1], before.1, parseFloat);
      (before.0 && last.0, last.1)
  }

  /** `validate_section`, on values. */
  function WalkSection(s: Section, idx: nat, selected: map<string, nat>, w: Walk,
                       parseFloat: string -> Option<F64>): (bool, Walk)
    decreases s
  {
    match s
    case Empty => (true, w)
    case Sequence(qs) => SaveQuestions(qs, w, parseFloat)
    case Alternatives(defaultIdx, alts) =>
      var choice := SelectedIndex(selected, idx, defaultIdx);
      if choice < |alts| then
        var w' := w.(answers := w.answers[SELECTED_ALTERNATIVE_KEY := AnswerValue.String(alts[choice].name)]);
        WalkSection(alts[choice].section, NestedIndex(idx, choice), selected, w', parseFloat)
      else (true, w)
  }

  /** The top-level sections in order, section `i` walked with index `i`. */
  function WalkSections(sections: seq<Section>, selected: map<string, nat>, w: Walk,
                        parseFloat: string -> Option<F64>): (bool, Walk)
  {
    if |sections| == 0 then (true, w)
    else
      var before := WalkSections(sections[..|sections| - 1], selected, w, parseFloat);
      var last := WalkSection(sections[|sections| - 1], |sections| - 1, selected, before.1, parseFloat);
      (before.0 && last.0, last.1)
  }

  // ---------------------------------------------------------------------
  // What the walk guarantees
  // ---------------------------------------------------------------------

  /** Whether a section passes, stated on the buffers alone: every question
      of a sequence passes, and an alternatives section passes when its
      chosen sub-section does or when the choice is out of range. */
  predicate SectionOk(s: Section, idx: nat, selected: map<string, nat>, buffers: map<string, string>,
                      parseFloat: string -> Option<F64>)
    decreases s
  {
    match s
    case Empty => true
    case Sequence(qs) =>
      forall i :: 0 <= i < |qs| ==> QuestionOk(qs[i], BufferOf(buffers, AnswerKey(qs[i])), parseFloat)
    case Alternatives(defaultIdx, alts) =>
      var choice := SelectedIndex(selected, idx, defaultIdx);
      choice < |alts| ==> SectionOk(alts[choice].section, NestedIndex(idx, choice), selected, buffers, parseFloat)
  }

  /** Every top-level section passes. */
  predicate InterviewOk(sections: seq<Section>, selected: map<string, nat>, buffers: map<string, string>,
                        parseFloat: string -> Option<F64>)
  {
    forall i :: 0 <= i < |sections| ==> SectionOk(sections[i], i, selected, buffers, parseFloat)
  }

  /** The walk only ever adds empty buffers (existing text is never changed)
      and never removes an answer key. */
  predicate Grows(w: Walk, w': Walk)
  {
    && (forall k :: k in w.buffers ==> k in w'.buffers && w'.buffers[k] == w.buffers[k])
    && (forall k :: k in w'.buffers && k !in w.buffers ==> w'.buffers[k] == "")
    && w.answers.Keys <= w'.answers.Keys
  }

  lemma GrowsBufferOf(w: Walk, w': Walk, key: string)
    requires Grows(w, w')
    ensures BufferOf(w'.buffers, key) == BufferOf(w.buffers, key)
  {
  }

  /** One question: the maps grow, and a pass adds no error. */
  lemma SaveQuestionFacts(q: Question, w: Walk, parseFloat: string -> Option<F64>)
    ensures Grows(w, SaveQuestion(q, w, parseFloat).1)
    ensures SaveQuestion(q, w, parseFloat).0 ==> SaveQuestion(q, w, parseFloat).1.errors.Keys <= w.errors.Keys
  {
  }

  /** The sequence walk: what grows, and that a pass leaves no new error
      behind. */
  lemma {:induction false} SaveQuestionsGrow(qs: seq<Question>, w: Walk, parseFloat: string -> Option<F64>)
    ensures Grows(w, SaveQuestions(qs, w, parseFloat).1)
    ensures SaveQuestions(qs, w, parseFloat).0 ==> SaveQuestions(qs, w, parseFloat).1.errors.Keys <= w.errors.Keys
  {
    if |qs| > 0 {
      SaveQuestionsGrow(qs[..|qs| - 1], w, parseFloat);
      SaveQuestionFacts(qs[|qs| - 1], SaveQuestions(qs[..|qs| - 1], w, parseFloat).1, parseFloat);
    }
  }

  /** The sequence walk passes exactly when every question passes on the
      buffers as they were before the walk. */
  lemma {:induction false} SaveQuestionsValid(qs: seq<Question>, w: Walk, parseFloat: string -> Option<F64>)
    ensures SaveQuestions(qs, w, parseFloat).0
        <==> forall i :: 0 <= i < |qs| ==> QuestionOk(qs[i], BufferOf(w.buffers, AnswerKey(qs[i])), parseFloat)
  {
    if |qs| > 0 {
      var init := qs[..|qs| - 1];
      var q := qs[|qs| - 1];
      SaveQuestionsValid(init, w, parseFloat);
      var before := SaveQuestions(init, w, parseFloat);
      var lastOk := SaveQuestion(q, before.1, parseFloat).0;
      assert lastOk == QuestionOk(q, BufferOf(w.buffers, AnswerKey(q)), parseFloat) by {
        SaveQuestionsGrow(init, w, parseFloat);
        GrowsBufferOf(w, before.1, AnswerKey(q));
      }
      assert SaveQuestions(qs, w, parseFloat).0 == (before.0 && lastOk);
      var n := |init|;
      if before.0 && lastOk {
        forall i | 0 <= i < |qs| ensures QuestionOk(qs[i], BufferOf(w.buffers, AnswerKey(qs[i])), parseFloat) {
          if i < n {
            assert qs[i] == init[i];
          }
        }
      } else if !before.0 {
        var i :| 0 <= i < n && !QuestionOk(init[i], BufferOf(w.buffers, AnswerKey(init[i])), parseFloat);
        assert qs[i] == init[i];
      } else {
        assert qs[n] == q;
      }
    }
  }

  /** A section walk: the maps grow, and a pass leaves no new error behind. */
  lemma {:induction false} WalkSectionGrows(s: Section, idx: nat, selected: map<string, nat>, w: Walk,
                                            parseFloat: string -> Option<F64>)
    ensures Grows(w, WalkSection(s, idx, selected, w, parseFloat).1)
    ensures WalkSection(s, idx, selected, w, parseFloat).0
        ==> WalkSection(s, idx, selected, w, parseFloat).1.errors.Keys <= w.errors.Keys
    decreases s
  {
    match s
    case Empty =>
    case Sequence(qs) =>
      SaveQuestionsGrow(qs, w, parseFloat);
    case Alternatives(defaultIdx, alts) =>
      var choice := SelectedIndex(selected, idx, defaultIdx);
      if choice < |alts| {
        var w' := w.(answers := w.answers[SELECTED_ALTERNATIVE_KEY := AnswerValue.String(alts[choice].name)]);
        WalkSectionGrows(alts[choice].section, NestedIndex(idx, choice), selected, w', parseFloat);
      }
  }

  /** A section walk passes exactly when the section passes on the buffers
      as they were before it. */
  lemma {:induction false} WalkSectionValid(s: Section, idx: nat, selected: map<string, nat>, w: Walk,
                                            parseFloat: string -> Option<F64>)
    ensures WalkSection(s, idx, selected, w, parseFloat).0 <==> SectionOk(s, idx, selected, w.buffers, parseFloat)
    decreases s
  {
    match s
    case Empty =>
    case Sequence(qs) =>
      SaveQuestionsValid(qs, w, parseFloat);
    case Alternatives(defaultIdx, alts) =>
      var choice := SelectedIndex(selected, idx, defaultIdx);
      if choice < |alts| {
        var w' := w.(answers := w.answers[SELECTED_ALTERNATIVE_KEY := AnswerValue.String(alts[choice].name)]);
        WalkSectionValid(alts[choice].section, NestedIndex(idx, choice), selected, w', parseFloat);
      }
  }

  /** The whole interview: the maps grow, and a pass leaves no new error
      behind. */
  lemma {:induction false} WalkSectionsGrow(sections: seq<Section>, selected: map<string, nat>, w: Walk,
                                            parseFloat: string -> Option<F64>)
    ensures Grows(w, WalkSections(sections, selected, w, parseFloat).1)
    ensures WalkSections(sections, selected, w, parseFloat).0
        ==> WalkSections(sections, selected, w, parseFloat).1.errors.Keys <= w.errors.Keys
  {
    if |sections| > 0 {
      var n := |sections| - 1;
      WalkSectionsGrow(sections[..n], selected, w, parseFloat);
      WalkSectionGrows(sections[n], n, selected, WalkSections(sections[..n], selected, w, parseFloat).1, parseFloat);
    }
  }

  /** The walk over the whole interview passes exactly when every section
      passes on the buffers as they were before it. */
  lemma {:induction false} WalkSectionsValid(sections: seq<Section>, selected: map<string, nat>, w: Walk,
                                             parseFloat: string -> Option<F64>)
    ensures WalkSections(sections, selected, w, parseFloat).0 <==> InterviewOk(sections, selected, w.buffers, parseFloat)
  {
    if |sections| > 0 {
      var n := |sections| - 1;
      var init := sections[..n];
      WalkSectionsValid(init, selected, w, parseFloat);
      WalkSectionsGrow(init, selected, w, parseFloat);
      var before := WalkSections(init, selected, w, parseFloat);
      var last := WalkSection(sections[n], n, selected, before.1, parseFloat);
      assert WalkSections(sections, selected, w, parseFloat).0 == (before.0 && last.0);
      WalkSectionValid(sections[n], n, selected, before.1, parseFloat);
      forall k ensures BufferOf(before.1.buffers, k) == BufferOf(w.buffers, k) {
        GrowsBufferOf(w, before.1, k);
      }
      SectionOkBuffers(sections[n], n, selected, w.buffers, before.1.buffers, parseFloat);
      InterviewOkSnoc(sections, selected, w.buffers, parseFloat);
    }
  }

  lemma InterviewOkSnoc(sections: seq<Section>, selected: map<string, nat>, buffers: map<string, string>,
                        parseFloat: string -> Option<F64>)
    requires |sections| > 0
    ensures InterviewOk(sections, selected, buffers, parseFloat)
        <==> InterviewOk(sections[..|sections| - 1], selected, buffers, parseFloat)
             && SectionOk(sections[|sections| - 1], |sections| - 1, selected, buffers, parseFloat)
  {
    var init := sections[..|sections| - 1];
    var n := |sections| - 1;
    if InterviewOk(sections, selected, buffers, parseFloat) {
      forall i | 0 <= i < n ensures SectionOk(init[i], i, selected, buffers, parseFloat) {
        assert init[i] == sections[i];
      }
    }
    if InterviewOk(init, selected, buffers, parseFloat) && SectionOk(sections[n], n, selected, buffers, parseFloat) {
      forall i | 0 <= i < |sections| ensures SectionOk(sections[i], i, selected, buffers, parseFloat) {
        if i < n {
          assert sections[i] == init[i];
        }
      }
    }
  }

  /** Whether a section passes depends on the buffers only through the text
      they hold, so extra empty buffers change nothing. */
  lemma {:induction false} SectionOkBuffers(s: Section, idx: nat, selected: map<string, nat>,
                                            b: map<string, string>, b': map<string, string>,
                                            parseFloat: string -> Option<F64>)
    requires forall k :: BufferOf(b', k) == BufferOf(b, k)
    ensures SectionOk(s, idx, selected, b', parseFloat) <==> SectionOk(s, idx, selected, b, parseFloat)
    decreases s
  {
    match s
    case Empty =>
    case Sequence(qs) =>
    case Alternatives(defaultIdx, alts) =>
      var choice := SelectedIndex(selected, idx, defaultIdx);
      if choice < |alts| {
        SectionOkBuffers(alts[choice].section, NestedIndex(idx, choice), selected, b, b', parseFloat);
      }
  }

  /** An alternatives section whose choice is out of range passes and
      writes nothing. */
  lemma OutOfRangeChoice(s: Section, idx: nat, selected: map<string, nat>, w: Walk,
                         parseFloat: string -> Option<F64>)
    requires s.Alternatives? && SelectedIndex(selected, idx, s.defaultIdx) >= |s.alternatives|
    ensures WalkSection(s, idx, selected, w, parseFloat) == (true, w)
  {
  }

  /** A sequence leaves alone every answer key none of its questions uses. */
  lemma {:induction false} SaveQuestionsUntouched(qs: seq<Question>, w: Walk, parseFloat: string -> Option<F64>, key: string)
    requires forall i :: 0 <= i < |qs| ==> AnswerKey(qs[i]) != key
    requires key in w.answers
    ensures key in SaveQuestions(qs, w, parseFloat).1.answers
    ensures SaveQuestions(qs, w, parseFloat).1.answers[key] == w.answers[key]
  {
    if |qs| > 0 {
      SaveQuestionsUntouched(qs[..|qs| - 1], w, parseFloat, key);
    }
  }

  /** An in-range choice stores the chosen alternative's name under
      `selected_alternative`, where it stays when the alternative's own
      section is empty or a sequence with no question of that key (a nested
      alternatives section overwrites it with its own choice). */
  lemma SelectedAlternativeRecorded(s: Section, idx: nat, selected: map<string, nat>, w: Walk,
                                    parseFloat: string -> Option<F64>)
    requires s.Alternatives?
    requires SelectedIndex(selected, idx, s.defaultIdx) < |s.alternatives|
    requires var sub := s.alternatives[SelectedIndex(selected, idx, s.defaultIdx)].section;
      sub.Empty? || (sub.Sequence? && forall i :: 0 <= i < |sub.sequence| ==> AnswerKey(sub.sequence[i]) != SELECTED_ALTERNATIVE_KEY)
    ensures var choice := SelectedIndex(selected, idx, s.defaultIdx);
      && SELECTED_ALTERNATIVE_KEY in WalkSection(s, idx, selected, w, parseFloat).1.answers
      && WalkSection(s, idx, selected, w, parseFloat).1.answers[SELECTED_ALTERNATIVE_KEY]
        == AnswerValue.String(s.alternatives[choice].name)
  {
    var choice := SelectedIndex(selected, idx, s.defaultIdx);
    var alt := s.alternatives[choice];
    var w' := w.(answers := w.answers[SELECTED_ALTERNATIVE_KEY := AnswerValue.String(alt.name)]);
    if alt.section.Sequence? {
      SaveQuestionsUntouched(alt.section.sequence, w', parseFloat, SELECTED_ALTERNATIVE_KEY);
    }
  }

  /** An integer written back into an Int question's buffer is stored as
      that integer. */
  lemma IntBufferRoundTrip(q: Question, w: Walk, n: I64, parseFloat: string -> Option<F64>)
    requires q.kind.Int? && BufferOf(w.buffers, AnswerKey(q)) == IntToString(n)
    ensures SaveQuestion(q, w, parseFloat).0
    ensures SaveQuestion(q, w, parseFloat).1.answers[AnswerKey(q)] == AnswerValue.Int(n)
  {
    ParsePrinted(n);
    assert IntToString(n) != "" by {
      if n < 0 { } else { assert |NatToString(n)| >= 1; }
    }
  }

  /** A Nested question fails the walk without any message being shown. */
  lemma NestedFailsSilently(q: Question, w: Walk, parseFloat: string -> Option<F64>)
    requires q.kind.Nested?
    ensures !SaveQuestion(q, w, parseFloat).0
    ensures SaveQuestion(q, w, parseFloat).1.errors == w.errors
  {
  }

  // ---------------------------------------------------------------------
  // The backend's state
  // ---------------------------------------------------------------------

  /** The maps the backend keeps between frames. */
  class InterviewState {
    var inputBuffers: map<string, string>
    var selectedAlternatives: map<string, nat>
    var validationErrors: map<string, string>

    constructor ()
      ensures inputBuffers == map[] && selectedAlternatives == map[] && validationErrors == map[]
    {
      inputBuffers := map[];
      selectedAlternatives := map[];
      validationErrors := map[];
    }

    /** `get_or_init_buffer`: the buffer's text, an empty buffer being
        created only when none exists. */
    method GetOrInitBuffer(key: string) returns (buffer: string)
      modifies this
      ensures inputBuffers == InitBuffer(old(inputBuffers), key)
      ensures buffer == BufferOf(old(inputBuffers), key) && buffer == inputBuffers[key]
      ensures selectedAlternatives == old(selectedAlternatives) && validationErrors == old(validationErrors)
    {
      if key !in inputBuffers {
        inputBuffers := inputBuffers[key := ""];
      }
      buffer := inputBuffers[key];
    }
  }

  /** The backend-trait entry point: the egui backend cannot block on an
      interview, so it always refuses with a `Custom` error pointing to
      `show`, whatever interview it is given. */
  function Execute(interview: Interview): (r: Result<Answers, BackendError>)
    ensures r.Err? && r.error.Custom?
    ensures r.error.message == EXECUTE_REFUSED
  {
    Err(Custom(EXECUTE_REFUSED))
  }

  class EguiBackend {
    const interview: Interview
    const state: InterviewState
    var completed: bool
    var result: Option<Result<Answers, BackendError>>
    /** `str::parse::<f64>`, whose floating-point semantics are not modelled. */
    const parseFloat: string -> Option<F64>

    constructor (interview: Interview, parseFloat: string -> Option<F64>)
      ensures this.interview == interview && this.parseFloat == parseFloat
      ensures fresh(state) && state.inputBuffers == map[] && state.selectedAlternatives == map[]
      ensures state.validationErrors == map[]
      ensures !completed && result.None?
    {
      this.interview := interview;
      this.parseFloat := parseFloat;
      state := new InterviewState();
      completed := false;
      result := None;
    }

    /** The part of the state the walk touches, with the answers being filled. */
    function Snapshot(answers: Answers): Walk
      reads state, answers
    {
      Walk(state.inputBuffers, state.validationErrors, answers.values)
    }

    /** `validate_and_save_question`. */
    method ValidateAndSaveQuestion(q: Question, answers: Answers) returns (ok: bool)
      modifies state, answers
      ensures (ok, Snapshot(answers)) == SaveQuestion(q, old(Snapshot(answers)), parseFloat)
      ensures state.selectedAlternatives == old(state.selectedAlternatives)
    {
      var key := AnswerKey(q);
      var buffer := state.GetOrInitBuffer(key);
      match q.kind {
        case Input(c) =>
          answers.Insert(key, AnswerValue.String(if buffer == "" then c.default.UnwrapOr("") else buffer));
          ok := true;
        case Multiline(c) =>
          answers.Insert(key, AnswerValue.String(if buffer == "" then c.default.UnwrapOr("") else buffer));
          ok := true;
        case Masked(_) =>
          answers.Insert(key, AnswerValue.String(buffer));
          ok := true;
        case Int(c) =>
          if buffer == "" {
            answers.Insert(key, AnswerValue.Int(c.default.UnwrapOr(0)));
            state.validationErrors := state.validationErrors - {key};
            ok := true;
          } else {
            var parsed := ParseI64(buffer);
            if parsed.Some? {
              answers.Insert(key, AnswerValue.Int(parsed.value));
              state.validationErrors := state.validationErrors - {key};
              ok := true;
            } else {
              state.validationErrors := state.validationErrors[key := INVALID_INTEGER];
              ok := false;
            }
          }
        case Float(c) =>
          if buffer == "" {
            answers.Insert(key, AnswerValue.Float(c.default.UnwrapOr(F64_ZERO)));
            state.validationErrors := state.validationErrors - {key};
            ok := true;
          } else {
            var parsed := parseFloat(buffer);
            if parsed.Some? {
              answers.Insert(key, AnswerValue.Float(parsed.value));
              state.validationErrors := state.validationErrors - {key};
              ok := true;
            } else {
              state.validationErrors := state.validationErrors[key := INVALID_DECIMAL];
              ok := false;
            }
          }
        case Confirm(_) =>
          answers.Insert(key, AnswerValue.Bool(buffer == "true"));
          ok := true;
        case Nested(_) =>
          ok := false;
      }
    }

    /** `validate_section`. */
    method ValidateSection(section: Section, idx: nat, answers: Answers) returns (valid: bool)
      modifies state, answers
      ensures (valid, Snapshot(answers)) == WalkSection(section, idx, state.selectedAlternatives, old(Snapshot(answers)), parseFloat)
      ensures state.selectedAlternatives == old(state.selectedAlternatives)
      decreases section
    {
      match section {
        case Empty =>
          valid := true;
        case Sequence(qs) =>
          valid := true;
          var i := 0;
          while i < |qs|
            invariant 0 <= i <= |qs|
            invariant state.selectedAlternatives == old(state.selectedAlternatives)
            invariant (valid, Snapshot(answers)) == SaveQuestions(qs[..i], old(Snapshot(answers)), parseFloat)
          {
            var ok := ValidateAndSaveQuestion(qs[i], answers);
            if !ok {
              valid := false;
            }
            assert qs[..i + 1][..i] == qs[..i];
            i := i + 1;
          }
          assert qs[..|qs|] == qs;
        case Alternatives(defaultIdx, alts) =>
          var altKey := AltKey(idx);
          var choice := if altKey in state.selectedAlternatives then state.selectedAlternatives[altKey] else defaultIdx;
          var alt := GetAlternative(alts, choice);
          if alt.Some? {
            answers.Insert(SELECTED_ALTERNATIVE_KEY, AnswerValue.String(alt.value.name));
            valid := ValidateSection(alt.value.section, NestedIndex(idx, choice), answers);
          } else {
            valid := true;
          }
      }
    }

    /** `validate_and_save_all`: clears the errors, walks every section
        with fresh answers, and publishes them as the result only when
        everything passed. */
    method ValidateAndSaveAll() returns (allValid: bool)
      modifies this, state
      ensures var w := WalkSections(interview.sections, old(state.selectedAlternatives),
                                    Walk(old(state.inputBuffers), map[], map[]), parseFloat);
        && allValid == w.0
        && state.inputBuffers == w.1.buffers && state.validationErrors == w.1.errors
        && (allValid ==> result.Some? && result.value.Ok? && fresh(result.value.value)
                         && result.value.value.values == w.1.answers)
      ensures allValid <==> InterviewOk(interview.sections, old(state.selectedAlternatives), old(state.inputBuffers), parseFloat)
      ensures allValid ==> state.validationErrors == map[]
      ensures !allValid ==> result == old(result)
      ensures state.selectedAlternatives == old(state.selectedAlternatives) && completed == old(completed)
    {
      state.validationErrors := map[];
      var answers := new Answers();
      allValid := true;
      var sections := interview.sections;
      ghost var w0 := Walk(state.inputBuffers, map[], map[]);
      var i := 0;
      while i < |sections|
        invariant 0 <= i <= |sections|
        invariant fresh(answers)
        invariant state.selectedAlternatives == old(state.selectedAlternatives)
        invariant result == old(result) && completed == old(completed)
        invariant (allValid, Snapshot(answers)) == WalkSections(sections[..i], state.selectedAlternatives, w0, parseFloat)
      {
        var ok := ValidateSection(sections[i], i, answers);
        if !ok {
          allValid := false;
        }
        assert sections[..i + 1][..i] == sections[..i];
        i := i + 1;
      }
      assert sections[..|sections|] == sections;
      WalkSectionsGrow(sections, state.selectedAlternatives, w0, parseFloat);
      WalkSectionsValid(sections, state.selectedAlternatives, w0, parseFloat);
      if allValid {
        result := Some(Ok(answers));
      }
    }
  }
}
