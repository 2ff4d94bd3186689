/** The LaTeX fillable-form serialiser: a survey definition becomes one
    `article` document holding a `Form` with one field (or one group of
    fields) per question.  The specification functions say what the text is;
    the methods build it by successive appends, as the serialiser does. */
module LatexDocument {
  import opened Wrappers
  import opened RustStr
  import opened Surveys

  const DOCUMENT_CLASS := "\\documentclass{article}\n"
  const DOCUMENT_HEADER := DOCUMENT_CLASS + PREAMBLE
  const PREAMBLE := "\\usepackage[pdftex,unicode]{hyperref}\n"
    + "\\usepackage{geometry}\n"
    + "\\hypersetup{pdfborder=0 0 0}\n"
    + "\\geometry{margin=1in}\n"
    + "\\begin{document}\n"
  const FORM_OPEN := "\\begin{Form}\n\n"
  const FORM_CLOSE := "\\end{Form}\n"
  const DOCUMENT_END := "\\end{document}"
  const QUESTION_GAP := "\\bigskip\n"

  // The fixed pieces of a question's rendering.
  const TEXT_FIELD := "\\\\\n\\TextField[name="
  const CHECK_BOX := "\\\\\n\\CheckBox[name="
  const CHOICE_MENU := "\\\\\n\\ChoiceMenu[popdown,name="
  const WIDE_FIELD_END := ",width=3in]{}\n\\medskip\n"
  const NARROW_FIELD_END := ",width=1in]{}\n"
  const INTEGER_NOTE := "% (integer only)\n\\medskip\n"
  const YES_BOX_END := "]{} Yes\n\\medskip\n"
  const CHOICE_MENU_MIDDLE := ",width=2in]{}{"
  const CHOICE_MENU_END := "}\n\\medskip\n"
  const CHECK_BOX_LABEL := "]{} "
  const MEDSKIP := "\\medskip\n"
  const MULTILINE_FIELD_END := ",multiline=true,width=3in,height=1in]{}\n\\medskip\n"
  const UNIT_NOTE := "% [Unit] No data to collect\n\\medskip\n"
  const NOT_MASKED_NOTE := "% (not masked in PDF)\n\\medskip\n"
  const FLOAT_NOTE := "% [Float] Floating-point input not supported in LaTeX\n\\medskip\n"
  const LIST_NOTE := "% [List] List input not supported in LaTeX\n\\medskip\n"

  // ---------------------------------------------------------------------
  // Escaping
  // ---------------------------------------------------------------------

  /** The ask text as printed: every `&` becomes `\&`. */
  function EscapeAsk(ask: string): string
  {
    ReplaceChar(ask, '&', "\\&")
  }

  /** A form field name: the dotted path with every `_` written `\_`. */
  function FieldName(path: ResponsePath): string
  {
    ReplaceChar(AsStr(path), '_', "\\_")
  }

  /** The name of the check box for one variant of a multi-choice question:
      `path_variant`, spaces in the variant turned into `_`, and then every
      underscore escaped. */
  function CheckboxName(path: ResponsePath, variant: string): string
  {
    ReplaceChar(AsStr(path) + "_" + ReplaceChar(variant, ' ', "_"), '_', "\\_")
  }

  /** Reading back a text escaped with a backslash before each `c`. */
  function Unescape(s: string, c: char): string
  {
    if |s| == 0 then ""
    else if |s| >= 2 && s[0] == '\\' && s[1] == c then [c] + Unescape(s[2..], c)
    else [s[0]] + Unescape(s[1..], c)
  }

  /** An escaped text never starts with the escaped character itself. */
  lemma EscapedHead(s: string, c: char)
    requires c != '\\'
    ensures var e := ReplaceChar(s, c, ['\\', c]); |e| > 0 ==> e[0] != c
  {
  }

  /** Escaping loses nothing: it is undone by `Unescape`, whatever the text
      held before (backslashes included). */
  lemma {:induction false} UnescapeEscape(s: string, c: char)
    requires c != '\\'
    ensures Unescape(ReplaceChar(s, c, ['\\', c]), c) == s
  {
    if |s| > 0 {
      var rest := ReplaceChar(s[1..], c, ['\\', c]);
      UnescapeEscape(s[1..], c);
      EscapedHead(s[1..], c);
      if s[0] == c {
        assert ReplaceChar(s, c, ['\\', c]) == ['\\', c] + rest;
        assert (['\\', c] + rest)[2..] == rest;
      } else {
        assert ReplaceChar(s, c, ['\\', c]) == [s[0]] + rest;
        assert ([s[0]] + rest)[1..] == rest;
        assert [s[0]] + s[1..] == s;
      }
    }
  }

  /** The printed ask text reads back as the ask, and a text without `&`
      is printed unchanged: `&` is the only character escaped. */
  lemma AskEscaping(ask: string)
    ensures Unescape(EscapeAsk(ask), '&') == ask
    ensures '&' !in ask ==> EscapeAsk(ask) == ask
  {
    UnescapeEscape(ask, '&');
    if '&' !in ask {
      ReplaceCharAbsent(ask, '&', "\\&");
    }
  }

  /** A field name reads back as the dotted path of its question. */
  lemma FieldNameReadsBack(path: ResponsePath)
    ensures Unescape(FieldName(path), '_') == AsStr(path)
  {
    UnescapeEscape(AsStr(path), '_');
  }

  /** A check box name is the field name of the question, an escaped
      underscore, and the variant name with its spaces and underscores
      both written `\_`. */
  lemma CheckboxNameParts(path: ResponsePath, variant: string)
    ensures CheckboxName(path, variant)
      == FieldName(path) + "\\_" + ReplaceChar(ReplaceChar(variant, ' ', "_"), '_', "\\_")
  {
    var p := AsStr(path);
    var v := ReplaceChar(variant, ' ', "_");
    ReplaceCharAppend(p + "_", v, '_', "\\_");
    ReplaceCharAppend(p, "_", '_', "\\_");
    assert ReplaceChar("_", '_', "\\_") == "\\_" by {
      assert "_"[1..] == "";
    }
  }

  // ---------------------------------------------------------------------
  // Rendering one question
  // ---------------------------------------------------------------------

  /** The variant names of a choice question, in declaration order. */
  function VariantNames(variants: seq<Variant>): (names: seq<string>)
    ensures |names| == |variants|
    ensures forall i :: 0 <= i < |variants| ==> names[i] == variants[i].name
  {
    if |variants| == 0 then [] else VariantNames(variants[..|variants| - 1]) + [variants[|variants| - 1].name]
  }

  /** The option list of a drop-down menu: the names joined by `,`. */
  function ChoiceOptions(variants: seq<Variant>): string
  {
    Join(VariantNames(variants), ",")
  }

  /** The drop-down menu lists every variant once, in declaration order:
      splitting its option list on `,` gives the names back, provided no
      name holds a comma. */
  lemma ChoiceOptionsInOrder(variants: seq<Variant>)
    requires |variants| >= 1
    requires forall i :: 0 <= i < |variants| ==> ',' !in variants[i].name
    ensures Split(ChoiceOptions(variants), ',') == VariantNames(variants)
  {
    SplitOfJoin(VariantNames(variants), ',');
  }

  /** One check box line of a multi-choice question. */
  function CheckboxLine(path: ResponsePath, v: Variant): string
  {
    CHECK_BOX + CheckboxName(path, v.name) + CHECK_BOX_LABEL + v.name + "\n"
  }

  /** The check box lines for `variants`, in order. */
  function CheckboxLines(path: ResponsePath, variants: seq<Variant>): string
  {
    if |variants| == 0 then ""
    else CheckboxLines(path, variants[..|variants| - 1]) + CheckboxLine(path, variants[|variants| - 1])
  }

  /** A multi-choice question has one check box line per variant. */
  lemma {:induction false} CheckboxLinesCount(path: ResponsePath, variants: seq<Variant>)
    ensures Count(CheckboxLines(path, variants), '\n') >= |variants|
  {
    if |variants| > 0 {
      var init := variants[..|variants| - 1];
      var line := CheckboxLine(path, variants[|variants| - 1]);
      CheckboxLinesCount(path, init);
      CountSplitAt(CheckboxLines(path, init) + line, |CheckboxLines(path, init)|, '\n');
      assert (CheckboxLines(path, init) + line)[..|CheckboxLines(path, init)|] == CheckboxLines(path, init);
      assert (CheckboxLines(path, init) + line)[|CheckboxLines(path, init)|..] == line;
      CountZero(line, '\n');
      assert line[|line| - 1] == '\n';
    }
  }

  /** What a question prints after its ask text and before the closing
      newline, by kind. */
  function KindBlock(q: SurveyQuestion): string
    decreases q, 0
  {
    match q.kind
    case Input => TEXT_FIELD + FieldName(q.path) + WIDE_FIELD_END
    case Int => TEXT_FIELD + FieldName(q.path) + NARROW_FIELD_END + INTEGER_NOTE
    case Confirm => CHECK_BOX + FieldName(q.path) + YES_BOX_END
    case OneOf(variants) =>
      CHOICE_MENU + FieldName(q.path) + CHOICE_MENU_MIDDLE + ChoiceOptions(variants) + CHOICE_MENU_END
    case AnyOf(variants) => CheckboxLines(q.path, variants) + MEDSKIP
    case AllOf(questions) => RenderAll(questions)
    case Multiline => TEXT_FIELD + FieldName(q.path) + MULTILINE_FIELD_END
    case Unit => UNIT_NOTE
    case Masked => TEXT_FIELD + FieldName(q.path) + WIDE_FIELD_END + NOT_MASKED_NOTE
    case Float => FLOAT_NOTE
    case List => LIST_NOTE
  }

  /** `render_question`: the escaped ask text, the kind's block, and a
      newline. */
  function Render(q: SurveyQuestion): (r: string)
    ensures |r| > |EscapeAsk(q.ask)|
    ensures r[..|EscapeAsk(q.ask)|] == EscapeAsk(q.ask)
    ensures r[|r| - 1] == '\n'
    decreases q, 1
  {
    EscapeAsk(q.ask) + KindBlock(q) + "\n"
  }

  /** The renderings of `qs`, one after the other. */
  function RenderAll(qs: seq<SurveyQuestion>): string
    decreases qs
  {
    if |qs| == 0 then "" else RenderAll(qs[..|qs| - 1]) + Render(qs[|qs| - 1])
  }

  // ---------------------------------------------------------------------
  // The document
  // ---------------------------------------------------------------------

  function PreludeBlock(prelude: Option<string>): string
  {
    if prelude.Some? then "\n" + prelude.value + QUESTION_GAP else ""
  }

  function EpilogueBlock(epilogue: Option<string>): string
  {
    if epilogue.Some? then QUESTION_GAP + epilogue.value + "\n" else ""
  }

  /** The body of the form: each top-level question rendered, followed by
      a `\bigskip`. */
  function FormBody(qs: seq<SurveyQuestion>): string
  {
    if |qs| == 0 then "" else FormBody(qs[..|qs| - 1]) + Render(qs[|qs| - 1]) + QUESTION_GAP
  }

  /** `to_latex_form`, as a specification: the header, the optional
      prelude, the form with one rendered question and one `\bigskip` per
      top-level question, the optional epilogue and the end of the
      document. */
  function LatexForm(survey: SurveyDefinition): string
  {
    DOCUMENT_HEADER + PreludeBlock(survey.prelude) + FORM_OPEN + FormBody(survey.questions)
      + FORM_CLOSE + EpilogueBlock(survey.epilogue) + DOCUMENT_END
  }

  lemma Associative(p: string, q: string, r: string, s: string)
    ensures p + q + r + s == p + (q + r + s)
  {
  }

  /** `x` is the prefix of `x + y`, and `y` what follows it. */
  lemma PrefixOf(x: string, y: string)
    ensures (x + y)[..|x|] == x && (x + y)[|x|..] == y
  {
  }

  /** A prefix of `x` is a prefix of `x + y`. */
  lemma PrefixOfPrefix(p: string, x: string, y: string)
    requires |p| <= |x| && x[..|p|] == p
    ensures (x + y)[..|p|] == p
  {
    assert (x + y)[..|p|] == x[..|p|];
  }

  /** Where the pieces of a left-nested concatenation of seven texts sit
      in the whole. */
  lemma SevenPieces(a: string, b: string, c: string, d: string, e: string, f: string, g: string)
    ensures var r := a + b + c + d + e + f + g;
      && r == (a + b + c) + (d + e + f + g)
      && r == (a + b + c + d) + (e + f + g)
      && r == (a + (b + c + d + e + f)) + g
  {
  }

  /** The document always opens with the `article` class line and closes
      with `\end{document}`. */
  lemma DocumentFrame(survey: SurveyDefinition)
    ensures var r := LatexForm(survey);
      && |r| >= |DOCUMENT_CLASS| + |DOCUMENT_END|
      && r[..|DOCUMENT_CLASS|] == DOCUMENT_CLASS
      && r[|r| - |DOCUMENT_END|..] == DOCUMENT_END
  {
    var middle := PreludeBlock(survey.prelude) + FORM_OPEN + FormBody(survey.questions)
      + FORM_CLOSE + EpilogueBlock(survey.epilogue);
    SevenPieces(DOCUMENT_HEADER, PreludeBlock(survey.prelude), FORM_OPEN, FormBody(survey.questions),
      FORM_CLOSE, EpilogueBlock(survey.epilogue), DOCUMENT_END);
    PrefixOf(DOCUMENT_HEADER + middle, DOCUMENT_END);
    PrefixOf(DOCUMENT_CLASS, PREAMBLE);
    PrefixOfPrefix(DOCUMENT_CLASS, DOCUMENT_HEADER, middle);
    PrefixOfPrefix(DOCUMENT_CLASS, DOCUMENT_HEADER + middle, DOCUMENT_END);
  }

  /** Top-level questions keep their order: the body of a concatenation of
      question lists is the concatenation of their bodies. */
  lemma {:induction false} FormBodyAppend(a: seq<SurveyQuestion>, b: seq<SurveyQuestion>)
    ensures FormBody(a + b) == FormBody(a) + FormBody(b)
    decreases |b|
  {
    if |b| == 0 {
      assert a + b == a;
    } else {
      var b' := b[..|b| - 1];
      var x := b[|b| - 1];
      assert (a + b)[..|a + b| - 1] == a + b';
      assert (a + b)[|a + b| - 1] == x;
      FormBodyAppend(a, b');
      Associative(FormBody(a), FormBody(b'), Render(x), QUESTION_GAP);
    }
  }

  /** The prelude, when there is one, sits right after the header and right
      before `\begin{Form}`; without one, the form opens right after the
      header.  The character after the header tells which. */
  lemma PreludePlacement(survey: SurveyDefinition)
    ensures var r := LatexForm(survey);
      var before := DOCUMENT_HEADER + PreludeBlock(survey.prelude) + FORM_OPEN;
      |r| > |before| && r[..|before|] == before
    ensures var r := LatexForm(survey);
      |r| > |DOCUMENT_HEADER| && (survey.prelude.Some? <==> r[|DOCUMENT_HEADER|] == '\n')
  {
    var r := LatexForm(survey);
    var before := DOCUMENT_HEADER + PreludeBlock(survey.prelude) + FORM_OPEN;
    var after := FormBody(survey.questions) + FORM_CLOSE + EpilogueBlock(survey.epilogue) + DOCUMENT_END;
    SevenPieces(DOCUMENT_HEADER, PreludeBlock(survey.prelude), FORM_OPEN, FormBody(survey.questions),
      FORM_CLOSE, EpilogueBlock(survey.epilogue), DOCUMENT_END);
    PrefixOf(before, after);
    Associative(DOCUMENT_HEADER, PreludeBlock(survey.prelude), FORM_OPEN, after);
    PrefixOf(DOCUMENT_HEADER, PreludeBlock(survey.prelude) + FORM_OPEN + after);
    assert r[|DOCUMENT_HEADER|] == (PreludeBlock(survey.prelude) + FORM_OPEN + after)[0];
  }

  /** The epilogue, when there is one, sits right after `\end{Form}` and
      right before `\end{document}`; without one, the form closes right
      before the end of the document. */
  lemma EpiloguePlacement(survey: SurveyDefinition)
    ensures var r := LatexForm(survey);
      var tail := FORM_CLOSE + EpilogueBlock(survey.epilogue) + DOCUMENT_END;
      |r| > |tail| && r[|r| - |tail|..] == tail
    ensures survey.epilogue.None? ==>
      var r := LatexForm(survey);
      r[|r| - |FORM_CLOSE + DOCUMENT_END|..] == FORM_CLOSE + DOCUMENT_END
  {
    var r := LatexForm(survey);
    var tail := FORM_CLOSE + EpilogueBlock(survey.epilogue) + DOCUMENT_END;
    var front := DOCUMENT_HEADER + PreludeBlock(survey.prelude) + FORM_OPEN + FormBody(survey.questions);
    SevenPieces(DOCUMENT_HEADER, PreludeBlock(survey.prelude), FORM_OPEN, FormBody(survey.questions),
      FORM_CLOSE, EpilogueBlock(survey.epilogue), DOCUMENT_END);
    PrefixOf(front, tail);
    if survey.epilogue.None? {
      assert tail == FORM_CLOSE + DOCUMENT_END;
    }
  }

  // ---------------------------------------------------------------------
  // The serialiser, by appends
  // ---------------------------------------------------------------------

  /** The check boxes of a multi-choice question, one line per variant,
      appended in declaration order. */
  method CheckboxBlock(path: ResponsePath, variants: seq<Variant>) returns (s: string)
    ensures s == CheckboxLines(path, variants)
  {
    s := "";
    var i := 0;
    while i < |variants|
      invariant 0 <= i <= |variants|
      invariant s == CheckboxLines(path, variants[..i])
    {
      var checkboxName := ReplaceChar(AsStr(path) + "_" + ReplaceChar(variants[i].name, ' ', "_"), '_', "\\_");
      s := s + CHECK_BOX;
      s := s + checkboxName;
      s := s + CHECK_BOX_LABEL;
      s := s + variants[i].name;
      s := s + "\n";
      assert variants[..i + 1][..i] == variants[..i];
      i := i + 1;
    }
    assert variants[..|variants|] == variants;
  }

  /** `render_question`: the escaped ask text, then the pieces the kind
      appends (one check box per variant of a multi-choice question, the
      rendering of every sub-question of a group, recursively), then a
      newline. */
  method RenderQuestion(q: SurveyQuestion) returns (s: string)
    ensures s == Render(q)
    decreases q
  {
    var ask := ReplaceChar(q.ask, '&', "\\&");
    var block: string;
    match q.kind {
      case Input =>
        var fieldName := FieldName(q.path);
        block := TEXT_FIELD + fieldName + WIDE_FIELD_END;
      case Int =>
        var fieldName := FieldName(q.path);
        block := TEXT_FIELD + fieldName + NARROW_FIELD_END + INTEGER_NOTE;
      case Confirm =>
        var fieldName := FieldName(q.path);
        block := CHECK_BOX + fieldName + YES_BOX_END;
      case OneOf(variants) =>
        var fieldName := FieldName(q.path);
        var options := VariantNames(variants);
        block := CHOICE_MENU + fieldName + CHOICE_MENU_MIDDLE + Join(options, ",") + CHOICE_MENU_END;
      case AnyOf(variants) =>
        var boxes := CheckboxBlock(q.path, variants);
        block := boxes + MEDSKIP;
      case AllOf(questions) =>
        block := "";
        var i := 0;
        while i < |questions|
          invariant 0 <= i <= |questions|
          invariant block == RenderAll(questions[..i])
        {
          var sub := RenderQuestion(questions[i]);
          block := block + sub;
          assert questions[..i + 1][..i] == questions[..i];
          i := i + 1;
        }
        assert questions[..|questions|] == questions;
      case Multiline =>
        var fieldName := FieldName(q.path);
        block := TEXT_FIELD + fieldName + MULTILINE_FIELD_END;
      case Unit =>
        block := UNIT_NOTE;
      case Masked =>
        var fieldName := FieldName(q.path);
        block := TEXT_FIELD + fieldName + WIDE_FIELD_END + NOT_MASKED_NOTE;
      case Float =>
        block := FLOAT_NOTE;
      case List =>
        block := LIST_NOTE;
    }
    s := ask + block + "\n";
  }

  /** The loop of `to_latex_form`: each top-level question rendered and
      appended, followed by a `\bigskip`. */
  method AppendQuestions(start: string, qs: seq<SurveyQuestion>) returns (latex: string)
    ensures latex == start + FormBody(qs)
  {
    latex := start;
    var i := 0;
    while i < |qs|
      invariant 0 <= i <= |qs|
      invariant latex == start + FormBody(qs[..i])
    {
      var rendered := RenderQuestion(qs[i]);
      latex := latex + rendered;
      latex := latex + QUESTION_GAP;
      assert qs[..i + 1][..i] == qs[..i];
      Associative(start, FormBody(qs[..i]), rendered, QUESTION_GAP);
      i := i + 1;
    }
    assert qs[..|qs|] == qs;
  }

  /** `to_latex_form`: the header, the optional prelude, the form with one
      rendered question and one `\bigskip` per top-level question, the
      optional epilogue and the end of the document. */
  method ToLatexForm(survey: SurveyDefinition) returns (latex: string)
    ensures latex == LatexForm(survey)
  {
    latex := "";
    latex := latex + DOCUMENT_HEADER;
    if survey.prelude.Some? {
      latex := latex + ("\n" + survey.prelude.value + QUESTION_GAP);
    }
    assert latex == DOCUMENT_HEADER + PreludeBlock(survey.prelude);
    latex := latex + FORM_OPEN;
    latex := AppendQuestions(latex, survey.questions);
    latex := latex + FORM_CLOSE;
    var beforeEpilogue := latex;
    if survey.epilogue.Some? {
      latex := latex + (QUESTION_GAP + survey.epilogue.value + "\n");
    }
    assert latex == beforeEpilogue + EpilogueBlock(survey.epilogue);
    latex := latex + DOCUMENT_END;
  }
}
