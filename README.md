# derive-wizard, modelled in Dafny

derive-wizard builds interactive questionnaires ("wizards") from Rust
structs. A derive macro turns a struct's fields into questions. An
interview tree of sections, sequences and alternatives describes what is
asked. Backends (egui, ratatui, dialoguer, a test backend) collect the
answers into a flat answer map. Other crates serialise a survey, for
example into a fillable LaTeX form. The example crates guard answers
with small validator functions.

This project models the core of that system:

- the interview tree, questions and their defaults, assumed answers
  (`interview.dfy`, `question.dfy`, `assumed_answer.dfy`);
- the answer store with its typed accessors, and the test backend
  (`backend.dfy`);
- answer collection in the egui backend (`egui.dfy`). The walk over the
  tree is first specified on values. The backend's state is then a
  class, and its methods are proved to move its fields exactly as the
  specification says. The `section_{idx}` keys of nested choices can
  coincide with those of top-level sections
  (`EguiBackend.NestedIndexMeetsTopLevel`). The model records this as
  the behaviour of the code and does not correct it, because the source
  gives no other key scheme to compare it with;
- the field classification of the `Wizard` derive macro (`macro.dfy`),
  over abstract descriptors of fields, attributes and type paths;
- the LaTeX form serialiser (`latex.dfy`), built by successive appends as
  in the source and proved equal to a specification function;
- the validators of the example surveys and wizards (`survey_validation.dfy`,
  `spooky_forest.dfy`, `masked_input.dfy`, `magic_forest.dfy`,
  `job_application.dfy`, `sandwich.dfy`, `server_config.dfy`,
  `ratatui_demo.dfy`, `ratatui_job_application.dfy`,
  `nested_validation.dfy`), with the price tables in `budget.dfy`;
- the Rust `str`, `char` and integer operations those rely on (`text.dfy`,
  `numbers.dfy`), and the survey vocabulary the validators and the
  serialiser use (`survey.dfy`).

Rust's `len()` is a UTF-8 byte length, and it is modelled exactly
(`RustStr.ByteLen`). `char::is_whitespace` is the complete Unicode
White_Space list. `str::parse::<i64>` and `str::parse::<u8>` are written
out as parsers, including the optional sign and the range check.

## Model

| member | source | states |
|---|---|---|
| AssumedAnswers.FromString | derive-wizard-types/src/assumed_answer.rs:10-14 | `From<String>` gives the `String` variant with the same text |
| AssumedAnswers.FromI64 | derive-wizard-types/src/assumed_answer.rs:16-20 | `From<i64>` gives the `Int` variant with the same integer |
| AssumedAnswers.FromF64 | derive-wizard-types/src/assumed_answer.rs:22-26 | `From<f64>` gives the `Float` variant with the payload unchanged |
| AssumedAnswers.FromBool | derive-wizard-types/src/assumed_answer.rs:28-32 | `From<bool>` gives the `Bool` variant with the same flag |
| Interviews.GetAlternative | derive-wizard-types/src/interview.rs:18 | the alternative at an index is present exactly when the index is in range, because the default index is not bounded by the type |
| Questions.New | derive-wizard-types/src/question.rs:17-40 | the accessors give back the id, name, prompt and kind passed to `new` |
| Questions.WithKind | derive-wizard-types/src/question.rs:42-44 | an assignment through `kind_mut` changes the kind and nothing else |
| Questions.SetDefault | derive-wizard-types/src/question.rs:48-72 | returns true exactly for Input/String, Multiline/String, Int/Int, Float/Float and Confirm/Bool; a refusal leaves the question unchanged; a success makes the offered value the current default; id, name, prompt, validators, bounds and mask never change |
| Questions.MaskedAndNestedRefuseDefaults | derive-wizard-types/src/question.rs:49-71 | Masked and Nested questions refuse every default and stay unchanged |
| Questions.SetDefaultOverwrites | derive-wizard-types/src/question.rs:48-72 | two accepted defaults in a row give the same question as setting the second alone |
| Questions.DefaultFromString | derive-wizard-types/src/question.rs:83-87 | `From<String>` wraps the text in `QuestionDefault::String` |
| Questions.DefaultFromI64 | derive-wizard-types/src/question.rs:89-93 | `From<i64>` wraps the integer in `QuestionDefault::Int` |
| Questions.DefaultFromF64 | derive-wizard-types/src/question.rs:95-99 | `From<f64>` wraps the payload in `QuestionDefault::Float` |
| Questions.DefaultFromBool | derive-wizard-types/src/question.rs:101-105 | `From<bool>` wraps the flag in `QuestionDefault::Bool` |
| Backend.Answers.constructor | derive-wizard/src/backend.rs:21-25 | a new store holds no answers |
| Backend.Answers.Insert | derive-wizard/src/backend.rs:27-29 | afterwards `get(key)` is the inserted value, and every other key keeps its value or its absence |
| Backend.Answers.Get | derive-wizard/src/backend.rs:31-33 | present exactly when the key is stored, holding the stored value |
| Backend.Answers.Merge | derive-wizard/src/backend.rs:35-37 | every key of `other` takes `other`'s value, keys only in `self` keep theirs, and the keys are the union |
| Backend.Answers.AsString | derive-wizard/src/backend.rs:39-48 | `Ok` exactly when the key holds a String, with its payload; a present key of another variant gives `TypeMismatch{key, "String"}`; an absent key gives `MissingKey(key)` |
| Backend.Answers.AsInt | derive-wizard/src/backend.rs:50-59 | as `as_string`, for `Int` |
| Backend.Answers.AsFloat | derive-wizard/src/backend.rs:61-70 | as `as_string`, for `Float` |
| Backend.Answers.AsBool | derive-wizard/src/backend.rs:72-81 | as `as_string`, for `Bool` |
| Backend.Answers.AsNested | derive-wizard/src/backend.rs:83-92 | as `as_string`, for `Nested`, returning the nested answers' map |
| Backend.AccessorsExclusive | derive-wizard/src/backend.rs:39-92 | at a present key exactly one of the five typed accessors succeeds |
| Backend.DefaultExecuteSection | derive-wizard/src/backend.rs:128-134 | the default `execute_section` always fails with a `Custom` error and its fixed message |
| Backend.TestBackend.constructor | derive-wizard/src/backend.rs:144-146 | a new test backend holds no answers |
| Backend.TestBackend.WithString | derive-wizard/src/backend.rs:148-152 | the key now holds the String; a later call for the same key overwrites an earlier one |
| Backend.TestBackend.WithInt | derive-wizard/src/backend.rs:154-157 | the key now holds the Int, overwriting any earlier value |
| Backend.TestBackend.WithFloat | derive-wizard/src/backend.rs:159-162 | the key now holds the Float, overwriting any earlier value |
| Backend.TestBackend.WithBool | derive-wizard/src/backend.rs:164-167 | the key now holds the Bool, overwriting any earlier value |
| Backend.TestBackend.Execute | derive-wizard/src/backend.rs:170-175 | ignores the interview and returns a fresh copy of exactly the preloaded answers |
| EguiBackend.AnswerKey | derive-wizard/src/egui_backend.rs:322 | a question's answer key is its id when it has one, otherwise its name |
| EguiBackend.Execute | derive-wizard/src/egui_backend.rs:411-420 | the backend-trait `execute` always fails with the fixed `Custom` error that points to `show`, whatever the interview |
| EguiBackend.AltKeyInjective | derive-wizard/src/egui_backend.rs:297 | different section indices never share a `section_{idx}` key |
| EguiBackend.NestedIndexInjective | derive-wizard/src/egui_backend.rs:313 | `section_idx * 1000 + selected` identifies parent and choice when fewer than 1000 alternatives are offered |
| EguiBackend.NestedIndexMeetsTopLevel | derive-wizard/src/egui_backend.rs:297-313 | the nested index of choice `k` in top-level section 0 reads its choice from the same key as top-level section `k`: the two key spaces overlap, as the source is written |
| EguiBackend.SelectedIndex | derive-wizard/src/egui_backend.rs:297-303 | the choice is the stored one for `section_{idx}`, otherwise the section's default index |
| EguiBackend.InitBuffer | derive-wizard/src/egui_backend.rs:23-27 | an existing buffer is kept, and a missing one is created empty |
| EguiBackend.SaveQuestion | derive-wizard/src/egui_backend.rs:321-404 | one question passes exactly when it is not Nested and, for Int or Float, its buffer is empty or parses; a pass stores one answer under the key and a failure stores none; only numeric questions touch the error map, clearing it on a pass and setting the fixed message on a failure |
| EguiBackend.SaveQuestionStores | derive-wizard/src/egui_backend.rs:326-401 | what is stored, kind by kind: the buffer or, when it is empty, the default (or `""`); the masked buffer verbatim; `buffer == "true"` for Confirm; the default (or 0) or the parsed value for numbers |
| EguiBackend.SaveQuestionFacts | derive-wizard/src/egui_backend.rs:321-404 | one question only adds empty buffers, removes no answer key, and a pass adds no error |
| EguiBackend.SaveQuestionsGrow | derive-wizard/src/egui_backend.rs:287-295 | the same for a whole sequence of questions |
| EguiBackend.SaveQuestionsValid | derive-wizard/src/egui_backend.rs:287-295 | a sequence passes exactly when every question passes on the buffers as they were, every question being visited even after a failure |
| EguiBackend.WalkSectionGrows | derive-wizard/src/egui_backend.rs:279-319 | the same growth facts for a section walk, through any depth of alternatives |
| EguiBackend.WalkSectionValid | derive-wizard/src/egui_backend.rs:279-319 | a section walk passes exactly when the section passes on the buffers as they were |
| EguiBackend.WalkSectionsGrow | derive-wizard/src/egui_backend.rs:264-270 | the same growth facts for the walk over all top-level sections |
| EguiBackend.WalkSectionsValid | derive-wizard/src/egui_backend.rs:259-277 | the whole walk passes exactly when every top-level section passes |
| EguiBackend.SectionOkBuffers | derive-wizard/src/egui_backend.rs:323 | extra empty buffers never change whether a section passes |
| EguiBackend.OutOfRangeChoice | derive-wizard/src/egui_backend.rs:306-316 | a choice out of range passes and writes nothing |
| EguiBackend.SaveQuestionsUntouched | derive-wizard/src/egui_backend.rs:287-295 | a sequence leaves alone every answer key none of its questions uses |
| EguiBackend.SelectedAlternativeRecorded | derive-wizard/src/egui_backend.rs:305-313 | an in-range choice stores the alternative's name under `selected_alternative`, where it stays unless the sub-section writes that key itself |
| EguiBackend.IntBufferRoundTrip | derive-wizard/src/egui_backend.rs:358-363 | an integer printed into an Int question's buffer is accepted and stored as that integer |
| EguiBackend.NestedFailsSilently | derive-wizard/src/egui_backend.rs:402 | a Nested question fails without recording any error message |
| EguiBackend.InterviewState.constructor | derive-wizard/src/egui_backend.rs:15-21 | all three maps start empty |
| EguiBackend.InterviewState.GetOrInitBuffer | derive-wizard/src/egui_backend.rs:23-27 | returns the existing buffer or a new empty one; only the buffer map changes |
| EguiBackend.EguiBackend.constructor | derive-wizard/src/egui_backend.rs:39-46 | fresh empty state, not completed, no result |
| EguiBackend.EguiBackend.ValidateAndSaveQuestion | derive-wizard/src/egui_backend.rs:321-404 | the verdict and the new buffers, errors and answers are exactly those of `SaveQuestion` |
| EguiBackend.EguiBackend.ValidateSection | derive-wizard/src/egui_backend.rs:279-319 | the verdict and the new maps are exactly those of the section walk; the stored choices are not changed |
| EguiBackend.EguiBackend.ValidateAndSaveAll | derive-wizard/src/egui_backend.rs:259-277 | clears the errors first, walks every section with fresh answers, and returns true exactly when every section passes; on success it publishes the answers as `Ok` and leaves no error; on failure it leaves `result` untouched |
| WizardMacro.GetIdent | derive-wizard-macro/src/lib.rs:137 | a path has an identifier exactly when it is one plain segment without arguments |
| WizardMacro.SegmentIdents | derive-wizard-macro/src/lib.rs:109-114 | one name per path segment, in order |
| WizardMacro.LastPrompt | derive-wizard-macro/src/lib.rs:25-27 | a prompt is kept exactly when some attribute is `#[prompt]` |
| WizardMacro.LastPromptIsLast | derive-wizard-macro/src/lib.rs:25-27 | the kept prompt is a `#[prompt]` attribute with no other `#[prompt]` after it |
| WizardMacro.AttrSnoc | derive-wizard-macro/src/lib.rs:25-35 | one more attribute updates the last prompt and the flags as the scan does |
| WizardMacro.ScanAttributes | derive-wizard-macro/src/lib.rs:20-35 | the scan loop yields the last prompt and whether mask, editor and wizard attributes are present |
| WizardMacro.ClassifyFieldRules | derive-wizard-macro/src/lib.rs:37-63 | `#[wizard]` with any of prompt, mask or editor is refused; otherwise a field without a prompt is refused; a prompted field with both mask and editor is refused |
| WizardMacro.ClassifiedPlan | derive-wizard-macro/src/lib.rs:46-56 | an accepted field keeps itself in its plan, and has no prompt exactly when it is a `#[wizard]` field |
| WizardMacro.PlanFieldsFirstError | derive-wizard-macro/src/lib.rs:19-64 | the first pass succeeds exactly when every field does, keeping one plan per field in order; otherwise it fails with the error of the first offending field |
| WizardMacro.PlanFieldsOk | derive-wizard-macro/src/lib.rs:19-64 | the success half of the previous row |
| WizardMacro.PlanFieldsErr | derive-wizard-macro/src/lib.rs:19-64 | the failure half: some field fails with that error and every earlier field passes |
| WizardMacro.PlanFieldsStopsAtError | derive-wizard-macro/src/lib.rs:40-62 | once a prefix of the fields fails, the whole pass fails with the same error |
| WizardMacro.PlanPass | derive-wizard-macro/src/lib.rs:19-64 | the first-pass loop computes exactly `PlanFields` |
| WizardMacro.OnlyStructs | derive-wizard-macro/src/lib.rs:66-72 | an enum or union input gives the "only structs" compile error |
| WizardMacro.InferQuestionType | derive-wizard-macro/src/lib.rs:107-185 | a type that is not a path is refused with its fixed message; the table never infers editor or password |
| WizardMacro.MatchTypeName | derive-wizard-macro/src/lib.rs:117-176 | the match on the type name never yields editor or password |
| WizardMacro.KnownTypeNames | derive-wizard-macro/src/lib.rs:117-125 | `String` and `PathBuf` give input, `bool` confirm, the ten integer names int, `f32`/`f64` float, `ListItem` select, `ExpandItem` expand |
| WizardMacro.OtherTypeNames | derive-wizard-macro/src/lib.rs:126-175 | a name starting with `Vec` is multi-select exactly when its first generic argument is `ListItem` and is refused otherwise; any other name is refused with the name in the message |
| WizardMacro.VecPrefixTest | derive-wizard-macro/src/lib.rs:126-168 | any name starting with `Vec` is multi-select with argument `ListItem` and refused with any other argument |
| WizardMacro.VecDequeIsMultiSelect | derive-wizard-macro/src/lib.rs:126-139 | `VecDeque<ListItem>` is accepted as multi-select, and `Vec<String>` is refused |
| WizardMacro.QualifiedNameRefused | derive-wizard-macro/src/lib.rs:109-117 | the type name is the whole `::`-joined path, so a three-segment path not starting with `V` is refused whatever its last segment |
| WizardMacro.QualifiedStringRefused | derive-wizard-macro/src/lib.rs:109-119 | `std::string::String` is not recognised as `String` |
| WizardMacro.ChooseQuestionType | derive-wizard-macro/src/lib.rs:98-105 | editor first, then mask (password), then the type table |
| WizardMacro.BuildEntry | derive-wizard-macro/src/lib.rs:76-190 | a field without a name panics at `unwrap`; a `#[wizard]` field gets no question; a prompt without an argument list is refused; otherwise the question uses the chosen type, the field name and the prompt's tokens |
| WizardMacro.BuildEntriesInOrder | derive-wizard-macro/src/lib.rs:75-190 | the second pass finishes exactly when every field does, one entry per field in order; otherwise it stops at the first field that fails or panics |
| WizardMacro.BuildEntriesStops | derive-wizard-macro/src/lib.rs:90-94 | once a prefix stops, the whole pass stops the same way |
| WizardMacro.EntryPass | derive-wizard-macro/src/lib.rs:75-190 | the second-pass loop computes exactly `BuildEntries` |
| WizardMacro.InferInto | derive-wizard-macro/src/lib.rs:259-296 | a type that is not a path has no conversion (`unimplemented!`) |
| WizardMacro.InferIntoCoversTable | derive-wizard-macro/src/lib.rs:259-296 | every type the question table accepts has a conversion, and it reads the answer as that question type produces it |
| WizardMacro.BindEntry | derive-wizard-macro/src/lib.rs:197-225 | a `#[wizard]` field of a non-path type gets the emitted error; a prompted field is bound exactly when `infer_into` has a conversion, and uses it |
| WizardMacro.BindEntriesInOrder | derive-wizard-macro/src/lib.rs:197-235 | one generated field per entry, in order, with the entry's name |
| WizardMacro.BindEntriesStops | derive-wizard-macro/src/lib.rs:219 | once a prefix panics, the whole third pass panics |
| WizardMacro.BindPass | derive-wizard-macro/src/lib.rs:197-226 | the third-pass loop computes exactly `BindEntries` |
| WizardMacro.PlainPromptNeverPanics | derive-wizard-macro/src/lib.rs:105-176 | a field with neither mask nor editor never makes `infer_into` panic, because its type already passed the table |
| WizardMacro.MaskedUnknownTypePanics | derive-wizard-macro/src/lib.rs:102-104 | a masked field of a type outside the table makes the derive panic instead of reporting an error |
| WizardMacro.DeriveKeepsFieldOrder | derive-wizard-macro/src/lib.rs:228-235 | a successful derive generates the struct's fields in declaration order, with a question exactly for the non-`#[wizard]` fields |
| WizardMacro.ImplementWizard | derive-wizard-macro/src/lib.rs:12-257 | the three passes together compute exactly `Derive` |
| LatexDocument.EscapedHead | derive-latex-document/src/lib.rs:35 | an escaped text never starts with the escaped character itself |
| LatexDocument.UnescapeEscape | derive-latex-document/src/lib.rs:35 | escaping loses nothing: reading back undoes it |
| LatexDocument.AskEscaping | derive-latex-document/src/lib.rs:35 | the printed ask reads back as the ask, and a text without `&` is printed unchanged |
| LatexDocument.FieldNameReadsBack | derive-latex-document/src/lib.rs:39 | a field name reads back as the question's dotted path |
| LatexDocument.CheckboxNameParts | derive-latex-document/src/lib.rs:68-70 | a check-box name is the field name, an escaped `_`, and the variant with spaces and underscores both written `\_` |
| LatexDocument.VariantNames | derive-latex-document/src/lib.rs:59 | the variant names, in declaration order |
| LatexDocument.ChoiceOptionsInOrder | derive-latex-document/src/lib.rs:59-63 | splitting the menu's option list on `,` gives the variant names back, when no name holds a comma |
| LatexDocument.CheckboxLinesCount | derive-latex-document/src/lib.rs:67-76 | a multi-choice question has at least one line per variant |
| LatexDocument.CheckboxBlock | derive-latex-document/src/lib.rs:67-77 | the variant loop appends exactly the check-box lines, in order |
| LatexDocument.Render | derive-latex-document/src/lib.rs:32-109 | a rendering starts with the escaped ask and ends with a newline |
| LatexDocument.RenderQuestion | derive-latex-document/src/lib.rs:32-109 | the appending `render_question`, recursing into groups, produces exactly `Render` |
| LatexDocument.FormBodyAppend | derive-latex-document/src/lib.rs:19-22 | top-level questions keep their order: the body of two lists is the two bodies one after the other |
| LatexDocument.AppendQuestions | derive-latex-document/src/lib.rs:19-22 | the question loop appends each rendering followed by `\bigskip` |
| LatexDocument.DocumentFrame | derive-latex-document/src/lib.rs:8-28 | the document opens with `\documentclass{article}` and closes with `\end{document}` |
| LatexDocument.PreludePlacement | derive-latex-document/src/lib.rs:13-18 | the prelude, when present, sits between the header and `\begin{Form}`; without it the form opens right after the header |
| LatexDocument.EpiloguePlacement | derive-latex-document/src/lib.rs:24-28 | the epilogue, when present, sits between `\end{Form}` and `\end{document}`; without it the form closes right before the end |
| LatexDocument.ToLatexForm | derive-latex-document/src/lib.rs:6-30 | the appending `to_latex_form` produces exactly `LatexForm` |
| Surveys.Parent | example-surveys/src/masked_input.rs:23 | the parent path drops the last segment and is a prefix of the path |
| Surveys.Child | example-surveys/src/masked_input.rs:26 | the child path is the path plus one segment |
| Surveys.ParentOfChild | example-surveys/src/masked_input.rs:20-26 | going one level down and back up returns to the same path |
| Surveys.GetString | example-surveys/src/masked_input.rs:29 | a typed string accessor is present exactly when a String is stored at the path |
| Surveys.GetInt | derive-ratatui-wizard/examples/job_application.rs:78-79 | a typed integer accessor is present exactly when an Int is stored at the path |
| SurveyValidation.ValidateEmail | example-surveys/src/validation.rs:10-25 | a non-string passes; a string passes exactly when it contains `@` and `.`; a missing `@` is reported first |
| SurveyValidation.EmailDotMayPrecedeAt | example-surveys/src/validation.rs:18-23 | the dot may come before the `@` |
| SurveyValidation.ValidatePassword | example-surveys/src/validation.rs:27-45 | at least 8 bytes, then an ASCII digit, then an ASCII capital, the first rule broken being reported |
| SurveyValidation.ValidateUsername | example-surveys/src/validation.rs:47-65 | at least 3 bytes, then only ASCII alphanumerics and `_` |
| SurveyValidation.UsernameCharsAreAscii | example-surveys/src/validation.rs:58-61 | allowed user-name characters are one byte each |
| SurveyValidation.AcceptedUsernameIsAscii | example-surveys/src/validation.rs:55-63 | an accepted user name has at least three characters |
| SurveyValidation.UsernameLengthIsBytes | example-surveys/src/validation.rs:55-62 | `éé` passes the length rule on bytes and is refused for its characters |
| SpookyForest.IsValidName | example-surveys/src/simple_spooky_forest.rs:13-26 | a string passes exactly when its byte length is from 3 to 99 |
| SpookyForest.IsWithinStartingBudget | example-surveys/src/simple_spooky_forest.rs:28-60 | the loop sums the price table 80/50/20/10/2 (others 0) and passes a total of at most 150, reporting the total otherwise |
| SpookyForest.BudgetBoundary | example-surveys/src/simple_spooky_forest.rs:37-52 | {0,1,2} costs exactly 150 and passes; {0,1,2,3} costs 160 and fails |
| SpookyForest.HighIndexIsFree | example-surveys/src/simple_spooky_forest.rs:47 | adding an index of 5 or more anywhere never changes the total |
| Budgets.TotalCostAppend | example-surveys/src/simple_spooky_forest.rs:40-50 | the total of two selections is the sum of their totals |
| Budgets.TotalCostSwap | example-surveys/src/simple_spooky_forest.rs:40-50 | the order of the picks does not matter |
| Budgets.UnpricedPickIsFree | example-surveys/src/simple_spooky_forest.rs:47 | an index the table does not price adds nothing |
| MaskedInput.PasswordsMatch | example-surveys/src/masked_input.rs:10-36 | a string passes exactly when it equals the password stored at `parent.password`, a missing password counting as empty |
| MaskedInput.LooksBesideItself | example-surveys/src/masked_input.rs:20-26 | the sibling is found beside the confirmation wherever the pair is nested |
| MaskedInput.MissingPasswordIsEmpty | example-surveys/src/masked_input.rs:29-31 | with no stored password, only an empty confirmation passes |
| MaskedInput.ReadsOnlySibling | example-surveys/src/masked_input.rs:23-31 | response maps that agree on the sibling give the same verdict |
| MagicForest.ValidateName | derive-ratatui-wizard/examples/magic_forest.rs:26-43 | not blank, 3 to 50 bytes, letters and whitespace only, the first rule broken being reported |
| MagicForest.ValidateEmail | derive-ratatui-wizard/examples/magic_forest.rs:46-58 | passes exactly with one `@`, neither first nor last, and a `.` anywhere |
| MagicForest.ValidatePassphrase | derive-ratatui-wizard/examples/magic_forest.rs:61-75 | at least 8 bytes, then an upper-case letter, then a numeric character |
| MagicForest.ValidateBio | derive-ratatui-wizard/examples/magic_forest.rs:78-86 | at most 500 bytes |
| MagicForest.ShortBioFits | derive-ratatui-wizard/examples/magic_forest.rs:82 | any biography of up to 125 characters fits |
| MagicForest.ValidateInventoryBudget | derive-ratatui-wizard/examples/magic_forest.rs:89-118 | the loop sums the table 80/50/20/10/15/100 (others 0) and passes a total of at most 200, reporting the total otherwise |
| MagicForest.WandSwordShieldOverBudget | derive-ratatui-wizard/examples/magic_forest.rs:97-110 | wand and sword cost 180 and pass; adding the shield makes 230 and fails |
| MagicForest.ValidateSkills | derive-ratatui-wizard/examples/magic_forest.rs:121-132 | one to three picks, with a message for each side |
| MagicForest.ValidateStatTotal | derive-ratatui-wizard/examples/magic_forest.rs:136-164 | passes exactly when the candidate plus all six stored stats, missing ones as 0, is at most 75 |
| MagicForest.StoredSumOfStats | derive-ratatui-wizard/examples/magic_forest.rs:144-150 | the stored sum is the six-term sum of the stat accessors |
| MagicForest.FirstStatAlone | derive-ratatui-wizard/examples/magic_forest.rs:144-154 | with nothing stored, only the candidate counts |
| MagicForest.StoredSumZero | derive-ratatui-wizard/examples/magic_forest.rs:145-150 | stats not yet given add nothing |
| MagicForest.ReenteredStatCountsTwice | derive-ratatui-wizard/examples/magic_forest.rs:144-145 | a stat entered again counts twice: re-entering a strength of 40 is refused |
| JobApplication.ValidateEmail | derive-ratatui-wizard/examples/job_application.rs:26-34 | passes exactly when there is an `@` and the text after the last `@` contains `.` |
| JobApplication.ValidatePassword | derive-ratatui-wizard/examples/job_application.rs:36-44 | at least 6 bytes |
| JobApplication.ValidateCoverLetter | derive-ratatui-wizard/examples/job_application.rs:46-55 | at least 10 whitespace-separated words, the refusal reporting the count |
| JobApplication.BlankLetterHasNoWords | derive-ratatui-wizard/examples/job_application.rs:50-52 | a blank letter is refused with a count of zero |
| JobApplication.ValidateSkills | derive-ratatui-wizard/examples/job_application.rs:57-69 | one to five picks |
| JobApplication.CapTexts | derive-ratatui-wizard/examples/job_application.rs:84 | the caps print as `250000` and `250` |
| JobApplication.ValidateSalary | derive-ratatui-wizard/examples/job_application.rs:74-88 | as written: refuses exactly when stored base + stored bonus (missing = 0) + candidate exceeds 250000 |
| JobApplication.SalaryCapUnreachable | derive-ratatui-wizard/examples/job_application.rs:98-108 | within the form's own bounds the total is at most 500, so the written check never refuses |
| JobApplication.ValidateSalaryIntended | derive-ratatui-wizard/examples/job_application.rs:71-72 | the same check with the documented cap of $250k, that is 250 in the answers' unit |
| JobApplication.SalaryIntendedBites | derive-ratatui-wizard/examples/job_application.rs:71-88 | with a base of 200, a bonus of 50 passes and 51 fails under the intended cap, while the written check passes 51; the intended check refuses everything the written one does |
| Sandwich.ValidateToppings | derive-ratatui-wizard/examples/sandwich.rs:23-34 | at most six picks, the refusal reporting the count |
| Sandwich.ValidateNutrition | derive-ratatui-wizard/examples/sandwich.rs:37-48 | passes exactly when stored calories + 4 × stored protein + candidate (missing = 0) is at most 1500 |
| Sandwich.NutritionMonotone | derive-ratatui-wizard/examples/sandwich.rs:43-44 | accepting a number accepts every smaller one |
| Sandwich.NutritionBoundary | derive-ratatui-wizard/examples/sandwich.rs:44-47 | the limit is inclusive: 1100 + 400 passes, 1100 + 401 does not |
| ServerConfig.ValidateHost | derive-wizard/examples/backends/ratatui_server_config.rs:37-59 | after trimming: blank is "cannot be empty"; passes exactly for `localhost`, a quad of `u8`s, or letters, digits, `.` and `-` |
| ServerConfig.QuadHasThreeDots | derive-wizard/examples/backends/ratatui_server_config.rs:47-48 | a quad has exactly three dots |
| ServerConfig.HostNeedNotHaveDot | derive-wizard/examples/backends/ratatui_server_config.rs:51-57 | a single label with no dot is accepted, whatever the comment says |
| ServerConfig.ValidateBindAddress | derive-wizard/examples/backends/ratatui_server_config.rs:62-77 | after trimming: passes exactly for `0.0.0.0`, `127.0.0.1`, `localhost` or a quad of `u8`s |
| ServerConfig.CommonAddressesAreHostnames | derive-wizard/examples/backends/ratatui_server_config.rs:68 | the two fixed addresses consist of hostname characters |
| ServerConfig.BindAddressIsHost | derive-wizard/examples/backends/ratatui_server_config.rs:62-77 | every accepted bind address is an accepted host |
| ServerConfig.OneDigitParses | derive-wizard/examples/backends/ratatui_server_config.rs:73 | one digit, with or without `+`, parses as a `u8` |
| ServerConfig.PlusQuadPieces | derive-wizard/examples/backends/ratatui_server_config.rs:72 | `+1.2.3.4` splits into four pieces |
| ServerConfig.PlusQuadIsQuad | derive-wizard/examples/backends/ratatui_server_config.rs:72-73 | `+1.2.3.4` is a quad |
| ServerConfig.PlusSignedQuadAccepted | derive-wizard/examples/backends/ratatui_server_config.rs:72-75 | `+1.2.3.4` is an accepted bind address |
| ServerConfig.ValidateDbName | derive-wizard/examples/backends/ratatui_server_config.rs:80-100 | after trimming: at most 64 bytes, then only alphanumerics and `_`, then no leading ASCII digit |
| ServerConfig.OneCharDbName | derive-wizard/examples/backends/ratatui_server_config.rs:85-99 | any one allowed character that is not an ASCII digit is a valid name |
| ServerConfig.SuperscriptMayLeadDbName | derive-wizard/examples/backends/ratatui_server_config.rs:95-97 | only ASCII digits are refused at the start: `²` is accepted |
| ServerConfig.AcceptedDbNameLength | derive-wizard/examples/backends/ratatui_server_config.rs:85-87 | an accepted name has 1 to 64 characters |
| ServerConfig.ValidateAppName | derive-wizard/examples/backends/ratatui_server_config.rs:103-115 | after trimming: 2 to 50 bytes |
| ServerConfig.AppNameLengthIsBytes | derive-wizard/examples/backends/ratatui_server_config.rs:108-110 | one two-byte letter is long enough |
| RatatuiDemo.ValidateEmail | derive-wizard/examples/backends/ratatui.rs:16-31 | passes exactly with one `@`, not first, and a `.` after it; empty, no `@`, bad format and no dot are reported in that order (the same code is ratatui_job_application.rs:58-73) |
| RatatuiDemo.ValidateName | derive-wizard/examples/backends/ratatui.rs:34-45 | blank is refused; otherwise 2 to 100 bytes of the untrimmed text |
| RatatuiDemo.NameLengthIsUntrimmed | derive-wizard/examples/backends/ratatui.rs:38-43 | `" a"` is accepted, although it trims to one letter |
| RatatuiJobApplication.ValidateFullName | derive-wizard/examples/backends/ratatui_job_application.rs:42-55 | after trimming: not blank, at least two words, each at least 2 bytes |
| RatatuiJobApplication.OneWord | derive-wizard/examples/backends/ratatui_job_application.rs:47 | a text without whitespace is one word |
| RatatuiJobApplication.FullNameNeedsSpace | derive-wizard/examples/backends/ratatui_job_application.rs:47-50 | an accepted full name has whitespace inside it |
| RatatuiJobApplication.ValidatePhone | derive-wizard/examples/backends/ratatui_job_application.rs:76-85 | passes exactly with 10 to 15 ASCII digits |
| RatatuiJobApplication.PhoneIgnoresFormatting | derive-wizard/examples/backends/ratatui_job_application.rs:77 | inserting a non-digit anywhere never changes the verdict |
| RatatuiJobApplication.ValidateCity | derive-wizard/examples/backends/ratatui_job_application.rs:88-100 | after trimming: not blank, at least 2 bytes, no ASCII digit |
| RatatuiJobApplication.DigitSurvivesTrim | derive-wizard/examples/backends/ratatui_job_application.rs:89-96 | trimming keeps every digit |
| RatatuiJobApplication.CityWithDigitRefused | derive-wizard/examples/backends/ratatui_job_application.rs:96-98 | a digit anywhere in the input refuses the city |
| NestedValidation.ValidateName | derive-wizard/examples/features/egui_nested_validation.rs:84-101 | 2 to 100 bytes of letters, whitespace, `-` and `'`, rules in order, untrimmed |
| NestedValidation.ShortNameReportsOne | derive-wizard/examples/features/egui_nested_validation.rs:88-90 | the "too short" message always reports 1 of 2 |
| NestedValidation.ValidateEmail | derive-wizard/examples/features/egui_nested_validation.rs:103-121 | non-empty, `@`, exactly two parts, non-empty local part, a `.` in the domain, first failure reported |
| NestedValidation.SameAddressesAsRatatui | derive-wizard/examples/features/egui_nested_validation.rs:103-121 | accepts exactly the ratatui wizard's addresses; only the messages differ, as `a@` shows |
| NestedValidation.ValidateStreet | derive-wizard/examples/features/egui_nested_validation.rs:123-134 | at least 5 bytes |
| NestedValidation.ValidateCity | derive-wizard/examples/features/egui_nested_validation.rs:136-150 | at least 2 bytes of letters, whitespace and hyphens |
| NestedValidation.CityAcceptedByRatatui | derive-wizard/examples/features/egui_nested_validation.rs:136-150 | an accepted city with no surrounding whitespace is accepted by the ratatui job application too |
| NestedValidation.ValidateState | derive-wizard/examples/features/egui_nested_validation.rs:152-166 | exactly 2 bytes, all ASCII letters |
| NestedValidation.AsciiLettersAreOneByte | derive-wizard/examples/features/egui_nested_validation.rs:160 | ASCII letters are one byte each |
| NestedValidation.AcceptedStateIsTwoLetters | derive-wizard/examples/features/egui_nested_validation.rs:156-162 | an accepted state is two characters |
| NestedValidation.StateLengthIsBytes | derive-wizard/examples/features/egui_nested_validation.rs:156-162 | `é` passes the byte-length rule and is refused as not a letter |
| NestedValidation.ValidateZip | derive-wizard/examples/features/egui_nested_validation.rs:168-182 | exactly 5 bytes, all ASCII digits |
| NestedValidation.AsciiDigitsAreOneByte | derive-wizard/examples/features/egui_nested_validation.rs:176 | ASCII digits are one byte each |
| NestedValidation.ZipIsFiveDigits | derive-wizard/examples/features/egui_nested_validation.rs:168-182 | the accepted ZIP codes are exactly the five-digit strings |
| NestedValidation.ValidatePhone | derive-wizard/examples/features/egui_nested_validation.rs:184-204 | passes exactly with 10 ASCII digits, reporting none, too few or too many |
| NestedValidation.PhoneStricterThanRatatui | derive-wizard/examples/features/egui_nested_validation.rs:184-204 | every accepted number is accepted by the ratatui wizard, not conversely (11 digits) |
| NestedValidation.ValidateHandle | derive-wizard/examples/features/egui_nested_validation.rs:206-225 | 3 to 30 bytes counting a leading `@`; after stripping one `@`, only alphanumerics, `_` and `.` |
| NestedValidation.AtPrefixedHandle | derive-wizard/examples/features/egui_nested_validation.rs:210-222 | `@` plus a handle passes exactly when the bare handle has 2 to 29 bytes |
| NestedValidation.OneAtOnly | derive-wizard/examples/features/egui_nested_validation.rs:218 | only one `@` is stripped, so `@@…` is refused for its characters |
| RustStr.Trim | derive-wizard/examples/backends/ratatui_server_config.rs:38 | `trim` keeps a contiguous piece that neither starts nor ends with whitespace, and everything cut off is whitespace |
| RustStr.TrimBlank | derive-wizard/examples/backends/ratatui_server_config.rs:38-41 | the trim is empty exactly when the input is all whitespace |
| RustStr.SplitJoin | derive-wizard/examples/backends/ratatui_server_config.rs:47 | `split` gives one more piece than separators, no piece holds one, and joining gives the text back |
| RustStr.SplitOfJoin | derive-wizard/examples/backends/ratatui_server_config.rs:47 | splitting a join of separator-free pieces gives the pieces back |
| RustStr.SplitLast | derive-ratatui-wizard/examples/job_application.rs:30 | the last piece of a split is the text after the last separator |
| RustStr.TwoNonEmptyParts | derive-wizard/examples/backends/ratatui_job_application.rs:65-66 | two non-empty pieces exactly when the separator occurs once, neither first nor last |
| RustStr.SplitWhitespaceWords | derive-wizard/examples/backends/ratatui_job_application.rs:47 | `split_whitespace` words are non-empty, whitespace-free and together are the non-whitespace characters |
| RustStr.SplitWhitespaceEmpty | derive-ratatui-wizard/examples/job_application.rs:50 | no words exactly when the text is blank |
| RustStr.ByteLenBounds | derive-wizard/examples/backends/ratatui_server_config.rs:108 | the byte length is between the character count and four times it, equal exactly for ASCII |
| RustStr.AsciiDigitsLen | derive-wizard/examples/backends/ratatui_job_application.rs:77-78 | the filtered digit string has one byte per digit of the input |
| RustNum.ParsePrinted | derive-wizard/src/egui_backend.rs:358 | every `i64` printed in decimal parses back to itself |
| RustNum.ParseI64Accepts | derive-wizard/src/egui_backend.rs:358 | a successful parse is an optional sign and digits whose value is the result |
| RustNum.ParseU8Printed | derive-wizard/examples/backends/ratatui_server_config.rs:48 | every printed byte value parses as a `u8` |
| RustNum.NatToStringInjective | derive-wizard/src/egui_backend.rs:297 | different numbers never print the same |

## Left out

- Rendering: the egui widgets and layout (`show`, `show_section`,
  `show_sequence`, the radio buttons of `show_alternatives`,
  `show_question`) are immediate-mode UI calls. Only the key arithmetic
  they share with the validation walk is modelled. The backend-trait
  `execute` of the egui backend makes no UI call and is modelled
  (`EguiBackend.Execute`).
- EguiBackend.NestedIndex: `section_idx * 1000 + selected`
  (`derive-wizard/src/egui_backend.rs:313`, and line 147 in
  `show_alternatives`) is `usize` arithmetic, multiplied by 1000 at every
  level of nested alternatives. The model uses unbounded integers, so
  `EguiBackend.NestedIndex` and the walk built on it
  (`EguiBackend.WalkSection`) do not capture the overflow past
  `usize::MAX` at deep nesting: a panic in debug builds, or wrapped indices
  and colliding `section_{}` keys in release builds.
- Floating point: `f64` values are opaque bit patterns. `str::parse::<f64>`
  is a parameter of the egui backend (`parseFloat`), so the Float branch is
  modelled for any parser. Float bounds are not interpreted.
- Terminal I/O and process spawning: the dialoguer backend and the
  pseudo-terminal tests.
- Token generation in the macro: the `quote!` output is modelled as a list
  of generated field bindings and question descriptors, not as code. A
  field is an abstract descriptor (name, attributes, type path).
- `derive-wizard/src/lib.rs` (the `Wizard` trait glue, `from_answers` and
  the suggestion builders generated by derives) is not part of this model.
  The same goes for `derive-wizard-types/src/default.rs`, which repeats
  `AssumedAnswer` and the shape of `QuestionDefault`, and for the
  re-export-only crates.
- The survey types of `derive_survey` are not in the repository. They
  are declared from their uses: paths, response values, the response map,
  and question kinds with variants and sub-questions. The generated
  sibling accessors (`get_base`, `get_strength`, ...) are lookups of an
  integer at the top-level field of that name. `PasswordsValidationContext`
  is a lookup at `parent.password`.
- Validators ignore their unused `_responses`, `_answers` and `_path`
  arguments, so the model leaves those parameters out.
- Character classes: `is_alphabetic`, `is_alphanumeric`, `is_uppercase` and
  `is_numeric` are exact below U+0100 (ASCII and Latin-1). Code points from
  U+0100 on are classed as none of these.
- Integer widths: the `u32` running totals of the budget validators and the
  `i64` sums of the cross-field validators are unbounded integers, so
  overflow of those sums is not modelled. Answers the forms accept stay far
  below those widths. The i64 parser's range check is modelled.
- `set_default` mutates the question in place through `&mut self`. The model
  returns the flag and the updated question as a value (`Questions.SetDefault`),
  because questions are stored by value inside the interview tree.
- Declaration-only examples (type declarations plus a `main` that runs a
  backend) and the `main` functions of the validator examples.

## Findings

| source | as written | input that shows it | evidently intended | confidence | as-written member | corrected member |
|---|---|---|---|---|---|---|
| derive-ratatui-wizard/examples/job_application.rs:71-88 | `MAX_TOTAL_COMP = 250_000`, compared with answers entered in thousands of dollars, so the total of in-bounds answers (at most 500) never reaches it | stored base 200, candidate bonus 51: total 251 ($251k) is accepted | a cap of 250 ($250k), as the comment and the message's `$...k` unit say | not executed | JobApplication.SalaryCapUnreachable | JobApplication.SalaryIntendedBites |
