# Research road guide: the rules behind the writing assistant

This project models the deterministic core of an academic-writing assistant (a
React application) and proves properties of it in Dafny. Most of the
application is user interface, network calls to a language model and storage.
The core is the set of small rules that decide what the writer may do next,
plus the in-memory project store:

- **Project store** (`ProjectContext`). This holds the list of projects and
  the current project. It covers creation, partial updates (`{ ...p, ...updates }`)
  and the six-part progress score rounded to a percentage.
- **Gating rules.**
  - The sidebar's step-complete, current and clickable rules (`ProgressSidebar`).
  - The abstract-generation prerequisite with its 200/150/150-word thresholds (`ProjectAbstract`).
  - The setup page's "continue" check (`ProjectSetup`).
- **Word counts.**
  - The HTML word count (`WordCount`). The html-to-text `convert` call is a function parameter that the model does not interpret.
  - The raw token counts of the suggestion panel and of the wizard's results step.
- **Validators.**
  - Uploaded-text validation (`DocumentParser`).
  - The upload size and MIME checks (`SmartArticleStep2`).
  - Password strength (`Register`).
  - The mock login rule (`AuthContext`).
- **State machines.**
  - The four-step smart-article wizard (`SmartArticleCreation`).
  - The tip-completion map (`SmartArticleStep4`).
  - The user session (`AuthContext`).
- **Suggestion selection** (`SuggestionPanel`). Each section has a fixed list of suggestions, and one of them appears only above a word-count threshold.

State the source updates in place is modelled as a class whose fields are the
component's state. React setters become field assignments, and each handler
becomes a method whose `ensures` gives the whole new state. Pure rules are
functions, and the properties that relate several calls are lemmas. The
JavaScript string operations the rules rely on are modelled in `Text`:

- the `\s` class
- `trim`
- `split(/\s+/)`
- `filter(Boolean)`
- `includes`
- `substring(0, n)`
- `toLowerCase`

"Number of words" gets an independent reference definition, `Text.WordRuns`,
which counts the maximal runs of non-whitespace characters. Every counting
chain is proved equal to it.

Outcomes of I/O are method parameters:

- the language model's answer (`AiService.GenerationOutcome`)
- the text a parser extracted (`SmartArticleStep2.Extraction`)
- clock readings (`now: Time`) and the `Date.now()` ids

Where a handler navigates, the route is a return value (`HandleContinue`,
`HandleApprove`, the redirect of `Load`), with the routes in `Routes`. Where a
handler shows one of several toasts, the choice is the outcome it returns;
only the validation and error messages of toasts are modelled as text.

## Model

| member | source | states |
|---|---|---|
| ProjectContext.Merge | src/contexts/ProjectContext.tsx:72-78 | a text field the patch gives takes the patch's value; each other field keeps its value; the id and creation date follow the patch when it names them; `updatedAt` is always the new time |
| ProjectContext.EmptyPatchOnlyTouchesTime | src/contexts/ProjectContext.tsx:74 | an update with no fields changes only `updatedAt` |
| ProjectContext.MergeIdempotent | src/contexts/ProjectContext.tsx:74 | applying the same update twice equals applying it once at the later time |
| ProjectContext.NewProject | src/contexts/ProjectContext.tsx:53-67 | the created project holds the given title, premise and area, every other text field is empty, and both dates are the creation time |
| ProjectContext.CompletedParts | src/contexts/ProjectContext.tsx:82-90 | the tally of satisfied parts never exceeds the six parts |
| ProjectContext.RoundedPercent | src/contexts/ProjectContext.tsx:92 | the result is the nearest whole percentage of completed/total, with halves rounded up (the `Math.round` contract stated in integers) |
| ProjectContext.GetProjectProgress | src/contexts/ProjectContext.tsx:81-93 | the rounded percentage of satisfied parts out of six; its values are stated by `ProgressIsRoundedSixth`, `ProgressFullIffFinished`, `FillingNeverLowersProgress` and `NewProjectProgress` |
| ProjectContext.ProgressIsRoundedSixth | src/contexts/ProjectContext.tsx:81-93 | the score is one of 0, 17, 33, 50, 67, 83, 100, namely the entry for the number of satisfied parts |
| ProjectContext.ProgressFullIffFinished | src/contexts/ProjectContext.tsx:85-92 | the score is 100 exactly when title, premise, area, objectives, literature, at least one abstract, introduction, methodology and results are all non-empty |
| ProjectContext.RoundedPercentMonotone | src/contexts/ProjectContext.tsx:92 | more completed parts never give a lower percentage |
| ProjectContext.FillingNeverLowersProgress | src/contexts/ProjectContext.tsx:85-90 | if every text field non-empty in one project is non-empty in another, the second scores at least as much |
| ProjectContext.NewProjectProgress | src/contexts/ProjectContext.tsx:52-70 | a fresh project scores 17 when its three configuration texts are non-empty, 0 otherwise |
| ProjectContext.MockProjectProgress | src/contexts/ProjectContext.tsx:30-46 | the seeded project scores 50 |
| ProjectContext.UpdateMatching | src/contexts/ProjectContext.tsx:73-75 | the list keeps its length and order; projects with another id are unchanged; projects with the id are merged |
| ProjectContext.UpdateUnknownIdIsNoOp | src/contexts/ProjectContext.tsx:73-75 | an update for an id no project has leaves the list unchanged |
| ProjectContext.UpdateKeepsIds | src/contexts/ProjectContext.tsx:73-75 | an update that names neither id nor creation date keeps every project's id and creation date |
| ProjectContext.ProjectStore.constructor | src/contexts/ProjectContext.tsx:49-50 | the store starts with the seeded project and no current project |
| ProjectContext.ProjectStore.CreateProject | src/contexts/ProjectContext.tsx:52-70 | exactly one new project is appended at the end and becomes current |
| ProjectContext.ProjectStore.UpdateProject | src/contexts/ProjectContext.tsx:72-79 | the list is updated by id, keeping length and order; the current project is merged only when its id matches and is otherwise unchanged |
| ProjectContext.ProjectStore.SetCurrentProject | src/contexts/ProjectContext.tsx:50 | sets the current project and leaves the list alone |
| ProgressSidebar.IsStepComplete | src/components/ProgressSidebar.tsx:30-45 | each step looks at its own fields and an unknown id is false; stated by `UnknownStepNeverComplete`, `SidebarAgreesWithProgress` and `ContinueCompletesObjectivesStep` |
| ProgressSidebar.IsStepCurrent | src/components/ProgressSidebar.tsx:47-49 | the step's section is the edited one; stated by `ExactlyOneCurrent` |
| ProgressSidebar.IsClickable | src/components/ProgressSidebar.tsx:59 | a step with a section; stated by `ClickableAreTheLastThree` |
| ProgressSidebar.StepOrder | src/components/ProgressSidebar.tsx:11-17 | five steps in the order config, objectives, introduction, methodology, results, with distinct ids |
| ProgressSidebar.ClickableAreTheLastThree | src/components/ProgressSidebar.tsx:59-65 | a step is clickable, and a click on it selects a section, exactly when it is one of the last three; each of those selects its own section |
| ProgressSidebar.ExactlyOneCurrent | src/components/ProgressSidebar.tsx:47-49 | exactly one step is current for any edited section; config and objectives never are |
| ProgressSidebar.UnknownStepNeverComplete | src/components/ProgressSidebar.tsx:42-43 | an id outside the five steps is never complete |
| ProgressSidebar.SidebarAgreesWithProgress | src/components/ProgressSidebar.tsx:30-45 | all five steps complete and an abstract written is exactly a progress score of 100 |
| WordCount.GetWordCountFromHtml | src/utils/wordCount.ts:7-24 | blank input counts 0 without conversion; other input counts the word runs of its conversion |
| WordCount.ZeroIffBlankConversion | src/utils/wordCount.ts:18-23 | for non-blank input the count is 0 exactly when the conversion is blank |
| WordCount.CollapsedWhitespaceSameCount | src/utils/wordCount.ts:20-21 | replacing one whitespace run of the converted text by a single space leaves the count unchanged |
| WordCount.PositiveCountMeansNonEmpty | src/utils/wordCount.ts:8 | a positive count implies a non-empty input |
| DocumentParser.ParserFor | src/utils/documentParser.ts:3-18 | the parser for a MIME type, none for an unsupported one; stated by `ParserDispatch` and `AcceptedFilesHaveParsers` |
| DocumentParser.ParserDispatch | src/utils/documentParser.ts:3-18 | exactly the four listed MIME types have a parser |
| DocumentParser.CollectWarnings | src/utils/documentParser.ts:81-101 | the five checks, pushed in order, give the warnings of the check order whose condition fires |
| DocumentParser.ValidateDocument | src/utils/documentParser.ts:57-113 | valid exactly when the text is non-empty; one error for an empty text and none otherwise; the warnings are the checks that fire, in order |
| DocumentParser.SelectedMembership | src/utils/documentParser.ts:82-101 | a warning is present exactly when it is a candidate and its check fires |
| DocumentParser.SelectedKeepsOrder | src/utils/documentParser.ts:82-101 | the warnings keep the order of the checks |
| DocumentParser.SelectedAtMostFour | src/utils/documentParser.ts:95-101 | the short and long warnings never both fire, so there are at most four warnings |
| DocumentParser.SelectedWarnings | src/utils/documentParser.ts:82-101 | each warning is present exactly when its flag or length condition holds, and the warnings come in check order, at most four |
| DocumentParser.ValidationWarnings | src/utils/documentParser.ts:65-101 | the introduction warning is present exactly when neither "introdução" nor "introduction" occurs in the lower-cased text; the methodology warning when none of "metodologia", "método", "methodology" occurs; the results warning when neither "resultados" nor "results" occurs; a short warning below 1000 characters, a long warning above 50000; in order, at most four |
| DocumentParser.EmptyTextWarnings | src/utils/documentParser.ts:65-101 | an empty text draws the three section warnings and the short warning |
| DocumentParser.CapitalisedIntroductionFound | src/utils/documentParser.ts:65-70 | an upper-case "INTRODUÇÃO" anywhere in the text silences the introduction warning |
| ProjectAbstract.CanGenerate | src/pages/ProjectAbstract.tsx:89-93 | a current project with objectives and at least 200/150/150 words; stated by `CanGenerateIffAllMet`, `CanGenerateMonotone` and `GenerationNeedsCompleteSections` |
| ProjectAbstract.Requirements | src/pages/ProjectAbstract.tsx:202-220 | there are four requirement rows |
| ProjectAbstract.CanGenerateIffAllMet | src/pages/ProjectAbstract.tsx:89-93 | generation is allowed exactly when all four requirement rows show "met" |
| ProjectAbstract.GenerationNeedsCompleteSections | src/pages/ProjectAbstract.tsx:71-93 | when generation is allowed on the project's own counts, the sidebar shows introduction, methodology and results complete |
| ProjectAbstract.CanGenerateMonotone | src/pages/ProjectAbstract.tsx:89-93 | higher word counts never withdraw permission |
| ProjectAbstract.ApprovalWritesOnlyAbstracts | src/pages/ProjectAbstract.tsx:156-159 | approval writes both abstracts and the modification time and nothing else |
| ProjectAbstract.AbstractPage.constructor | src/pages/ProjectAbstract.tsx:50-59 | the page starts with both languages, no abstracts, no error and zero counts |
| ProjectAbstract.AbstractPage.RefreshWordCounts | src/pages/ProjectAbstract.tsx:71-79 | with a project the three counts are recomputed; without one they are kept |
| ProjectAbstract.AbstractPage.LoadAbstracts | src/pages/ProjectAbstract.tsx:82-87 | a stored abstract replaces the editor's only when it is non-empty |
| ProjectAbstract.AbstractPage.HandleGenerate | src/pages/ProjectAbstract.tsx:95-151 | no call and no state change unless generation is allowed; otherwise one call with the project's texts and language; the error is cleared, or set to the failure's message or the default; an abstract is replaced only by a non-empty result; a length warning is shown exactly when a replacing abstract has more than 500 words; `isGenerating` ends false |
| ProjectAbstract.AbstractPage.ShowGenerated | src/pages/ProjectAbstract.tsx:112-134 | each abstract that came back non-empty replaces the editor's, the other is kept; a length warning is shown exactly for a replacing abstract of more than 500 words; the error, language and counts are untouched |
| ProjectAbstract.AbstractPage.HandleApprove | src/pages/ProjectAbstract.tsx:153-167 | with a current project, the store is updated with exactly the two abstracts and the editor route is returned; without one nothing changes and no route is returned |
| SuggestionPanel.WordCount | src/components/SuggestionPanel.tsx:22 | the count of non-empty whitespace-separated tokens is the number of word runs |
| SuggestionPanel.Suggestions | src/components/SuggestionPanel.tsx:21-140 | no suggestion exactly for an unknown section, at most three for a known one |
| SuggestionPanel.SuggestionCount | src/components/SuggestionPanel.tsx:24-136 | a known section shows three suggestions above its threshold and two otherwise, the first always a structure remark |
| SuggestionPanel.OptionalShownIffOverThreshold | src/components/SuggestionPanel.tsx:32-130 | the optional suggestion appears exactly above the threshold (30 objectives, 50 literature, 50 introduction, 30 methodology, 40 results), in the middle or, for results, last |
| SuggestionPanel.ShownListIsFilteredFullList | src/components/SuggestionPanel.tsx:24-136 | below the threshold the list is the full list without the optional suggestion: the same members, and the full list is the shown list with the optional suggestion inserted at one position |
| SuggestionPanel.OnlyWordCountMatters | src/components/SuggestionPanel.tsx:21-22 | two contents with the same word count give the same suggestions |
| SuggestionPanel.MoreWordsKeepSuggestions | src/components/SuggestionPanel.tsx:21-140 | more words never remove a suggestion |
| SuggestionPanel.IsHighlight | src/components/SuggestionPanel.tsx:169 | improvement and clarity suggestions are highlighted; stated by `HighlightShown` |
| SuggestionPanel.HighlightShown | src/components/SuggestionPanel.tsx:169 | a highlighted (improvement or clarity) suggestion is shown exactly for objectives, literature and results, or above the threshold |
| Register.HasCharIn | src/pages/Register.tsx:22-24 | a character range test holds exactly when some character lies in the range |
| Register.StrengthOf | src/pages/Register.tsx:20-25 | the four rows: at least 8 characters, an ASCII capital, an ASCII small letter, a digit |
| Register.IsPasswordStrong | src/pages/Register.tsx:27 | every checklist row met; stated through `StrengthOf`, with `NonAsciiLettersDoNotCount` and `StrengthGrows` |
| Register.NonAsciiLettersDoNotCount | src/pages/Register.tsx:22-23 | a password made only of non-ASCII characters meets neither letter row and is never strong |
| Register.StrengthGrows | src/pages/Register.tsx:20-27 | appending characters to a strong password keeps it strong |
| Register.Decide | src/pages/Register.tsx:32-48 | registration happens exactly when the passwords match and are strong; the weak-password rejection happens exactly when they match and the password is not strong; a mismatch is reported whatever the strength |
| Register.RegisterForm.constructor | src/pages/Register.tsx:11-15 | empty fields, not loading |
| Register.RegisterForm.HandleSubmit | src/pages/Register.tsx:29-68 | the outcome follows the guard order; only a registered outcome signs the user in, with `isLoading` lowered again; a rejection changes nothing |
| AuthContext.AuthSession.IsAuthenticated | src/contexts/AuthContext.tsx:75 | a user is signed in; stated by the contracts of `Login`, `Register` and `Logout` |
| AuthContext.AuthSession.constructor | src/contexts/AuthContext.tsx:36 | no user |
| AuthContext.AuthSession.Login | src/contexts/AuthContext.tsx:38-51 | succeeds exactly for a non-empty e-mail and a password of at least 6 characters, signing in the demo user with that e-mail; a failure returns the error and keeps the user |
| AuthContext.AuthSession.Register | src/contexts/AuthContext.tsx:53-62 | always signs in user "1" with the given name and e-mail |
| AuthContext.AuthSession.Logout | src/contexts/AuthContext.tsx:64-66 | no user, not authenticated |
| SmartArticleCreation.TransitionsMoveByOne | src/pages/SmartArticleCreation.tsx:47-75 | every transition moves by one step within 1..4, and only step 2 goes back |
| SmartArticleCreation.Segments | src/pages/SmartArticleCreation.tsx:125-131 | segment k is filled exactly when k is at most the current step |
| SmartArticleCreation.FilledSegmentsCount | src/pages/SmartArticleCreation.tsx:125-131 | the number of filled segments is the current step |
| SmartArticleCreation.Wizard.constructor | src/pages/SmartArticleCreation.tsx:19-30 | step 1, empty form, no file, no tips |
| SmartArticleCreation.Wizard.CanProceedFromStep1 | src/pages/SmartArticleCreation.tsx:32 | title and premise not blank and an area chosen |
| SmartArticleCreation.Wizard.CanProceedFromStep2 | src/pages/SmartArticleCreation.tsx:33 | a file is selected |
| SmartArticleCreation.Wizard.EditDetails | src/pages/SmartArticleCreation.tsx:39-45 | sets the three details and nothing else |
| SmartArticleCreation.Wizard.SetFile | src/pages/SmartArticleCreation.tsx:25 | sets the file and nothing else |
| SmartArticleCreation.Wizard.SetTipsCompleted | src/pages/SmartArticleCreation.tsx:30 | sets the tip map and nothing else |
| SmartArticleCreation.Wizard.Step1Next | src/pages/SmartArticleCreation.tsx:46-47 | from step 1, allowed only when the first step can proceed, to step 2, nothing else changes |
| SmartArticleCreation.Wizard.Step2Back | src/pages/SmartArticleCreation.tsx:56 | from step 2 to step 1, nothing else changes |
| SmartArticleCreation.Wizard.Step2Next | src/pages/SmartArticleCreation.tsx:57-60 | from step 2 to step 3 storing the extracted text, nothing else changes |
| SmartArticleCreation.Wizard.Step3Complete | src/pages/SmartArticleCreation.tsx:72-75 | from step 3 to step 4 storing the tips, nothing else changes |
| SmartArticleStep2.CheckFile | src/components/smart-article/SmartArticleStep2.tsx:35-64 | accepted exactly when at most 10 MB and of a listed type; an oversized file reports the size error whatever its type |
| SmartArticleStep2.SizeLimitIsInclusive | src/components/smart-article/SmartArticleStep2.tsx:36-38 | exactly 10485760 bytes passes the size check, one byte more does not |
| SmartArticleStep2.AcceptedFilesHaveParsers | src/components/smart-article/SmartArticleStep2.tsx:47-52 | every accepted type has a parser |
| SmartArticleStep2.Join | src/components/smart-article/SmartArticleStep2.tsx:108 | joining one message gives that message, joining none gives "" |
| SmartArticleStep2.UploadStep.constructor | src/components/smart-article/SmartArticleStep2.tsx:32-33 | not dragging, not processing |
| SmartArticleStep2.UploadStep.HandleFileSelect | src/components/smart-article/SmartArticleStep2.tsx:35-64 | the file changes only when both checks pass; nothing else in the wizard changes |
| SmartArticleStep2.UploadStep.HandleDrop | src/components/smart-article/SmartArticleStep2.tsx:66-74 | ends the drag and considers only the first dropped file |
| SmartArticleStep2.UploadStep.HandleDragOver | src/components/smart-article/SmartArticleStep2.tsx:76-79 | dragging |
| SmartArticleStep2.UploadStep.HandleDragLeave | src/components/smart-article/SmartArticleStep2.tsx:81-83 | not dragging |
| SmartArticleStep2.UploadStep.HandleProceed | src/components/smart-article/SmartArticleStep2.tsx:93-134 | moves to step 3 exactly when a file exists, its type has a parser and the extracted text is non-empty; otherwise `isProcessing` is lowered and the step stays; the warnings shown are exactly `validateDocument`'s for the extracted text, in check order (so the short-text warning appears exactly below 1000 characters, and there are at most four) |
| SmartArticleStep4.Toggle | src/components/smart-article/SmartArticleStep4.tsx:48-53 | the toggled tip's done state is negated (absent reads as not done), every other key keeps its value |
| SmartArticleStep4.CompletedCount | src/components/smart-article/SmartArticleStep4.tsx:55 | the number of tips mapped to true; stated by `ToggleChangesCountByOne`, `ToggleTwice` and `CompletedAtMostEntries` |
| SmartArticleStep4.ToggleDoneIds | src/components/smart-article/SmartArticleStep4.tsx:48-55 | a toggle adds or removes exactly the toggled id from the done set |
| SmartArticleStep4.ToggleChangesCountByOne | src/components/smart-article/SmartArticleStep4.tsx:48-55 | each toggle moves the completed count by exactly one |
| SmartArticleStep4.ToggleTwice | src/components/smart-article/SmartArticleStep4.tsx:48-55 | toggling twice restores the count and the map, except that an absent key ends up mapped to false |
| SmartArticleStep4.CompletedAtMostEntries | src/components/smart-article/SmartArticleStep4.tsx:55 | the completed count never exceeds the number of entries |
| SmartArticleStep4.CountWords | src/components/smart-article/SmartArticleStep4.tsx:146-148 | a blank text counts 1, any other text its number of words |
| SmartArticleStep4.CountWordsPositive | src/components/smart-article/SmartArticleStep4.tsx:146-148 | the count is never 0, and the empty text counts 1 |
| SmartArticleStep4.OneWordLooksLikeNone | src/components/smart-article/SmartArticleStep4.tsx:146-148 | a one-letter word and the empty text both count 1 |
| SmartArticleStep4.CountWordsIntended | src/components/smart-article/SmartArticleStep4.tsx:146-148 | the corrected count is the number of words, 0 exactly for a blank text |
| SmartArticleStep4.CountWordsOffByOneOnBlank | src/components/smart-article/SmartArticleStep4.tsx:146-148 | the count as written exceeds the corrected count by one exactly on blank texts |
| SmartArticleStep4.GenerationInput | src/components/smart-article/SmartArticleStep4.tsx:61-69 | the introduction is the first 3000 characters of the extracted text (a prefix, at most 3000 long); objectives are empty; methodology and results are the whole text |
| SmartArticleStep4.AbstractPanel.constructor | src/components/smart-article/SmartArticleStep4.tsx:42-45 | both languages, not generating, no abstracts |
| SmartArticleStep4.AbstractPanel.HandleGenerateAbstract | src/components/smart-article/SmartArticleStep4.tsx:57-88 | one call with the shaped input; on success both abstracts are replaced, a missing one by ""; on failure both are kept; the flag ends false |
| SmartArticleStep4.AbstractPanel.ToggleTipComplete | src/components/smart-article/SmartArticleStep4.tsx:48-53 | the wizard's map is toggled and the count moves by one; nothing else in the wizard changes |
| ProjectSetup.ContinueAccepted | src/pages/ProjectSetup.tsx:43 | accepted exactly when neither field is blank |
| ProjectSetup.EmptyParagraphMarkupAccepted | src/pages/ProjectSetup.tsx:43 | an editor value of empty-paragraph markup passes the check |
| ProjectSetup.SetupPatchWritesOnlyTheTwoFields | src/pages/ProjectSetup.tsx:32 | saving writes objectives, literature and the modification time and nothing else |
| ProjectSetup.AutosaveNeeded | src/pages/ProjectSetup.tsx:31 | either field differs from the stored project; stated by `SavedNeedsNoAutosave` and the contract of `Autosave` |
| ProjectSetup.SavedNeedsNoAutosave | src/pages/ProjectSetup.tsx:31-32 | once saved, the same values need no further autosave |
| ProjectSetup.ContinueCompletesObjectivesStep | src/pages/ProjectSetup.tsx:43-52 | an accepted continue marks the sidebar's objectives step complete |
| ProjectSetup.SetupPage.constructor | src/pages/ProjectSetup.tsx:14-16 | empty fields, never saved |
| ProjectSetup.SetupPage.Load | src/pages/ProjectSetup.tsx:18-25 | without a project the page redirects to the dashboard and keeps its fields; otherwise there is no redirect and both fields take the stored values |
| ProjectSetup.SetupPage.Autosave | src/pages/ProjectSetup.tsx:30-35 | writes exactly when a project exists and either field differs from it; then the store holds the two fields and the save time is recorded; otherwise nothing changes |
| ProjectSetup.SetupPage.HandleContinue | src/pages/ProjectSetup.tsx:40-58 | no project: nothing; a blank field: the error and nothing written; otherwise exactly the two fields are written and the editor route is returned |
| Text.TrimStart | src/pages/ProjectSetup.tsx:43 | drops exactly the leading whitespace |
| Text.TrimEnd | src/pages/ProjectSetup.tsx:43 | drops exactly the trailing whitespace |
| Text.Trim | src/pages/SmartArticleCreation.tsx:32 | empty exactly for a blank string, otherwise starting and ending with a non-blank |
| Text.SplitWs | src/utils/wordCount.ts:20 | at least one piece, the first empty exactly when the string is empty or starts blank |
| Text.NonEmpty | src/utils/wordCount.ts:21 | keeps exactly the non-empty pieces |
| Text.NoRunsIffBlank | src/utils/wordCount.ts:18-23 | no word exactly when the string is blank |
| Text.TrimKeepsRuns | src/utils/wordCount.ts:19 | trimming keeps the number of words |
| Text.SplitLength | src/components/smart-article/SmartArticleStep4.tsx:147 | the split has one piece per word, plus an empty first piece for an empty or blank-started string and an empty last piece for a blank-ended one |
| Text.SplitNonEmptyCountsRuns | src/components/SuggestionPanel.tsx:22 | the non-empty pieces of the split are as many as the words |
| Text.Contains | src/utils/documentParser.ts:68-79 | `includes` holds exactly when the substring occurs at some position |
| Text.Lower | src/utils/documentParser.ts:65 | `toLowerCase` on the ASCII and Latin-1 capitals, keeping positions; stated by `LowerSlice` and `CapitalisedIntroductionFound` |
| Text.Prefix | src/components/smart-article/SmartArticleStep4.tsx:66 | `substring(0, n)` is a prefix of length min(length, n) |

## Left out

- Language-model and HTTP calls (`generateAbstract` in src/services/ai.ts and the edge functions). The model replaces them with their outcome as a parameter; the prompt texts and word limits inside them are instructions to the model, not code.
- Document parsing I/O (pdf.js, mammoth, `file.text()`). Only the MIME dispatch is modelled; the extracted text or the thrown message is a parameter.
- Timers and asynchronous sequencing: the 2-second autosave debounce, the 500 ms mock delays, React batching and stale closures. `updateProject` is modelled as one atomic step that reads the latest list.
- Intermediate loading flags: `isGenerating`, `isProcessing`, `isLoading` and `isGeneratingAbstract` are raised for the duration of an awaited call. The model states only their value when the handler ends.
- The SmartArticleStep4 generation error toast: on failure the model keeps both abstracts and does not model the toast text.
- The redirect effects of the abstract page (src/pages/ProjectAbstract.tsx:62-68) and the navigation buttons of the pages are not modelled.
- Register.RegisterForm.HandleSubmit: the move to the dashboard after a registration (src/pages/Register.tsx:58) is the `Registered` outcome; no route is returned.
- `formatFileSize` (floating-point logarithms) and `handleSaveProject` (storage upload and Supabase).
- Clocks and ids: `Date.now()` ids and `new Date()` times are parameters, one `now` per call. `createProject` calls `new Date()` twice (src/contexts/ProjectContext.tsx:65-66), so `NewProject`'s two equal dates may differ by a clock tick in the source. `updateProject` calls it twice too; the model uses one `now` for both merges. The seeded project's two dates are both 0.
- SmartArticleStep4.Toggle: tip ids are assumed not to be property names inherited by JavaScript objects (`constructor`, `toString`, `valueOf`). For such an absent id, `!tipsCompleted[tipId]` reads a function and stores `false`, so the count stays where it was. The model stores `true` and moves the count by one. Tip ids have the form `tip-N`.
- `Partial<Project>` with an explicitly `undefined` field: the model treats every field as given or absent.
- `toLowerCase`: `Text.Lower` maps only ASCII capitals and the Latin-1 capitals (À–Þ except ×); the rest of Unicode case mapping is not modelled.
- String lengths count characters; JavaScript counts UTF-16 code units, which differ only for characters outside the Basic Multilingual Plane.
- `AiTip` and `analyzeDocumentForTips` are not part of this model; a tip is reduced to its id, and the wizard's analysis step (step 3) is only its `onComplete` transition.
- The catch branch of `handleSubmit` in Register.tsx: the mock `register` never throws, so the failure toast is unreachable and not modelled.
- The section of SuggestionPanel is a string: the TypeScript union type would exclude unknown sections, for which the model returns the empty list as the final `return []` does.
- The suggestions' icons are modelled as names; rendering and the highlight styling are not.
- Pure UI components (Dashboard, ProjectCard, TipCard, RichTextEditor, SmartArticleStep1 widgets, the ProjectEditor autosave wiring).
- The step callbacks of the wizard are methods with a `requires` on the current step: each callback exists only while its step is rendered.

## Findings

| source | as written | input that shows it | evidently intended | confidence | as-written member | corrected member |
|---|---|---|---|---|---|---|
| src/components/smart-article/SmartArticleStep4.tsx:146-148 | `text.trim().split(/\s+/).length` counts the single empty piece that splitting an empty string yields | an abstract edited down to `"   "` (truthy, so its counter is shown) reads "1 palavras" / "1 words", the same as `"x"`; `""` also counts 1 but hides the counter | the number of words, 0 for a blank text | not executed; high | SmartArticleStep4.CountWords, SmartArticleStep4.OneWordLooksLikeNone | SmartArticleStep4.CountWordsIntended, SmartArticleStep4.CountWordsOffByOneOnBlank |
