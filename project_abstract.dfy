/**
 * The abstract page (src/pages/ProjectAbstract.tsx): the word counts of the
 * three long sections, the prerequisite for asking for an abstract, the
 * state updates of a generation, the loading of stored abstracts and the
 * approval that writes the abstracts back into the project.
 */
module ProjectAbstract {
  import opened Wrappers
  import opened ProjectContext
  import opened WordCount
  import opened AiService
  import opened ProgressSidebar
  import opened Routes

  const IntroductionMinimum: nat := 200
  const MethodologyMinimum: nat := 150
  const ResultsMinimum: nat := 150
  /** Above this many words a generated abstract draws a warning. */
  const RecommendedMaximum: nat := 500

  const DefaultError := "Erro ao gerar resumo"

  /** The `wordCounts` state. */
  datatype WordCounts = WordCounts(introduction: nat, methodology: nat, results: nat)

  /** What the word-count effect stores for a project. */
  function WordCountsOf(p: Project, convert: string -> string): WordCounts {
    WordCounts(
      GetWordCountFromHtml(p.introduction, convert),
      GetWordCountFromHtml(p.methodology, convert),
      GetWordCountFromHtml(p.results, convert))
  }

  /** `canGenerate`: a project with objectives and long enough sections. */
  predicate CanGenerate(current: Option<Project>, wc: WordCounts) {
    && current.Some?
    && current.value.objectives != []
    && wc.introduction >= IntroductionMinimum
    && wc.methodology >= MethodologyMinimum
    && wc.results >= ResultsMinimum
  }

  /** The `met` flags of the four requirement rows, top to bottom. */
  function Requirements(p: Project, wc: WordCounts): (flags: seq<bool>)
    ensures |flags| == 4
  {
    [p.objectives != [],
     wc.introduction >= IntroductionMinimum,
     wc.methodology >= MethodologyMinimum,
     wc.results >= ResultsMinimum]
  }

  /** The button is enabled exactly when every requirement row shows "met". */
  lemma CanGenerateIffAllMet(p: Project, wc: WordCounts)
    ensures CanGenerate(Some(p), wc) <==> forall i :: 0 <= i < 4 ==> Requirements(p, wc)[i]
  {
    if forall i :: 0 <= i < 4 ==> Requirements(p, wc)[i] {
      assert Requirements(p, wc)[0] && Requirements(p, wc)[1];
      assert Requirements(p, wc)[2] && Requirements(p, wc)[3];
    }
  }

  /**
   * When generation is allowed on the counts of the project itself, the
   * sidebar shows introduction, methodology and results as complete.
   */
  lemma GenerationNeedsCompleteSections(p: Project, convert: string -> string)
    requires CanGenerate(Some(p), WordCountsOf(p, convert))
    ensures IsStepComplete(p, "introduction")
    ensures IsStepComplete(p, "methodology")
    ensures IsStepComplete(p, "results")
  {
    PositiveCountMeansNonEmpty(p.introduction, convert);
    PositiveCountMeansNonEmpty(p.methodology, convert);
    PositiveCountMeansNonEmpty(p.results, convert);
  }

  /** Writing more never withdraws permission: the rule is monotone in each count. */
  lemma CanGenerateMonotone(current: Option<Project>, a: WordCounts, b: WordCounts)
    requires CanGenerate(current, a)
    requires a.introduction <= b.introduction && a.methodology <= b.methodology && a.results <= b.results
    ensures CanGenerate(current, b)
  {
  }

  /** The generator input built from the current project. */
  function InputOf(p: Project): AbstractInput {
    AbstractInput(p.title, p.premise, p.area, p.objectives, p.introduction, p.methodology, p.results)
  }

  /** `{ abstractPT: generatedPT, abstractEN: generatedEN }`. */
  function ApprovalPatch(pt: string, en: string): Patch {
    EmptyPatch.(abstractPT := Some(pt), abstractEN := Some(en))
  }

  /** Approval writes the two abstracts and the modification time and nothing else. */
  lemma ApprovalWritesOnlyAbstracts(p: Project, pt: string, en: string, now: Time)
    ensures Merge(p, ApprovalPatch(pt, en), now) == p.(abstractPT := pt, abstractEN := en, updatedAt := now)
  {
  }

  /** An abstract long enough to draw the length warning. */
  predicate OverRecommended(text: string, convert: string -> string) {
    GetWordCountFromHtml(text, convert) > RecommendedMaximum
  }

  /** A generated text that replaces the editor's: present and not empty. */
  predicate Usable(text: Option<string>) {
    text.Some? && text.value != []
  }

  class AbstractPage {
    var language: Language
    var isGenerating: bool
    var generatedPT: string
    var generatedEN: string
    var error: string
    var wordCounts: WordCounts

    constructor ()
      ensures language == Both && !isGenerating
      ensures generatedPT == [] && generatedEN == [] && error == []
      ensures wordCounts == WordCounts(0, 0, 0)
    {
      language := Both;
      isGenerating := false;
      generatedPT := [];
      generatedEN := [];
      error := [];
      wordCounts := WordCounts(0, 0, 0);
    }

    /** The word-count effect: recounts when there is a project, otherwise keeps the counts. */
    method RefreshWordCounts(current: Option<Project>, convert: string -> string)
      modifies this
      ensures wordCounts == if current.Some? then WordCountsOf(current.value, convert) else old(wordCounts)
      ensures language == old(language) && isGenerating == old(isGenerating) && error == old(error)
      ensures generatedPT == old(generatedPT) && generatedEN == old(generatedEN)
    {
      if current.Some? {
        wordCounts := WordCountsOf(current.value, convert);
      }
    }

    /** The loading effect: a stored abstract replaces the editor's only when it is not empty. */
    method LoadAbstracts(current: Option<Project>)
      modifies this
      ensures generatedPT == if current.Some? && current.value.abstractPT != [] then current.value.abstractPT else old(generatedPT)
      ensures generatedEN == if current.Some? && current.value.abstractEN != [] then current.value.abstractEN else old(generatedEN)
      ensures language == old(language) && isGenerating == old(isGenerating) && error == old(error)
      ensures wordCounts == old(wordCounts)
    {
      if current.Some? {
        if current.value.abstractPT != [] {
          generatedPT := current.value.abstractPT;
        }
        if current.value.abstractEN != [] {
          generatedEN := current.value.abstractEN;
        }
      }
    }

    /**
     * `handleGenerate`. The generator's outcome is a parameter; `request` is
     * the call made, if any, and `warnPT`/`warnEN` say whether a length
     * warning was shown for each language.
     */
    method HandleGenerate(current: Option<Project>, outcome: GenerationOutcome, convert: string -> string)
      returns (request: Option<GenerationRequest>, warnPT: bool, warnEN: bool)
      modifies this
      ensures !CanGenerate(current, old(wordCounts)) ==>
        request == None && !warnPT && !warnEN
        && isGenerating == old(isGenerating) && error == old(error)
        && generatedPT == old(generatedPT) && generatedEN == old(generatedEN)
      ensures CanGenerate(current, old(wordCounts)) ==>
        request == Some(GenerationRequest(InputOf(current.value), old(language))) && !isGenerating
      ensures CanGenerate(current, old(wordCounts)) ==>
        error == match outcome case Generated(_) => [] case Failed(message) => message.GetOr(DefaultError)
      ensures generatedPT ==
        if CanGenerate(current, old(wordCounts)) && outcome.Generated? && Usable(outcome.output.resumoPT)
        then outcome.output.resumoPT.value else old(generatedPT)
      ensures generatedEN ==
        if CanGenerate(current, old(wordCounts)) && outcome.Generated? && Usable(outcome.output.resumoEN)
        then outcome.output.resumoEN.value else old(generatedEN)
      ensures warnPT <==>
        CanGenerate(current, old(wordCounts)) && outcome.Generated? && Usable(outcome.output.resumoPT)
        && OverRecommended(outcome.output.resumoPT.value, convert)
      ensures warnEN <==>
        CanGenerate(current, old(wordCounts)) && outcome.Generated? && Usable(outcome.output.resumoEN)
        && OverRecommended(outcome.output.resumoEN.value, convert)
      ensures language == old(language) && wordCounts == old(wordCounts)
    {
      request, warnPT, warnEN := None, false, false;
      if current.None? || !CanGenerate(current, wordCounts) {
        return;
      }
      var p := current.value;

      isGenerating := true;
      error := [];

      request := Some(GenerationRequest(InputOf(p), language));
      match outcome {
        case Generated(result) =>
          warnPT, warnEN := ShowGenerated(result, convert);
        case Failed(message) =>
          error := message.GetOr(DefaultError);
      }

      isGenerating := false;
    }

    /**
     * The success branch of `handleGenerate`: each abstract that came back
     * non-empty replaces the editor's, with a warning when it is too long.
     */
    method ShowGenerated(result: AbstractOutput, convert: string -> string) returns (warnPT: bool, warnEN: bool)
      modifies this
      ensures generatedPT == if Usable(result.resumoPT) then result.resumoPT.value else old(generatedPT)
      ensures generatedEN == if Usable(result.resumoEN) then result.resumoEN.value else old(generatedEN)
      ensures warnPT <==> Usable(result.resumoPT) && OverRecommended(result.resumoPT.value, convert)
      ensures warnEN <==> Usable(result.resumoEN) && OverRecommended(result.resumoEN.value, convert)
      ensures language == old(language) && isGenerating == old(isGenerating) && error == old(error)
      ensures wordCounts == old(wordCounts)
    {
      warnPT, warnEN := false, false;
      if Usable(result.resumoPT) {
        generatedPT := result.resumoPT.value;
        warnPT := OverRecommended(result.resumoPT.value, convert);
      }
      if Usable(result.resumoEN) {
        generatedEN := result.resumoEN.value;
        warnEN := OverRecommended(result.resumoEN.value, convert);
      }
    }

    /**
     * `handleApprove`: writes both editors' abstracts into the current
     * project, if there is one, and then moves to the editor.
     */
    method HandleApprove(store: ProjectStore, now: Time) returns (destination: Option<string>)
      modifies store
      ensures destination == if old(store.currentProject).Some? then Some(EditorRoute) else None
      ensures old(store.currentProject).None? ==>
        store.projects == old(store.projects) && store.currentProject == old(store.currentProject)
      ensures old(store.currentProject).Some? ==>
        store.projects == UpdateMatching(old(store.projects), old(store.currentProject).value.id,
                                         ApprovalPatch(generatedPT, generatedEN), now)
        && store.currentProject == Some(old(store.currentProject).value.(abstractPT := generatedPT,
                                                                       abstractEN := generatedEN,
                                                                       updatedAt := now))
    {
      var current := store.currentProject;
      if current.None? {
        return None;
      }
      store.UpdateProject(current.value.id, ApprovalPatch(generatedPT, generatedEN), now);
      ApprovalWritesOnlyAbstracts(current.value, generatedPT, generatedEN, now);
      destination := Some(EditorRoute);
    }
  }
}
