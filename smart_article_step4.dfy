/**
 * The wizard's results step (src/components/smart-article/SmartArticleStep4.tsx):
 * the tip-completion map and its counter, the raw word count shown for the
 * generated abstracts, and the abstract generation from the extracted text.
 */
module SmartArticleStep4 {
  import opened Wrappers
  import opened Text
  import opened AiService
  import opened SmartArticleCreation

  // ---------------------------------------------------------------------------
  // tips

  /** Whether a tip is marked done: a missing key reads as not done. */
  predicate Done(m: map<string, bool>, id: string) {
    id in m && m[id]
  }

  /** `{ ...tipsCompleted, [tipId]: !tipsCompleted[tipId] }`. */
  function Toggle(m: map<string, bool>, id: string): (r: map<string, bool>)
    ensures r.Keys == m.Keys + {id}
    ensures Done(r, id) <==> !Done(m, id)
    ensures forall k :: k in m && k != id ==> r[k] == m[k]
  {
    m[id := !Done(m, id)]
  }

  /** The ids marked done. */
  function DoneIds(m: map<string, bool>): set<string> {
    set k | k in m && m[k]
  }

  /** `completedCount`: the number of keys mapped to true. */
  function CompletedCount(m: map<string, bool>): nat {
    |DoneIds(m)|
  }

  /** A toggle adds the tip to the done ids or removes it, and changes no other id. */
  lemma ToggleDoneIds(m: map<string, bool>, id: string)
    ensures DoneIds(Toggle(m, id)) == if Done(m, id) then DoneIds(m) - {id} else DoneIds(m) + {id}
  {
    var r := Toggle(m, id);
    forall k
      ensures k in DoneIds(r) <==> if k == id then !Done(m, id) else k in DoneIds(m)
    {
      assert k in DoneIds(r) <==> Done(r, k);
      assert k in DoneIds(m) <==> Done(m, k);
    }
  }

  /** Each toggle moves the counter by exactly one, up when the tip was not done and down when it was. */
  lemma ToggleChangesCountByOne(m: map<string, bool>, id: string)
    ensures CompletedCount(Toggle(m, id)) == if Done(m, id) then CompletedCount(m) - 1 else CompletedCount(m) + 1
  {
    ToggleDoneIds(m, id);
  }

  /**
   * Toggling twice restores the counter and every entry, except that a tip
   * that had no entry ends up mapped to false.
   */
  lemma ToggleTwice(m: map<string, bool>, id: string)
    ensures CompletedCount(Toggle(Toggle(m, id), id)) == CompletedCount(m)
    ensures Toggle(Toggle(m, id), id) == if id in m then m else m[id := false]
  {
    ToggleChangesCountByOne(m, id);
    ToggleChangesCountByOne(Toggle(m, id), id);
  }

  /** Never more tips done than entries in the map. */
  lemma CompletedAtMostEntries(m: map<string, bool>)
    ensures CompletedCount(m) <= |m.Keys|
  {
    assert DoneIds(m) <= m.Keys;
    SubsetCardinality(DoneIds(m), m.Keys);
  }

  lemma {:induction false} SubsetCardinality(a: set<string>, b: set<string>)
    requires a <= b
    ensures |a| <= |b|
    decreases |b|
  {
    if a != {} {
      var x :| x in a;
      SubsetCardinality(a - {x}, b - {x});
    }
  }

  // ---------------------------------------------------------------------------
  // word count

  /**
   * `text.trim().split(/\s+/).length`: the words of the text, except that a
   * blank text counts as one (the split of "" has one empty piece).
   */
  function CountWords(text: string): (n: nat)
    ensures n == if AllWhitespace(text) then 1 else WordRuns(text)
  {
    var t := Trim(text);
    SplitLength(t);
    TrimKeepsRuns(text);
    |SplitWs(t)|
  }

  /** The counter never shows 0, and is 1 for the empty text. */
  lemma CountWordsPositive(text: string)
    ensures CountWords(text) >= 1
    ensures CountWords([]) == 1
  {
    if !AllWhitespace(text) {
      NoRunsIffBlank(text);
    }
  }

  /** A one-character word and an empty text both count as 1. */
  lemma OneWordLooksLikeNone(c: char)
    requires !IsWhitespace(c)
    ensures CountWords([c]) == CountWords([]) == 1
  {
    assert !AllWhitespace([c]) by { assert [c][0] == c; }
    assert WordRuns([c]) == 1 by {
      assert [c][1..] == [];
      assert Runs([c][1..], true) == 0;
    }
  }

  /**
   * The count the counter evidently means to show: the words of the text,
   * with the empty pieces of the split dropped, so a blank text counts 0.
   */
  function CountWordsIntended(text: string): (n: nat)
    ensures n == WordRuns(text)
    ensures n == 0 <==> AllWhitespace(text)
  {
    SplitNonEmptyCountsRuns(Trim(text));
    TrimKeepsRuns(text);
    NoRunsIffBlank(text);
    |NonEmpty(SplitWs(Trim(text)))|
  }

  /** The counter as written is off by one exactly on blank texts. */
  lemma CountWordsOffByOneOnBlank(text: string)
    ensures CountWords(text) == CountWordsIntended(text) + (if AllWhitespace(text) then 1 else 0)
  {
    if AllWhitespace(text) {
      NoRunsIffBlank(text);
    }
  }

  // ---------------------------------------------------------------------------
  // abstract generation

  /** The length of the extracted-text excerpt sent as introduction. */
  const IntroductionExcerpt: nat := 3000

  /** The input `handleGenerateAbstract` sends. */
  function GenerationInput(title: string, premise: string, area: string, extractedText: string): (input: AbstractInput)
    ensures input.title == title && input.premise == premise && input.area == area
    ensures input.objectives == []
    ensures input.introduction == Prefix(extractedText, IntroductionExcerpt)
    ensures input.methodology == extractedText && input.results == extractedText
    ensures |input.introduction| <= IntroductionExcerpt && input.introduction <= extractedText
  {
    AbstractInput(title, premise, area, [], Prefix(extractedText, IntroductionExcerpt), extractedText, extractedText)
  }

  class AbstractPanel {
    var selectedLanguage: Language
    var isGeneratingAbstract: bool
    var generatedAbstractPT: string
    var generatedAbstractEN: string

    constructor ()
      ensures selectedLanguage == Both && !isGeneratingAbstract
      ensures generatedAbstractPT == [] && generatedAbstractEN == []
    {
      selectedLanguage := Both;
      isGeneratingAbstract := false;
      generatedAbstractPT := [];
      generatedAbstractEN := [];
    }

    /**
     * `handleGenerateAbstract`: one call to the generator with the shaped
     * input; on success both abstracts are replaced, a missing one by "";
     * on failure they are kept. The flag is lowered in every case.
     */
    method HandleGenerateAbstract(title: string, premise: string, area: string, extractedText: string,
                                  outcome: GenerationOutcome)
      returns (request: GenerationRequest)
      modifies this
      ensures request == GenerationRequest(GenerationInput(title, premise, area, extractedText), selectedLanguage)
      ensures outcome.Generated? ==>
        generatedAbstractPT == outcome.output.resumoPT.GetOr([])
        && generatedAbstractEN == outcome.output.resumoEN.GetOr([])
      ensures outcome.Failed? ==>
        generatedAbstractPT == old(generatedAbstractPT) && generatedAbstractEN == old(generatedAbstractEN)
      ensures !isGeneratingAbstract && selectedLanguage == old(selectedLanguage)
    {
      isGeneratingAbstract := true;
      request := GenerationRequest(GenerationInput(title, premise, area, extractedText), selectedLanguage);
      match outcome {
        case Generated(result) =>
          generatedAbstractPT := result.resumoPT.GetOr([]);
          generatedAbstractEN := result.resumoEN.GetOr([]);
        case Failed(_) =>
      }
      isGeneratingAbstract := false;
    }

    /** `toggleTipComplete`, through the wizard's `setTipsCompleted`. */
    method ToggleTipComplete(wizard: Wizard, tipId: string)
      modifies wizard
      ensures wizard.tipsCompleted == Toggle(old(wizard.tipsCompleted), tipId)
      ensures CompletedCount(wizard.tipsCompleted) ==
        if Done(old(wizard.tipsCompleted), tipId) then CompletedCount(old(wizard.tipsCompleted)) - 1
        else CompletedCount(old(wizard.tipsCompleted)) + 1
      ensures wizard.currentStep == old(wizard.currentStep) && wizard.file == old(wizard.file)
      ensures wizard.title == old(wizard.title) && wizard.premise == old(wizard.premise) && wizard.area == old(wizard.area)
      ensures wizard.extractedText == old(wizard.extractedText) && wizard.aiTips == old(wizard.aiTips)
    {
      ToggleChangesCountByOne(wizard.tipsCompleted, tipId);
      wizard.SetTipsCompleted(Toggle(wizard.tipsCompleted, tipId));
    }
  }
}
