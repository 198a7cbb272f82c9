/**
 * The four-step smart-article wizard (src/pages/SmartArticleCreation.tsx):
 * the form data, the step machine driven by the steps' callbacks, the
 * conditions for leaving the first two steps and the progress bar.
 */
module SmartArticleCreation {
  import opened Wrappers
  import opened Text

  /** The parts of a browser `File` the wizard looks at. */
  datatype FileInfo = FileInfo(name: string, size: nat, mimeType: string)

  /** A tip from the document analysis; only its id is used here. */
  datatype Tip = Tip(id: string)

  /** A step change the wizard's callbacks make: 1 to 2, 2 back to 1, 2 to 3, 3 to 4. */
  predicate Transition(from: nat, to: nat) {
    (from == 1 && to == 2) || (from == 2 && to == 1) || (from == 2 && to == 3) || (from == 3 && to == 4)
  }

  /** Every transition moves by exactly one step and stays within 1..4; only step 2 can go back. */
  lemma TransitionsMoveByOne(from: nat, to: nat)
    requires Transition(from, to)
    ensures to == from + 1 || to + 1 == from
    ensures 1 <= from <= 3 && 1 <= to <= 4
    ensures to < from ==> from == 2
  {
  }

  /** The progress bar: segment `k` (1 to 4) is filled when `k <= currentStep`. */
  function Segments(currentStep: nat): (filled: seq<bool>)
    ensures |filled| == 4
    ensures forall k :: 0 <= k < 4 ==> (filled[k] <==> k + 1 <= currentStep)
  {
    seq(4, k requires 0 <= k < 4 => k + 1 <= currentStep)
  }

  function CountFilled(s: seq<bool>): nat {
    if s == [] then 0 else (if s[0] then 1 else 0) + CountFilled(s[1..])
  }

  /** Filled segments are a prefix: exactly the first `n` are filled. */
  lemma {:induction false} PrefixCount(s: seq<bool>, n: nat)
    requires n <= |s|
    requires forall k :: 0 <= k < |s| ==> (s[k] <==> k < n)
    ensures CountFilled(s) == n
    decreases |s|
  {
    if s != [] {
      var rest := s[1..];
      assert forall k :: 0 <= k < |rest| ==> rest[k] == s[k + 1];
      if n > 0 {
        PrefixCount(rest, n - 1);
      } else {
        PrefixCount(rest, 0);
      }
    }
  }

  /** The number of filled segments is the current step. */
  lemma FilledSegmentsCount(currentStep: nat)
    requires 1 <= currentStep <= 4
    ensures CountFilled(Segments(currentStep)) == currentStep
  {
    PrefixCount(Segments(currentStep), currentStep);
  }

  class Wizard {
    var currentStep: nat
    var title: string
    var premise: string
    var area: string
    var file: Option<FileInfo>
    var extractedText: string
    var aiTips: seq<Tip>
    var tipsCompleted: map<string, bool>

    /** `currentStep` has the type `1 | 2 | 3 | 4`. */
    ghost predicate Valid()
      reads this
    {
      1 <= currentStep <= 4
    }

    constructor ()
      ensures Valid() && currentStep == 1
      ensures title == [] && premise == [] && area == [] && file == None
      ensures extractedText == [] && aiTips == [] && tipsCompleted == map[]
    {
      currentStep := 1;
      title, premise, area := [], [], [];
      file := None;
      extractedText := [];
      aiTips := [];
      tipsCompleted := map[];
    }

    /** `canProceedFromStep1`: title and premise not blank, an area chosen. */
    function CanProceedFromStep1(): (r: bool)
      reads this
      ensures r <==> !AllWhitespace(title) && !AllWhitespace(premise) && area != []
    {
      Trim(title) != [] && Trim(premise) != [] && area != []
    }

    /** `canProceedFromStep2`: a file is selected. */
    function CanProceedFromStep2(): (r: bool)
      reads this
      ensures r <==> file != None
    {
      file.Some?
    }

    /** The first step's inputs: `setTitle`, `setPremise`, `setArea`. */
    method EditDetails(newTitle: string, newPremise: string, newArea: string)
      requires Valid() && currentStep == 1
      modifies this
      ensures Valid() && currentStep == 1
      ensures title == newTitle && premise == newPremise && area == newArea
      ensures file == old(file) && extractedText == old(extractedText)
      ensures aiTips == old(aiTips) && tipsCompleted == old(tipsCompleted)
    {
      title, premise, area := newTitle, newPremise, newArea;
    }

    /** `setFile`. */
    method SetFile(f: Option<FileInfo>)
      modifies this
      ensures file == f
      ensures currentStep == old(currentStep) && title == old(title) && premise == old(premise) && area == old(area)
      ensures extractedText == old(extractedText) && aiTips == old(aiTips) && tipsCompleted == old(tipsCompleted)
    {
      file := f;
    }

    /** `setTipsCompleted`. */
    method SetTipsCompleted(m: map<string, bool>)
      modifies this
      ensures tipsCompleted == m
      ensures currentStep == old(currentStep) && title == old(title) && premise == old(premise) && area == old(area)
      ensures file == old(file) && extractedText == old(extractedText) && aiTips == old(aiTips)
    {
      tipsCompleted := m;
    }

    /** The first step's "next" button, enabled only when `canProceedFromStep1`. */
    method Step1Next()
      requires Valid() && currentStep == 1 && CanProceedFromStep1()
      modifies this
      ensures Valid() && currentStep == 2 && Transition(old(currentStep), currentStep)
      ensures title == old(title) && premise == old(premise) && area == old(area) && file == old(file)
      ensures extractedText == old(extractedText) && aiTips == old(aiTips) && tipsCompleted == old(tipsCompleted)
    {
      currentStep := 2;
    }

    /** The second step's `onBack`. */
    method Step2Back()
      requires Valid() && currentStep == 2
      modifies this
      ensures Valid() && currentStep == 1 && Transition(old(currentStep), currentStep)
      ensures title == old(title) && premise == old(premise) && area == old(area) && file == old(file)
      ensures extractedText == old(extractedText) && aiTips == old(aiTips) && tipsCompleted == old(tipsCompleted)
    {
      currentStep := 1;
    }

    /** The second step's `onNext`: keeps the extracted text and moves to the analysis. */
    method Step2Next(text: string)
      requires Valid() && currentStep == 2
      modifies this
      ensures Valid() && currentStep == 3 && Transition(old(currentStep), currentStep)
      ensures extractedText == text
      ensures title == old(title) && premise == old(premise) && area == old(area) && file == old(file)
      ensures aiTips == old(aiTips) && tipsCompleted == old(tipsCompleted)
    {
      extractedText := text;
      currentStep := 3;
    }

    /** The third step's `onComplete`: keeps the tips and moves to the results. */
    method Step3Complete(tips: seq<Tip>)
      requires Valid() && currentStep == 3
      modifies this
      ensures Valid() && currentStep == 4 && Transition(old(currentStep), currentStep)
      ensures aiTips == tips
      ensures title == old(title) && premise == old(premise) && area == old(area) && file == old(file)
      ensures extractedText == old(extractedText) && tipsCompleted == old(tipsCompleted)
    {
      aiTips := tips;
      currentStep := 4;
    }
  }
}
