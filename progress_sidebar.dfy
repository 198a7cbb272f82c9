/**
 * The editor's progress sidebar (src/components/ProgressSidebar.tsx): five
 * fixed steps, which of them are complete, which one is current and which
 * ones can be clicked to switch the edited section.
 */
module ProgressSidebar {
  import opened Wrappers
  import opened ProjectContext

  /** The sections the editor can show: `"introduction" | "methodology" | "results"`. */
  datatype EditorSection = Introduction | Methodology | Results

  datatype Step = Step(id: string, caption: string, section: Option<EditorSection>)

  const Steps: seq<Step> := [
    Step("config", "Configuração do Projeto", None),
    Step("objectives", "Objetivos e Revisão", None),
    Step("introduction", "Introdução", Some(Introduction)),
    Step("methodology", "Metodologia", Some(Methodology)),
    Step("results", "Resultados", Some(Results))
  ]

  /** `isStepComplete`: each known step looks at its own fields; an unknown id is never complete. */
  function IsStepComplete(p: Project, stepId: string): bool {
    if stepId == "config" then p.title != [] && p.premise != [] && p.area != []
    else if stepId == "objectives" then p.objectives != [] && p.literature != []
    else if stepId == "introduction" then p.introduction != []
    else if stepId == "methodology" then p.methodology != []
    else if stepId == "results" then p.results != []
    else false
  }

  /** `isStepCurrent`: the step's section is the one being edited. */
  predicate IsStepCurrent(step: Step, currentSection: EditorSection) {
    step.section == Some(currentSection)
  }

  /** `isClickable`: only a step with a section can be clicked. */
  predicate IsClickable(step: Step) {
    step.section.Some?
  }

  /** The section a click on `step` switches to, if any (`step.section && onSectionChange(step.section)`). */
  function SectionOnClick(step: Step): Option<EditorSection> {
    step.section
  }

  function StepIds(steps: seq<Step>): seq<string> {
    if steps == [] then [] else [steps[0].id] + StepIds(steps[1..])
  }

  /** The sidebar lists five steps in a fixed order, with distinct ids. */
  lemma StepOrder()
    ensures StepIds(Steps) == ["config", "objectives", "introduction", "methodology", "results"]
    ensures forall i, j :: 0 <= i < j < |Steps| ==> Steps[i].id != Steps[j].id
  {
    assert StepIds(Steps[4..]) == ["results"];
    assert StepIds(Steps[3..]) == ["methodology", "results"];
  }

  /** Only the last three steps can be clicked, and a click selects the step's own section. */
  lemma ClickableAreTheLastThree()
    ensures forall i :: 0 <= i < |Steps| ==> (IsClickable(Steps[i]) <==> 2 <= i)
    ensures forall i :: 0 <= i < |Steps| ==> (SectionOnClick(Steps[i]).Some? <==> 2 <= i)
    ensures SectionOnClick(Steps[2]) == Some(Introduction)
    ensures SectionOnClick(Steps[3]) == Some(Methodology)
    ensures SectionOnClick(Steps[4]) == Some(Results)
  {
  }

  /** Exactly one step is current, the one of the edited section; configuration and objectives never are. */
  lemma ExactlyOneCurrent(currentSection: EditorSection)
    ensures |set i | 0 <= i < |Steps| && IsStepCurrent(Steps[i], currentSection)| == 1
    ensures !IsStepCurrent(Steps[0], currentSection) && !IsStepCurrent(Steps[1], currentSection)
  {
    var k := match currentSection case Introduction => 2 case Methodology => 3 case Results => 4;
    assert (set i | 0 <= i < |Steps| && IsStepCurrent(Steps[i], currentSection)) == {k};
  }

  /** A step id that is not one of the five is never complete. */
  lemma UnknownStepNeverComplete(p: Project, stepId: string)
    requires stepId !in StepIds(Steps)
    ensures !IsStepComplete(p, stepId)
  {
    StepOrder();
  }

  /**
   * The sidebar and the progress score agree: the score is 100 exactly when
   * all five steps are complete and at least one abstract is written.
   */
  lemma SidebarAgreesWithProgress(p: Project)
    ensures GetProjectProgress(p) == 100 <==>
      (forall i :: 0 <= i < |Steps| ==> IsStepComplete(p, Steps[i].id))
      && (p.abstractPT != [] || p.abstractEN != [])
  {
    ProgressFullIffFinished(p);
    if (forall i :: 0 <= i < |Steps| ==> IsStepComplete(p, Steps[i].id)) {
      assert IsStepComplete(p, Steps[0].id) && IsStepComplete(p, Steps[1].id);
      assert IsStepComplete(p, Steps[2].id) && IsStepComplete(p, Steps[3].id);
      assert IsStepComplete(p, Steps[4].id);
    }
  }
}
