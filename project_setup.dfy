/**
 * The objectives and literature page (src/pages/ProjectSetup.tsx): loading
 * the two fields from the current project, the autosave decision (without its
 * timer) and the "continue" validator.
 */
module ProjectSetup {
  import opened Wrappers
  import opened Text
  import opened ProjectContext
  import opened ProgressSidebar
  import opened Routes

  const MissingFieldsMessage := "Por favor, preencha os objetivos e a revisão de literatura"

  /** How `handleContinue` ends. */
  datatype ContinueResult = NoProject | MissingFields | Saved(destination: string)

  /** The continue check: neither field is blank after `trim`. */
  function ContinueAccepted(objectives: string, literature: string): (r: bool)
    ensures r <==> !AllWhitespace(objectives) && !AllWhitespace(literature)
  {
    Trim(objectives) != [] && Trim(literature) != []
  }

  /**
   * The check trims whitespace only: an editor value holding an empty
   * paragraph's markup is accepted.
   */
  lemma EmptyParagraphMarkupAccepted()
    ensures ContinueAccepted("<p></p>", "<p></p>")
  {
    assert !IsWhitespace("<p></p>"[0]);
  }

  /** The autosave writes when either field differs from the stored project. */
  predicate AutosaveNeeded(p: Project, objectives: string, literature: string) {
    objectives != p.objectives || literature != p.literature
  }

  /** `{ objectives, literature }`. */
  function SetupPatch(objectives: string, literature: string): Patch {
    EmptyPatch.(objectives := Some(objectives), literature := Some(literature))
  }

  /** Saving the page writes the two fields and the modification time and nothing else. */
  lemma SetupPatchWritesOnlyTheTwoFields(p: Project, objectives: string, literature: string, now: Time)
    ensures Merge(p, SetupPatch(objectives, literature), now)
         == p.(objectives := objectives, literature := literature, updatedAt := now)
  {
  }

  /** Once saved, the same values need no further autosave. */
  lemma SavedNeedsNoAutosave(p: Project, objectives: string, literature: string, now: Time)
    ensures !AutosaveNeeded(Merge(p, SetupPatch(objectives, literature), now), objectives, literature)
  {
  }

  /** The write of an accepted continue marks the sidebar's objectives step complete. */
  lemma ContinueCompletesObjectivesStep(p: Project, objectives: string, literature: string, now: Time)
    requires ContinueAccepted(objectives, literature)
    ensures IsStepComplete(Merge(p, SetupPatch(objectives, literature), now), "objectives")
  {
  }

  class SetupPage {
    var objectives: string
    var literature: string
    var lastSaved: Option<Time>

    constructor ()
      ensures objectives == [] && literature == [] && lastSaved == None
    {
      objectives, literature := [], [];
      lastSaved := None;
    }

    /**
     * The loading effect: without a project the page redirects to the
     * dashboard; otherwise both fields take the stored values (`value || ""`
     * is the value itself for a string).
     */
    method Load(current: Option<Project>) returns (redirect: Option<string>)
      modifies this
      ensures redirect == if current.None? then Some(DashboardRoute) else None
      ensures redirect.Some? ==> objectives == old(objectives) && literature == old(literature)
      ensures redirect.None? ==> objectives == current.value.objectives && literature == current.value.literature
      ensures lastSaved == old(lastSaved)
    {
      if current.None? {
        return Some(DashboardRoute);
      }
      objectives := current.value.objectives;
      literature := current.value.literature;
      redirect := None;
    }

    /** The body of the autosave timer: writes both fields when either differs from the stored project. */
    method Autosave(store: ProjectStore, now: Time) returns (saved: bool)
      modifies this, store
      ensures saved <==> old(store.currentProject).Some? && AutosaveNeeded(old(store.currentProject).value, objectives, literature)
      ensures saved ==>
        store.projects == UpdateMatching(old(store.projects), old(store.currentProject).value.id,
                                         SetupPatch(objectives, literature), now)
        && store.currentProject == Some(old(store.currentProject).value.(objectives := objectives,
                                                                        literature := literature,
                                                                        updatedAt := now))
        && lastSaved == Some(now)
      ensures !saved ==>
        store.projects == old(store.projects) && store.currentProject == old(store.currentProject)
        && lastSaved == old(lastSaved)
      ensures objectives == old(objectives) && literature == old(literature)
    {
      var current := store.currentProject;
      if current.None? || !AutosaveNeeded(current.value, objectives, literature) {
        return false;
      }
      store.UpdateProject(current.value.id, SetupPatch(objectives, literature), now);
      SetupPatchWritesOnlyTheTwoFields(current.value, objectives, literature, now);
      lastSaved := Some(now);
      saved := true;
    }

    /** `handleContinue`: the guard, then the write of the two fields and the navigation to the editor. */
    method HandleContinue(store: ProjectStore, now: Time) returns (result: ContinueResult)
      modifies store
      ensures result == NoProject <==> old(store.currentProject).None?
      ensures result == MissingFields <==>
        old(store.currentProject).Some? && !ContinueAccepted(objectives, literature)
      ensures !result.Saved? ==>
        store.projects == old(store.projects) && store.currentProject == old(store.currentProject)
      ensures result.Saved? ==>
        result.destination == EditorRoute
        && store.projects == UpdateMatching(old(store.projects), old(store.currentProject).value.id,
                                            SetupPatch(objectives, literature), now)
        && store.currentProject == Some(old(store.currentProject).value.(objectives := objectives,
                                                                        literature := literature,
                                                                        updatedAt := now))
    {
      var current := store.currentProject;
      if current.None? {
        return NoProject;
      }
      if Trim(objectives) == [] || Trim(literature) == [] {
        return MissingFields;
      }
      store.UpdateProject(current.value.id, SetupPatch(objectives, literature), now);
      SetupPatchWritesOnlyTheTwoFields(current.value, objectives, literature, now);
      result := Saved(EditorRoute);
    }
  }
}
