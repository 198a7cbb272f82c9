/**
 * The in-memory project store (src/contexts/ProjectContext.tsx): the list of
 * projects, the current project, creation, partial updates and the six-part
 * progress score.
 */
module ProjectContext {
  import opened Wrappers

  /** A `Date`. Clock readings are opaque: the model only stores and compares them. */
  type Time = nat

  datatype Project = Project(
    id: string,
    title: string,
    premise: string,
    area: string,
    objectives: string,
    literature: string,
    abstractPT: string,
    abstractEN: string,
    introduction: string,
    methodology: string,
    results: string,
    createdAt: Time,
    updatedAt: Time)

  /** The ten text fields in declaration order, from `title` to `results`. */
  function TextFields(p: Project): seq<string> {
    [p.title, p.premise, p.area, p.objectives, p.literature,
     p.abstractPT, p.abstractEN, p.introduction, p.methodology, p.results]
  }

  /** `Partial<Project>`: every field is either given or absent. */
  datatype Patch = Patch(
    id: Option<string>,
    title: Option<string>,
    premise: Option<string>,
    area: Option<string>,
    objectives: Option<string>,
    literature: Option<string>,
    abstractPT: Option<string>,
    abstractEN: Option<string>,
    introduction: Option<string>,
    methodology: Option<string>,
    results: Option<string>,
    createdAt: Option<Time>,
    updatedAt: Option<Time>)

  const EmptyPatch: Patch := Patch(None, None, None, None, None, None, None, None, None, None, None, None, None)

  /** The text fields a patch gives, in the order of `TextFields`. */
  function PatchTexts(u: Patch): seq<Option<string>> {
    [u.title, u.premise, u.area, u.objectives, u.literature,
     u.abstractPT, u.abstractEN, u.introduction, u.methodology, u.results]
  }

  /**
   * `{ ...p, ...updates, updatedAt: now }`: a field the patch gives takes the
   * patch's value, every other field keeps its value, and the modification
   * time is `now` whatever the patch says about it.
   */
  function Merge(p: Project, u: Patch, now: Time): (r: Project)
    ensures |TextFields(r)| == |TextFields(p)| == |PatchTexts(u)|
    ensures forall i :: 0 <= i < |PatchTexts(u)| ==>
      TextFields(r)[i] == if PatchTexts(u)[i].Some? then PatchTexts(u)[i].value else TextFields(p)[i]
    ensures r.id == (if u.id.Some? then u.id.value else p.id)
    ensures r.createdAt == (if u.createdAt.Some? then u.createdAt.value else p.createdAt)
    ensures r.updatedAt == now
  {
    Project(
      u.id.GetOr(p.id),
      u.title.GetOr(p.title),
      u.premise.GetOr(p.premise),
      u.area.GetOr(p.area),
      u.objectives.GetOr(p.objectives),
      u.literature.GetOr(p.literature),
      u.abstractPT.GetOr(p.abstractPT),
      u.abstractEN.GetOr(p.abstractEN),
      u.introduction.GetOr(p.introduction),
      u.methodology.GetOr(p.methodology),
      u.results.GetOr(p.results),
      u.createdAt.GetOr(p.createdAt),
      now)
  }

  /** An empty patch changes nothing but the modification time. */
  lemma EmptyPatchOnlyTouchesTime(p: Project, now: Time)
    ensures Merge(p, EmptyPatch, now) == p.(updatedAt := now)
  {
  }

  /** Applying the same patch twice is the same as applying it once, at the later time. */
  lemma MergeIdempotent(p: Project, u: Patch, t1: Time, t2: Time)
    ensures Merge(Merge(p, u, t1), u, t2) == Merge(p, u, t2)
  {
  }

  /** The project `createProject` builds: the three given texts, every other text empty. */
  function NewProject(id: string, title: string, premise: string, area: string, now: Time): (r: Project)
    ensures TextFields(r)[..3] == [title, premise, area]
    ensures forall i :: 3 <= i < |TextFields(r)| ==> TextFields(r)[i] == []
    ensures r.id == id && r.createdAt == now && r.updatedAt == now
  {
    Project(id, title, premise, area, "", "", "", "", "", "", "", now, now)
  }

  /** The project the store starts with. */
  const MockProject: Project := Project(
    "1",
    "Impactos da Inteligência Artificial na Educação Superior",
    "Investigar como ferramentas de IA estão transformando metodologias de ensino e aprendizagem no contexto universitário brasileiro.",
    "Ciências Humanas",
    "Analisar a adoção de ferramentas de IA em universidades públicas e privadas do Brasil.",
    "A literatura sobre IA na educação tem crescido exponencialmente...",
    "",
    "",
    "A inteligência artificial tem revolucionado diversos setores da sociedade...",
    "",
    "",
    0,
    0)

  // ---------------------------------------------------------------------------
  // progress

  /** The six parts of the score: configuration, objectives, abstract, introduction, methodology, results. */
  function CompletedParts(p: Project): (c: nat)
    ensures c <= 6
  {
    (if p.title != [] && p.premise != [] && p.area != [] then 1 else 0)
    + (if p.objectives != [] && p.literature != [] then 1 else 0)
    + (if p.abstractPT != [] || p.abstractEN != [] then 1 else 0)
    + (if p.introduction != [] then 1 else 0)
    + (if p.methodology != [] then 1 else 0)
    + (if p.results != [] then 1 else 0)
  }

  /** `Math.round(completed / total * 100)`: the nearest whole percentage, halves rounded up. */
  function RoundedPercent(completed: nat, total: nat): (r: nat)
    requires total > 0
    ensures 2 * total * r <= 200 * completed + total < 2 * total * (r + 1)
  {
    (200 * completed + total) / (2 * total)
  }

  /** `getProjectProgress`. */
  function GetProjectProgress(p: Project): nat {
    RoundedPercent(CompletedParts(p), 6)
  }

  /** Every part of the manuscript is filled in. */
  ghost predicate Finished(p: Project) {
    && p.title != [] && p.premise != [] && p.area != []
    && p.objectives != [] && p.literature != []
    && (p.abstractPT != [] || p.abstractEN != [])
    && p.introduction != [] && p.methodology != [] && p.results != []
  }

  /** The score is one of seven values, the rounded sixths of 100. */
  lemma ProgressIsRoundedSixth(p: Project)
    ensures GetProjectProgress(p) in {0, 17, 33, 50, 67, 83, 100}
    ensures GetProjectProgress(p) == [0, 17, 33, 50, 67, 83, 100][CompletedParts(p)]
  {
    var c := CompletedParts(p);
    var r := GetProjectProgress(p);
    assert 12 * r <= 200 * c + 6 < 12 * (r + 1);
  }

  /** The score is 100 exactly when every part is filled in. */
  lemma ProgressFullIffFinished(p: Project)
    ensures GetProjectProgress(p) == 100 <==> Finished(p)
  {
    ProgressIsRoundedSixth(p);
  }

  /** More completed parts never give a lower rounded percentage. */
  lemma RoundedPercentMonotone(a: nat, b: nat, total: nat)
    requires total > 0 && a <= b
    ensures RoundedPercent(a, total) <= RoundedPercent(b, total)
  {
    var ra, rb := RoundedPercent(a, total), RoundedPercent(b, total);
    assert 2 * total * ra < 2 * total * (rb + 1);
    CancelFactor(2 * total, ra, rb + 1);
  }

  lemma CancelFactor(k: nat, x: nat, y: nat)
    requires k > 0 && k * x < k * y
    ensures x < y
  {
  }

  /**
   * Filling in text fields never lowers the score: if every field that is
   * non-empty in `p` is non-empty in `q`, `q` scores at least as much.
   */
  lemma FillingNeverLowersProgress(p: Project, q: Project)
    requires forall i :: 0 <= i < |TextFields(p)| && TextFields(p)[i] != [] ==> TextFields(q)[i] != []
    ensures GetProjectProgress(p) <= GetProjectProgress(q)
  {
    assert |TextFields(p)| == 10;
    assert p.title != [] ==> q.title != [] by { assert TextFields(p)[0] == p.title; }
    assert p.premise != [] ==> q.premise != [] by { assert TextFields(p)[1] == p.premise; }
    assert p.area != [] ==> q.area != [] by { assert TextFields(p)[2] == p.area; }
    assert p.objectives != [] ==> q.objectives != [] by { assert TextFields(p)[3] == p.objectives; }
    assert p.literature != [] ==> q.literature != [] by { assert TextFields(p)[4] == p.literature; }
    assert p.abstractPT != [] ==> q.abstractPT != [] by { assert TextFields(p)[5] == p.abstractPT; }
    assert p.abstractEN != [] ==> q.abstractEN != [] by { assert TextFields(p)[6] == p.abstractEN; }
    assert p.introduction != [] ==> q.introduction != [] by { assert TextFields(p)[7] == p.introduction; }
    assert p.methodology != [] ==> q.methodology != [] by { assert TextFields(p)[8] == p.methodology; }
    assert p.results != [] ==> q.results != [] by { assert TextFields(p)[9] == p.results; }
    RoundedPercentMonotone(CompletedParts(p), CompletedParts(q), 6);
  }

  /** A new project scores 17 when its three configuration texts are filled in, 0 otherwise. */
  lemma NewProjectProgress(id: string, title: string, premise: string, area: string, now: Time)
    ensures GetProjectProgress(NewProject(id, title, premise, area, now))
      == if title != [] && premise != [] && area != [] then 17 else 0
  {
    ProgressIsRoundedSixth(NewProject(id, title, premise, area, now));
  }

  /** The seeded project has configuration, objectives and introduction: half done. */
  lemma MockProjectProgress()
    ensures GetProjectProgress(MockProject) == 50
  {
    ProgressIsRoundedSixth(MockProject);
  }

  // ---------------------------------------------------------------------------
  // the store

  /** `projects.map(p => p.id === id ? merged : p)`. */
  function UpdateMatching(ps: seq<Project>, id: string, u: Patch, now: Time): (r: seq<Project>)
    ensures |r| == |ps|
    ensures forall i :: 0 <= i < |ps| && ps[i].id != id ==> r[i] == ps[i]
    ensures forall i :: 0 <= i < |ps| && ps[i].id == id ==> r[i] == Merge(ps[i], u, now)
  {
    seq(|ps|, i requires 0 <= i < |ps| => if ps[i].id == id then Merge(ps[i], u, now) else ps[i])
  }

  /** An update addressed to an id no project has leaves the list as it is. */
  lemma UpdateUnknownIdIsNoOp(ps: seq<Project>, id: string, u: Patch, now: Time)
    requires forall i :: 0 <= i < |ps| ==> ps[i].id != id
    ensures UpdateMatching(ps, id, u, now) == ps
  {
  }

  /** A patch that leaves the id alone keeps every project's id and creation time in place. */
  lemma UpdateKeepsIds(ps: seq<Project>, id: string, u: Patch, now: Time)
    requires u.id.None? && u.createdAt.None?
    ensures forall i :: 0 <= i < |ps| ==>
      UpdateMatching(ps, id, u, now)[i].id == ps[i].id
      && UpdateMatching(ps, id, u, now)[i].createdAt == ps[i].createdAt
  {
  }

  /** The provider's state: `projects` and `currentProject`. */
  class ProjectStore {
    var projects: seq<Project>
    var currentProject: Option<Project>

    constructor ()
      ensures projects == [MockProject] && currentProject == None
    {
      projects := [MockProject];
      currentProject := None;
    }

    /** `createProject`: appends one fresh project and makes it current. `id` and `now` stand for `Date.now()`. */
    method CreateProject(title: string, premise: string, area: string, id: string, now: Time)
      modifies this
      ensures projects == old(projects) + [NewProject(id, title, premise, area, now)]
      ensures currentProject == Some(NewProject(id, title, premise, area, now))
    {
      var p := NewProject(id, title, premise, area, now);
      projects := projects + [p];
      currentProject := Some(p);
    }

    /**
     * `updateProject`: merges the patch into every project with the given id,
     * keeping the length and order of the list, and into the current project
     * only when its id matches.
     */
    method UpdateProject(id: string, updates: Patch, now: Time)
      modifies this
      ensures projects == UpdateMatching(old(projects), id, updates, now)
      ensures |projects| == |old(projects)|
      ensures old(currentProject).Some? && old(currentProject).value.id == id ==>
        currentProject == Some(Merge(old(currentProject).value, updates, now))
      ensures !(old(currentProject).Some? && old(currentProject).value.id == id) ==>
        currentProject == old(currentProject)
    {
      projects := UpdateMatching(projects, id, updates, now);
      if currentProject.Some? && currentProject.value.id == id {
        currentProject := Some(Merge(currentProject.value, updates, now));
      }
    }

    /** `setCurrentProject`. */
    method SetCurrentProject(project: Option<Project>)
      modifies this
      ensures currentProject == project && projects == old(projects)
    {
      currentProject := project;
    }
  }
}
