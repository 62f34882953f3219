/** The persisted project store (src/state/projectStore.ts): projects,
    estimates, risk assessments and historical projects kept as lists, with
    create, merge-update, cascading delete and filtering lookups. Every id is
    `Date.now().toString()` and every timestamp `new Date()`; both come from one
    injected instant `now` per operation. */
module ProjectStore {
  import opened Wrappers
  import opened Text
  import opened Seqs
  import opened Construction

  datatype ProjectState = ProjectState(
    projects: seq<Project>,
    currentProject: Option<Project>,
    estimates: seq<ProjectEstimate>,
    riskAssessments: seq<RiskAssessment>,
    historicalProjects: seq<HistoricalProject>,
    isLoading: bool)

  /** The store before anything is added or rehydrated. */
  const InitialState := ProjectState([], None, [], [], [], false)

  /** `Date.now().toString()`. */
  function NewId(now: nat): string {
    DecimalString(now)
  }

  // ---------------------------------------------------------------------------
  // Partial updates: a `None` field is absent from the update object

  datatype ProjectPatch = ProjectPatch(
    id: Option<string>,
    name: Option<string>,
    description: Option<string>,
    kind: Option<ProjectType>,
    location: Option<string>,
    startDate: Option<Millis>,
    estimatedEndDate: Option<Millis>,
    actualEndDate: Option<Millis>,
    status: Option<ProjectStatus>,
    budget: Option<real>,
    estimatedCost: Option<real>,
    actualCost: Option<real>,
    ownerId: Option<string>,
    createdAt: Option<Millis>,
    updatedAt: Option<Millis>)

  const EmptyProjectPatch := ProjectPatch(None, None, None, None, None, None, None, None, None, None, None, None, None, None, None)

  /** `{ ...project, ...updates }`. */
  function PatchProject(p: Project, u: ProjectPatch): Project {
    Project(
      u.id.GetOr(p.id),
      u.name.GetOr(p.name),
      u.description.GetOr(p.description),
      u.kind.GetOr(p.kind),
      u.location.GetOr(p.location),
      u.startDate.GetOr(p.startDate),
      u.estimatedEndDate.GetOr(p.estimatedEndDate),
      if u.actualEndDate.Some? then u.actualEndDate else p.actualEndDate,
      u.status.GetOr(p.status),
      u.budget.GetOr(p.budget),
      u.estimatedCost.GetOr(p.estimatedCost),
      u.actualCost.GetOr(p.actualCost),
      u.ownerId.GetOr(p.ownerId),
      u.createdAt.GetOr(p.createdAt),
      u.updatedAt.GetOr(p.updatedAt))
  }

  /** `{ ...project, ...updates, updatedAt: new Date() }`. */
  function MergeProject(p: Project, u: ProjectPatch, now: Millis): (r: Project)
    ensures r.updatedAt == now
    ensures u == EmptyProjectPatch ==> r == p.(updatedAt := now)
    ensures Spread(u.id, p.id, r.id) && Spread(u.name, p.name, r.name)
    ensures Spread(u.description, p.description, r.description) && Spread(u.kind, p.kind, r.kind)
    ensures Spread(u.location, p.location, r.location) && Spread(u.startDate, p.startDate, r.startDate)
    ensures Spread(u.estimatedEndDate, p.estimatedEndDate, r.estimatedEndDate)
    ensures u.actualEndDate.Some? ==> r.actualEndDate == u.actualEndDate
    ensures u.actualEndDate.None? ==> r.actualEndDate == p.actualEndDate
    ensures Spread(u.status, p.status, r.status) && Spread(u.budget, p.budget, r.budget)
    ensures Spread(u.estimatedCost, p.estimatedCost, r.estimatedCost)
    ensures Spread(u.actualCost, p.actualCost, r.actualCost)
    ensures Spread(u.ownerId, p.ownerId, r.ownerId) && Spread(u.createdAt, p.createdAt, r.createdAt)
  {
    PatchProject(p, u).(updatedAt := now)
  }

  /** The update that sets every field to `q`'s. */
  function FullPatch(q: Project): ProjectPatch {
    ProjectPatch(
      Some(q.id), Some(q.name), Some(q.description), Some(q.kind), Some(q.location),
      Some(q.startDate), Some(q.estimatedEndDate), q.actualEndDate, Some(q.status),
      Some(q.budget), Some(q.estimatedCost), Some(q.actualCost), Some(q.ownerId),
      Some(q.createdAt), Some(q.updatedAt))
  }

  /** An update that carries every field replaces the project, but for the
      stamp; an end date `q` lacks is an absent field, which keeps `p`'s. */
  lemma MergeFullPatch(p: Project, q: Project, now: Millis)
    ensures q.actualEndDate.Some? ==> MergeProject(p, FullPatch(q), now) == q.(updatedAt := now)
    ensures q.actualEndDate.None? ==>
      MergeProject(p, FullPatch(q), now) == q.(updatedAt := now, actualEndDate := p.actualEndDate)
  {
  }

  /** Applying the same update twice is applying it once. */
  lemma MergeProjectIdempotent(p: Project, u: ProjectPatch, now: Millis)
    ensures MergeProject(MergeProject(p, u, now), u, now) == MergeProject(p, u, now)
  {
  }

  datatype EstimatePatch = EstimatePatch(
    id: Option<string>,
    projectId: Option<string>,
    materialCosts: Option<seq<MaterialCost>>,
    laborCosts: Option<seq<LaborCost>>,
    equipmentCosts: Option<seq<EquipmentCost>>,
    overheadCosts: Option<seq<OverheadCost>>,
    totalCost: Option<real>,
    timeline: Option<ProjectTimeline>,
    confidence: Option<real>,
    createdBy: Option<string>,
    createdAt: Option<Millis>,
    estimationMethod: Option<EstimationMethod>)

  /** `{ ...estimate, ...updates }`: no timestamp is touched. */
  function MergeEstimate(e: ProjectEstimate, u: EstimatePatch): (r: ProjectEstimate)
    ensures Spread(u.id, e.id, r.id) && Spread(u.projectId, e.projectId, r.projectId)
    ensures Spread(u.materialCosts, e.materialCosts, r.materialCosts)
    ensures Spread(u.laborCosts, e.laborCosts, r.laborCosts)
    ensures Spread(u.equipmentCosts, e.equipmentCosts, r.equipmentCosts)
    ensures Spread(u.overheadCosts, e.overheadCosts, r.overheadCosts)
    ensures Spread(u.totalCost, e.totalCost, r.totalCost) && Spread(u.timeline, e.timeline, r.timeline)
    ensures Spread(u.confidence, e.confidence, r.confidence) && Spread(u.createdBy, e.createdBy, r.createdBy)
    ensures Spread(u.createdAt, e.createdAt, r.createdAt)
    ensures Spread(u.estimationMethod, e.estimationMethod, r.estimationMethod)
  {
    ProjectEstimate(
      u.id.GetOr(e.id),
      u.projectId.GetOr(e.projectId),
      u.materialCosts.GetOr(e.materialCosts),
      u.laborCosts.GetOr(e.laborCosts),
      u.equipmentCosts.GetOr(e.equipmentCosts),
      u.overheadCosts.GetOr(e.overheadCosts),
      u.totalCost.GetOr(e.totalCost),
      u.timeline.GetOr(e.timeline),
      u.confidence.GetOr(e.confidence),
      u.createdBy.GetOr(e.createdBy),
      u.createdAt.GetOr(e.createdAt),
      u.estimationMethod.GetOr(e.estimationMethod))
  }

  /** An update that sets nothing leaves an estimate as it was. */
  lemma MergeEstimateEmpty(e: ProjectEstimate)
    ensures MergeEstimate(e, EstimatePatch(None, None, None, None, None, None, None, None, None, None, None, None)) == e
  {
  }

  datatype AssessmentPatch = AssessmentPatch(
    id: Option<string>,
    projectId: Option<string>,
    risks: Option<seq<Risk>>,
    overallRiskScore: Option<int>,
    recommendations: Option<seq<string>>,
    createdAt: Option<Millis>,
    updatedAt: Option<Millis>)

  /** `{ ...assessment, ...updates, updatedAt: new Date() }`. */
  function MergeAssessment(a: RiskAssessment, u: AssessmentPatch, now: Millis): (r: RiskAssessment)
    ensures r.updatedAt == now
    ensures Spread(u.id, a.id, r.id) && Spread(u.projectId, a.projectId, r.projectId)
    ensures Spread(u.risks, a.risks, r.risks)
    ensures Spread(u.overallRiskScore, a.overallRiskScore, r.overallRiskScore)
    ensures Spread(u.recommendations, a.recommendations, r.recommendations)
    ensures Spread(u.createdAt, a.createdAt, r.createdAt)
  {
    RiskAssessment(
      u.id.GetOr(a.id),
      u.projectId.GetOr(a.projectId),
      u.risks.GetOr(a.risks),
      u.overallRiskScore.GetOr(a.overallRiskScore),
      u.recommendations.GetOr(a.recommendations),
      u.createdAt.GetOr(a.createdAt),
      now)
  }

  // ---------------------------------------------------------------------------
  // Projects

  /** Some project carries `id`. */
  predicate HasProject(projects: seq<Project>, id: string) {
    exists k :: 0 <= k < |projects| && projects[k].id == id
  }

  /** `createProject`: appends the draft with a fresh id and both timestamps
      set to now, and returns the id. */
  function CreateProject(s: ProjectState, draft: ProjectDraft, now: nat): (r: (ProjectState, string))
    ensures r.1 == NewId(now)
    ensures r.0 == s.(projects := r.0.projects)
    ensures |r.0.projects| == |s.projects| + 1 && r.0.projects[..|s.projects|] == s.projects
    ensures var p := r.0.projects[|s.projects|];
      && p.id == r.1 && p.createdAt == now && p.updatedAt == now
      && p.name == draft.name && p.ownerId == draft.ownerId && p.status == draft.status
      && p.kind == draft.kind && p.location == draft.location && p.budget == draft.budget
      && p.description == draft.description && p.startDate == draft.startDate
      && p.estimatedEndDate == draft.estimatedEndDate && p.actualEndDate == draft.actualEndDate
      && p.estimatedCost == draft.estimatedCost && p.actualCost == draft.actualCost
    ensures HasProject(r.0.projects, r.1)
  {
    var id := NewId(now);
    var p := Project(
      id, draft.name, draft.description, draft.kind, draft.location, draft.startDate,
      draft.estimatedEndDate, draft.actualEndDate, draft.status, draft.budget,
      draft.estimatedCost, draft.actualCost, draft.ownerId, now, now);
    var projects := s.projects + [p];
    assert projects[|s.projects|] == p;
    (s.(projects := projects), id)
  }

  /** `updateProject`: every project with the id, and the current project if
      it has the id, merged with the update and stamped now; the rest
      untouched. */
  function UpdateProject(s: ProjectState, id: string, u: ProjectPatch, now: Millis): (r: ProjectState)
    ensures r.estimates == s.estimates && r.riskAssessments == s.riskAssessments
    ensures r.historicalProjects == s.historicalProjects && r.isLoading == s.isLoading
    ensures |r.projects| == |s.projects|
    ensures forall k :: 0 <= k < |s.projects| ==>
      r.projects[k] == if s.projects[k].id == id then MergeProject(s.projects[k], u, now) else s.projects[k]
    ensures s.currentProject.Some? && s.currentProject.value.id == id ==>
      r.currentProject == Some(MergeProject(s.currentProject.value, u, now))
    ensures !(s.currentProject.Some? && s.currentProject.value.id == id) ==> r.currentProject == s.currentProject
  {
    var current :=
      if s.currentProject.Some? && s.currentProject.value.id == id
      then Some(MergeProject(s.currentProject.value, u, now))
      else s.currentProject;
    s.(projects := MapWhere(s.projects, (p: Project) => p.id == id, (p: Project) => MergeProject(p, u, now)),
       currentProject := current)
  }

  /** `deleteProject`: the project goes, and with it its estimates and risk
      assessments; the current project is cleared if it is the one deleted. */
  function DeleteProject(s: ProjectState, id: string): (r: ProjectState)
    ensures forall p :: p in r.projects <==> p in s.projects && p.id != id
    ensures forall e :: e in r.estimates <==> e in s.estimates && e.projectId != id
    ensures forall a :: a in r.riskAssessments <==> a in s.riskAssessments && a.projectId != id
    ensures IsSubsequence(r.projects, s.projects) && IsSubsequence(r.estimates, s.estimates)
    ensures IsSubsequence(r.riskAssessments, s.riskAssessments)
    ensures forall p :: multiset(r.projects)[p] == if p.id != id then multiset(s.projects)[p] else 0
    ensures forall e :: multiset(r.estimates)[e] == if e.projectId != id then multiset(s.estimates)[e] else 0
    ensures forall a :: multiset(r.riskAssessments)[a] == if a.projectId != id then multiset(s.riskAssessments)[a] else 0
    ensures !HasProject(r.projects, id)
    ensures s.currentProject.Some? && s.currentProject.value.id == id ==> r.currentProject.None?
    ensures !(s.currentProject.Some? && s.currentProject.value.id == id) ==> r.currentProject == s.currentProject
    ensures r.historicalProjects == s.historicalProjects && r.isLoading == s.isLoading
  {
    var keepProject := (p: Project) => p.id != id;
    var keepEstimate := (e: ProjectEstimate) => e.projectId != id;
    var keepAssessment := (a: RiskAssessment) => a.projectId != id;
    forall p ensures p in Filter(s.projects, keepProject) <==> p in s.projects && p.id != id {
      FilterMembership(s.projects, keepProject, p);
    }
    forall e ensures e in Filter(s.estimates, keepEstimate) <==> e in s.estimates && e.projectId != id {
      FilterMembership(s.estimates, keepEstimate, e);
    }
    forall a ensures a in Filter(s.riskAssessments, keepAssessment) <==> a in s.riskAssessments && a.projectId != id {
      FilterMembership(s.riskAssessments, keepAssessment, a);
    }
    FilterMultiplicity(s.projects, keepProject);
    FilterMultiplicity(s.estimates, keepEstimate);
    FilterMultiplicity(s.riskAssessments, keepAssessment);
    ProjectState(
      Filter(s.projects, keepProject),
      if s.currentProject.Some? && s.currentProject.value.id == id then None else s.currentProject,
      Filter(s.estimates, keepEstimate),
      Filter(s.riskAssessments, keepAssessment),
      s.historicalProjects,
      s.isLoading)
  }

  /** `setCurrentProject`. */
  function SetCurrentProject(s: ProjectState, p: Option<Project>): (r: ProjectState)
    ensures r.currentProject == p
    ensures r.(currentProject := s.currentProject) == s
  {
    s.(currentProject := p)
  }

  /** `getProjectsByUser`: the user's projects, in store order. */
  function ProjectsByUser(s: ProjectState, userId: string): (r: seq<Project>)
    ensures forall p :: p in r <==> p in s.projects && p.ownerId == userId
    ensures IsSubsequence(r, s.projects)
    ensures forall p :: multiset(r)[p] == if p.ownerId == userId then multiset(s.projects)[p] else 0
  {
    var mine := (p: Project) => p.ownerId == userId;
    forall p ensures p in Filter(s.projects, mine) <==> p in s.projects && p.ownerId == userId {
      FilterMembership(s.projects, mine, p);
    }
    FilterMultiplicity(s.projects, mine);
    Filter(s.projects, mine)
  }

  /** The order and the multiplicities pin the list down: any subsequence of
      the store with the same copies of each project is the user's list. */
  lemma ProjectsByUserDetermined(s: ProjectState, userId: string, r: seq<Project>)
    requires IsSubsequence(r, s.projects)
    requires forall p :: multiset(r)[p] == if p.ownerId == userId then multiset(s.projects)[p] else 0
    ensures r == ProjectsByUser(s, userId)
  {
    FilterUnique(s.projects, (p: Project) => p.ownerId == userId, r);
  }

  /** A user's project list after a create gains the new project exactly
      when the user owns it. */
  lemma CreateThenListOwned(s: ProjectState, draft: ProjectDraft, now: nat, userId: string)
    ensures var (t, _) := CreateProject(s, draft, now);
      ProjectsByUser(t, userId) ==
        ProjectsByUser(s, userId) + (if draft.ownerId == userId then [t.projects[|s.projects|]] else [])
  {
    var (t, _) := CreateProject(s, draft, now);
    var mine := (p: Project) => p.ownerId == userId;
    assert t.projects == s.projects + [t.projects[|s.projects|]];
    FilterAppend(s.projects, [t.projects[|s.projects|]], mine);
  }

  // ---------------------------------------------------------------------------
  // Estimates, assessments and historical projects

  /** `addEstimate`: appends the draft with a fresh id and creation time. */
  function AddEstimate(s: ProjectState, draft: EstimateDraft, now: nat): (r: (ProjectState, string))
    ensures r.1 == NewId(now)
    ensures r.0 == s.(estimates := r.0.estimates)
    ensures |r.0.estimates| == |s.estimates| + 1 && r.0.estimates[..|s.estimates|] == s.estimates
    ensures var e := r.0.estimates[|s.estimates|];
      && e.id == r.1 && e.createdAt == now && e.projectId == draft.projectId && e.totalCost == draft.totalCost
      && e.materialCosts == draft.materialCosts && e.laborCosts == draft.laborCosts
      && e.equipmentCosts == draft.equipmentCosts && e.overheadCosts == draft.overheadCosts
      && e.timeline == draft.timeline && e.confidence == draft.confidence
      && e.createdBy == draft.createdBy && e.estimationMethod == draft.estimationMethod
  {
    var id := NewId(now);
    var e := ProjectEstimate(
      id, draft.projectId, draft.materialCosts, draft.laborCosts, draft.equipmentCosts,
      draft.overheadCosts, draft.totalCost, draft.timeline, draft.confidence, draft.createdBy,
      now, draft.estimationMethod);
    var estimates := s.estimates + [e];
    assert estimates[|s.estimates|] == e;
    (s.(estimates := estimates), id)
  }

  /** `updateEstimate`: every estimate with the id merged with the update;
      unlike projects and assessments, no timestamp is refreshed. */
  function UpdateEstimate(s: ProjectState, id: string, u: EstimatePatch): (r: ProjectState)
    ensures r == s.(estimates := r.estimates)
    ensures |r.estimates| == |s.estimates|
    ensures forall k :: 0 <= k < |s.estimates| ==>
      r.estimates[k] == if s.estimates[k].id == id then MergeEstimate(s.estimates[k], u) else s.estimates[k]
  {
    s.(estimates := MapWhere(s.estimates, (e: ProjectEstimate) => e.id == id, (e: ProjectEstimate) => MergeEstimate(e, u)))
  }

  /** `getEstimatesByProject`. */
  function EstimatesByProject(s: ProjectState, projectId: string): (r: seq<ProjectEstimate>)
    ensures forall e :: e in r <==> e in s.estimates && e.projectId == projectId
    ensures IsSubsequence(r, s.estimates)
    ensures forall e :: multiset(r)[e] == if e.projectId == projectId then multiset(s.estimates)[e] else 0
  {
    var ofProject := (e: ProjectEstimate) => e.projectId == projectId;
    forall e ensures e in Filter(s.estimates, ofProject) <==> e in s.estimates && e.projectId == projectId {
      FilterMembership(s.estimates, ofProject, e);
    }
    FilterMultiplicity(s.estimates, ofProject);
    Filter(s.estimates, ofProject)
  }

  /** A project's estimate list after an add gains the new estimate exactly
      when the draft belongs to that project. */
  lemma AddEstimateThenList(s: ProjectState, draft: EstimateDraft, now: nat, projectId: string)
    ensures var (t, _) := AddEstimate(s, draft, now);
      EstimatesByProject(t, projectId) ==
        EstimatesByProject(s, projectId) + (if draft.projectId == projectId then [t.estimates[|s.estimates|]] else [])
  {
    var (t, _) := AddEstimate(s, draft, now);
    var ofProject := (e: ProjectEstimate) => e.projectId == projectId;
    assert t.estimates == s.estimates + [t.estimates[|s.estimates|]];
    FilterAppend(s.estimates, [t.estimates[|s.estimates|]], ofProject);
  }

  /** `addRiskAssessment`: appends the draft with a fresh id and both
      timestamps set to now. */
  function AddRiskAssessment(s: ProjectState, draft: AssessmentDraft, now: nat): (r: (ProjectState, string))
    ensures r.1 == NewId(now)
    ensures r.0 == s.(riskAssessments := r.0.riskAssessments)
    ensures |r.0.riskAssessments| == |s.riskAssessments| + 1
    ensures r.0.riskAssessments[..|s.riskAssessments|] == s.riskAssessments
    ensures var a := r.0.riskAssessments[|s.riskAssessments|];
      && a.id == r.1 && a.createdAt == now && a.updatedAt == now
      && a.projectId == draft.projectId && a.risks == draft.risks
      && a.overallRiskScore == draft.overallRiskScore && a.recommendations == draft.recommendations
  {
    var id := NewId(now);
    var a := RiskAssessment(id, draft.projectId, draft.risks, draft.overallRiskScore, draft.recommendations, now, now);
    var assessments := s.riskAssessments + [a];
    assert assessments[|s.riskAssessments|] == a;
    (s.(riskAssessments := assessments), id)
  }

  /** `updateRiskAssessment`: every assessment with the id merged and stamped
      now. */
  function UpdateRiskAssessment(s: ProjectState, id: string, u: AssessmentPatch, now: Millis): (r: ProjectState)
    ensures r == s.(riskAssessments := r.riskAssessments)
    ensures |r.riskAssessments| == |s.riskAssessments|
    ensures forall k :: 0 <= k < |s.riskAssessments| ==>
      r.riskAssessments[k] ==
        if s.riskAssessments[k].id == id then MergeAssessment(s.riskAssessments[k], u, now) else s.riskAssessments[k]
  {
    s.(riskAssessments := MapWhere(s.riskAssessments, (a: RiskAssessment) => a.id == id,
                                   (a: RiskAssessment) => MergeAssessment(a, u, now)))
  }

  /** `getRiskAssessmentsByProject`. */
  function RiskAssessmentsByProject(s: ProjectState, projectId: string): (r: seq<RiskAssessment>)
    ensures forall a :: a in r <==> a in s.riskAssessments && a.projectId == projectId
    ensures IsSubsequence(r, s.riskAssessments)
    ensures forall a :: multiset(r)[a] == if a.projectId == projectId then multiset(s.riskAssessments)[a] else 0
  {
    var ofProject := (a: RiskAssessment) => a.projectId == projectId;
    forall a ensures a in Filter(s.riskAssessments, ofProject) <==> a in s.riskAssessments && a.projectId == projectId {
      FilterMembership(s.riskAssessments, ofProject, a);
    }
    FilterMultiplicity(s.riskAssessments, ofProject);
    Filter(s.riskAssessments, ofProject)
  }

  /** `addHistoricalProject`: appends the draft with a fresh id. */
  function AddHistoricalProject(s: ProjectState, draft: HistoricalDraft, now: nat): (r: (ProjectState, string))
    ensures r.1 == NewId(now)
    ensures r.0 == s.(historicalProjects := r.0.historicalProjects)
    ensures |r.0.historicalProjects| == |s.historicalProjects| + 1
    ensures r.0.historicalProjects[..|s.historicalProjects|] == s.historicalProjects
    ensures var h := r.0.historicalProjects[|s.historicalProjects|];
      && h.id == r.1 && h.projectType == draft.projectType && h.actualCost == draft.actualCost
      && h.size == draft.size && h.location == draft.location && h.estimatedCost == draft.estimatedCost
      && h.estimatedDuration == draft.estimatedDuration && h.actualDuration == draft.actualDuration
      && h.completedAt == draft.completedAt && h.successFactors == draft.successFactors
      && h.challenges == draft.challenges
  {
    var id := NewId(now);
    var h := HistoricalProject(
      id, draft.projectType, draft.size, draft.location, draft.estimatedCost, draft.actualCost,
      draft.estimatedDuration, draft.actualDuration, draft.completedAt, draft.successFactors, draft.challenges);
    var historical := s.historicalProjects + [h];
    assert historical[|s.historicalProjects|] == h;
    (s.(historicalProjects := historical), id)
  }

  /** `getHistoricalProjectsByType`: the type arrives as its stored string. */
  function HistoricalProjectsByType(s: ProjectState, projectType: string): (r: seq<HistoricalProject>)
    ensures forall h :: h in r <==> h in s.historicalProjects && ProjectTypeName(h.projectType) == projectType
    ensures IsSubsequence(r, s.historicalProjects)
    ensures forall h :: multiset(r)[h] == if ProjectTypeName(h.projectType) == projectType then multiset(s.historicalProjects)[h] else 0
  {
    var ofType := (h: HistoricalProject) => ProjectTypeName(h.projectType) == projectType;
    forall h ensures h in Filter(s.historicalProjects, ofType) <==> h in s.historicalProjects && ProjectTypeName(h.projectType) == projectType {
      FilterMembership(s.historicalProjects, ofType, h);
    }
    FilterMultiplicity(s.historicalProjects, ofType);
    Filter(s.historicalProjects, ofType)
  }

  /** The records of a type after an add gain the new record exactly when
      the draft is of that type. */
  lemma AddHistoricalThenByType(s: ProjectState, draft: HistoricalDraft, now: nat, projectType: string)
    ensures var (t, _) := AddHistoricalProject(s, draft, now);
      HistoricalProjectsByType(t, projectType) ==
        HistoricalProjectsByType(s, projectType)
          + (if ProjectTypeName(draft.projectType) == projectType then [t.historicalProjects[|s.historicalProjects|]] else [])
  {
    var (t, _) := AddHistoricalProject(s, draft, now);
    var ofType := (h: HistoricalProject) => ProjectTypeName(h.projectType) == projectType;
    assert t.historicalProjects == s.historicalProjects + [t.historicalProjects[|s.historicalProjects|]];
    FilterAppend(s.historicalProjects, [t.historicalProjects[|s.historicalProjects|]], ofType);
  }

  // ---------------------------------------------------------------------------
  // Cascade facts

  /** After a delete nothing is left on file for the deleted project. */
  lemma DeleteLeavesNothing(s: ProjectState, id: string)
    ensures EstimatesByProject(DeleteProject(s, id), id) == []
    ensures RiskAssessmentsByProject(DeleteProject(s, id), id) == []
  {
  }

  /** Deleting one project leaves every other project's estimates and
      assessments exactly as they were, in order. */
  lemma {:induction false} DeleteKeepsOthers(s: ProjectState, id: string, other: string)
    requires other != id
    ensures EstimatesByProject(DeleteProject(s, id), other) == EstimatesByProject(s, other)
    ensures RiskAssessmentsByProject(DeleteProject(s, id), other) == RiskAssessmentsByProject(s, other)
  {
    FilterFilter(s.estimates, (e: ProjectEstimate) => e.projectId != id, (e: ProjectEstimate) => e.projectId == other);
    FilterFilter(s.riskAssessments, (a: RiskAssessment) => a.projectId != id, (a: RiskAssessment) => a.projectId == other);
  }

  /** Deleting twice is deleting once. */
  lemma DeleteIdempotent(s: ProjectState, id: string)
    ensures DeleteProject(DeleteProject(s, id), id) == DeleteProject(s, id)
  {
    FilterIdempotent(s.projects, (p: Project) => p.id != id);
    FilterIdempotent(s.estimates, (e: ProjectEstimate) => e.projectId != id);
    FilterIdempotent(s.riskAssessments, (a: RiskAssessment) => a.projectId != id);
  }

  // ---------------------------------------------------------------------------
  // Persistence

  /** What `partialize` writes to storage under "project-storage". */
  datatype Persisted = Persisted(
    projects: seq<Project>,
    estimates: seq<ProjectEstimate>,
    riskAssessments: seq<RiskAssessment>,
    historicalProjects: seq<HistoricalProject>)

  const StorageKey := "project-storage"

  /** `partialize`: the four lists; the current project and the loading flag
      are not persisted. */
  function Partialize(s: ProjectState): (r: Persisted)
    ensures r.projects == s.projects && r.estimates == s.estimates
    ensures r.riskAssessments == s.riskAssessments && r.historicalProjects == s.historicalProjects
  {
    Persisted(s.projects, s.estimates, s.riskAssessments, s.historicalProjects)
  }

  /** Rehydration: the persisted lists merged over the initial state. */
  function Rehydrate(p: Persisted): (r: ProjectState)
    ensures r.currentProject.None? && !r.isLoading
  {
    InitialState.(projects := p.projects, estimates := p.estimates,
                  riskAssessments := p.riskAssessments, historicalProjects := p.historicalProjects)
  }

  /** Storing and reloading keeps the lists and forgets only the current
      project and the loading flag; what is stored reloads unchanged. */
  lemma PersistRoundTrip(s: ProjectState, p: Persisted)
    ensures Rehydrate(Partialize(s)) == s.(currentProject := None, isLoading := false)
    ensures Partialize(Rehydrate(p)) == p
  {
  }
}
