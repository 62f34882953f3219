/** The application's domain records (src/types/construction.ts). Dates are
    milliseconds since the epoch; JavaScript numbers are `real`, except where
    the rule-based producers yield a whole number (`Math.round`, `parseInt`,
    literals), where they are `int`. A risk's probability and impact are
    `int` too, although a decoded reply could carry a fraction there; such
    replies are outside the model. Optional fields are `Option`s. */
module Construction {
  import opened Wrappers

  /** A `Date`, as milliseconds since the epoch. */
  type Millis = int

  datatype UserRole = Engineer | Contractor | ProjectManager

  datatype User = User(
    id: string,
    email: string,
    name: string,
    role: UserRole,
    company: Option<string>,
    createdAt: Millis)

  datatype ProjectType =
    | ResidentialNew
    | ResidentialRenovation
    | CommercialNew
    | CommercialRenovation
    | Infrastructure
    | Industrial

  /** The string the app stores for a project type. */
  function ProjectTypeName(t: ProjectType): string {
    match t
    case ResidentialNew => "residential_new"
    case ResidentialRenovation => "residential_renovation"
    case CommercialNew => "commercial_new"
    case CommercialRenovation => "commercial_renovation"
    case Infrastructure => "infrastructure"
    case Industrial => "industrial"
  }

  datatype ProjectStatus = Planning | Estimation | Approved | InProgress | OnHold | Completed | Cancelled

  datatype Project = Project(
    id: string,
    name: string,
    description: string,
    kind: ProjectType,
    location: string,
    startDate: Millis,
    estimatedEndDate: Millis,
    actualEndDate: Option<Millis>,
    status: ProjectStatus,
    budget: real,
    estimatedCost: real,
    actualCost: real,
    ownerId: string,
    createdAt: Millis,
    updatedAt: Millis)

  /** `Omit<Project, "id" | "createdAt" | "updatedAt">`. */
  datatype ProjectDraft = ProjectDraft(
    name: string,
    description: string,
    kind: ProjectType,
    location: string,
    startDate: Millis,
    estimatedEndDate: Millis,
    actualEndDate: Option<Millis>,
    status: ProjectStatus,
    budget: real,
    estimatedCost: real,
    actualCost: real,
    ownerId: string)

  datatype MaterialCategory =
    | Concrete | Steel | Lumber | Electrical | Plumbing
    | Roofing | Insulation | Flooring | Fixtures | OtherMaterial

  datatype AvailabilityStatus = Available | Limited | Unavailable | Backordered

  datatype PricePoint = PricePoint(date: Millis, price: real)

  datatype Material = Material(
    id: string,
    name: string,
    category: MaterialCategory,
    unit: string,
    basePrice: real,
    currentPrice: real,
    supplier: Option<string>,
    availability: AvailabilityStatus,
    leadTime: int,
    priceHistory: seq<PricePoint>)

  datatype SkillType =
    | GeneralLabor | Carpenter | Electrician | Plumber | Mason | Roofer
    | HvacTech | HeavyEquipment | ProjectManagerSkill | EngineerSkill | Architect

  datatype WorkforceRequirement = WorkforceRequirement(
    id: string,
    projectId: string,
    skillType: SkillType,
    requiredCount: int,
    duration: int,
    hourlyRate: real,
    availability: AvailabilityStatus)

  datatype EstimationMethod = AiGenerated | Manual | Hybrid

  datatype MaterialCost = MaterialCost(
    materialId: string,
    quantity: real,
    unitPrice: real,
    totalCost: real,
    supplier: Option<string>,
    deliveryDate: Option<Millis>)

  datatype LaborCost = LaborCost(
    skillType: SkillType,
    hours: real,
    hourlyRate: real,
    totalCost: real,
    startDate: Millis,
    endDate: Millis)

  datatype EquipmentCost = EquipmentCost(
    equipmentType: string,
    rentalDays: real,
    dailyRate: real,
    totalCost: real)

  datatype OverheadCost = OverheadCost(category: string, amount: real, description: string)

  datatype PhaseStatus = NotStarted | PhaseInProgress | PhaseCompleted | Delayed

  datatype ResourceType = MaterialResource | LaborResource | EquipmentResource

  datatype ResourceAllocation = ResourceAllocation(
    resourceType: ResourceType,
    resourceId: string,
    quantity: real,
    startDate: Millis,
    endDate: Millis)

  datatype ProjectPhase = ProjectPhase(
    id: string,
    name: string,
    description: string,
    startDate: Millis,
    endDate: Millis,
    duration: real,
    dependencies: seq<string>,
    resources: seq<ResourceAllocation>,
    status: PhaseStatus)

  datatype MilestoneStatus = Pending | MilestoneCompleted | Overdue

  datatype Milestone = Milestone(
    id: string,
    name: string,
    description: string,
    targetDate: Millis,
    actualDate: Option<Millis>,
    status: MilestoneStatus,
    dependencies: seq<string>)

  datatype ProjectTimeline = ProjectTimeline(
    phases: seq<ProjectPhase>,
    totalDuration: real,
    criticalPath: seq<string>,
    milestones: seq<Milestone>)

  datatype ProjectEstimate = ProjectEstimate(
    id: string,
    projectId: string,
    materialCosts: seq<MaterialCost>,
    laborCosts: seq<LaborCost>,
    equipmentCosts: seq<EquipmentCost>,
    overheadCosts: seq<OverheadCost>,
    totalCost: real,
    timeline: ProjectTimeline,
    confidence: real,
    createdBy: string,
    createdAt: Millis,
    estimationMethod: EstimationMethod)

  /** `Omit<ProjectEstimate, "id" | "createdAt">`. */
  datatype EstimateDraft = EstimateDraft(
    projectId: string,
    materialCosts: seq<MaterialCost>,
    laborCosts: seq<LaborCost>,
    equipmentCosts: seq<EquipmentCost>,
    overheadCosts: seq<OverheadCost>,
    totalCost: real,
    timeline: ProjectTimeline,
    confidence: real,
    createdBy: string,
    estimationMethod: EstimationMethod)

  datatype RiskCategory =
    | Weather | SupplyChain | Workforce | Regulatory
    | Financial | Technical | Safety | Environmental

  /** The string the app stores for a risk category. */
  function CategoryName(c: RiskCategory): string {
    match c
    case Weather => "weather"
    case SupplyChain => "supply_chain"
    case Workforce => "workforce"
    case Regulatory => "regulatory"
    case Financial => "financial"
    case Technical => "technical"
    case Safety => "safety"
    case Environmental => "environmental"
  }

  /** Different categories have different names: the length and the first
      letter already tell them apart. */
  lemma CategoryNameInjective(c: RiskCategory, d: RiskCategory)
    requires CategoryName(c) == CategoryName(d)
    ensures c == d
  {
    var n, m := CategoryName(c), CategoryName(d);
    assert |n| == |m| && n[0] == m[0];
  }

  datatype RiskStatus = Identified | Monitoring | Mitigating | Resolved

  datatype Risk = Risk(
    id: string,
    category: RiskCategory,
    description: string,
    probability: int,
    impact: int,
    riskScore: int,
    mitigation: string,
    status: RiskStatus)

  datatype RiskAssessment = RiskAssessment(
    id: string,
    projectId: string,
    risks: seq<Risk>,
    overallRiskScore: int,
    recommendations: seq<string>,
    createdAt: Millis,
    updatedAt: Millis)

  /** `Omit<RiskAssessment, "id" | "createdAt" | "updatedAt">`: what the risk
      service produces and the project store records. */
  datatype AssessmentDraft = AssessmentDraft(
    projectId: string,
    risks: seq<Risk>,
    overallRiskScore: int,
    recommendations: seq<string>)

  datatype HistoricalProject = HistoricalProject(
    id: string,
    projectType: ProjectType,
    size: real,
    location: string,
    estimatedCost: real,
    actualCost: real,
    estimatedDuration: real,
    actualDuration: real,
    completedAt: Millis,
    successFactors: seq<string>,
    challenges: seq<string>)

  /** `Omit<HistoricalProject, "id">`. */
  datatype HistoricalDraft = HistoricalDraft(
    projectType: ProjectType,
    size: real,
    location: string,
    estimatedCost: real,
    actualCost: real,
    estimatedDuration: real,
    actualDuration: real,
    completedAt: Millis,
    successFactors: seq<string>,
    challenges: seq<string>)

  datatype EstimationRequest = EstimationRequest(
    projectType: ProjectType,
    size: real,
    location: string,
    specifications: string,
    timeline: string,
    specialRequirements: Option<seq<string>>)

  datatype CostBreakdown = CostBreakdown(materials: int, labor: int, equipment: int, overhead: int)

  datatype EstimationResponse = EstimationResponse(
    estimatedCost: int,
    costBreakdown: CostBreakdown,
    timeline: int,
    confidence: int,
    assumptions: seq<string>,
    recommendations: seq<string>,
    risks: seq<string>)
}
