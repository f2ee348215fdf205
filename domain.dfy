/**
 * The records and enumerations of the recruiting marketplace: users and
 * organizations, jobs, candidates and their applications, interviews,
 * shortlist requests, contracts, payments and notifications.
 */
module Domain {
  import opened Wrappers
  import opened Text

  datatype Role = Admin | ClientAdmin | ClientMember | Candidate

  /** The string value of a role, as stored in the user record. */
  function RoleName(r: Role): string {
    match r
    case Admin => "ADMIN"
    case ClientAdmin => "CLIENT_ADMIN"
    case ClientMember => "CLIENT_MEMBER"
    case Candidate => "CANDIDATE"
  }

  /** `role.startsWith('CLIENT')`: the test the contract screens use for "a client user". */
  predicate IsClientRole(r: Role) {
    StartsWith(RoleName(r), "CLIENT")
  }

  /** The prefix test singles out exactly the two client roles. */
  lemma ClientRoles(r: Role)
    ensures IsClientRole(r) <==> r == ClientAdmin || r == ClientMember
  {
    if r == Role.Candidate {
      assert RoleName(r)[..6][1] != "CLIENT"[1];
    }
  }

  datatype User = User(id: string, name: string, email: string, role: Role, organizationId: Option<string>)

  datatype SubscriptionStatus = Active | Inactive | Trialing | Hold

  datatype Organization = Organization(
    id: string, name: string, email: Option<string>,
    subscriptionStatus: SubscriptionStatus, members: seq<User>)

  datatype JobStatus = Open | Closed | Draft

  datatype Job = Job(
    id: string, title: string, organizationId: string, organizationName: string,
    location: string, salaryRange: string, status: JobStatus, applicationsCount: int)

  datatype Candidate = Candidate(
    id: string, name: string, email: string, skills: seq<string>,
    experience: string, expectedRate: string)

  /** A candidate before the store gives it an id (`Omit<Candidate, 'id'>`). */
  datatype CandidateDraft = CandidateDraft(
    name: string, email: string, skills: seq<string>, experience: string, expectedRate: string)

  datatype ApplicationStatus = Submitted | Shortlisted | Interviewing | Offer | Hired | Rejected

  /** The string value of an application status, as shown in notifications. */
  function ApplicationStatusLabel(s: ApplicationStatus): string {
    match s
    case Submitted => "Submitted"
    case Shortlisted => "Shortlisted"
    case Interviewing => "Interview"
    case Offer => "Offer"
    case Hired => "Hired"
    case Rejected => "Rejected"
  }

  datatype InterviewPlatform = GoogleMeet | Zoom | MicrosoftTeams | OtherPlatform

  datatype InterviewStatus =
    | Scheduled
    | Completed
    | CancelledByClient
    | RescheduleRequestedByCandidate
    | DeclinedByCandidate

  datatype Interview = Interview(
    id: string, applicationId: string, dateTime: string, platform: InterviewPlatform,
    meetingLink: Option<string>, notes: Option<string>, status: InterviewStatus)

  /** What the scheduler supplies for a new interview (`Omit<Interview, 'id' | 'applicationId' | 'status'>`). */
  datatype InterviewDetails = InterviewDetails(
    dateTime: string, platform: InterviewPlatform, meetingLink: Option<string>, notes: Option<string>)

  /** A partial update of an interview: `None` is a key the patch does not carry. */
  datatype InterviewPatch = InterviewPatch(
    dateTime: Option<string>, platform: Option<InterviewPlatform>,
    meetingLink: Option<string>, notes: Option<string>)

  /** `{ ...i, ...patch }`. */
  function Patched(i: Interview, patch: InterviewPatch): Interview {
    i.(dateTime := patch.dateTime.GetOr(i.dateTime),
       platform := patch.platform.GetOr(i.platform),
       meetingLink := if patch.meetingLink.Some? then patch.meetingLink else i.meetingLink,
       notes := if patch.notes.Some? then patch.notes else i.notes)
  }

  /** `interviews` is the optional list the scheduler appends to (absent is `[]`). */
  datatype Application = Application(
    id: string, candidateId: string, jobId: string, status: ApplicationStatus,
    appliedDate: string, interviews: seq<Interview>)

  datatype ProjectCategory = SaaS | ECommerce | MobileApp | MarketingCampaign

  datatype ProjectDetails = ProjectDetails(goal: string, category: ProjectCategory, timeline: int, budget: int)

  datatype TeamMember = TeamMember(roleId: string, roleName: string, count: int)

  datatype ShortlistRequestStatus = Pending | Fulfilled

  datatype ShortlistRequest = ShortlistRequest(
    id: string, organizationId: string, organizationName: string,
    projectDetails: ProjectDetails, requestedTeam: seq<TeamMember>,
    status: ShortlistRequestStatus, requestedDate: string, assignedCandidates: seq<Candidate>)

  datatype ContractStatus = PendingClientSignature | PendingCandidateSignature | Signed | Cancelled

  datatype Contract = Contract(
    id: string, applicationId: string, organizationId: string, candidateId: string,
    jobTitle: string, clientName: string, candidateName: string, content: string,
    status: ContractStatus, generatedDate: string,
    clientSignedDate: Option<string>, candidateSignedDate: Option<string>,
    clientSignature: Option<string>, candidateSignature: Option<string>)

  datatype PaymentStatus = PendingDisbursement | Disbursed

  datatype Payment = Payment(
    id: string, contractId: string, organizationId: string, candidateId: string,
    clientName: string, candidateName: string, amount: real, notes: Option<string>,
    paymentDate: string, disbursementDate: Option<string>, status: PaymentStatus)

  datatype NotificationType = NewApplication | InterviewScheduled | ContractAction | PaymentDisbursed | ShortlistFulfilled

  datatype Notification = Notification(
    id: string, userId: string, message: string, link: string,
    isRead: bool, createdAt: string, kind: NotificationType)
}
