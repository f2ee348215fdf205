/**
 * The mock back end's tables as one value, the lookups the operations share,
 * and, for every operation, the tables after it: each `After...` function says
 * which record changes, what is appended and which notifications are sent, and
 * leaves everything else as it was.
 */
module Tables {
  import opened Wrappers
  import opened Text
  import opened Seqs
  import opened Domain
  import Modals

  /** Every table at one moment, and the counter that stands for fresh notification ids. */
  datatype Db = Db(
    users: seq<User>, organizations: seq<Organization>, candidates: seq<Candidate>,
    jobs: seq<Job>, applications: seq<Application>, interviews: seq<Interview>,
    shortlistRequests: seq<ShortlistRequest>, contracts: seq<Contract>,
    payments: seq<Payment>, notifications: seq<Notification>, notificationCounter: nat)

  // ---------------------------------------------------------------------------
  // Seed data
  // ---------------------------------------------------------------------------

  function SeedUsers(): seq<User> {
    [ User("user-1", "Admin User", "admin@plugplayers.com", Admin, None),
      User("user-2", "Alice (Client Admin)", "alice@startup.com", ClientAdmin, Some("org-1")),
      User("user-3", "Bob (Client Member)", "bob@startup.com", ClientMember, Some("org-1")),
      User("user-4", "Charlie (Candidate)", "charlie.dev@email.com", Role.Candidate, None),
      User("user-5", "Diana (Client Admin, No Subscription)", "diana@freetier.com", ClientAdmin, Some("org-2")),
      User("user-6", "Eve (Candidate)", "eve.designer@email.com", Role.Candidate, None) ]
  }

  /** Each seeded organization lists the seeded users that belong to it. */
  function SeedOrganizations(): seq<Organization> {
    var users := SeedUsers();
    [ Organization("org-1", "Innovate Inc.", Some("contact@innovate.com"), Active,
                   [users[1], users[2]]),
      Organization("org-2", "FreeTier Co.", Some("hello@freetier.com"), Inactive,
                   [users[4]]),
      Organization("org-3", "Growth Stage LLC", Some("bizdev@growthstage.com"), Trialing, []),
      Organization("org-4", "Synergy Solutions", Some("info@synergysolutions.com"), Active, []) ]
  }

  function SeedCandidates(): seq<Candidate> {
    [ Candidate.Candidate("cand-4", "Charlie Davis", "charlie.dev@email.com", ["React", "TypeScript", "Node.js", "GraphQL"], "5 years", "$80/hr"),
      Candidate.Candidate("cand-6", "Eve Williams", "eve.designer@email.com", ["Figma", "UI/UX", "Prototyping", "Design Systems"], "3 years", "$65/hr"),
      Candidate.Candidate("cand-3", "Frank Miller", "frank.pm@email.com", ["Agile", "Jira", "Product Roadmapping"], "8 years", "$95/hr"),
      Candidate.Candidate("cand-2", "Grace Lee", "grace.eng@email.com", ["Python", "Django", "PostgreSQL", "AWS"], "6 years", "$85/hr") ]
  }

  function SeedJobs(): seq<Job> {
    [ Job("job-1", "Senior Frontend Engineer", "org-1", "Innovate Inc.", "Remote", "$120k - $150k", Open, 2),
      Job("job-2", "UX/UI Designer", "org-1", "Innovate Inc.", "New York, NY", "$90k - $110k", Open, 1),
      Job("job-3", "Product Manager", "org-4", "Synergy Solutions", "Remote", "$130k - $160k", Closed, 0),
      Job("job-4", "Backend Engineer", "org-2", "FreeTier Co.", "Remote", "$100k - $130k", Draft, 0) ]
  }

  function SeedApplications(): seq<Application> {
    [ Application("app-1", "cand-4", "job-1", Submitted, "2023-10-26", []),
      Application("app-2", "cand-6", "job-2", Shortlisted, "2023-10-25", []),
      Application("app-3", "cand-2", "job-1", Interviewing, "2023-10-24", []) ]
  }

  /** The seeded tables; the one seeded interview is dated `interviewDate` (five days after start-up). */
  function Seed(interviewDate: string): Db {
    Db(SeedUsers(), SeedOrganizations(), SeedCandidates(), SeedJobs(), SeedApplications(),
       [Interview("int-1", "app-3", interviewDate, GoogleMeet, Some("https://meet.google.com/xyz-abc-def"),
                  Some("First round technical interview with the engineering manager."), Scheduled)],
       [], [], [], [], 0)
  }

  // ---------------------------------------------------------------------------
  // Lookups
  // ---------------------------------------------------------------------------

  // The `x => x.id === id` callbacks, named so that every use denotes the same function.
  function UserWithId(id: string): User -> bool { (u: User) => u.id == id }
  function CandidateWithId(id: string): Candidate -> bool { (c: Candidate) => c.id == id }
  function JobWithId(id: string): Job -> bool { (j: Job) => j.id == id }
  function ApplicationWithId(id: string): Application -> bool { (a: Application) => a.id == id }
  function InterviewWithId(id: string): Interview -> bool { (i: Interview) => i.id == id }
  function OrganizationWithId(id: string): Organization -> bool { (o: Organization) => o.id == id }
  function RequestWithId(id: string): ShortlistRequest -> bool { (s: ShortlistRequest) => s.id == id }
  function ContractWithId(id: string): Contract -> bool { (c: Contract) => c.id == id }
  function PaymentWithId(id: string): Payment -> bool { (p: Payment) => p.id == id }
  function NotificationWithId(id: string): Notification -> bool { (n: Notification) => n.id == id }

  /** `u => u.email.toLowerCase() === email.toLowerCase()`. */
  function UserWithEmailIgnoringCase(email: string): User -> bool {
    (u: User) => SameIgnoringCase(u.email, email)
  }

  // The record updates the `map` calls apply, named for the same reason.

  /** `a => ({ ...a, status })`. */
  function StatusSetTo(status: ApplicationStatus): Application -> Application {
    (a: Application) => a.(status := status)
  }

  /** `i => ({ ...i, ...details, status })`. */
  function InterviewUpdatedTo(status: InterviewStatus, details: Option<InterviewPatch>): Interview -> Interview {
    (i: Interview) => UpdatedInterview(i, status, details)
  }

  /** `i => ({ ...i, status: CANCELLED_BY_CLIENT })`. */
  function InterviewCancelled(): Interview -> Interview {
    (i: Interview) => i.(status := CancelledByClient)
  }

  /** `r => ({ ...r, assignedCandidates, status: FULFILLED })`. */
  function FulfilledWith(chosen: seq<Candidate>): ShortlistRequest -> ShortlistRequest {
    (r: ShortlistRequest) => r.(assignedCandidates := chosen, status := Fulfilled)
  }

  /** `p => ({ ...p, status: DISBURSED, disbursementDate })`. */
  function DisbursedAt(now: string): Payment -> Payment {
    (p: Payment) => p.(status := Disbursed, disbursementDate := Some(now))
  }

  /** `n => ({ ...n, isRead: true })`. */
  function MarkedRead(): Notification -> Notification {
    (n: Notification) => n.(isRead := true)
  }

  /** `USERS.find(u => u.id === id)`. */
  function UserById(users: seq<User>, id: string): Option<User> {
    Find(users, UserWithId(id))
  }

  /** The candidate profile whose email is the email of the user with id `userId`. */
  function FindCandidateByUserId(users: seq<User>, candidates: seq<Candidate>, userId: string): (r: Option<Candidate>)
    ensures r.Some? ==>
      r.value in candidates && UserById(users, userId).Some? && r.value.email == UserById(users, userId).value.email
    ensures r.Some? ==>
      exists k :: 0 <= k < |candidates| && candidates[k] == r.value &&
        forall j :: 0 <= j < k ==> candidates[j].email != r.value.email
    ensures r.None? <==>
      UserById(users, userId).None? ||
      forall i :: 0 <= i < |candidates| ==> candidates[i].email != UserById(users, userId).value.email
  {
    match UserById(users, userId)
    case None => None
    case Some(u) => Find(candidates, (c: Candidate) => c.email == u.email)
  }

  /** The user account of a candidate: the first user with the candidate's email. */
  function CandidateUser(users: seq<User>, candidates: seq<Candidate>, candidateId: string): Option<User> {
    match Find(candidates, CandidateWithId(candidateId))
    case None => None
    case Some(c) => Find(users, (u: User) => u.email == c.email)
  }

  predicate IsOrgAdmin(u: User, orgId: string) {
    u.organizationId == Some(orgId) && u.role == ClientAdmin
  }

  /** The first client admin of an organization. */
  function OrgAdmin(users: seq<User>, orgId: string): Option<User> {
    Find(users, (u: User) => IsOrgAdmin(u, orgId))
  }

  /** All client admins of an organization, in table order. */
  function OrgAdmins(users: seq<User>, orgId: string): seq<User> {
    Filter(users, (u: User) => IsOrgAdmin(u, orgId))
  }

  /** Some application pairs this candidate with this job. */
  predicate HasApplied(apps: seq<Application>, candidateId: string, jobId: string) {
    Any(apps, (a: Application) => a.candidateId == candidateId && a.jobId == jobId)
  }

  /** Number of applications to a job. */
  function ApplicationsCount(apps: seq<Application>, jobId: string): nat {
    if apps == [] then 0
    else ApplicationsCount(apps[..|apps| - 1], jobId) + (if apps[|apps| - 1].jobId == jobId then 1 else 0)
  }

  /** Some candidate's email equals `email` ignoring case. */
  predicate HasEmail(candidates: seq<Candidate>, email: string) {
    Any(candidates, (c: Candidate) => SameIgnoringCase(c.email, email))
  }

  // ---------------------------------------------------------------------------
  // Notifications
  // ---------------------------------------------------------------------------

  /** What `createNotification` is called with. */
  datatype Notice = Notice(userId: string, kind: NotificationType, message: string, link: string)

  /** The id given to the `n`-th notification. */
  function NotificationId(n: nat): string {
    "notif-" + Decimal(n)
  }

  /** The notification list after `createNotification` is called once per notice, in order: each goes to the front. */
  function Broadcast(notifications: seq<Notification>, counter: nat, notices: seq<Notice>, now: string): seq<Notification>
    decreases |notices|
  {
    if notices == [] then notifications
    else
      var k := |notices| - 1;
      var n := notices[k];
      [Notification(NotificationId(counter + k), n.userId, n.message, n.link, false, now, n.kind)] +
      Broadcast(notifications, counter, notices[..k], now)
  }

  /** The same notice sent to each of `recipients`. */
  function NoticesTo(recipients: seq<User>, kind: NotificationType, message: string, link: string): (r: seq<Notice>)
    ensures |r| == |recipients|
    ensures forall i :: 0 <= i < |r| ==> r[i] == Notice(recipients[i].id, kind, message, link)
  {
    seq(|recipients|, i requires 0 <= i < |recipients| => Notice(recipients[i].id, kind, message, link))
  }

  /** The tables after the notices are sent. */
  function Post(db: Db, notices: seq<Notice>, now: string): Db {
    db.(notifications := Broadcast(db.notifications, db.notificationCounter, notices, now),
        notificationCounter := db.notificationCounter + |notices|)
  }

  // ---------------------------------------------------------------------------
  // Invariants the operations keep
  // ---------------------------------------------------------------------------

  ghost predicate JobIdsDistinct(jobs: seq<Job>) {
    forall i, j :: 0 <= i < j < |jobs| ==> jobs[i].id != jobs[j].id
  }

  /** At most one application per (candidate, job) pair. */
  ghost predicate OneApplicationPerPair(apps: seq<Application>) {
    forall i, j :: 0 <= i < j < |apps| ==>
      !(apps[i].candidateId == apps[j].candidateId && apps[i].jobId == apps[j].jobId)
  }

  /** Each job's `applicationsCount` is the number of applications to it. */
  ghost predicate CountsMatch(jobs: seq<Job>, apps: seq<Application>) {
    forall i :: 0 <= i < |jobs| ==> jobs[i].applicationsCount == ApplicationsCount(apps, jobs[i].id)
  }

  /** Signatures follow the status: none before the client signs, the client's only while the candidate has to sign, both once signed. */
  predicate SignaturesConsistent(c: Contract) {
    match c.status
    case PendingClientSignature =>
      c.clientSignature.None? && c.clientSignedDate.None? && c.candidateSignature.None? && c.candidateSignedDate.None?
    case PendingCandidateSignature =>
      c.clientSignature.Some? && c.clientSignedDate.Some? && c.candidateSignature.None? && c.candidateSignedDate.None?
    case Signed =>
      c.clientSignature.Some? && c.clientSignedDate.Some? && c.candidateSignature.Some? && c.candidateSignedDate.Some?
    case Cancelled => true
  }

  /** A payment carries a disbursement date exactly when it has been disbursed. */
  predicate DisbursementConsistent(p: Payment) {
    p.status == Disbursed <==> p.disbursementDate.Some?
  }

  ghost predicate Invariant(db: Db) {
    && JobIdsDistinct(db.jobs)
    && OneApplicationPerPair(db.applications)
    && CountsMatch(db.jobs, db.applications)
    && (forall i :: 0 <= i < |db.contracts| ==> SignaturesConsistent(db.contracts[i]))
    && (forall i :: 0 <= i < |db.payments| ==> DisbursementConsistent(db.payments[i]))
  }

  // ---------------------------------------------------------------------------
  // Users and candidates
  // ---------------------------------------------------------------------------

  /** The account `register` creates, or `None` when the email is taken (ignoring case). */
  function RegisteredUser(db: Db, name: string, email: string, role: Role, orgName: Option<string>): Option<User> {
    if Any(db.users, UserWithEmailIgnoringCase(email)) then None
    else
      var uid := "user-" + Decimal(|db.users| + 1);
      if role == ClientAdmin && orgName.Some? && orgName.value != "" then
        Some(User(uid, name, email, role, Some("org-" + Decimal(|db.organizations| + 1))))
      else
        Some(User(uid, name, email, role, None))
  }

  /** The tables after `register`: a client admin naming an organization also creates it; a candidate also gets an empty profile. */
  function AfterRegister(db: Db, name: string, email: string, role: Role, orgName: Option<string>): Db {
    match RegisteredUser(db, name, email, role, orgName)
    case None => db
    case Some(user) =>
      if role == ClientAdmin && orgName.Some? && orgName.value != "" then
        var org := Organization(user.organizationId.value, orgName.value, None, Trialing, [user]);
        db.(organizations := db.organizations + [org], users := db.users + [user])
      else if role == Role.Candidate then
        var profile := Candidate.Candidate("cand-" + Decimal(|db.users| + 1), name, email, [], "", "");
        db.(candidates := db.candidates + [profile], users := db.users + [user])
      else
        db.(users := db.users + [user])
  }

  /** The candidate a CSV draft becomes: `cand-<stamp>-<count so far>`. */
  function ImportedCandidate(d: CandidateDraft, stamp: string, created: nat): Candidate {
    Candidate.Candidate("cand-" + stamp + "-" + Decimal(created), d.name, d.email, d.skills, d.experience, d.expectedRate)
  }

  /** The candidates the bulk import appends: a draft is skipped when its email is already in the table, ignoring case. */
  function Imported(existing: seq<Candidate>, batch: seq<CandidateDraft>, stamp: string, created: nat): seq<Candidate>
    decreases |batch|
  {
    if batch == [] then []
    else if HasEmail(existing, batch[0].email) then Imported(existing, batch[1..], stamp, created)
    else
      var c := ImportedCandidate(batch[0], stamp, created);
      [c] + Imported(existing + [c], batch[1..], stamp, created + 1)
  }

  function AfterCsvImport(db: Db, batch: seq<CandidateDraft>, stamp: string): Db {
    db.(candidates := db.candidates + Imported(db.candidates, batch, stamp, 0))
  }

  // ---------------------------------------------------------------------------
  // Applications
  // ---------------------------------------------------------------------------

  /** The tables after `applyForJob`: nothing happens without a candidate profile or when the candidate already applied. */
  function AfterApplyForJob(db: Db, userId: string, jobId: string, today: string, now: string): Db {
    match FindCandidateByUserId(db.users, db.candidates, userId)
    case None => db
    case Some(cand) =>
      if HasApplied(db.applications, cand.id, jobId) then db
      else Filed(db, cand, jobId, today, now)
  }

  /** The application `applyForJob` creates, numbered after the table's length. */
  function SubmittedApplication(db: Db, cand: Candidate, jobId: string, today: string): Application {
    Application("app-" + Decimal(|db.applications| + 1), cand.id, jobId, Submitted, today, [])
  }

  /** The application appended and, when its job stands at position `k`, counted on it. */
  function Counted(db: Db, app: Application, k: Option<nat>): Db
    requires k.Some? ==> k.value < |db.jobs|
  {
    db.(applications := db.applications + [app],
        jobs := if k.Some? then db.jobs[k.value := db.jobs[k.value].(applicationsCount := db.jobs[k.value].applicationsCount + 1)]
                else db.jobs)
  }

  /** The new application is appended, counted on its job and announced to the job's client admins. */
  function Filed(db: Db, cand: Candidate, jobId: string, today: string, now: string): Db {
    var k := FindIndex(db.jobs, JobWithId(jobId));
    var counted := Counted(db, SubmittedApplication(db, cand, jobId, today), k);
    match k
    case None => counted
    case Some(i) =>
      var job := db.jobs[i];
      Post(counted,
           NoticesTo(OrgAdmins(db.users, job.organizationId), NewApplication,
                     cand.name + " applied for " + job.title + ".", "/client/jobs/" + jobId),
           now)
  }

  /** The tables after `updateApplicationStatus`: any status may be set, from any status. */
  function AfterUpdateApplicationStatus(db: Db, appId: string, status: ApplicationStatus, now: string): Db {
    var apps := MapWhere(db.applications, ApplicationWithId(appId), StatusSetTo(status));
    var updated := db.(applications := apps);
    match Find(apps, ApplicationWithId(appId))
    case None => updated
    case Some(app) =>
      match (CandidateUser(db.users, db.candidates, app.candidateId), Find(db.jobs, JobWithId(app.jobId)))
      case (Some(cu), Some(job)) =>
        Post(updated, [Notice(cu.id, ContractAction,
          "Your application status for " + job.title + " was updated to " + ApplicationStatusLabel(status) + ".",
          "/candidate/applications")], now)
      case _ => updated
  }

  // ---------------------------------------------------------------------------
  // Interviews
  // ---------------------------------------------------------------------------

  function ScheduledInterview(applicationId: string, details: InterviewDetails, interviewId: string): Interview {
    Interview(interviewId, applicationId, details.dateTime, details.platform, details.meetingLink, details.notes, Scheduled)
  }

  /** The tables after `scheduleInterview`: the interview is also appended to its application's list. */
  function AfterScheduleInterview(db: Db, applicationId: string, details: InterviewDetails, interviewId: string, now: string): Db {
    var iv := ScheduledInterview(applicationId, details, interviewId);
    var added := db.(interviews := db.interviews + [iv]);
    match FindIndex(db.applications, ApplicationWithId(applicationId))
    case None => added
    case Some(k) =>
      var app := db.applications[k];
      var linked := added.(applications := db.applications[k := app.(interviews := app.interviews + [iv])]);
      match (CandidateUser(db.users, db.candidates, app.candidateId), Find(db.jobs, JobWithId(app.jobId)))
      case (Some(cu), Some(job)) =>
        Post(linked, [Notice(cu.id, InterviewScheduled,
          "You have a new interview for " + job.title + " with " + job.organizationName + ".",
          "/candidate/interviews")], now)
      case _ => linked
  }

  /** `{ ...i, ...details, status }`. */
  function UpdatedInterview(i: Interview, status: InterviewStatus, details: Option<InterviewPatch>): Interview {
    match details
    case None => i.(status := status)
    case Some(p) => Patched(i, p).(status := status)
  }

  /** The name the candidate notifications print (`${candidateUser?.name}`). */
  function NameOrUndefined(u: Option<User>): string {
    match u
    case Some(user) => user.name
    case None => "undefined"
  }

  /** Whom `updateInterview` notifies: the client admin on a candidate's request or refusal, the candidate on a client's reschedule. */
  function InterviewUpdateNotices(users: seq<User>, candidates: seq<Candidate>, original: Option<Interview>, app: Application, job: Job,
                                  status: InterviewStatus, details: Option<InterviewPatch>): seq<Notice>
  {
    var admin := OrgAdmin(users, job.organizationId);
    var cu := CandidateUser(users, candidates, app.candidateId);
    if status == RescheduleRequestedByCandidate && admin.Some? then
      [Notice(admin.value.id, InterviewScheduled,
              NameOrUndefined(cu) + " requested to reschedule an interview for " + job.title + ".",
              "/client/jobs/" + app.jobId)]
    else if status == DeclinedByCandidate && admin.Some? then
      [Notice(admin.value.id, InterviewScheduled,
              NameOrUndefined(cu) + " declined an interview for " + job.title + ".",
              "/client/jobs/" + app.jobId)]
    else if details.Some? && original.Some? && original.value.status == Scheduled && status == Scheduled && cu.Some? then
      [Notice(cu.value.id, InterviewScheduled,
              "Your interview for " + job.title + " has been rescheduled. Please check the new details.",
              "/candidate/interviews")]
    else []
  }

  /** The tables after `updateInterview`: no status is terminal. */
  function AfterUpdateInterview(db: Db, interviewId: string, status: InterviewStatus, details: Option<InterviewPatch>, now: string): Db {
    var original := Find(db.interviews, InterviewWithId(interviewId));
    var ivs := MapWhere(db.interviews, InterviewWithId(interviewId), InterviewUpdatedTo(status, details));
    var updated := db.(interviews := ivs);
    match Find(ivs, InterviewWithId(interviewId))
    case None => updated
    case Some(iv) =>
      match Find(db.applications, ApplicationWithId(iv.applicationId))
      case None => updated
      case Some(app) =>
        match Find(db.jobs, JobWithId(app.jobId))
        case None => updated
        case Some(job) => Post(updated, InterviewUpdateNotices(db.users, db.candidates, original, app, job, status, details), now)
  }

  /** The tables after `cancelInterview`. */
  function AfterCancelInterview(db: Db, interviewId: string, now: string): Db {
    var ivs := MapWhere(db.interviews, InterviewWithId(interviewId), InterviewCancelled());
    var updated := db.(interviews := ivs);
    match Find(ivs, InterviewWithId(interviewId))
    case None => updated
    case Some(iv) =>
      match Find(db.applications, ApplicationWithId(iv.applicationId))
      case None => updated
      case Some(app) =>
        match (CandidateUser(db.users, db.candidates, app.candidateId), Find(db.jobs, JobWithId(app.jobId)))
        case (Some(cu), Some(job)) =>
          Post(updated, [Notice(cu.id, InterviewScheduled,
            "Your interview for " + job.title + " has been cancelled by " + job.organizationName + ".",
            "/candidate/interviews")], now)
        case _ => updated
  }

  // ---------------------------------------------------------------------------
  // Shortlist requests
  // ---------------------------------------------------------------------------

  /** The request `createShortlistRequest` appends. */
  function NewShortlistRequest(db: Db, orgId: string, project: ProjectDetails, team: seq<TeamMember>,
                               requestId: string, now: string): ShortlistRequest
  {
    var org := Find(db.organizations, OrganizationWithId(orgId));
    var orgName := if org.Some? && org.value.name != "" then org.value.name else "Unknown Org";
    ShortlistRequest(requestId, orgId, orgName, project, team, Pending, now, [])
  }

  /** The candidates of the table whose id is listed, in table order. */
  function ChosenCandidates(candidates: seq<Candidate>, candidateIds: seq<string>): seq<Candidate> {
    Filter(candidates, (c: Candidate) => c.id in candidateIds)
  }

  /** The tables after `assignCandidatesToRequest`: the request is fulfilled whatever its status was. */
  function AfterAssignCandidates(db: Db, requestId: string, candidateIds: seq<string>, now: string): Db {
    var chosen := ChosenCandidates(db.candidates, candidateIds);
    var reqs := MapWhere(db.shortlistRequests, RequestWithId(requestId), FulfilledWith(chosen));
    var updated := db.(shortlistRequests := reqs);
    match Find(reqs, RequestWithId(requestId))
    case None => updated
    case Some(req) =>
      match OrgAdmin(db.users, req.organizationId)
      case None => updated
      case Some(admin) =>
        Post(updated, [Notice(admin.id, ShortlistFulfilled,
          "Your shortlist for \"" + req.projectDetails.goal + "\" is ready.", "/client/shortlists")], now)
  }

  // ---------------------------------------------------------------------------
  // Contracts
  // ---------------------------------------------------------------------------

  /** The agreement text around the four values `generateContract` fills in. */
  datatype Template = Template(opening: string, companyAnd: string, services: string, compensation: string, closing: string)

  /** The agreement between `orgName` and `candidateName` for `jobTitle`, paid `rate`. */
  function Fill(t: Template, orgName: string, candidateName: string, jobTitle: string, rate: string): string {
    t.opening + orgName + t.companyAnd + candidateName + t.services + jobTitle + t.compensation + rate + t.closing
  }

  /** The fixed agreement `generateContract` writes: 14 days' notice, confidentiality, contractor status. */
  const Agreement: Template := Template(
    "This Independent Contractor Agreement (\"Agreement\") is entered into between ",
    " (\"Company\") and ",
    " (\"Contractor\").\n\n1. Services: Contractor agrees to perform services as a ",
    " for the Company.\n\n2. Compensation: The Company agrees to pay the Contractor ",
    ".\n\n3. Term: This Agreement will begin on the date of signing and will continue until terminated by either party with 14 days written notice.\n\n4. Confidentiality: Contractor agrees to keep all Company information confidential.\n\n5. Independent Contractor Status: Contractor is an independent contractor, not an employee of the Company.\n\nIN WITNESS WHEREOF, the parties have executed this Agreement as of the date first written above.")

  /** The contract `generateContract` creates from `template`, or `None` when the application, its job, its candidate or the job's organization is missing. */
  function ContractFor(db: Db, applicationId: string, contractId: string, now: string, template: Template): Option<Contract> {
    match Find(db.applications, ApplicationWithId(applicationId))
    case None => None
    case Some(app) =>
      var job := Find(db.jobs, JobWithId(app.jobId));
      var cand := Find(db.candidates, CandidateWithId(app.candidateId));
      var org := if job.Some? then Find(db.organizations, OrganizationWithId(job.value.organizationId)) else None;
      if job.None? || cand.None? || org.None? then None
      else
        Some(Contract(contractId, applicationId, org.value.id, cand.value.id, job.value.title,
                      org.value.name, cand.value.name,
                      Fill(template, org.value.name, cand.value.name, job.value.title, cand.value.expectedRate),
                      PendingClientSignature, now, None, None, None, None))
  }

  function AfterGenerateContract(db: Db, applicationId: string, contractId: string, now: string, template: Template): Db {
    match ContractFor(db, applicationId, contractId, now, template)
    case None => db
    case Some(c) => db.(contracts := db.contracts + [c])
  }

  /** One signing step on a contract: the client signs first, then the candidate; anything else leaves it as it is. */
  function SignedContract(c: Contract, role: Role, signature: string, now: string): Contract {
    if IsClientRole(role) && c.status == PendingClientSignature then
      c.(clientSignature := Some(signature), clientSignedDate := Some(now), status := PendingCandidateSignature)
    else if role == Role.Candidate && c.status == PendingCandidateSignature then
      c.(candidateSignature := Some(signature), candidateSignedDate := Some(now), status := Signed)
    else c
  }

  /** The contract at position `k` after one signing step. */
  function SignedAt(db: Db, k: nat, role: Role, signature: string, now: string): Db
    requires k < |db.contracts|
  {
    db.(contracts := db.contracts[k := SignedContract(db.contracts[k], role, signature, now)])
  }

  /**
   * Who hears of a signature: the candidate once the client has signed, the
   * organization's first client admin once the candidate has. `candidateUserOf`
   * stands for the lookup of the candidate's account from the name printed on
   * the contract.
   */
  function SigningNotices(db: Db, c: Contract, role: Role, candidateUserOf: string -> Option<string>): seq<Notice> {
    if IsClientRole(role) && c.status == PendingClientSignature then
      match candidateUserOf(c.candidateName)
      case None => []
      case Some(uid) =>
        [Notice(uid, ContractAction, c.clientName + " has signed your contract for " + c.jobTitle + ".", "/candidate/contracts")]
    else if role == Role.Candidate && c.status == PendingCandidateSignature then
      match OrgAdmin(db.users, c.organizationId)
      case None => []
      case Some(admin) =>
        [Notice(admin.id, ContractAction, c.candidateName + " has signed the contract for " + c.jobTitle + ". It's official!", "/client/contracts")]
    else []
  }

  /** The tables after `signContract`: nothing changes unless the signer's role may sign in the contract's state. */
  function AfterSignContract(db: Db, contractId: string, userId: string, signature: string, now: string,
                             candidateUserOf: string -> Option<string>): Db
  {
    match FindIndex(db.contracts, ContractWithId(contractId))
    case None => db
    case Some(k) =>
      match UserById(db.users, userId)
      case None => db
      case Some(user) =>
        if !Modals.CanSign(user.role, db.contracts[k].status) then db
        else Post(SignedAt(db, k, user.role, signature, now),
                  SigningNotices(db, db.contracts[k], user.role, candidateUserOf), now)
  }

  // ---------------------------------------------------------------------------
  // Payments
  // ---------------------------------------------------------------------------

  /** The payment `initiatePayment` records against a contract. */
  function NewPayment(paymentId: string, c: Contract, amount: real, notes: Option<string>, now: string): Payment {
    Payment(paymentId, c.id, c.organizationId, c.candidateId, c.clientName, c.candidateName,
            amount, notes, now, None, PendingDisbursement)
  }

  /** The tables after `initiatePayment`: whatever the contract's status. */
  function AfterInitiatePayment(db: Db, contractId: string, amount: real, notes: Option<string>, paymentId: string, now: string): Db {
    match Find(db.contracts, ContractWithId(contractId))
    case None => db
    case Some(c) => db.(payments := db.payments + [NewPayment(paymentId, c, amount, notes, now)])
  }

  /**
   * The tables after `disbursePayment`. `formatAmount` stands for the
   * number-to-text conversion of the amount in the message.
   */
  function AfterDisbursePayment(db: Db, paymentId: string, now: string, formatAmount: real -> string): Db {
    var ps := MapWhere(db.payments, PaymentWithId(paymentId), DisbursedAt(now));
    var updated := db.(payments := ps);
    match Find(ps, PaymentWithId(paymentId))
    case None => updated
    case Some(p) =>
      match CandidateUser(db.users, db.candidates, p.candidateId)
      case None => updated
      case Some(cu) =>
        Post(updated, [Notice(cu.id, PaymentDisbursed,
          "A payment of $" + formatAmount(p.amount) + " from " + p.clientName + " has been disbursed to you.",
          "/candidate/payments")], now)
  }

  // ---------------------------------------------------------------------------
  // Notifications and read-only views
  // ---------------------------------------------------------------------------

  function AfterMarkNotificationAsRead(db: Db, notificationId: string): Db {
    db.(notifications := MapWhere(db.notifications, NotificationWithId(notificationId), MarkedRead()))
  }

  /** `getPaymentsForCandidate`: the disbursed payments of the user's candidate profile, in table order. */
  function PaymentsForCandidate(db: Db, userId: string): (r: seq<Payment>)
    ensures FindCandidateByUserId(db.users, db.candidates, userId).None? ==> r == []
    ensures forall i :: 0 <= i < |r| ==>
      r[i] in db.payments && r[i].status == Disbursed &&
      r[i].candidateId == FindCandidateByUserId(db.users, db.candidates, userId).value.id
    ensures FindCandidateByUserId(db.users, db.candidates, userId).Some? ==>
      forall i :: (0 <= i < |db.payments| && db.payments[i].status == Disbursed &&
                   db.payments[i].candidateId == FindCandidateByUserId(db.users, db.candidates, userId).value.id) ==>
        db.payments[i] in r
    ensures IsSubsequence(r, db.payments)
    ensures forall i :: 0 <= i < |db.payments| ==>
      multiset(r)[db.payments[i]] ==
        if FindCandidateByUserId(db.users, db.candidates, userId).Some? && db.payments[i].status == Disbursed &&
           db.payments[i].candidateId == FindCandidateByUserId(db.users, db.candidates, userId).value.id
        then multiset(db.payments)[db.payments[i]] else 0
  {
    match FindCandidateByUserId(db.users, db.candidates, userId)
    case None => []
    case Some(c) =>
      var shown := (p: Payment) => p.candidateId == c.id && p.status == Disbursed;
      FilterCounts(db.payments, shown);
      Filter(db.payments, shown)
  }

  datatype DashboardStats = DashboardStats(openJobs: nat, totalApplications: nat, activeHires: nat, pendingShortlists: nat)

  /** The ids of an organization's jobs. */
  function OrgJobIds(jobs: seq<Job>, orgId: string): set<string> {
    set j | j in jobs && j.organizationId == orgId :: j.id
  }

  /** `j => j.organizationId === orgId`. */
  function PostedBy(orgId: string): Job -> bool {
    (j: Job) => j.organizationId == orgId
  }

  /** `j => j.organizationId === orgId && j.status === 'Open'`. */
  function OpenJobIn(orgId: string): Job -> bool {
    (j: Job) => j.organizationId == orgId && j.status == Open
  }

  /** `a => orgJobIds.includes(a.jobId)`. */
  function ForJobIn(ids: set<string>): Application -> bool {
    (a: Application) => a.jobId in ids
  }

  /** `c => c.organizationId === orgId && c.status === 'Signed'`. */
  function SignedContractIn(orgId: string): Contract -> bool {
    (c: Contract) => c.organizationId == orgId && c.status == Signed
  }

  /** `r => r.organizationId === orgId && r.status === 'Pending'`. */
  function PendingRequestIn(orgId: string): ShortlistRequest -> bool {
    (r: ShortlistRequest) => r.organizationId == orgId && r.status == Pending
  }

  /** `getClientDashboardStats`. */
  function ClientDashboardStats(db: Db, orgId: string): (r: DashboardStats)
    ensures r.openJobs <= |db.jobs| && r.totalApplications <= |db.applications|
    ensures r.activeHires <= |db.contracts| && r.pendingShortlists <= |db.shortlistRequests|
  {
    var ids := OrgJobIds(db.jobs, orgId);
    DashboardStats(
      |Filter(db.jobs, OpenJobIn(orgId))|,
      |Filter(db.applications, ForJobIn(ids))|,
      |Filter(db.contracts, SignedContractIn(orgId))|,
      |Filter(db.shortlistRequests, PendingRequestIn(orgId))|)
  }
}
