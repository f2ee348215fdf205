/**
 * The mock back end itself: one mutable sequence per table, and the API
 * operations that push to them, update records in place, reassign them
 * through `map`, and put notifications in front of the notification list.
 * Every operation is proved to leave exactly the tables its `After...`
 * function describes, and to keep the store's invariant.
 */
module MockApi {
  import opened Wrappers
  import opened Text
  import opened Seqs
  import opened Domain
  import opened Tables
  import opened Lifecycle
  import Modals

  class Store {
    var users: seq<User>
    var organizations: seq<Organization>
    var candidates: seq<Candidate>
    var jobs: seq<Job>
    var applications: seq<Application>
    var interviews: seq<Interview>
    var shortlistRequests: seq<ShortlistRequest>
    var contracts: seq<Contract>
    var payments: seq<Payment>
    var notifications: seq<Notification>
    /** How many notifications were created so far; the next one is numbered after it. */
    var notificationCounter: nat
    /** The agreement text `generateContract` fills in; fixed when the store is built. */
    const agreement: Template := Agreement

    /** The current contents of every table. */
    function Tables(): Db
      reads this
    {
      Db(users, organizations, candidates, jobs, applications, interviews,
         shortlistRequests, contracts, payments, notifications, notificationCounter)
    }

    ghost predicate Valid()
      reads this
    {
      Invariant(Tables())
    }

    /** The store as the module loads it, with the seeded records. */
    constructor (interviewDate: string)
      ensures Tables() == Seed(interviewDate)
      ensures Valid()
    {
      var seed := Seed(interviewDate);
      users := seed.users;
      organizations := seed.organizations;
      candidates := seed.candidates;
      jobs := seed.jobs;
      applications := seed.applications;
      interviews := seed.interviews;
      shortlistRequests := seed.shortlistRequests;
      contracts := seed.contracts;
      payments := seed.payments;
      notifications := seed.notifications;
      notificationCounter := seed.notificationCounter;
      new;
      SeedIsValid(interviewDate);
    }

    /** `createNotification`: a new unread notification goes to the front of the list. */
    method CreateNotification(userId: string, kind: NotificationType, message: string, link: string, now: string)
      modifies this
      ensures Tables() == Post(old(Tables()), [Notice(userId, kind, message, link)], now)
    {
      PostOne(Tables(), Notice(userId, kind, message, link), now);
      notifications := [Notification(NotificationId(notificationCounter), userId, message, link, false, now, kind)]
                       + notifications;
      notificationCounter := notificationCounter + 1;
    }

    /** The `forEach` that calls `createNotification` once per recipient, in order. */
    method NotifyEach(recipients: seq<User>, kind: NotificationType, message: string, link: string, now: string)
      modifies this
      ensures Tables() == Post(old(Tables()), NoticesTo(recipients, kind, message, link), now)
    {
      ghost var before := Tables();
      ghost var notices := NoticesTo(recipients, kind, message, link);
      var n := 0;
      while n < |recipients|
        invariant 0 <= n <= |recipients|
        invariant Tables() == Post(before, notices[..n], now)
      {
        CreateNotification(recipients[n].id, kind, message, link, now);
        BroadcastSnoc(before.notifications, before.notificationCounter, notices[..n], notices[n], now);
        assert notices[..n + 1] == notices[..n] + [notices[n]];
        n := n + 1;
      }
      assert notices[..n] == notices;
    }

    /** `register`: the new user, or `None` when the email is taken. */
    method Register(name: string, email: string, role: Role, orgName: Option<string>) returns (user: Option<User>)
      requires Valid()
      modifies this
      ensures Valid()
      ensures user == RegisteredUser(old(Tables()), name, email, role, orgName)
      ensures Tables() == AfterRegister(old(Tables()), name, email, role, orgName)
    {
      ghost var db := Tables();
      if Any(users, UserWithEmailIgnoringCase(email)) {
        return None;
      }
      var newUserId := "user-" + Decimal(|users| + 1);
      var newUser := User(newUserId, name, email, role, None);
      if role == ClientAdmin && orgName.Some? && orgName.value != "" {
        var newOrgId := "org-" + Decimal(|organizations| + 1);
        newUser := newUser.(organizationId := Some(newOrgId));
        organizations := organizations + [Organization(newOrgId, orgName.value, None, Trialing, [newUser])];
      } else if role == Role.Candidate {
        candidates := candidates + [Candidate.Candidate("cand-" + Decimal(|users| + 1), name, email, [], "", "")];
      }
      users := users + [newUser];
      user := Some(newUser);
      RegisterPreservesInvariant(db, name, email, role, orgName);
    }

    /**
     * `createCandidatesFromCsv`: appends each draft whose email is not yet in
     * the table, ignoring case, and returns how many it appended.
     */
    method CreateCandidatesFromCsv(batch: seq<CandidateDraft>, stamp: string) returns (createdCount: nat)
      requires Valid()
      modifies this
      ensures Valid()
      ensures Tables() == AfterCsvImport(old(Tables()), batch, stamp)
      ensures createdCount == |Imported(old(candidates), batch, stamp, 0)|
    {
      ghost var db := Tables();
      createdCount := ImportDrafts(batch, stamp);
      ImportPreservesInvariant(db, batch, stamp);
    }

    /** The loop of `createCandidatesFromCsv`: each draft whose email is new becomes a candidate at the end of the table. */
    method ImportDrafts(batch: seq<CandidateDraft>, stamp: string) returns (createdCount: nat)
      modifies this
      ensures Tables() == AfterCsvImport(old(Tables()), batch, stamp)
      ensures createdCount == |Imported(old(candidates), batch, stamp, 0)|
    {
      var table := candidates;
      createdCount := 0;
      var i := 0;
      while i < |batch|
        invariant 0 <= i <= |batch|
        invariant |table| == |candidates| + createdCount
        invariant table + Imported(table, batch[i..], stamp, createdCount) ==
                  candidates + Imported(candidates, batch, stamp, 0)
      {
        var draft := batch[i];
        assert batch[i..] == [draft] + batch[i + 1..];
        if !HasEmail(table, draft.email) {
          var c := ImportedCandidate(draft, stamp, createdCount);
          var rest := Imported(table + [c], batch[i + 1..], stamp, createdCount + 1);
          assert Imported(table, batch[i..], stamp, createdCount) == [c] + rest;
          assert table + ([c] + rest) == (table + [c]) + rest;
          table := table + [c];
          createdCount := createdCount + 1;
        } else {
          assert Imported(table, batch[i..], stamp, createdCount) ==
                 Imported(table, batch[i + 1..], stamp, createdCount);
        }
        i := i + 1;
      }
      assert batch[i..] == [];
      candidates := table;
    }

    /**
     * `applyForJob`: files a submitted application, counts it on its job and
     * tells each client admin of the job's organization, unless the user has
     * no candidate profile or already applied.
     */
    method ApplyForJob(userId: string, jobId: string, today: string, now: string)
      requires Valid()
      modifies this
      ensures Valid()
      ensures Tables() == AfterApplyForJob(old(Tables()), userId, jobId, today, now)
    {
      var candidate := FindCandidateByUserId(users, candidates, userId);
      if candidate.None? {
        return;
      }
      if HasApplied(applications, candidate.value.id, jobId) {
        return;
      }
      ghost var db := Tables();
      FileApplication(candidate.value, jobId, today, now);
      FiledKeepsInvariant(db, candidate.value, jobId, today, now);
    }

    /** The part of `applyForJob` past its two guards. */
    method FileApplication(cand: Candidate, jobId: string, today: string, now: string)
      requires !HasApplied(applications, cand.id, jobId)
      modifies this
      ensures Tables() == Filed(old(Tables()), cand, jobId, today, now)
    {
      ghost var db := Tables();
      var newApp := Application("app-" + Decimal(|applications| + 1), cand.id, jobId, Submitted, today, []);
      applications := applications + [newApp];
      var k := FindIndex(jobs, JobWithId(jobId));
      if k.Some? {
        var job := jobs[k.value];
        jobs := jobs[k.value := job.(applicationsCount := job.applicationsCount + 1)];
        assert Tables() == Counted(db, newApp, k);
        var orgAdmins := OrgAdmins(users, job.organizationId);
        NotifyEach(orgAdmins, NewApplication, cand.name + " applied for " + job.title + ".", "/client/jobs/" + jobId, now);
      } else {
        assert Tables() == Counted(db, newApp, k);
      }
    }

    /** `updateApplicationStatus`: sets the status and tells the candidate, when both the candidate's account and the job are found. */
    method UpdateApplicationStatus(appId: string, status: ApplicationStatus, now: string)
      requires Valid()
      modifies this
      ensures Valid()
      ensures Tables() == AfterUpdateApplicationStatus(old(Tables()), appId, status, now)
    {
      ghost var db := Tables();
      SetApplicationStatus(appId, status, now);
      UpdateStatusPreservesInvariant(db, appId, status, now);
    }

    /** The steps of `updateApplicationStatus`, apart from the invariant. */
    method SetApplicationStatus(appId: string, status: ApplicationStatus, now: string)
      modifies this
      ensures Tables() == AfterUpdateApplicationStatus(old(Tables()), appId, status, now)
    {
      applications := MapWhere(applications, ApplicationWithId(appId), StatusSetTo(status));
      var app := Find(applications, ApplicationWithId(appId));
      if app.Some? {
        var candidateUser := CandidateUser(users, candidates, app.value.candidateId);
        var job := Find(jobs, JobWithId(app.value.jobId));
        if candidateUser.Some? && job.Some? {
          CreateNotification(candidateUser.value.id, ContractAction,
            "Your application status for " + job.value.title + " was updated to " + ApplicationStatusLabel(status) + ".",
            "/candidate/applications", now);
        }
      }
    }

    /** `scheduleInterview`: records a scheduled interview, links it to its application and tells the candidate. */
    method ScheduleInterview(applicationId: string, details: InterviewDetails, interviewId: string, now: string)
      returns (interview: Interview)
      requires Valid()
      modifies this
      ensures Valid()
      ensures interview == ScheduledInterview(applicationId, details, interviewId)
      ensures interview.status == Scheduled && interview.applicationId == applicationId
      ensures Tables() == AfterScheduleInterview(old(Tables()), applicationId, details, interviewId, now)
    {
      ghost var db := Tables();
      interview := RecordInterview(applicationId, details, interviewId, now);
      ScheduleInterviewPreservesInvariant(db, applicationId, details, interviewId, now);
    }

    /** The steps of `scheduleInterview`, apart from the invariant. */
    method RecordInterview(applicationId: string, details: InterviewDetails, interviewId: string, now: string)
      returns (interview: Interview)
      modifies this
      ensures interview == ScheduledInterview(applicationId, details, interviewId)
      ensures interview.status == Scheduled && interview.applicationId == applicationId
      ensures Tables() == AfterScheduleInterview(old(Tables()), applicationId, details, interviewId, now)
    {
      interview := Interview(interviewId, applicationId, details.dateTime, details.platform,
                             details.meetingLink, details.notes, Scheduled);
      interviews := interviews + [interview];
      var k := FindIndex(applications, ApplicationWithId(applicationId));
      if k.Some? {
        var application := applications[k.value];
        applications := applications[k.value := application.(interviews := application.interviews + [interview])];
        var candidateUser := CandidateUser(users, candidates, application.candidateId);
        var job := Find(jobs, JobWithId(application.jobId));
        if candidateUser.Some? && job.Some? {
          CreateNotification(candidateUser.value.id, InterviewScheduled,
            "You have a new interview for " + job.value.title + " with " + job.value.organizationName + ".",
            "/candidate/interviews", now);
        }
      }
    }

    /** `updateInterview`: sets the status (and the given details) and notifies the other party. */
    method UpdateInterview(interviewId: string, status: InterviewStatus, details: Option<InterviewPatch>, now: string)
      requires Valid()
      modifies this
      ensures Valid()
      ensures Tables() == AfterUpdateInterview(old(Tables()), interviewId, status, details, now)
    {
      ghost var db := Tables();
      RewriteInterview(interviewId, status, details, now);
      UpdateInterviewPreservesInvariant(db, interviewId, status, details, now);
    }

    /** The steps of `updateInterview`, apart from the invariant. */
    method RewriteInterview(interviewId: string, status: InterviewStatus, details: Option<InterviewPatch>, now: string)
      modifies this
      ensures Tables() == AfterUpdateInterview(old(Tables()), interviewId, status, details, now)
    {
      ghost var db := Tables();
      var originalInterview := Find(interviews, InterviewWithId(interviewId));
      interviews := MapWhere(interviews, InterviewWithId(interviewId), InterviewUpdatedTo(status, details));
      ghost var updated := db.(interviews := interviews);
      assert Tables() == updated;
      var interview := Find(interviews, InterviewWithId(interviewId));
      if interview.Some? {
        var app := Find(applications, ApplicationWithId(interview.value.applicationId));
        if app.Some? {
          var job := Find(jobs, JobWithId(app.value.jobId));
          if job.Some? {
            assert AfterUpdateInterview(db, interviewId, status, details, now) ==
                   Post(updated, InterviewUpdateNotices(db.users, db.candidates, originalInterview, app.value, job.value, status, details), now);
            NotifyInterviewUpdate(originalInterview, app.value, job.value, status, details, now);
          }
        }
      }
    }

    /** Whom `updateInterview` tells, once the interview, its application and its job are found. */
    method NotifyInterviewUpdate(originalInterview: Option<Interview>, app: Application, job: Job,
                                 status: InterviewStatus, details: Option<InterviewPatch>, now: string)
      modifies this
      ensures Tables() == Post(old(Tables()),
                               InterviewUpdateNotices(old(users), old(candidates), originalInterview, app, job, status, details),
                               now)
    {
      var clientAdmin := OrgAdmin(users, job.organizationId);
      var candidateUser := CandidateUser(users, candidates, app.candidateId);
      if status == RescheduleRequestedByCandidate && clientAdmin.Some? {
        CreateNotification(clientAdmin.value.id, InterviewScheduled,
          NameOrUndefined(candidateUser) + " requested to reschedule an interview for " + job.title + ".",
          "/client/jobs/" + app.jobId, now);
      } else if status == DeclinedByCandidate && clientAdmin.Some? {
        CreateNotification(clientAdmin.value.id, InterviewScheduled,
          NameOrUndefined(candidateUser) + " declined an interview for " + job.title + ".",
          "/client/jobs/" + app.jobId, now);
      } else if details.Some? && originalInterview.Some? && originalInterview.value.status == Scheduled
                && status == Scheduled && candidateUser.Some? {
        CreateNotification(candidateUser.value.id, InterviewScheduled,
          "Your interview for " + job.title + " has been rescheduled. Please check the new details.",
          "/candidate/interviews", now);
      }
    }

    /** `cancelInterview`: marks the interview cancelled by the client and tells the candidate. */
    method CancelInterview(interviewId: string, now: string)
      requires Valid()
      modifies this
      ensures Valid()
      ensures Tables() == AfterCancelInterview(old(Tables()), interviewId, now)
    {
      ghost var db := Tables();
      MarkInterviewCancelled(interviewId, now);
      CancelInterviewPreservesInvariant(db, interviewId, now);
    }

    /** The steps of `cancelInterview`, apart from the invariant. */
    method MarkInterviewCancelled(interviewId: string, now: string)
      modifies this
      ensures Tables() == AfterCancelInterview(old(Tables()), interviewId, now)
    {
      interviews := MapWhere(interviews, InterviewWithId(interviewId), InterviewCancelled());
      var interview := Find(interviews, InterviewWithId(interviewId));
      if interview.Some? {
        var app := Find(applications, ApplicationWithId(interview.value.applicationId));
        if app.Some? {
          var candidateUser := CandidateUser(users, candidates, app.value.candidateId);
          var job := Find(jobs, JobWithId(app.value.jobId));
          if candidateUser.Some? && job.Some? {
            CreateNotification(candidateUser.value.id, InterviewScheduled,
              "Your interview for " + job.value.title + " has been cancelled by " + job.value.organizationName + ".",
              "/candidate/interviews", now);
          }
        }
      }
    }

    /** `createShortlistRequest`: appends a pending request with no candidates assigned. */
    method CreateShortlistRequest(organizationId: string, projectDetails: ProjectDetails, requestedTeam: seq<TeamMember>,
                                  requestId: string, now: string)
      returns (request: ShortlistRequest)
      requires Valid()
      modifies this
      ensures Valid()
      ensures request == NewShortlistRequest(old(Tables()), organizationId, projectDetails, requestedTeam, requestId, now)
      ensures Tables() == old(Tables()).(shortlistRequests := old(shortlistRequests) + [request])
    {
      var org := Find(organizations, OrganizationWithId(organizationId));
      var organizationName := if org.Some? && org.value.name != "" then org.value.name else "Unknown Org";
      request := ShortlistRequest(requestId, organizationId, organizationName, projectDetails, requestedTeam,
                                  Pending, now, []);
      shortlistRequests := shortlistRequests + [request];
    }

    /** `assignCandidatesToRequest`: fulfils the request with the listed candidates and tells the organization's admin. */
    method AssignCandidatesToRequest(requestId: string, candidateIds: seq<string>, now: string)
      requires Valid()
      modifies this
      ensures Valid()
      ensures Tables() == AfterAssignCandidates(old(Tables()), requestId, candidateIds, now)
    {
      ghost var db := Tables();
      var chosen := ChosenCandidates(candidates, candidateIds);
      shortlistRequests := MapWhere(shortlistRequests, RequestWithId(requestId), FulfilledWith(chosen));
      var request := Find(shortlistRequests, RequestWithId(requestId));
      if request.Some? {
        var orgAdmin := OrgAdmin(users, request.value.organizationId);
        if orgAdmin.Some? {
          CreateNotification(orgAdmin.value.id, ShortlistFulfilled,
            "Your shortlist for \"" + request.value.projectDetails.goal + "\" is ready.", "/client/shortlists", now);
        }
      }
      AssignPreservesInvariant(db, requestId, candidateIds, now);
    }

    /** `generateContract`: the new contract awaiting the client's signature, or `None` when a record it needs is missing. */
    method GenerateContract(applicationId: string, contractId: string, now: string) returns (contract: Option<Contract>)
      requires Valid()
      modifies this
      ensures Valid()
      ensures contract == ContractFor(old(Tables()), applicationId, contractId, now, agreement)
      ensures Tables() == AfterGenerateContract(old(Tables()), applicationId, contractId, now, agreement)
    {
      ghost var db := Tables();
      contract := DraftContract(applicationId, contractId, now, agreement);
      GeneratePreservesInvariant(db, applicationId, contractId, now, agreement);
    }

    /** The steps of `generateContract`, for any agreement text. */
    method DraftContract(applicationId: string, contractId: string, now: string, template: Template)
      returns (contract: Option<Contract>)
      modifies this
      ensures contract == ContractFor(old(Tables()), applicationId, contractId, now, template)
      ensures Tables() == AfterGenerateContract(old(Tables()), applicationId, contractId, now, template)
    {
      var app := Find(applications, ApplicationWithId(applicationId));
      if app.None? {
        return None;
      }
      var job := Find(jobs, JobWithId(app.value.jobId));
      var candidate := Find(candidates, CandidateWithId(app.value.candidateId));
      var org := if job.Some? then Find(organizations, OrganizationWithId(job.value.organizationId)) else None;
      if job.None? || candidate.None? || org.None? {
        return None;
      }
      var content := Fill(template, org.value.name, candidate.value.name, job.value.title, candidate.value.expectedRate);
      var newContract := Contract(contractId, applicationId, org.value.id, candidate.value.id, job.value.title,
                                  org.value.name, candidate.value.name, content, PendingClientSignature, now,
                                  None, None, None, None);
      contracts := contracts + [newContract];
      contract := Some(newContract);
    }

    /**
     * `signContract`: the client signs a contract awaiting the client, the
     * candidate one awaiting the candidate; the other party is told. Any
     * other combination changes nothing.
     */
    method SignContract(contractId: string, userId: string, signature: string, now: string,
                        candidateUserOf: string -> Option<string>)
      requires Valid()
      modifies this
      ensures Valid()
      ensures Tables() == AfterSignContract(old(Tables()), contractId, userId, signature, now, candidateUserOf)
    {
      ghost var db := Tables();
      var k := FindIndex(contracts, ContractWithId(contractId));
      if k.None? {
        return;
      }
      var user := UserById(users, userId);
      if user.None? {
        return;
      }
      var contract := contracts[k.value];
      if IsClientRole(user.value.role) && contract.status == PendingClientSignature {
        contracts := contracts[k.value := contract.(clientSignature := Some(signature), clientSignedDate := Some(now),
                                                    status := PendingCandidateSignature)];
        var candidateUser := candidateUserOf(contract.candidateName);
        if candidateUser.Some? {
          CreateNotification(candidateUser.value, ContractAction,
            contract.clientName + " has signed your contract for " + contract.jobTitle + ".", "/candidate/contracts", now);
        }
      } else if user.value.role == Role.Candidate && contract.status == PendingCandidateSignature {
        contracts := contracts[k.value := contract.(candidateSignature := Some(signature), candidateSignedDate := Some(now),
                                                    status := Signed)];
        var clientAdmin := OrgAdmin(users, contract.organizationId);
        if clientAdmin.Some? {
          CreateNotification(clientAdmin.value.id, ContractAction,
            contract.candidateName + " has signed the contract for " + contract.jobTitle + ". It's official!",
            "/client/contracts", now);
        }
      }
      SignPreservesInvariant(db, contractId, userId, signature, now, candidateUserOf);
    }

    /** `initiatePayment`: records a pending payment against the contract, whatever the contract's status. */
    method InitiatePayment(contractId: string, amount: real, notes: Option<string>, paymentId: string, now: string)
      requires Valid()
      modifies this
      ensures Valid()
      ensures Tables() == AfterInitiatePayment(old(Tables()), contractId, amount, notes, paymentId, now)
    {
      ghost var db := Tables();
      var contract := Find(contracts, ContractWithId(contractId));
      if contract.Some? {
        var c := contract.value;
        payments := payments + [Payment(paymentId, contractId, c.organizationId, c.candidateId, c.clientName,
                                        c.candidateName, amount, notes, now, None, PendingDisbursement)];
      }
      InitiatePreservesInvariant(db, contractId, amount, notes, paymentId, now);
    }

    /**
     * The payment form's submit handler: an amount that does not parse or is
     * not positive is refused with a message and records nothing; otherwise
     * the payment is initiated.
     */
    method SubmitPayment(contractId: string, parsedAmount: Option<real>, notes: Option<string>, paymentId: string, now: string)
      returns (error: Option<string>)
      requires Valid()
      modifies this
      ensures Valid()
      ensures error.Some? <==> parsedAmount.None? || parsedAmount.value <= 0.0
      ensures error.Some? ==> error.value == "Please enter a valid positive amount."
      ensures error.Some? ==> Tables() == old(Tables())
      ensures error.None? ==>
        Tables() == AfterInitiatePayment(old(Tables()), contractId, parsedAmount.value, notes, paymentId, now)
    {
      match Modals.CheckPaymentAmount(parsedAmount)
      case Invalid(message) =>
        error := Some(message);
      case Accepted(amount) =>
        InitiatePayment(contractId, amount, notes, paymentId, now);
        error := None;
    }

    /** `disbursePayment`: marks the payment disbursed, dated `now`, and tells the candidate. */
    method DisbursePayment(paymentId: string, now: string, formatAmount: real -> string)
      requires Valid()
      modifies this
      ensures Valid()
      ensures Tables() == AfterDisbursePayment(old(Tables()), paymentId, now, formatAmount)
    {
      ghost var db := Tables();
      payments := MapWhere(payments, PaymentWithId(paymentId), DisbursedAt(now));
      var payment := Find(payments, PaymentWithId(paymentId));
      if payment.Some? {
        var candidateUser := CandidateUser(users, candidates, payment.value.candidateId);
        if candidateUser.Some? {
          CreateNotification(candidateUser.value.id, PaymentDisbursed,
            "A payment of $" + formatAmount(payment.value.amount) + " from " + payment.value.clientName
            + " has been disbursed to you.", "/candidate/payments", now);
        }
      }
      DisbursePreservesInvariant(db, paymentId, now, formatAmount);
    }

    /** `markNotificationAsRead`. */
    method MarkNotificationAsRead(notificationId: string)
      requires Valid()
      modifies this
      ensures Valid()
      ensures Tables() == AfterMarkNotificationAsRead(old(Tables()), notificationId)
    {
      ghost var db := Tables();
      notifications := MapWhere(notifications, NotificationWithId(notificationId), MarkedRead());
      MarkReadPreservesInvariant(db, notificationId);
    }
  }
}
