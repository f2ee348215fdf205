/**
 * What the store's operations promise, stated on the tables: notifications go
 * to the front in call order, applications are never duplicated and the
 * posted counts stay exact, contracts are signed client first and signatures
 * never change, payments carry a date exactly when disbursed, and the bulk
 * import never duplicates an email.
 */
module Lifecycle {
  import opened Wrappers
  import opened Text
  import opened Seqs
  import opened Domain
  import opened Tables
  import Modals

  // ---------------------------------------------------------------------------
  // Notifications
  // ---------------------------------------------------------------------------

  /** Sending one more notice puts it in front of the ones sent before, with the next id. */
  lemma BroadcastSnoc(notifications: seq<Notification>, counter: nat, notices: seq<Notice>, n: Notice, now: string)
    ensures Broadcast(notifications, counter, notices + [n], now) ==
            Broadcast(Broadcast(notifications, counter, notices, now), counter + |notices|, [n], now)
  {
    assert (notices + [n])[..|notices|] == notices;
  }

  /** One notice: one unread notification in front, numbered with the counter, which moves on by one. */
  lemma PostOne(db: Db, n: Notice, now: string)
    ensures Post(db, [n], now) ==
      db.(notifications := [Notification(NotificationId(db.notificationCounter), n.userId, n.message, n.link, false, now, n.kind)]
                           + db.notifications,
          notificationCounter := db.notificationCounter + 1)
  {
    assert [n][..0] == [];
    assert Broadcast(db.notifications, db.notificationCounter, [], now) == db.notifications;
    assert Broadcast(db.notifications, db.notificationCounter, [n], now) ==
      [Notification(NotificationId(db.notificationCounter), n.userId, n.message, n.link, false, now, n.kind)]
      + db.notifications;
  }

  /**
   * After a broadcast the new notifications stand in front, newest first,
   * unread, stamped `now` and numbered from the counter; the old list follows
   * unchanged.
   */
  lemma {:induction false} BroadcastShape(notifications: seq<Notification>, counter: nat, notices: seq<Notice>, now: string)
    ensures |Broadcast(notifications, counter, notices, now)| == |notifications| + |notices|
    ensures Broadcast(notifications, counter, notices, now)[|notices|..] == notifications
    ensures forall k :: 0 <= k < |notices| ==>
      Broadcast(notifications, counter, notices, now)[|notices| - 1 - k] ==
      Notification(NotificationId(counter + k), notices[k].userId, notices[k].message, notices[k].link,
                   false, now, notices[k].kind)
    decreases |notices|
  {
    if notices != [] {
      var m := |notices| - 1;
      var b := Broadcast(notifications, counter, notices, now);
      var b' := Broadcast(notifications, counter, notices[..m], now);
      BroadcastShape(notifications, counter, notices[..m], now);
      assert b == [b[0]] + b';
      forall k | 0 <= k < |notices|
        ensures b[|notices| - 1 - k] ==
          Notification(NotificationId(counter + k), notices[k].userId, notices[k].message, notices[k].link,
                       false, now, notices[k].kind)
      {
        if k < m {
          assert b[|notices| - 1 - k] == b'[m - 1 - k];
          assert notices[..m][k] == notices[k];
        }
      }
      assert b[|notices|..] == b'[m..];
    }
  }

  // ---------------------------------------------------------------------------
  // Seed and applications
  // ---------------------------------------------------------------------------

  /** Counting the seeded applications: two for job-1, one for job-2, none for any other job. */
  lemma SeedCount(id: string)
    ensures ApplicationsCount(SeedApplications(), id) == (if id == "job-1" then 2 else if id == "job-2" then 1 else 0)
  {
    var apps := SeedApplications();
    CountAppend([], apps[0], id);
    CountAppend([apps[0]], apps[1], id);
    CountAppend([apps[0], apps[1]], apps[2], id);
    assert [] + [apps[0]] == [apps[0]];
    assert [apps[0]] + [apps[1]] == [apps[0], apps[1]];
    assert [apps[0], apps[1]] + [apps[2]] == apps;
  }

  /** The seeded jobs have distinct ids and their posted counts 2, 1, 0, 0 are the real ones. */
  lemma SeedCountsMatch()
    ensures JobIdsDistinct(SeedJobs())
    ensures CountsMatch(SeedJobs(), SeedApplications())
  {
    var jobs := SeedJobs();
    assert jobs[0].id[4] == '1' && jobs[1].id[4] == '2' && jobs[2].id[4] == '3' && jobs[3].id[4] == '4';
    SeedCount(jobs[0].id);
    SeedCount(jobs[1].id);
    SeedCount(jobs[2].id);
    SeedCount(jobs[3].id);
  }

  /** The seeded tables satisfy the invariant. */
  lemma SeedIsValid(interviewDate: string)
    ensures Invariant(Seed(interviewDate))
  {
    var db := Seed(interviewDate);
    assert db.jobs == SeedJobs() && db.applications == SeedApplications();
    assert db.contracts == [] && db.payments == [];
    SeedCountsMatch();
  }

  /** Appending one application adds one to the count of its job only. */
  lemma CountAppend(apps: seq<Application>, a: Application, jobId: string)
    ensures ApplicationsCount(apps + [a], jobId) == ApplicationsCount(apps, jobId) + (if a.jobId == jobId then 1 else 0)
  {
    assert (apps + [a])[..|apps|] == apps;
  }

  /** Two application lists pairing the same candidates with the same jobs, position by position. */
  predicate SamePairs(a: seq<Application>, b: seq<Application>) {
    |a| == |b| &&
    forall i :: 0 <= i < |a| ==> a[i].candidateId == b[i].candidateId && a[i].jobId == b[i].jobId
  }

  /** Changing anything but the candidate and the job of applications changes no count. */
  lemma {:induction false} SamePairsCounts(a: seq<Application>, b: seq<Application>, jobId: string)
    requires SamePairs(a, b)
    ensures ApplicationsCount(a, jobId) == ApplicationsCount(b, jobId)
    decreases |a|
  {
    if a != [] {
      SamePairsCounts(a[..|a| - 1], b[..|b| - 1], jobId);
    }
  }

  /** ... and keeps the invariant. */
  lemma SamePairsKeepInvariant(db: Db, apps: seq<Application>)
    requires Invariant(db) && SamePairs(db.applications, apps)
    ensures Invariant(db.(applications := apps))
  {
    forall i | 0 <= i < |db.jobs|
      ensures db.jobs[i].applicationsCount == ApplicationsCount(apps, db.jobs[i].id)
    {
      SamePairsCounts(db.applications, apps, db.jobs[i].id);
    }
  }

  /** Sending notifications leaves the invariant alone. */
  lemma PostKeepsInvariant(db: Db, notices: seq<Notice>, now: string)
    requires Invariant(db)
    ensures Invariant(Post(db, notices, now))
  {
  }

  /** Filing a new pair and counting it on its job, if the job is listed, keeps the invariant. */
  lemma CountedKeepsInvariant(db: Db, app: Application, k: Option<nat>)
    requires Invariant(db)
    requires !HasApplied(db.applications, app.candidateId, app.jobId)
    requires k.Some? ==> k.value < |db.jobs| && db.jobs[k.value].id == app.jobId
    requires k.None? ==> forall i :: 0 <= i < |db.jobs| ==> db.jobs[i].id != app.jobId
    ensures Invariant(Counted(db, app, k))
  {
    var apps := db.applications + [app];
    forall i | 0 <= i < |db.jobs|
      ensures ApplicationsCount(apps, db.jobs[i].id) ==
              db.jobs[i].applicationsCount + (if app.jobId == db.jobs[i].id then 1 else 0)
    {
      CountAppend(db.applications, app, db.jobs[i].id);
    }
    assert OneApplicationPerPair(apps);
  }

  /** Filing a new pair keeps the invariant: the pair stays unique and only its job's count grows, by one. */
  lemma FiledKeepsInvariant(db: Db, cand: Candidate, jobId: string, today: string, now: string)
    requires Invariant(db)
    requires !HasApplied(db.applications, cand.id, jobId)
    ensures Invariant(Filed(db, cand, jobId, today, now))
  {
    var k := FindIndex(db.jobs, JobWithId(jobId));
    CountedKeepsInvariant(db, SubmittedApplication(db, cand, jobId, today), k);
  }

  /** `applyForJob` files at most one application per candidate and job and keeps every posted count exact. */
  lemma ApplyPreservesInvariant(db: Db, userId: string, jobId: string, today: string, now: string)
    requires Invariant(db)
    ensures Invariant(AfterApplyForJob(db, userId, jobId, today, now))
  {
    match FindCandidateByUserId(db.users, db.candidates, userId)
    case None =>
    case Some(cand) =>
      if !HasApplied(db.applications, cand.id, jobId) {
        FiledKeepsInvariant(db, cand, jobId, today, now);
      }
  }

  /** Applying twice is applying once: the second call finds the first application. */
  lemma ApplyIdempotent(db: Db, userId: string, jobId: string, today: string, now: string)
    ensures AfterApplyForJob(AfterApplyForJob(db, userId, jobId, today, now), userId, jobId, today, now) ==
            AfterApplyForJob(db, userId, jobId, today, now)
  {
    var after := AfterApplyForJob(db, userId, jobId, today, now);
    match FindCandidateByUserId(db.users, db.candidates, userId)
    case None =>
    case Some(cand) =>
      if !HasApplied(db.applications, cand.id, jobId) {
        assert after.users == db.users && after.candidates == db.candidates;
        var n := |db.applications|;
        assert after.applications[n].candidateId == cand.id && after.applications[n].jobId == jobId;
        assert HasApplied(after.applications, cand.id, jobId);
      }
  }

  /** A user with a profile who has not applied yet ends up with exactly one new application, submitted, for that job. */
  lemma ApplyFiles(db: Db, userId: string, jobId: string, today: string, now: string)
    requires FindCandidateByUserId(db.users, db.candidates, userId).Some?
    requires !HasApplied(db.applications, FindCandidateByUserId(db.users, db.candidates, userId).value.id, jobId)
    ensures var after := AfterApplyForJob(db, userId, jobId, today, now);
      && |after.applications| == |db.applications| + 1
      && after.applications[..|db.applications|] == db.applications
      && after.applications[|db.applications|].status == Submitted
      && HasApplied(after.applications, FindCandidateByUserId(db.users, db.candidates, userId).value.id, jobId)
  {
    var after := AfterApplyForJob(db, userId, jobId, today, now);
    assert after.applications[..|db.applications|] == db.applications;
    var n := |db.applications|;
    assert after.applications[n].jobId == jobId;
  }

  /** Filing counts the application on the first job with that id, if any. */
  lemma FiledCounts(db: Db, cand: Candidate, jobId: string, today: string, now: string, k: Option<nat>)
    requires k == FindIndex(db.jobs, JobWithId(jobId))
    ensures k.None? ==> Filed(db, cand, jobId, today, now).jobs == db.jobs
    ensures k.Some? ==>
      Filed(db, cand, jobId, today, now).jobs ==
      db.jobs[k.value := db.jobs[k.value].(applicationsCount := db.jobs[k.value].applicationsCount + 1)]
  {
    var counted := Counted(db, SubmittedApplication(db, cand, jobId, today), k);
    match k
    case None =>
      assert Filed(db, cand, jobId, today, now) == counted;
    case Some(i) =>
      var job := db.jobs[i];
      var notices := NoticesTo(OrgAdmins(db.users, job.organizationId), NewApplication,
                               cand.name + " applied for " + job.title + ".", "/client/jobs/" + jobId);
      assert Filed(db, cand, jobId, today, now) == Post(counted, notices, now);
      assert Post(counted, notices, now).jobs == counted.jobs;
  }

  /** Filing announces the application to the job's client admins, when the job exists. */
  lemma FiledAnnounces(db: Db, cand: Candidate, jobId: string, today: string, now: string, k: Option<nat>)
    requires k == FindIndex(db.jobs, JobWithId(jobId))
    ensures k.None? ==> Filed(db, cand, jobId, today, now).notifications == db.notifications
    ensures k.Some? ==>
      Filed(db, cand, jobId, today, now).notifications ==
      Broadcast(db.notifications, db.notificationCounter,
                NoticesTo(OrgAdmins(db.users, db.jobs[k.value].organizationId), NewApplication,
                          cand.name + " applied for " + db.jobs[k.value].title + ".", "/client/jobs/" + jobId),
                now)
  {
    var counted := Counted(db, SubmittedApplication(db, cand, jobId, today), k);
    assert counted.notifications == db.notifications && counted.notificationCounter == db.notificationCounter;
    if k.Some? {
      var job := db.jobs[k.value];
      var notices := NoticesTo(OrgAdmins(db.users, job.organizationId), NewApplication,
                               cand.name + " applied for " + job.title + ".", "/client/jobs/" + jobId);
      assert Filed(db, cand, jobId, today, now) == Post(counted, notices, now);
    }
  }

  /**
   * The rest of what applying does. When a job with that id exists, the first
   * one counts one more application and each of its organization's client
   * admins, in table order, gets one notice naming the candidate and the job;
   * when none exists, neither jobs nor notifications change.
   */
  lemma ApplyCountsAndAnnounces(db: Db, userId: string, jobId: string, today: string, now: string,
                                cand: Candidate, k: Option<nat>)
    requires FindCandidateByUserId(db.users, db.candidates, userId) == Some(cand)
    requires !HasApplied(db.applications, cand.id, jobId)
    requires k == FindIndex(db.jobs, JobWithId(jobId))
    ensures k.None? ==> AfterApplyForJob(db, userId, jobId, today, now).jobs == db.jobs &&
                        AfterApplyForJob(db, userId, jobId, today, now).notifications == db.notifications
    ensures k.Some? ==>
      && AfterApplyForJob(db, userId, jobId, today, now).jobs ==
         db.jobs[k.value := db.jobs[k.value].(applicationsCount := db.jobs[k.value].applicationsCount + 1)]
      && AfterApplyForJob(db, userId, jobId, today, now).notifications ==
         Broadcast(db.notifications, db.notificationCounter,
                   NoticesTo(OrgAdmins(db.users, db.jobs[k.value].organizationId), NewApplication,
                             cand.name + " applied for " + db.jobs[k.value].title + ".", "/client/jobs/" + jobId),
                   now)
  {
    assert AfterApplyForJob(db, userId, jobId, today, now) == Filed(db, cand, jobId, today, now);
    FiledCounts(db, cand, jobId, today, now, k);
    FiledAnnounces(db, cand, jobId, today, now, k);
  }

  /** Applying changes only the applications, the jobs and the notifications. */
  lemma ApplyKeepsOtherTables(db: Db, userId: string, jobId: string, today: string, now: string)
    ensures var after := AfterApplyForJob(db, userId, jobId, today, now);
      && after.users == db.users && after.organizations == db.organizations && after.candidates == db.candidates
      && after.interviews == db.interviews && after.shortlistRequests == db.shortlistRequests
      && after.contracts == db.contracts && after.payments == db.payments
  {
    match FindCandidateByUserId(db.users, db.candidates, userId)
    case None =>
    case Some(cand) =>
      if !HasApplied(db.applications, cand.id, jobId) {
        var k := FindIndex(db.jobs, JobWithId(jobId));
        var counted := Counted(db, SubmittedApplication(db, cand, jobId, today), k);
        if k.Some? {
          var job := db.jobs[k.value];
          var notices := NoticesTo(OrgAdmins(db.users, job.organizationId), NewApplication,
                                   cand.name + " applied for " + job.title + ".", "/client/jobs/" + jobId);
          assert Filed(db, cand, jobId, today, now) == Post(counted, notices, now);
        }
      }
  }

  /** Every client admin of the job's organization finds an unread notice of the new application. */
  lemma ApplyNotifiesEachAdmin(db: Db, userId: string, jobId: string, today: string, now: string, admin: User)
    requires FindCandidateByUserId(db.users, db.candidates, userId).Some?
    requires !HasApplied(db.applications, FindCandidateByUserId(db.users, db.candidates, userId).value.id, jobId)
    requires FindIndex(db.jobs, JobWithId(jobId)).Some?
    requires admin in db.users && IsOrgAdmin(admin, db.jobs[FindIndex(db.jobs, JobWithId(jobId)).value].organizationId)
    ensures var after := AfterApplyForJob(db, userId, jobId, today, now);
            var cand := FindCandidateByUserId(db.users, db.candidates, userId).value;
            var job := db.jobs[FindIndex(db.jobs, JobWithId(jobId)).value];
      exists n :: n in after.notifications && n.userId == admin.id && n.kind == NewApplication && !n.isRead &&
                  n.message == cand.name + " applied for " + job.title + "." && n.link == "/client/jobs/" + jobId
  {
    var cand := FindCandidateByUserId(db.users, db.candidates, userId).value;
    var job := db.jobs[FindIndex(db.jobs, JobWithId(jobId)).value];
    var admins := OrgAdmins(db.users, job.organizationId);
    var notices := NoticesTo(admins, NewApplication, cand.name + " applied for " + job.title + ".", "/client/jobs/" + jobId);
    ApplyCountsAndAnnounces(db, userId, jobId, today, now, cand, FindIndex(db.jobs, JobWithId(jobId)));
    var j :| 0 <= j < |db.users| && db.users[j] == admin;
    assert admin in admins;
    var i :| 0 <= i < |admins| && admins[i] == admin;
    BroadcastShape(db.notifications, db.notificationCounter, notices, now);
    var b := Broadcast(db.notifications, db.notificationCounter, notices, now);
    assert b[|notices| - 1 - i] in b;
  }

  /** Setting an application's status: every application with that id gets it, from any status; no other application changes. */
  lemma UpdateStatusSets(db: Db, appId: string, status: ApplicationStatus, now: string)
    ensures var after := AfterUpdateApplicationStatus(db, appId, status, now);
      && |after.applications| == |db.applications|
      && forall i :: 0 <= i < |db.applications| ==>
           after.applications[i] ==
           (if db.applications[i].id == appId then db.applications[i].(status := status) else db.applications[i])
  {
  }

  lemma UpdateStatusPreservesInvariant(db: Db, appId: string, status: ApplicationStatus, now: string)
    requires Invariant(db)
    ensures Invariant(AfterUpdateApplicationStatus(db, appId, status, now))
  {
    var apps := MapWhere(db.applications, ApplicationWithId(appId), StatusSetTo(status));
    SamePairsKeepInvariant(db, apps);
  }

  // ---------------------------------------------------------------------------
  // Interviews
  // ---------------------------------------------------------------------------

  /** A scheduled interview lands in the interview table and in its application's own list. */
  lemma ScheduleLinks(db: Db, applicationId: string, details: InterviewDetails, interviewId: string, now: string)
    ensures var after := AfterScheduleInterview(db, applicationId, details, interviewId, now);
      var iv := ScheduledInterview(applicationId, details, interviewId);
      && after.interviews == db.interviews + [iv]
      && iv.status == Scheduled && iv.applicationId == applicationId
      && (forall k :: FindIndex(db.applications, ApplicationWithId(applicationId)) == Some(k) ==>
            after.applications == db.applications[k := db.applications[k].(interviews := db.applications[k].interviews + [iv])])
  {
  }

  lemma ScheduleInterviewPreservesInvariant(db: Db, applicationId: string, details: InterviewDetails, interviewId: string, now: string)
    requires Invariant(db)
    ensures Invariant(AfterScheduleInterview(db, applicationId, details, interviewId, now))
  {
    match FindIndex(db.applications, ApplicationWithId(applicationId))
    case None =>
    case Some(k) =>
      var app := db.applications[k];
      var iv := ScheduledInterview(applicationId, details, interviewId);
      SamePairsKeepInvariant(db, db.applications[k := app.(interviews := app.interviews + [iv])]);
  }

  /** `{ ...i, ...details, status }` takes the status and each detail the patch carries, and keeps the rest of the interview. */
  lemma InterviewPatchApplied(iv: Interview, status: InterviewStatus, details: Option<InterviewPatch>)
    ensures var u := UpdatedInterview(iv, status, details);
            var patch := if details.Some? then details.value else InterviewPatch(None, None, None, None);
      && u.status == status && u.id == iv.id && u.applicationId == iv.applicationId
      && u.dateTime == (if patch.dateTime.Some? then patch.dateTime.value else iv.dateTime)
      && u.platform == (if patch.platform.Some? then patch.platform.value else iv.platform)
      && u.meetingLink == (if patch.meetingLink.Some? then patch.meetingLink else iv.meetingLink)
      && u.notes == (if patch.notes.Some? then patch.notes else iv.notes)
  {
  }

  /**
   * No interview status is final: `updateInterview` sets the requested status
   * whatever the interview's current one is, and takes each detail the patch
   * carries, keeping the others.
   */
  lemma UpdateInterviewSetsStatus(db: Db, interviewId: string, status: InterviewStatus, details: Option<InterviewPatch>, now: string)
    ensures var after := AfterUpdateInterview(db, interviewId, status, details, now);
      && |after.interviews| == |db.interviews|
      && (forall i :: 0 <= i < |db.interviews| && db.interviews[i].id == interviewId ==>
            after.interviews[i].status == status && after.interviews[i].id == interviewId &&
            after.interviews[i].applicationId == db.interviews[i].applicationId)
      && (forall i :: 0 <= i < |db.interviews| && db.interviews[i].id == interviewId ==>
            var patch := if details.Some? then details.value else InterviewPatch(None, None, None, None);
            && after.interviews[i].dateTime == (if patch.dateTime.Some? then patch.dateTime.value else db.interviews[i].dateTime)
            && after.interviews[i].platform == (if patch.platform.Some? then patch.platform.value else db.interviews[i].platform)
            && after.interviews[i].meetingLink == (if patch.meetingLink.Some? then patch.meetingLink else db.interviews[i].meetingLink)
            && after.interviews[i].notes == (if patch.notes.Some? then patch.notes else db.interviews[i].notes))
      && (forall i :: 0 <= i < |db.interviews| && db.interviews[i].id != interviewId ==>
            after.interviews[i] == db.interviews[i])
      && after.applications == db.applications && after.contracts == db.contracts
  {
    var ivs := AfterUpdateInterview(db, interviewId, status, details, now).interviews;
    assert ivs == MapWhere(db.interviews, InterviewWithId(interviewId), InterviewUpdatedTo(status, details));
    forall i | 0 <= i < |db.interviews| && db.interviews[i].id == interviewId {
      InterviewPatchApplied(db.interviews[i], status, details);
    }
  }

  /** A cancellation marks the interview cancelled by the client and touches nothing else but the notifications. */
  lemma CancelInterviewSetsStatus(db: Db, interviewId: string, now: string)
    ensures var after := AfterCancelInterview(db, interviewId, now);
      && |after.interviews| == |db.interviews|
      && (forall i :: 0 <= i < |db.interviews| ==>
            after.interviews[i] ==
            (if db.interviews[i].id == interviewId then db.interviews[i].(status := CancelledByClient) else db.interviews[i]))
      && after.applications == db.applications && after.jobs == db.jobs
  {
  }

  /** A client's reschedule with new details notifies the candidate only when the interview was still scheduled. */
  lemma RescheduleNoticeNeedsScheduled(db: Db, original: Option<Interview>, app: Application, job: Job,
                                       details: Option<InterviewPatch>)
    requires InterviewUpdateNotices(db.users, db.candidates, original, app, job, Scheduled, details) != []
    ensures details.Some? && original.Some? && original.value.status == Scheduled
    ensures CandidateUser(db.users, db.candidates, app.candidateId).Some?
  {
  }

  /** Interview updates touch no table the invariant constrains, beyond the notifications. */
  lemma UpdateInterviewPreservesInvariant(db: Db, interviewId: string, status: InterviewStatus,
                                          details: Option<InterviewPatch>, now: string)
    requires Invariant(db)
    ensures Invariant(AfterUpdateInterview(db, interviewId, status, details, now))
  {
    var updated := db.(interviews := MapWhere(db.interviews, InterviewWithId(interviewId), InterviewUpdatedTo(status, details)));
    forall notices: seq<Notice> ensures Invariant(Post(updated, notices, now)) {
      PostKeepsInvariant(updated, notices, now);
    }
  }

  lemma CancelInterviewPreservesInvariant(db: Db, interviewId: string, now: string)
    requires Invariant(db)
    ensures Invariant(AfterCancelInterview(db, interviewId, now))
  {
    var updated := db.(interviews := MapWhere(db.interviews, InterviewWithId(interviewId), InterviewCancelled()));
    forall notices: seq<Notice> ensures Invariant(Post(updated, notices, now)) {
      PostKeepsInvariant(updated, notices, now);
    }
  }

  // ---------------------------------------------------------------------------
  // Shortlists
  // ---------------------------------------------------------------------------

  /** Fulfilling a request: it is marked fulfilled with exactly the listed candidates the table holds, in table order. */
  lemma AssignFulfills(db: Db, requestId: string, candidateIds: seq<string>, now: string)
    ensures var after := AfterAssignCandidates(db, requestId, candidateIds, now);
      var chosen := ChosenCandidates(db.candidates, candidateIds);
      && |after.shortlistRequests| == |db.shortlistRequests|
      && (forall i :: 0 <= i < |db.shortlistRequests| && db.shortlistRequests[i].id == requestId ==>
            after.shortlistRequests[i].status == Fulfilled && after.shortlistRequests[i].assignedCandidates == chosen)
      && (forall i :: 0 <= i < |db.shortlistRequests| && db.shortlistRequests[i].id != requestId ==>
            after.shortlistRequests[i] == db.shortlistRequests[i])
      && (forall i :: 0 <= i < |chosen| ==> chosen[i] in db.candidates && chosen[i].id in candidateIds)
      && (forall i :: 0 <= i < |db.candidates| && db.candidates[i].id in candidateIds ==> db.candidates[i] in chosen)
      && IsSubsequence(chosen, db.candidates)
  {
  }

  lemma AssignPreservesInvariant(db: Db, requestId: string, candidateIds: seq<string>, now: string)
    requires Invariant(db)
    ensures Invariant(AfterAssignCandidates(db, requestId, candidateIds, now))
  {
    var chosen := ChosenCandidates(db.candidates, candidateIds);
    var updated := db.(shortlistRequests := MapWhere(db.shortlistRequests, RequestWithId(requestId), FulfilledWith(chosen)));
    forall notices: seq<Notice> ensures Invariant(Post(updated, notices, now)) {
      PostKeepsInvariant(updated, notices, now);
    }
  }

  // ---------------------------------------------------------------------------
  // Contracts
  // ---------------------------------------------------------------------------

  /** A signing step changes the contract exactly when the signer's role may sign in the contract's state. */
  lemma SignChangesIffAllowed(c: Contract, role: Role, signature: string, now: string)
    ensures SignedContract(c, role, signature, now) != c <==> Modals.CanSign(role, c.status)
  {
    if Modals.CanSign(role, c.status) {
      assert SignedContract(c, role, signature, now).status != c.status;
    }
  }

  /** A signing step keeps the signatures consistent and never rewrites a signature already given. */
  lemma SigningKeepsConsistent(c: Contract, role: Role, signature: string, now: string)
    requires SignaturesConsistent(c)
    ensures var s := SignedContract(c, role, signature, now);
      && SignaturesConsistent(s)
      && (c.clientSignature.Some? ==> s.clientSignature == c.clientSignature && s.clientSignedDate == c.clientSignedDate)
      && (c.candidateSignature.Some? ==> s.candidateSignature == c.candidateSignature && s.candidateSignedDate == c.candidateSignedDate)
      && s.content == c.content
  {
  }

  /** One signing attempt: who, with what, when. */
  datatype SignStep = SignStep(role: Role, signature: string, date: string)

  /** The contract after a sequence of signing attempts. */
  function SignAll(c: Contract, steps: seq<SignStep>): Contract {
    if steps == [] then c
    else
      var s := steps[|steps| - 1];
      SignedContract(SignAll(c, steps[..|steps| - 1]), s.role, s.signature, s.date)
  }

  /** Any sequence of signing attempts keeps a consistent contract consistent: a signed contract carries both signatures. */
  lemma {:induction false} SigningRunConsistent(c: Contract, steps: seq<SignStep>)
    requires SignaturesConsistent(c)
    ensures SignaturesConsistent(SignAll(c, steps))
    ensures SignAll(c, steps).status == Signed ==>
      SignAll(c, steps).clientSignature.Some? && SignAll(c, steps).candidateSignature.Some?
  {
    if steps != [] {
      var s := steps[|steps| - 1];
      SigningRunConsistent(c, steps[..|steps| - 1]);
      SigningKeepsConsistent(SignAll(c, steps[..|steps| - 1]), s.role, s.signature, s.date);
    }
  }

  /** A contract waiting for the client reaches the candidate's turn only through a client signing. */
  lemma {:induction false} CandidateTurnNeedsClient(c: Contract, steps: seq<SignStep>)
    requires c.status == PendingClientSignature
    requires SignAll(c, steps).status == PendingCandidateSignature || SignAll(c, steps).status == Signed
    ensures exists i :: 0 <= i < |steps| && IsClientRole(steps[i].role)
  {
    var m := |steps| - 1;
    var before := SignAll(c, steps[..m]);
    var s := steps[m];
    if before.status == PendingCandidateSignature || before.status == Signed {
      CandidateTurnNeedsClient(c, steps[..m]);
      var i :| 0 <= i < m && IsClientRole(steps[..m][i].role);
      assert steps[i] == steps[..m][i];
    } else {
      assert IsClientRole(s.role);
    }
  }

  /** A contract waiting for the client becomes signed only after a client signing followed by a candidate signing. */
  lemma {:induction false} SignedNeedsBothInOrder(c: Contract, steps: seq<SignStep>)
    requires c.status == PendingClientSignature
    requires SignAll(c, steps).status == Signed
    ensures exists i, j :: 0 <= i < j < |steps| && IsClientRole(steps[i].role) && steps[j].role == Role.Candidate
  {
    var m := |steps| - 1;
    var before := SignAll(c, steps[..m]);
    if before.status == Signed {
      SignedNeedsBothInOrder(c, steps[..m]);
      var i, j :| 0 <= i < j < m && IsClientRole(steps[..m][i].role) && steps[..m][j].role == Role.Candidate;
      assert steps[i] == steps[..m][i] && steps[j] == steps[..m][j];
    } else {
      assert before.status == PendingCandidateSignature && steps[m].role == Role.Candidate;
      CandidateTurnNeedsClient(c, steps[..m]);
      var i :| 0 <= i < m && IsClientRole(steps[..m][i].role);
      assert steps[i] == steps[..m][i];
    }
  }

  /**
   * A generated contract waits for the client and carries no signature; it
   * names the job's organization and the application's candidate, as found
   * in their tables.
   */
  lemma GeneratedContractIsFresh(db: Db, applicationId: string, contractId: string, now: string, template: Template)
    requires ContractFor(db, applicationId, contractId, now, template).Some?
    ensures var c := ContractFor(db, applicationId, contractId, now, template).value;
      && c.status == PendingClientSignature && SignaturesConsistent(c)
      && c.id == contractId && c.applicationId == applicationId && c.generatedDate == now
    ensures var c := ContractFor(db, applicationId, contractId, now, template).value;
            var app := Find(db.applications, ApplicationWithId(applicationId)).value;
            var job := Find(db.jobs, JobWithId(app.jobId)).value;
            var cand := Find(db.candidates, CandidateWithId(app.candidateId)).value;
            var org := Find(db.organizations, OrganizationWithId(job.organizationId)).value;
      && c.organizationId == job.organizationId && c.clientName == org.name
      && c.candidateId == app.candidateId && c.candidateName == cand.name && c.jobTitle == job.title
  {
  }

  /** Nothing stops a second contract for the same application. */
  lemma ContractsNotUnique(db: Db, applicationId: string, firstId: string, secondId: string, now: string, template: Template)
    requires ContractFor(db, applicationId, firstId, now, template).Some?
    ensures ContractFor(AfterGenerateContract(db, applicationId, firstId, now, template), applicationId, secondId, now, template).Some?
    ensures |AfterGenerateContract(AfterGenerateContract(db, applicationId, firstId, now, template), applicationId, secondId, now, template).contracts|
            == |db.contracts| + 2
  {
  }

  lemma GeneratePreservesInvariant(db: Db, applicationId: string, contractId: string, now: string, template: Template)
    requires Invariant(db)
    ensures Invariant(AfterGenerateContract(db, applicationId, contractId, now, template))
  {
  }

  lemma SignPreservesInvariant(db: Db, contractId: string, userId: string, signature: string, now: string,
                               candidateUserOf: string -> Option<string>)
    requires Invariant(db)
    ensures Invariant(AfterSignContract(db, contractId, userId, signature, now, candidateUserOf))
  {
    match FindIndex(db.contracts, ContractWithId(contractId))
    case None =>
    case Some(k) =>
      match UserById(db.users, userId)
      case None =>
      case Some(user) =>
        SigningKeepsConsistent(db.contracts[k], user.role, signature, now);
        var signed := SignedAt(db, k, user.role, signature, now);
        assert Invariant(signed);
        PostKeepsInvariant(signed, SigningNotices(db, db.contracts[k], user.role, candidateUserOf), now);
  }

  /**
   * Hiring (setting the application to Hired, then generating the contract)
   * leaves the application hired and a fresh contract for it with the job's
   * title, the organization's name and the candidate's name.
   */
  lemma HireYieldsContract(db: Db, applicationId: string, contractId: string, now: string, template: Template)
    requires ContractFor(db, applicationId, contractId, now, template).Some?
    ensures var hired := AfterUpdateApplicationStatus(db, applicationId, Hired, now);
      var c := ContractFor(db, applicationId, contractId, now, template).value;
      && Find(hired.applications, ApplicationWithId(applicationId)).Some?
      && Find(hired.applications, ApplicationWithId(applicationId)).value.status == Hired
      && ContractFor(hired, applicationId, contractId, now, template) == Some(c)
      && AfterGenerateContract(hired, applicationId, contractId, now, template).contracts == db.contracts + [c]
      && c.status == PendingClientSignature
      && c.candidateId == Find(db.applications, ApplicationWithId(applicationId)).value.candidateId
  {
    var p := ApplicationWithId(applicationId);
    var f := StatusSetTo(Hired);
    MapWhereKeepsFirstMatch(db.applications, p, f);
    var k := FindIndex(db.applications, p).value;
    var hired := AfterUpdateApplicationStatus(db, applicationId, Hired, now);
    assert hired.applications == MapWhere(db.applications, p, f);
    assert Find(hired.applications, p) == Some(db.applications[k].(status := Hired));
  }

  // ---------------------------------------------------------------------------
  // Payments
  // ---------------------------------------------------------------------------

  /**
   * A payment can be recorded against any existing contract, signed or not,
   * and starts pending without a date; it copies the contract's parties.
   */
  lemma PaymentNeedsNoSignature(db: Db, contractId: string, amount: real, notes: Option<string>, paymentId: string, now: string)
    requires Find(db.contracts, ContractWithId(contractId)).Some?
    ensures var c := Find(db.contracts, ContractWithId(contractId)).value;
      var after := AfterInitiatePayment(db, contractId, amount, notes, paymentId, now);
      && after.payments == db.payments + [NewPayment(paymentId, c, amount, notes, now)]
      && NewPayment(paymentId, c, amount, notes, now).status == PendingDisbursement
      && NewPayment(paymentId, c, amount, notes, now).disbursementDate.None?
      && NewPayment(paymentId, c, amount, notes, now).candidateId == c.candidateId
    ensures var c := Find(db.contracts, ContractWithId(contractId)).value;
            var p := NewPayment(paymentId, c, amount, notes, now);
      && p.id == paymentId && p.contractId == contractId && p.organizationId == c.organizationId
      && p.clientName == c.clientName && p.candidateName == c.candidateName
      && p.amount == amount && p.notes == notes && p.paymentDate == now
  {
  }

  lemma InitiatePreservesInvariant(db: Db, contractId: string, amount: real, notes: Option<string>, paymentId: string, now: string)
    requires Invariant(db)
    ensures Invariant(AfterInitiatePayment(db, contractId, amount, notes, paymentId, now))
  {
  }

  /** Disbursing marks every payment with that id disbursed on `now`, even one disbursed before; no other payment changes. */
  lemma DisburseSets(db: Db, paymentId: string, now: string, formatAmount: real -> string)
    ensures var after := AfterDisbursePayment(db, paymentId, now, formatAmount);
      && |after.payments| == |db.payments|
      && (forall i :: 0 <= i < |db.payments| ==>
            after.payments[i] ==
            (if db.payments[i].id == paymentId
             then db.payments[i].(status := Disbursed, disbursementDate := Some(now))
             else db.payments[i]))
  {
  }

  lemma DisbursePreservesInvariant(db: Db, paymentId: string, now: string, formatAmount: real -> string)
    requires Invariant(db)
    ensures Invariant(AfterDisbursePayment(db, paymentId, now, formatAmount))
  {
  }

  // ---------------------------------------------------------------------------
  // Registration and the bulk import
  // ---------------------------------------------------------------------------

  /** Once an email is registered, registering it again in any letter case is refused and changes nothing. */
  lemma RegisterTwiceFails(db: Db, name: string, email: string, role: Role, orgName: Option<string>,
                           name2: string, email2: string, role2: Role, orgName2: Option<string>)
    requires RegisteredUser(db, name, email, role, orgName).Some?
    requires SameIgnoringCase(email, email2)
    ensures var after := AfterRegister(db, name, email, role, orgName);
      && RegisteredUser(after, name2, email2, role2, orgName2) == None
      && AfterRegister(after, name2, email2, role2, orgName2) == after
  {
    var after := AfterRegister(db, name, email, role, orgName);
    var user := RegisteredUser(db, name, email, role, orgName).value;
    assert after.users == db.users + [user];
    assert after.users[|db.users|].email == email;
    assert SameIgnoringCase(after.users[|db.users|].email, email2);
  }

  lemma RegisterPreservesInvariant(db: Db, name: string, email: string, role: Role, orgName: Option<string>)
    requires Invariant(db)
    ensures Invariant(AfterRegister(db, name, email, role, orgName))
  {
  }

  /** Having an email is kept when candidates are added. */
  lemma HasEmailGrows(a: seq<Candidate>, b: seq<Candidate>, email: string)
    ensures HasEmail(a, email) ==> HasEmail(a + b, email)
  {
    if HasEmail(a, email) {
      var i :| 0 <= i < |a| && SameIgnoringCase(a[i].email, email);
      assert (a + b)[i] == a[i];
    }
  }

  /** The import appends at most one candidate per draft, numbered `cand-<stamp>-<n>` from the count so far. */
  lemma {:induction false} ImportedIds(existing: seq<Candidate>, batch: seq<CandidateDraft>, stamp: string, created: nat)
    ensures |Imported(existing, batch, stamp, created)| <= |batch|
    ensures forall i :: 0 <= i < |Imported(existing, batch, stamp, created)| ==>
      Imported(existing, batch, stamp, created)[i].id == "cand-" + stamp + "-" + Decimal(created + i)
    decreases |batch|
  {
    if batch != [] {
      if HasEmail(existing, batch[0].email) {
        ImportedIds(existing, batch[1..], stamp, created);
      } else {
        var c := ImportedCandidate(batch[0], stamp, created);
        ImportedIds(existing + [c], batch[1..], stamp, created + 1);
      }
    }
  }

  /** No candidate of `r` shares an email, ignoring case, with a candidate of `existing` or an earlier one of `r`. */
  ghost predicate FreshAfter(existing: seq<Candidate>, r: seq<Candidate>) {
    forall i :: 0 <= i < |r| ==> !HasEmail(existing + r[..i], r[i].email)
  }

  lemma FreshCons(existing: seq<Candidate>, c: Candidate, r: seq<Candidate>)
    requires !HasEmail(existing, c.email) && FreshAfter(existing + [c], r)
    ensures FreshAfter(existing, [c] + r)
  {
    var r2 := [c] + r;
    forall i | 0 <= i < |r2| ensures !HasEmail(existing + r2[..i], r2[i].email) {
      if i == 0 {
        assert existing + r2[..0] == existing;
      } else {
        assert existing + r2[..i] == (existing + [c]) + r[..i - 1];
        assert r2[i] == r[i - 1];
      }
    }
  }

  /** No imported candidate shares an email, ignoring case, with a candidate before it: neither an existing one nor an earlier import. */
  lemma {:induction false} ImportedFresh(existing: seq<Candidate>, batch: seq<CandidateDraft>, stamp: string, created: nat)
    ensures FreshAfter(existing, Imported(existing, batch, stamp, created))
    decreases |batch|
  {
    if batch != [] {
      if HasEmail(existing, batch[0].email) {
        ImportedFresh(existing, batch[1..], stamp, created);
      } else {
        var c := ImportedCandidate(batch[0], stamp, created);
        ImportedFresh(existing + [c], batch[1..], stamp, created + 1);
        FreshCons(existing, c, Imported(existing + [c], batch[1..], stamp, created + 1));
      }
    }
  }

  /** Hence the imported emails collide with neither the existing ones nor each other. */
  lemma ImportedDistinct(existing: seq<Candidate>, batch: seq<CandidateDraft>, stamp: string, created: nat)
    ensures var r := Imported(existing, batch, stamp, created);
      && (forall i :: 0 <= i < |r| ==> !HasEmail(existing, r[i].email))
      && (forall i, j :: 0 <= i < j < |r| ==> !SameIgnoringCase(r[i].email, r[j].email))
  {
    var r := Imported(existing, batch, stamp, created);
    ImportedFresh(existing, batch, stamp, created);
    forall i | 0 <= i < |r| ensures !HasEmail(existing, r[i].email) {
      assert !HasEmail(existing + r[..i], r[i].email);
      HasEmailGrows(existing, r[..i], r[i].email);
    }
    forall i, j | 0 <= i < j < |r| ensures !SameIgnoringCase(r[i].email, r[j].email) {
      assert !HasEmail(existing + r[..j], r[j].email);
      assert (existing + r[..j])[|existing| + i] == r[i];
    }
  }

  /** After the import every draft's email is present, ignoring case. */
  lemma {:induction false} ImportedCovers(existing: seq<Candidate>, batch: seq<CandidateDraft>, stamp: string, created: nat)
    ensures forall k :: 0 <= k < |batch| ==> HasEmail(existing + Imported(existing, batch, stamp, created), batch[k].email)
    decreases |batch|
  {
    var r := Imported(existing, batch, stamp, created);
    if batch != [] {
      var e' := existing;
      if HasEmail(existing, batch[0].email) {
        ImportedCovers(existing, batch[1..], stamp, created);
        HasEmailGrows(existing, r, batch[0].email);
      } else {
        var c := ImportedCandidate(batch[0], stamp, created);
        e' := existing + [c];
        ImportedCovers(e', batch[1..], stamp, created + 1);
        assert existing + r == e' + Imported(e', batch[1..], stamp, created + 1);
        assert (existing + r)[|existing|] == c;
        assert HasEmail(existing + r, batch[0].email);
      }
      forall k | 1 <= k < |batch| ensures HasEmail(existing + r, batch[k].email) {
        assert batch[k] == batch[1..][k - 1];
      }
    }
  }

  /** Row `j` of the batch is imported: its email is neither in the table nor on an earlier row, ignoring case. */
  predicate RowKept(existing: seq<Candidate>, batch: seq<CandidateDraft>, j: nat)
    requires j < |batch|
  {
    !HasEmail(existing, batch[j].email) && !OnEarlierRow(batch, j, batch[j].email)
  }

  /** One of the first `n` rows carries `email`, ignoring case. */
  predicate OnEarlierRow(batch: seq<CandidateDraft>, n: nat, email: string)
    requires n <= |batch|
  {
    exists i :: 0 <= i < n && SameIgnoringCase(batch[i].email, email)
  }

  lemma OnEarlierRowStep(batch: seq<CandidateDraft>, n: nat, email: string)
    requires 0 < n <= |batch|
    ensures OnEarlierRow(batch, n, email) <==> OnEarlierRow(batch, n - 1, email) || SameIgnoringCase(batch[n - 1].email, email)
  {
    if OnEarlierRow(batch, n, email) {
      var i :| 0 <= i < n && SameIgnoringCase(batch[i].email, email);
      if i < n - 1 {
        assert OnEarlierRow(batch, n - 1, email);
      }
    }
  }

  /** How many of the first `n` rows are imported. */
  function KeptCount(existing: seq<Candidate>, batch: seq<CandidateDraft>, n: nat): nat
    requires n <= |batch|
  {
    if n == 0 then 0
    else KeptCount(existing, batch, n - 1) + (if RowKept(existing, batch, n - 1) then 1 else 0)
  }

  /** Row by row: each kept row becomes a candidate numbered by the rows kept before it. */
  function ImportedRows(existing: seq<Candidate>, batch: seq<CandidateDraft>, stamp: string, created: nat, n: nat): seq<Candidate>
    requires n <= |batch|
  {
    if n == 0 then []
    else
      ImportedRows(existing, batch, stamp, created, n - 1) +
      (if RowKept(existing, batch, n - 1)
       then [ImportedCandidate(batch[n - 1], stamp, created + KeptCount(existing, batch, n - 1))]
       else [])
  }

  /** One more draft at the end of the batch is imported after the others exactly when no email so far matches it. */
  lemma {:induction false} ImportedSnoc(existing: seq<Candidate>, batch: seq<CandidateDraft>, d: CandidateDraft,
                                         stamp: string, created: nat)
    ensures var r := Imported(existing, batch, stamp, created);
      Imported(existing, batch + [d], stamp, created) ==
      r + (if HasEmail(existing + r, d.email) then [] else [ImportedCandidate(d, stamp, created + |r|)])
    decreases |batch|
  {
    if batch == [] {
      assert batch + [d] == [d] && [d][1..] == [];
      assert existing + [] == existing;
    } else {
      var rest := batch[1..];
      assert (batch + [d])[0] == batch[0] && (batch + [d])[1..] == rest + [d];
      if HasEmail(existing, batch[0].email) {
        assert Imported(existing, batch + [d], stamp, created) == Imported(existing, rest + [d], stamp, created);
        ImportedSnoc(existing, rest, d, stamp, created);
      } else {
        ImportedSnoc(existing + [ImportedCandidate(batch[0], stamp, created)], rest, d, stamp, created + 1);
        SnocAfterKept(existing, batch, d, stamp, created);
      }
    }
  }

  /** The step of `ImportedSnoc` where the first draft is kept. */
  lemma SnocAfterKept(existing: seq<Candidate>, batch: seq<CandidateDraft>, d: CandidateDraft, stamp: string, created: nat)
    requires batch != [] && !HasEmail(existing, batch[0].email)
    requires var e := existing + [ImportedCandidate(batch[0], stamp, created)];
      var r' := Imported(e, batch[1..], stamp, created + 1);
      Imported(e, batch[1..] + [d], stamp, created + 1) ==
      r' + (if HasEmail(e + r', d.email) then [] else [ImportedCandidate(d, stamp, created + 1 + |r'|)])
    ensures var r := Imported(existing, batch, stamp, created);
      Imported(existing, batch + [d], stamp, created) ==
      r + (if HasEmail(existing + r, d.email) then [] else [ImportedCandidate(d, stamp, created + |r|)])
  {
    var c := ImportedCandidate(batch[0], stamp, created);
    var e := existing + [c];
    var r' := Imported(e, batch[1..], stamp, created + 1);
    assert (batch + [d])[0] == batch[0] && (batch + [d])[1..] == batch[1..] + [d];
    assert Imported(existing, batch, stamp, created) == [c] + r';
    assert Imported(existing, batch + [d], stamp, created) == [c] + Imported(e, batch[1..] + [d], stamp, created + 1);
    assert existing + ([c] + r') == e + r';
  }

  lemma HasEmailSnoc(a: seq<Candidate>, c: Candidate, email: string)
    ensures HasEmail(a + [c], email) <==> HasEmail(a, email) || SameIgnoringCase(c.email, email)
  {
    if HasEmail(a, email) {
      HasEmailGrows(a, [c], email);
    }
    if SameIgnoringCase(c.email, email) {
      assert (a + [c])[|a|] == c;
    }
    if HasEmail(a + [c], email) {
      var i :| 0 <= i < |a + [c]| && SameIgnoringCase((a + [c])[i].email, email);
      if i < |a| {
        assert (a + [c])[i] == a[i];
      }
    }
  }

  /** After the first `n` rows an email is taken exactly when it is in the table or on one of those rows, ignoring case. */
  lemma {:induction false} EmailsTaken(existing: seq<Candidate>, batch: seq<CandidateDraft>, stamp: string, created: nat,
                                       n: nat, email: string)
    requires n <= |batch|
    ensures HasEmail(existing + ImportedRows(existing, batch, stamp, created, n), email) <==>
      HasEmail(existing, email) || OnEarlierRow(batch, n, email)
  {
    if n == 0 {
      assert existing + [] == existing;
    } else {
      var m := n - 1;
      var r := ImportedRows(existing, batch, stamp, created, m);
      var d := batch[m];
      EmailsTaken(existing, batch, stamp, created, m, email);
      OnEarlierRowStep(batch, n, email);
      if RowKept(existing, batch, m) {
        var c := ImportedCandidate(d, stamp, created + KeptCount(existing, batch, m));
        assert existing + ImportedRows(existing, batch, stamp, created, n) == (existing + r) + [c];
        HasEmailSnoc(existing + r, c, email);
      } else {
        assert existing + ImportedRows(existing, batch, stamp, created, n) == existing + r;
        if SameIgnoringCase(d.email, email) {
          EmailsTaken(existing, batch, stamp, created, m, d.email);
          var k :| 0 <= k < |existing + r| && SameIgnoringCase((existing + r)[k].email, d.email);
          assert SameIgnoringCase((existing + r)[k].email, email);
        }
      }
    }
  }

  /** The first `n` rows import exactly `ImportedRows`, one candidate per kept row. */
  lemma {:induction false} ImportedPrefix(existing: seq<Candidate>, batch: seq<CandidateDraft>, stamp: string, created: nat, n: nat)
    requires n <= |batch|
    ensures Imported(existing, batch[..n], stamp, created) == ImportedRows(existing, batch, stamp, created, n)
    ensures |ImportedRows(existing, batch, stamp, created, n)| == KeptCount(existing, batch, n)
  {
    if n == 0 {
      assert batch[..0] == [];
    } else {
      var m := n - 1;
      ImportedPrefix(existing, batch, stamp, created, m);
      var d := batch[m];
      assert batch[..n] == batch[..m] + [d];
      ImportedSnoc(existing, batch[..m], d, stamp, created);
      EmailsTaken(existing, batch, stamp, created, m, d.email);
    }
  }

  /**
   * The import, row by row: row `j` is imported exactly when its email is
   * neither in the table nor on an earlier row, ignoring case; it then
   * becomes the next candidate, numbered `created` plus the rows imported
   * before it, and otherwise it adds nothing.
   */
  lemma ImportedRow(existing: seq<Candidate>, batch: seq<CandidateDraft>, stamp: string, created: nat, j: nat)
    requires j < |batch|
    ensures Imported(existing, batch, stamp, created) == ImportedRows(existing, batch, stamp, created, |batch|)
    ensures var r := Imported(existing, batch, stamp, created);
      RowKept(existing, batch, j) ==>
        KeptCount(existing, batch, j) < |r| &&
        r[KeptCount(existing, batch, j)] == ImportedCandidate(batch[j], stamp, created + KeptCount(existing, batch, j))
    ensures !RowKept(existing, batch, j) ==> KeptCount(existing, batch, j + 1) == KeptCount(existing, batch, j)
  {
    ImportedPrefix(existing, batch, stamp, created, |batch|);
    assert batch[..|batch|] == batch;
    ImportedPrefix(existing, batch, stamp, created, j);
    RowsGrow(existing, batch, stamp, created, j + 1, |batch|);
    if RowKept(existing, batch, j) {
      var before := ImportedRows(existing, batch, stamp, created, j);
      var c := ImportedCandidate(batch[j], stamp, created + KeptCount(existing, batch, j));
      assert ImportedRows(existing, batch, stamp, created, j + 1) == before + [c];
      assert (before + [c])[|before|] == c;
    }
  }

  /** Later rows only append. */
  lemma {:induction false} RowsGrow(existing: seq<Candidate>, batch: seq<CandidateDraft>, stamp: string, created: nat, n: nat, m: nat)
    requires n <= m <= |batch|
    ensures ImportedRows(existing, batch, stamp, created, n) <= ImportedRows(existing, batch, stamp, created, m)
    decreases m - n
  {
    if n < m {
      RowsGrow(existing, batch, stamp, created, n, m - 1);
    }
  }

  /** The bulk import only appends candidates, which the invariant does not constrain. */
  lemma ImportPreservesInvariant(db: Db, batch: seq<CandidateDraft>, stamp: string)
    requires Invariant(db)
    ensures Invariant(AfterCsvImport(db, batch, stamp))
  {
    var after := AfterCsvImport(db, batch, stamp);
    assert after.jobs == db.jobs && after.applications == db.applications;
  }

  // ---------------------------------------------------------------------------
  // Notifications read and the dashboard
  // ---------------------------------------------------------------------------

  /** Marking a notification read changes its flag and nothing else. */
  lemma MarkReadOnlyThat(db: Db, notificationId: string)
    ensures var after := AfterMarkNotificationAsRead(db, notificationId);
      && |after.notifications| == |db.notifications|
      && (forall i :: 0 <= i < |db.notifications| ==>
            after.notifications[i] ==
            (if db.notifications[i].id == notificationId then db.notifications[i].(isRead := true) else db.notifications[i]))
      && after.(notifications := db.notifications) == db
  {
  }

  lemma MarkReadPreservesInvariant(db: Db, notificationId: string)
    requires Invariant(db)
    ensures Invariant(AfterMarkNotificationAsRead(db, notificationId))
  {
    MarkReadOnlyThat(db, notificationId);
  }

  /** The counts posted on a list of jobs. */
  function PostedCounts(jobs: seq<Job>): int {
    if jobs == [] then 0 else PostedCounts(jobs[..|jobs| - 1]) + jobs[|jobs| - 1].applicationsCount
  }

  /** The number of applications to a list of jobs. */
  function CountedApplications(jobs: seq<Job>, apps: seq<Application>): nat {
    if jobs == [] then 0 else CountedApplications(jobs[..|jobs| - 1], apps) + ApplicationsCount(apps, jobs[|jobs| - 1].id)
  }

  function JobIds(jobs: seq<Job>): set<string> {
    set j | j in jobs :: j.id
  }

  lemma {:induction false} PostedAreCounted(jobs: seq<Job>, all: seq<Job>, apps: seq<Application>)
    requires CountsMatch(all, apps)
    requires forall i :: 0 <= i < |jobs| ==> jobs[i] in all
    ensures PostedCounts(jobs) == CountedApplications(jobs, apps)
  {
    if jobs != [] {
      var m := |jobs| - 1;
      PostedAreCounted(jobs[..m], all, apps);
    }
  }

  /** One more application adds one to the total of a list of distinct jobs exactly when it is for one of them. */
  lemma {:induction false} CountedAppend(jobs: seq<Job>, apps: seq<Application>, a: Application)
    requires JobIdsDistinct(jobs)
    ensures CountedApplications(jobs, apps + [a]) ==
            CountedApplications(jobs, apps) + (if a.jobId in JobIds(jobs) then 1 else 0)
  {
    if jobs != [] {
      var m := |jobs| - 1;
      CountedAppend(jobs[..m], apps, a);
      CountAppend(apps, a, jobs[m].id);
      assert JobIds(jobs) == JobIds(jobs[..m]) + {jobs[m].id} by {
        assert jobs == jobs[..m] + [jobs[m]];
      }
      if a.jobId == jobs[m].id {
        assert a.jobId !in JobIds(jobs[..m]);
      }
    }
  }

  lemma {:induction false} CountedIsFiltered(jobs: seq<Job>, apps: seq<Application>)
    requires JobIdsDistinct(jobs)
    ensures CountedApplications(jobs, apps) == |Filter(apps, ForJobIn(JobIds(jobs)))|
    decreases |apps|
  {
    var p := ForJobIn(JobIds(jobs));
    if apps == [] {
      assert CountedApplications(jobs, []) == 0 by { NoneCounted(jobs); }
    } else {
      var init, last := apps[..|apps| - 1], apps[|apps| - 1];
      assert apps == init + [last];
      CountedIsFiltered(jobs, init);
      CountedAppend(jobs, init, last);
      FilterSnoc(init, last, p);
    }
  }

  lemma {:induction false} NoneCounted(jobs: seq<Job>)
    ensures CountedApplications(jobs, []) == 0
  {
    if jobs != [] { NoneCounted(jobs[..|jobs| - 1]); }
  }

  /** The dashboard's application total is the sum of the counts posted on the organization's jobs. */
  lemma DashboardTotalIsPostedCounts(db: Db, orgId: string)
    requires Invariant(db)
    ensures ClientDashboardStats(db, orgId).totalApplications ==
            PostedCounts(Filter(db.jobs, PostedBy(orgId)))
  {
    var own := Filter(db.jobs, PostedBy(orgId));
    PostedAreCounted(own, db.jobs, db.applications);
    assert JobIdsDistinct(own) by {
      SubsequenceDistinct(own, db.jobs);
    }
    CountedIsFiltered(own, db.applications);
    assert JobIds(own) == OrgJobIds(db.jobs, orgId);
  }

  lemma {:induction false} SubsequenceDistinct(r: seq<Job>, s: seq<Job>)
    requires IsSubsequence(r, s) && JobIdsDistinct(s)
    ensures JobIdsDistinct(r)
    decreases |s|
  {
    if r != [] && s != [] {
      if r[0] == s[0] {
        SubsequenceDistinct(r[1..], s[1..]);
        SubsequenceMembers(r[1..], s[1..]);
        forall j | 0 < j < |r| ensures r[0].id != r[j].id {
          assert r[j] == r[1..][j - 1];
          var k :| 0 <= k < |s[1..]| && s[1..][k] == r[j];
          assert s[k + 1] == r[j];
        }
      } else {
        SubsequenceDistinct(r, s[1..]);
      }
    }
  }

  lemma {:induction false} SubsequenceMembers<T>(r: seq<T>, s: seq<T>)
    requires IsSubsequence(r, s)
    ensures forall i :: 0 <= i < |r| ==> r[i] in s
    decreases |s|
  {
    if r != [] && s != [] {
      if r[0] == s[0] {
        SubsequenceMembers(r[1..], s[1..]);
        forall i | 0 < i < |r| ensures r[i] in s { assert r[i] == r[1..][i - 1]; }
      } else {
        SubsequenceMembers(r, s[1..]);
      }
    }
  }
}
