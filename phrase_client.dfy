/** The upload-completion poll of src/phrase-client.ts and the guard of
    `removeUnmentionedKeys`. The HTTP calls are abstracted to their replies:
    the status GET of `requestUploadState` answers one `StatusReply` per query,
    and each reply is assumed to arrive before the next timer tick. */
module PhraseClient {
  import opened Wrappers

  /** One reply to the upload-status GET: status 200 with the parsed `state`
      (absent or non-string is `None`), or anything else (another status code
      or a transport error). */
  datatype StatusReply = Ok200(state: Option<string>) | Failed

  /** Why a promise was rejected: a message, the transport error or response
      passed to `reject`, or `reject()` with no argument. */
  datatype Reason = Message(text: string) | Transport | NoReason

  /** A promise as far as it has been observed. */
  datatype Settlement<T> = Pending | Fulfilled(value: T) | Rejected(reason: Reason)

  /** The diagnostics written with `console.warn`. */
  datatype Warning = TimedOut(ms: int) | UploadErrorState

  const UploadIdMissing: string := "uploadId must be truthy"
  const ProjectIdMissing: string := "projectId must be truthy"
  const DefaultInterval: int := 1000
  const DefaultIterations: int := 5

  /** A promise settles once: later `resolve`/`reject` calls are ignored. */
  function Settle<T>(current: Settlement<T>, next: Settlement<T>): Settlement<T>
  {
    if current.Pending? then next else current
  }

  /** The replies that end the poll: state "success", state "error", or a
      failed request. */
  predicate IsTerminal(reply: StatusReply)
  {
    reply.Failed? || reply.state == Some("success") || reply.state == Some("error")
  }

  /** What a terminal reply settles the poll with. */
  function Verdict(reply: StatusReply): Settlement<bool>
    requires IsTerminal(reply)
  {
    if reply.Failed? then Rejected(Transport) else Fulfilled(reply.state == Some("success"))
  }

  /** The number of ticks before the one that times out. */
  function Budget(iterations: int): nat
  {
    if iterations < 0 then 0 else iterations
  }

  /** The state one poll closes over: the `iteration` counter, whether the
      interval timer is still live, the shared promise, how many status GETs
      were sent, and the warnings written. */
  datatype Poll = Poll(iteration: int, timerLive: bool, outcome: Settlement<bool>, queries: nat, warnings: seq<Warning>)

  /** Right after `setInterval`: counter at zero, timer live, nothing sent. */
  const Started: Poll := Poll(0, true, Pending, 0, [])

  /** The timeout branch of a tick: warn, resolve(false), clear the timer. */
  function TimeOut(p: Poll, interval: int, iterations: int): Poll
  {
    p.(warnings := p.warnings + [TimedOut(interval * iterations)],
       outcome := Settle(p.outcome, Fulfilled(false)),
       timerLive := false)
  }

  /** `requestUploadState` sends the GET, then the counter is incremented. */
  function Send(p: Poll): Poll
  {
    p.(queries := p.queries + 1, iteration := p.iteration + 1)
  }

  /** The synchronous part of one tick as written: the budget check does not
      return, so the GET is sent on the timing-out tick as well. */
  function Fire(p: Poll, interval: int, iterations: int): Poll
  {
    Send(if p.iteration >= iterations then TimeOut(p, interval, iterations) else p)
  }

  /** Each tick sends exactly one GET and advances the counter by one; below
      the budget it changes nothing else, at the budget it also resolves
      false, warns and clears the timer. */
  lemma TickSendsOneQuery(p: Poll, interval: int, iterations: int)
    ensures var r := Fire(p, interval, iterations);
            r.queries == p.queries + 1 && r.iteration == p.iteration + 1
            && (p.iteration < iterations ==> r.timerLive == p.timerLive && r.outcome == p.outcome && r.warnings == p.warnings)
            && (p.iteration >= iterations ==>
                  !r.timerLive && r.warnings == p.warnings + [TimedOut(interval * iterations)]
                  && r.outcome == if p.outcome.Pending? then Fulfilled(false) else p.outcome)
  {
  }

  /** The response callback of `requestUploadState`. */
  function HandleReply(p: Poll, reply: StatusReply): (r: Poll)
    ensures r.iteration == p.iteration && r.queries == p.queries
    ensures r.timerLive == (p.timerLive && !IsTerminal(reply))
    ensures !p.outcome.Pending? ==> r.outcome == p.outcome
    ensures p.outcome.Pending? ==> r.outcome == if IsTerminal(reply) then Verdict(reply) else Pending
    ensures r.warnings == p.warnings + if reply == Ok200(Some("error")) then [UploadErrorState] else []
  {
    match reply
    case Ok200(state) =>
      if state == Some("success") then
        p.(outcome := Settle(p.outcome, Fulfilled(true)), timerLive := false)
      else if state == Some("error") then
        p.(warnings := p.warnings + [UploadErrorState],
           outcome := Settle(p.outcome, Fulfilled(false)),
           timerLive := false)
      else
        p
    case Failed =>
      p.(outcome := Settle(p.outcome, Rejected(Transport)), timerLive := false)
  }

  /** Ticks until the timer is cleared. `replies[k]` answers the k-th GET; when
      the replies run out, the last GET sent is still in flight. */
  function Run(p: Poll, replies: seq<StatusReply>, interval: int, iterations: int): Poll
    decreases |replies|
  {
    if !p.timerLive then p
    else
      var sent := Fire(p, interval, iterations);
      if replies == [] then sent
      else Run(HandleReply(sent, replies[0]), replies[1..], interval, iterations)
  }

  /** `ensureUploadSucceeded` as written: the argument guards, then the poll. */
  function PollUpload(projectId: string, uploadId: string, interval: int, iterations: int,
                      replies: seq<StatusReply>): Poll
  {
    if uploadId == "" then Poll(0, false, Rejected(Message(UploadIdMissing)), 0, [])
    else if projectId == "" then Poll(0, false, Rejected(Message(ProjectIdMissing)), 0, [])
    else Run(Started, replies, interval, iterations)
  }

  /** `ensureUploadSucceeded` with its `setInterval` callback unrolled into a
      loop, one iteration per tick. */
  method EnsureUploadSucceeded(projectId: string, uploadId: string, interval: int, iterations: int,
                               replies: seq<StatusReply>)
    returns (outcome: Settlement<bool>, queries: nat, warnings: seq<Warning>, timerLive: bool)
    ensures uploadId == "" ==> outcome == Rejected(Message(UploadIdMissing)) && queries == 0
    ensures uploadId != "" && projectId == "" ==> outcome == Rejected(Message(ProjectIdMissing)) && queries == 0
    ensures queries <= Budget(iterations) + 1
    ensures outcome.Pending? <==> timerLive
    ensures var spec := PollUpload(projectId, uploadId, interval, iterations, replies);
            outcome == spec.outcome && queries == spec.queries && warnings == spec.warnings && timerLive == spec.timerLive
  {
    if uploadId == "" {
      return Rejected(Message(UploadIdMissing)), 0, [], false;
    }
    if projectId == "" {
      return Rejected(Message(ProjectIdMissing)), 0, [], false;
    }
    var iteration := 0;
    outcome, queries, warnings, timerLive := Pending, 0, [], true;
    var k := 0;
    while timerLive
      invariant k <= |replies|
      invariant Run(Poll(iteration, timerLive, outcome, queries, warnings), replies[k..], interval, iterations)
                == Run(Started, replies, interval, iterations)
      decreases |replies| - k
    {
      if iteration >= iterations {
        warnings := warnings + [TimedOut(interval * iterations)];
        if outcome.Pending? {
          outcome := Fulfilled(false);
        }
        timerLive := false;
      }
      queries := queries + 1;
      iteration := iteration + 1;
      if k == |replies| {
        break;
      }
      var reply := replies[k];
      k := k + 1;
      match reply {
        case Ok200(state) =>
          if state == Some("success") {
            if outcome.Pending? {
              outcome := Fulfilled(true);
            }
            timerLive := false;
          }
          if state == Some("error") {
            warnings := warnings + [UploadErrorState];
            if outcome.Pending? {
              outcome := Fulfilled(false);
            }
            timerLive := false;
          }
        case Failed =>
          if outcome.Pending? {
            outcome := Rejected(Transport);
          }
          timerLive := false;
      }
    }
    QueriesBounded(Started, replies, interval, iterations);
    TimerLiveWhilePending(Started, replies, interval, iterations);
  }

  /** A settled poll stays settled with the same value. */
  lemma {:induction false} RunKeepsSettlement(p: Poll, replies: seq<StatusReply>, interval: int, iterations: int)
    requires !p.outcome.Pending?
    ensures Run(p, replies, interval, iterations).outcome == p.outcome
    decreases |replies|
  {
    if p.timerLive && replies != [] {
      RunKeepsSettlement(HandleReply(Fire(p, interval, iterations), replies[0]), replies[1..], interval, iterations);
    }
  }

  /** Every path that settles the promise also clears the timer, and the timer
      is cleared only on such a path. */
  lemma {:induction false} TimerLiveWhilePending(p: Poll, replies: seq<StatusReply>, interval: int, iterations: int)
    requires p.outcome.Pending? <==> p.timerLive
    ensures var r := Run(p, replies, interval, iterations); r.outcome.Pending? <==> r.timerLive
    decreases |replies|
  {
    if p.timerLive && replies != [] {
      TimerLiveWhilePending(HandleReply(Fire(p, interval, iterations), replies[0]), replies[1..], interval, iterations);
    }
  }

  /** The ticks left before the timing-out one. */
  function Remaining(iteration: int, iterations: int): nat
  {
    if iteration >= iterations then 0 else iterations - iteration
  }

  /** At most one GET per remaining tick plus the one sent on the timing-out
      tick. */
  lemma {:induction false} QueriesBounded(p: Poll, replies: seq<StatusReply>, interval: int, iterations: int)
    ensures Run(p, replies, interval, iterations).queries
            <= p.queries + if p.timerLive then Remaining(p.iteration, iterations) + 1 else 0
    decreases |replies|
  {
    if p.timerLive && replies != [] {
      QueriesBounded(HandleReply(Fire(p, interval, iterations), replies[0]), replies[1..], interval, iterations);
    }
  }

  /** Non-terminal replies below the budget keep the poll going; the first
      terminal one decides it after exactly its own GET. */
  lemma {:induction false} RunSettlesAt(p: Poll, replies: seq<StatusReply>, interval: int, iterations: int, t: nat)
    requires p.timerLive && p.outcome.Pending?
    requires t < |replies| && p.iteration + t < iterations
    requires IsTerminal(replies[t]) && forall j :: 0 <= j < t ==> !IsTerminal(replies[j])
    ensures var r := Run(p, replies, interval, iterations);
            r.outcome == Verdict(replies[t]) && r.queries == p.queries + t + 1 && !r.timerLive
    decreases t
  {
    if t > 0 {
      assert !IsTerminal(replies[0]);
      var rest := replies[1..];
      assert forall j :: 0 <= j < t - 1 ==> rest[j] == replies[j + 1];
      RunSettlesAt(HandleReply(Fire(p, interval, iterations), replies[0]), rest, interval, iterations, t - 1);
    }
  }

  /** While only non-terminal replies arrive within the budget, the poll stays
      pending with the timer live and one GET in flight. */
  lemma {:induction false} RunStillPending(p: Poll, replies: seq<StatusReply>, interval: int, iterations: int)
    requires p.timerLive && p.outcome.Pending?
    requires p.iteration + |replies| < iterations
    requires forall j :: 0 <= j < |replies| ==> !IsTerminal(replies[j])
    ensures var r := Run(p, replies, interval, iterations);
            r.outcome.Pending? && r.timerLive && r.queries == p.queries + |replies| + 1 && r.warnings == p.warnings
    decreases |replies|
  {
    if replies != [] {
      assert !IsTerminal(replies[0]);
      RunStillPending(HandleReply(Fire(p, interval, iterations), replies[0]), replies[1..], interval, iterations);
    }
  }

  /** After `n` non-terminal replies the counter reaches the budget: that tick
      resolves false, warns with `interval * iterations`, and still sends one
      more GET, whose reply can add a warning but not change the outcome. */
  lemma {:induction false} RunTimesOut(p: Poll, replies: seq<StatusReply>, interval: int, iterations: int, n: nat)
    requires p.timerLive && p.outcome.Pending?
    requires n == Remaining(p.iteration, iterations) && n <= |replies|
    requires forall j :: 0 <= j < n ==> !IsTerminal(replies[j])
    ensures var r := Run(p, replies, interval, iterations);
            r.outcome == Fulfilled(false) && !r.timerLive && r.queries == p.queries + n + 1
            && r.warnings == p.warnings + [TimedOut(interval * iterations)]
                             + if n < |replies| && replies[n] == Ok200(Some("error")) then [UploadErrorState] else []
    decreases n
  {
    if n > 0 {
      assert !IsTerminal(replies[0]);
      var rest := replies[1..];
      assert forall j :: 0 <= j < n - 1 ==> rest[j] == replies[j + 1];
      RunTimesOut(HandleReply(Fire(p, interval, iterations), replies[0]), rest, interval, iterations, n - 1);
    }
  }

  /** A success (or error, or failed request) on the k-th GET within the
      budget settles the poll after exactly k GETs and stops the timer. */
  lemma PollSettlesAt(projectId: string, uploadId: string, interval: int, iterations: int,
                      replies: seq<StatusReply>, t: nat)
    requires projectId != "" && uploadId != ""
    requires t < |replies| && t < iterations
    requires IsTerminal(replies[t]) && forall j :: 0 <= j < t ==> !IsTerminal(replies[j])
    ensures var r := PollUpload(projectId, uploadId, interval, iterations, replies);
            r.outcome == Verdict(replies[t]) && r.queries == t + 1 && !r.timerLive
  {
    RunSettlesAt(Started, replies, interval, iterations, t);
  }

  /** Non-terminal replies to fewer GETs than the budget leave the poll
      pending. */
  lemma PollStillPending(projectId: string, uploadId: string, interval: int, iterations: int,
                         replies: seq<StatusReply>)
    requires projectId != "" && uploadId != ""
    requires |replies| < iterations
    requires forall j :: 0 <= j < |replies| ==> !IsTerminal(replies[j])
    ensures var r := PollUpload(projectId, uploadId, interval, iterations, replies);
            r.outcome.Pending? && r.timerLive && r.queries == |replies| + 1 && r.warnings == []
  {
    RunStillPending(Started, replies, interval, iterations);
  }

  /** A timed-out poll resolves false having sent `iterations + 1` GETs. */
  lemma PollTimesOut(projectId: string, uploadId: string, interval: int, iterations: int,
                     replies: seq<StatusReply>)
    requires projectId != "" && uploadId != ""
    requires Budget(iterations) <= |replies|
    requires forall j :: 0 <= j < Budget(iterations) ==> !IsTerminal(replies[j])
    ensures var r := PollUpload(projectId, uploadId, interval, iterations, replies);
            r.outcome == Fulfilled(false) && !r.timerLive && r.queries == Budget(iterations) + 1
            && TimedOut(interval * iterations) in r.warnings
  {
    RunTimesOut(Started, replies, interval, iterations, Budget(iterations));
  }

  /** The reply to the GET sent on the timing-out tick cannot change the
      settled result. */
  lemma TimeoutReplyIgnored(projectId: string, uploadId: string, interval: int, iterations: int,
                            replies: seq<StatusReply>, late: StatusReply)
    requires projectId != "" && uploadId != ""
    requires |replies| == Budget(iterations)
    requires forall j :: 0 <= j < |replies| ==> !IsTerminal(replies[j])
    ensures var r := PollUpload(projectId, uploadId, interval, iterations, replies + [late]);
            r.outcome == PollUpload(projectId, uploadId, interval, iterations, replies).outcome == Fulfilled(false)
            && r.queries == PollUpload(projectId, uploadId, interval, iterations, replies).queries
  {
    var longer := replies + [late];
    assert forall j :: 0 <= j < |replies| ==> longer[j] == replies[j];
    RunTimesOut(Started, replies, interval, iterations, Budget(iterations));
    RunTimesOut(Started, longer, interval, iterations, Budget(iterations));
  }

  /** The abstract answer to the DELETE of unmentioned keys. */
  datatype DeleteReply = Deleted(body: string) | DeleteFailed

  /** What `removeUnmentionedKeys` has done: its promise, the status GETs of
      the poll it awaited, and whether the DELETE was sent. */
  datatype Removal = Removal(outcome: Settlement<string>, pollQueries: nat, deleteIssued: bool)

  /** The DELETE callback: resolve with the body, or reject; ignored once the
      promise has settled. `None` is a DELETE still in flight. */
  function AfterDelete(current: Settlement<string>, deleteReply: Option<DeleteReply>): (r: Settlement<string>)
    ensures !current.Pending? ==> r == current
    ensures current.Pending? && deleteReply.Some? ==> !r.Pending?
    ensures deleteReply.None? ==> r == current
  {
    match deleteReply
    case None => current
    case Some(Deleted(body)) => Settle(current, Fulfilled(body))
    case Some(DeleteFailed) => Settle(current, Rejected(Transport))
  }

  /** `removeUnmentionedKeys` as written: with the default interval and
      iteration count it awaits the poll; a failed upload rejects, but the
      DELETE is sent anyway because nothing returns after `reject()`. */
  function RemoveUnmentioned(projectId: string, uploadId: string, replies: seq<StatusReply>,
                             deleteReply: Option<DeleteReply>): Removal
  {
    if uploadId == "" then Removal(Rejected(Message(UploadIdMissing)), 0, false)
    else
      var poll := PollUpload(projectId, uploadId, DefaultInterval, DefaultIterations, replies);
      match poll.outcome
      case Pending => Removal(Pending, poll.queries, false)
      case Rejected(why) => Removal(Rejected(why), poll.queries, false)
      case Fulfilled(succeeded) =>
        var guarded: Settlement<string> := if succeeded then Pending else Rejected(NoReason);
        Removal(AfterDelete(guarded, deleteReply), poll.queries, true)
  }

  /** `removeUnmentionedKeys`, calling the poll method. */
  method RemoveUnmentionedKeys(projectId: string, uploadId: string, replies: seq<StatusReply>,
                               deleteReply: Option<DeleteReply>)
    returns (outcome: Settlement<string>, pollQueries: nat, deleteIssued: bool)
    ensures uploadId == "" ==> outcome == Rejected(Message(UploadIdMissing)) && pollQueries == 0 && !deleteIssued
    ensures deleteIssued <==> uploadId != "" && PollUpload(projectId, uploadId, DefaultInterval, DefaultIterations, replies).outcome.Fulfilled?
    ensures uploadId != "" && PollUpload(projectId, uploadId, DefaultInterval, DefaultIterations, replies).outcome == Fulfilled(false)
            ==> outcome == Rejected(NoReason)
    ensures uploadId != "" && PollUpload(projectId, uploadId, DefaultInterval, DefaultIterations, replies).outcome.Rejected?
            ==> outcome == Rejected(PollUpload(projectId, uploadId, DefaultInterval, DefaultIterations, replies).outcome.reason)
    ensures uploadId != "" && PollUpload(projectId, uploadId, DefaultInterval, DefaultIterations, replies).outcome.Pending?
            ==> outcome.Pending?
    ensures uploadId != "" && PollUpload(projectId, uploadId, DefaultInterval, DefaultIterations, replies).outcome == Fulfilled(true)
            ==> outcome == match deleteReply
                           case None => Pending
                           case Some(Deleted(body)) => Fulfilled(body)
                           case Some(DeleteFailed) => Rejected(Transport)
    ensures Removal(outcome, pollQueries, deleteIssued) == RemoveUnmentioned(projectId, uploadId, replies, deleteReply)
  {
    if uploadId == "" {
      return Rejected(Message(UploadIdMissing)), 0, false;
    }
    var polled, queries, warnings, timerLive := EnsureUploadSucceeded(projectId, uploadId, DefaultInterval, DefaultIterations, replies);
    pollQueries := queries;
    deleteIssued := false;
    match polled {
      case Pending =>
        outcome := Pending;
      case Rejected(why) =>
        outcome := Rejected(why);
      case Fulfilled(succeeded) =>
        outcome := Pending;
        if !succeeded {
          outcome := Rejected(NoReason);
        }
        deleteIssued := true;
        match deleteReply {
          case None =>
          case Some(Deleted(body)) =>
            if outcome.Pending? {
              outcome := Fulfilled(body);
            }
          case Some(DeleteFailed) =>
            if outcome.Pending? {
              outcome := Rejected(Transport);
            }
        }
    }
  }

  // Corrected behaviour, for the discrepancies listed in the README.

  /** The poll with a `return` after the timeout branch: the timing-out tick
      sends no GET. */
  function RunFixed(p: Poll, replies: seq<StatusReply>, interval: int, iterations: int): Poll
    decreases |replies|
  {
    if !p.timerLive then p
    else if p.iteration >= iterations then TimeOut(p, interval, iterations)
    else
      var sent := Send(p);
      if replies == [] then sent
      else RunFixed(HandleReply(sent, replies[0]), replies[1..], interval, iterations)
  }

  function PollUploadFixed(projectId: string, uploadId: string, interval: int, iterations: int,
                           replies: seq<StatusReply>): Poll
  {
    if uploadId == "" then Poll(0, false, Rejected(Message(UploadIdMissing)), 0, [])
    else if projectId == "" then Poll(0, false, Rejected(Message(ProjectIdMissing)), 0, [])
    else RunFixed(Started, replies, interval, iterations)
  }

  lemma {:induction false} RunFixedSameOutcome(p: Poll, replies: seq<StatusReply>, interval: int, iterations: int)
    ensures RunFixed(p, replies, interval, iterations).outcome == Run(p, replies, interval, iterations).outcome
    ensures RunFixed(p, replies, interval, iterations).queries
            <= p.queries + if p.timerLive then Remaining(p.iteration, iterations) else 0
    decreases |replies|
  {
    if p.timerLive && p.iteration < iterations && replies != [] {
      RunFixedSameOutcome(HandleReply(Send(p), replies[0]), replies[1..], interval, iterations);
    }
  }

  /** The corrected poll settles exactly as the written one, and never sends
      more than `iterations` GETs. */
  lemma PollFixedAgrees(projectId: string, uploadId: string, interval: int, iterations: int,
                        replies: seq<StatusReply>)
    ensures var r := PollUploadFixed(projectId, uploadId, interval, iterations, replies);
            r.outcome == PollUpload(projectId, uploadId, interval, iterations, replies).outcome
            && r.queries <= Budget(iterations)
  {
    if projectId != "" && uploadId != "" {
      RunFixedSameOutcome(Started, replies, interval, iterations);
    }
  }

  /** As written, the timing-out tick sends an extra GET: with a budget of 3
      and three pending replies, a fourth GET goes out. */
  lemma TimeoutExtraQuery()
    ensures var pending := [Ok200(Some("pending")), Ok200(Some("pending")), Ok200(Some("pending"))];
            var r := PollUpload("P1", "U1", 10, 3, pending);
            r.outcome == Fulfilled(false) && r.queries == 4 && r.warnings == [TimedOut(30)]
            && PollUploadFixed("P1", "U1", 10, 3, pending).queries == 3
  {
  }

  /** `removeUnmentionedKeys` with a `return` after `reject()`. */
  function RemoveUnmentionedFixed(projectId: string, uploadId: string, replies: seq<StatusReply>,
                                  deleteReply: Option<DeleteReply>): Removal
  {
    if uploadId == "" then Removal(Rejected(Message(UploadIdMissing)), 0, false)
    else
      var poll := PollUploadFixed(projectId, uploadId, DefaultInterval, DefaultIterations, replies);
      match poll.outcome
      case Pending => Removal(Pending, poll.queries, false)
      case Rejected(why) => Removal(Rejected(why), poll.queries, false)
      case Fulfilled(succeeded) =>
        if succeeded then Removal(AfterDelete(Pending, deleteReply), poll.queries, true)
        else Removal(Rejected(NoReason), poll.queries, false)
  }

  /** Corrected: the keys are deleted only after a successful upload, and the
      promise settles as the written one does. */
  lemma RemoveFixedDeletesOnlyAfterSuccess(projectId: string, uploadId: string, replies: seq<StatusReply>,
                                          deleteReply: Option<DeleteReply>)
    ensures var r := RemoveUnmentionedFixed(projectId, uploadId, replies, deleteReply);
            (r.deleteIssued <==> uploadId != "" && PollUpload(projectId, uploadId, DefaultInterval, DefaultIterations, replies).outcome == Fulfilled(true))
            && r.outcome == RemoveUnmentioned(projectId, uploadId, replies, deleteReply).outcome
  {
    PollFixedAgrees(projectId, uploadId, DefaultInterval, DefaultIterations, replies);
  }

  /** As written, an upload whose status is "error" rejects the removal and
      still sends the DELETE. */
  lemma RemoveAfterFailedUpload(deleteReply: Option<DeleteReply>)
    ensures var r := RemoveUnmentioned("P1", "U1", [Ok200(Some("error"))], deleteReply);
            r.outcome == Rejected(NoReason) && r.deleteIssued && r.pollQueries == 1
            && !RemoveUnmentionedFixed("P1", "U1", [Ok200(Some("error"))], deleteReply).deleteIssued
  {
  }
}
