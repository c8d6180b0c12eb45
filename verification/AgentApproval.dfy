/**
  Deciding on the actions an agent asks for, resuming its run and executing the approved tools
  (app/agent_conversations.py, app/agent_runtime.py), one transaction after the other.

  A run's outcome is fixed: the workflow records it before it is persisted, so `plan(r)` is the outcome of
  run r whenever `persist_agent_run_outcome` is called for it.
 */
module AgentApproval {
  import opened Common

  type Id = nat

  datatype ConversationStatus = Active | WaitingApproval | Completed | Failed
  datatype RunStatus = RQueued | RRunning | RWaiting | RCompleted | RFailed
  datatype RequestStatus = Pending | Approved | Rejected | Executed
  datatype ExecutionStatus = ERunning | ECompleted | EFailed

  datatype Run = Run(turn: Id, sequence: nat, deferredFrom: Option<Id>, status: RunStatus)
  datatype Request = Request(run: Id, call: string, status: RequestStatus)
  datatype Decision = Decision(request: Id, approve: bool)
  datatype Execution = Execution(run: Id, request: Option<Id>, call: string, status: ExecutionStatus)

  // An operation that was committed, and the request that asked for it.
  datatype Effect = Effect(run: Id, call: string, request: Option<Id>)

  datatype Outcome = Waiting(calls: seq<string>) | Finished

  type Plan = Id -> Outcome

  datatype State = State(
    conversations: map<Id, ConversationStatus>,
    turns: map<Id, Id>,                // turn -> its conversation
    runs: map<Id, Run>,
    requests: map<Id, Request>,
    decisions: seq<Decision>,
    executions: map<Id, Execution>,
    effects: seq<Effect>)

  const EMPTY := State(map[], map[], map[], map[], [], map[], [])

  // How a tool execution ends: not begun, lost after its row was committed, failed, lost before the second
  // commit, or committed.
  datatype Ending = NotBegun | LostAfterStart | OperationFailed | LostBeforeCommit | Done

  // ---------------------------------------------------------------- transactions

  function SetConversation(s: State, turn: Id, status: ConversationStatus): State {
    if turn in s.turns then s.(conversations := s.conversations[s.turns[turn] := status]) else s
  }

  function NewConversation(s: State, c: Id): State {
    if c in s.conversations then s else s.(conversations := s.conversations[c := Active])
  }

  // create_turn
  function CreateTurn(s: State, c: Id, turn: Id, run: Id): State {
    if c in s.conversations && (s.conversations[c] == Active || s.conversations[c] == Completed) && turn !in s.turns && run !in s.runs then
      s.(turns := s.turns[turn := c], runs := s.runs[run := Run(turn, 1, None, RQueued)], conversations := s.conversations[c := Active])
    else s
  }

  predicate DistinctSeq<T(==)>(values: seq<T>) {
    forall i, j :: 0 <= i < j < |values| ==> values[i] != values[j]
  }

  // The unique constraint on (agent_run_id, tool_call_id).
  predicate CallsFree(requests: map<Id, Request>, r: Id, calls: seq<string>) {
    DistinctSeq(calls) && forall q :: q in requests && requests[q].run == r ==> requests[q].call !in calls
  }

  function AddRequests(requests: map<Id, Request>, r: Id, calls: seq<string>, ids: seq<Id>): map<Id, Request>
    requires |ids| == |calls|
  {
    if calls == [] then requests
    else AddRequests(requests, r, calls[..|calls| - 1], ids[..|ids| - 1])[ids[|ids| - 1] := Request(r, calls[|calls| - 1], Pending)]
  }

  predicate FreshIds(requests: map<Id, Request>, ids: seq<Id>) {
    DistinctSeq(ids) && forall k :: 0 <= k < |ids| ==> ids[k] !in requests
  }

  // persist_agent_run_outcome
  function Persist(s: State, r: Id, outcome: Outcome, ids: seq<Id>): State {
    if r !in s.runs then s
    else match outcome
      case Finished => SetConversation(s.(runs := s.runs[r := s.runs[r].(status := RCompleted)]), s.runs[r].turn, Completed)
      case Waiting(calls) =>
        if calls == [] || !CallsFree(s.requests, r, calls) || |ids| != |calls| || !FreshIds(s.requests, ids) then s
        else SetConversation(s.(runs := s.runs[r := s.runs[r].(status := RWaiting)], requests := AddRequests(s.requests, r, calls, ids)),
                             s.runs[r].turn, WaitingApproval)
  }

  predicate IsDecided(decisions: seq<Decision>, q: Id) {
    exists k :: 0 <= k < |decisions| && decisions[k].request == q
  }

  predicate IsApproved(decisions: seq<Decision>, q: Id) {
    exists k :: 0 <= k < |decisions| && decisions[k].request == q && decisions[k].approve
  }

  predicate PendingIn(requests: map<Id, Request>, r: Id) {
    exists q :: q in requests && requests[q].run == r && requests[q].status == Pending
  }

  predicate ResumedFrom(runs: map<Id, Run>, r: Id) {
    exists t :: t in runs && runs[t].deferredFrom == Some(r)
  }

  // The unique constraint on (turn_id, sequence).
  predicate PlaceTaken(runs: map<Id, Run>, turn: Id, sequence: nat) {
    exists t :: t in runs && runs[t].turn == turn && runs[t].sequence == sequence
  }

  function Resume(s: State, r: Id, t: Id): State
    requires r in s.runs
  {
    SetConversation(s.(runs := s.runs[t := Run(s.runs[r].turn, s.runs[r].sequence + 1, Some(r), RQueued)]), s.runs[r].turn, Active)
  }

  function WithDecision(s: State, q: Id, approve: bool): State
    requires q in s.requests
  {
    s.(decisions := s.decisions + [Decision(q, approve)],
       requests := s.requests[q := s.requests[q].(status := if approve then Approved else Rejected)])
  }

  predicate CanDecide(s: State, q: Id) {
    q in s.requests && s.requests[q].status == Pending && !IsDecided(s.decisions, q)
  }

  // The decision is the last one of its run, which is not resumed yet.
  predicate CompletesRun(s: State, q: Id, approve: bool)
    requires q in s.requests
  {
    !PendingIn(WithDecision(s, q, approve).requests, s.requests[q].run) && !ResumedFrom(s.runs, s.requests[q].run)
  }

  // decide_action
  function Decide(s: State, q: Id, approve: bool, t: Id): State {
    if !CanDecide(s, q) || s.requests[q].run !in s.runs then s
    else
      var r := s.requests[q].run;
      if !CompletesRun(s, q, approve) then WithDecision(s, q, approve)
      else if t in s.runs || PlaceTaken(s.runs, s.runs[r].turn, s.runs[r].sequence + 1) then s
      else Resume(WithDecision(s, q, approve), r, t)
  }

  // _linked_action_request: the request q that a tool call of run r was deferred for
  predicate IsLinked(s: State, r: Id, call: string, q: Option<Id>) {
    && r in s.runs
    && match q
       case Some(q) => s.runs[r].deferredFrom.Some? && q in s.requests && s.requests[q].run == s.runs[r].deferredFrom.value && s.requests[q].call == call
       case None => s.runs[r].deferredFrom.Some? ==>
         forall q :: q in s.requests && s.requests[q].run == s.runs[r].deferredFrom.value ==> s.requests[q].call != call
  }

  // The approval that _record_tool asks for; a call that was not deferred needs none.
  predicate Permitted(s: State, q: Option<Id>) {
    q.Some? ==> q.value in s.requests && s.requests[q.value].status == Approved && IsApproved(s.decisions, q.value)
  }

  function WithExecution(s: State, e: Id, r: Id, q: Option<Id>, call: string, status: ExecutionStatus): State {
    s.(executions := s.executions[e := Execution(r, q, call, status)])
  }

  // _record_tool
  function Execute(s: State, r: Id, call: string, q: Option<Id>, e: Id, ending: Ending): State {
    if !IsLinked(s, r, call, q) || !Permitted(s, q) || e in s.executions || ending == NotBegun then s
    else match ending
      case LostAfterStart => WithExecution(s, e, r, q, call, ERunning)
      case LostBeforeCommit => WithExecution(s, e, r, q, call, ERunning)
      case OperationFailed => WithExecution(s, e, r, q, call, EFailed)
      case _ =>
        var after := WithExecution(s, e, r, q, call, ECompleted).(effects := s.effects + [Effect(r, call, q)]);
        if q.Some? then after.(requests := s.requests[q.value := s.requests[q.value].(status := Executed)]) else after
  }

  // A request of the run that this one resumes has no decision, which prepare_agent_run reports as an error.
  predicate Incomplete(s: State, r: Id) {
    r in s.runs && s.runs[r].deferredFrom.Some?
    && exists q :: q in s.requests && s.requests[q].run == s.runs[r].deferredFrom.value && !IsDecided(s.decisions, q)
  }

  // prepare_agent_run
  function Prepare(s: State, r: Id): State {
    if r !in s.runs || s.runs[r].status == RCompleted || Incomplete(s, r) then s
    else SetConversation(s.(runs := s.runs[r := s.runs[r].(status := RRunning)]), s.runs[r].turn, Active)
  }

  // fail_agent_run
  function FailRun(s: State, r: Id): State {
    if r !in s.runs then s
    else SetConversation(s.(runs := s.runs[r := s.runs[r].(status := RFailed)]), s.runs[r].turn, Failed)
  }

  datatype Step =
    | SConversation(c: Id) | STurn(c: Id, turn: Id, run: Id) | SPersist(r: Id, ids: seq<Id>) | SDecide(q: Id, approve: bool, t: Id)
    | SExecute(r: Id, call: string, linked: Option<Id>, e: Id, ending: Ending) | SPrepare(r: Id) | SFail(r: Id)

  function Apply(plan: Plan, s: State, step: Step): State {
    match step
    case SConversation(c) => NewConversation(s, c)
    case STurn(c, turn, run) => CreateTurn(s, c, turn, run)
    case SPersist(r, ids) => Persist(s, r, plan(r), ids)
    case SDecide(q, approve, t) => Decide(s, q, approve, t)
    case SExecute(r, call, q, e, ending) => Execute(s, r, call, q, e, ending)
    case SPrepare(r) => Prepare(s, r)
    case SFail(r) => FailRun(s, r)
  }

  function After(plan: Plan, steps: seq<Step>): State {
    if steps == [] then EMPTY else Apply(plan, After(plan, steps[..|steps| - 1]), steps[|steps| - 1])
  }

  // ---------------------------------------------------------------- what every run keeps

  // Requests come from the outcome of their run, one for each call.
  ghost predicate RequestsOk(plan: Plan, runs: set<Id>, requests: map<Id, Request>) {
    && (forall q :: q in requests ==> requests[q].run in runs && plan(requests[q].run).Waiting? && requests[q].call in plan(requests[q].run).calls)
    && (forall p, q :: p in requests && q in requests && requests[p].run == requests[q].run && requests[p].call == requests[q].call ==> p == q)
  }

  predicate Agrees(requests: map<Id, Request>, d: Decision) {
    && d.request in requests
    && var status := requests[d.request].status; if d.approve then status == Approved || status == Executed else status == Rejected
  }

  // Each decision is the only one for its request, and agrees with its status.
  ghost predicate DecisionsOk(requests: map<Id, Request>, decisions: seq<Decision>) {
    && (forall i, j :: 0 <= i < j < |decisions| ==> decisions[i].request != decisions[j].request)
    && (forall k :: 0 <= k < |decisions| ==> Agrees(requests, decisions[k]))
    && (forall q :: q in requests && requests[q].status != Pending ==> IsDecided(decisions, q))
  }

  predicate HasEffect(effects: seq<Effect>, q: Id) {
    exists k :: 0 <= k < |effects| && effects[k].request == Some(q)
  }

  // A request has one effect at most, and has one exactly if it is EXECUTED.
  ghost predicate EffectsOk(requests: map<Id, Request>, effects: seq<Effect>) {
    && (forall i, j :: 0 <= i < j < |effects| && effects[i].request.Some? ==> effects[i].request != effects[j].request)
    && (forall q :: q in requests ==> (requests[q].status == Executed <==> HasEffect(effects, q)))
    && (forall k :: 0 <= k < |effects| && effects[k].request.Some? ==> effects[k].request.value in requests)
  }

  predicate Continues(runs: map<Id, Run>, t: Id) {
    t in runs ==>
      match runs[t].deferredFrom
      case None => runs[t].sequence == 1
      case Some(r) => r in runs && runs[t].turn == runs[r].turn && runs[t].sequence == runs[r].sequence + 1 && runs[r].sequence >= 1
  }

  // A resumed run continues its source within the turn; sources are resumed once and places are taken once.
  ghost predicate RunsOk(runs: map<Id, Run>) {
    && (forall t: Id :: Continues(runs, t))
    && (forall t, u :: t in runs && u in runs && runs[t].turn == runs[u].turn && runs[t].sequence == runs[u].sequence ==> t == u)
  }

  // The run asked for something, and everything it asked for is decided.
  ghost predicate AllDecided(requests: map<Id, Request>, r: Id) {
    (exists q :: q in requests && requests[q].run == r) && !PendingIn(requests, r)
  }

  // A run is resumed exactly when all its requests are decided.
  ghost predicate ResumesOk(runs: map<Id, Run>, requests: map<Id, Request>) {
    forall r :: ResumedFrom(runs, r) <==> AllDecided(requests, r)
  }

  ghost predicate TurnsOk(turns: map<Id, Id>, runs: map<Id, Run>) {
    forall r :: r in runs ==> runs[r].turn in turns
  }

  ghost predicate Consistent(plan: Plan, s: State) {
    && RequestsOk(plan, s.runs.Keys, s.requests) && DecisionsOk(s.requests, s.decisions) && EffectsOk(s.requests, s.effects)
    && RunsOk(s.runs) && ResumesOk(s.runs, s.requests) && TurnsOk(s.turns, s.runs)
  }

  // ---------------------------------------------------------------- runs

  // Only the status of runs changes.
  ghost predicate SameRuns(runs: map<Id, Run>, after: map<Id, Run>) {
    after.Keys == runs.Keys && forall r :: r in runs ==> after[r] == runs[r].(status := after[r].status)
  }

  lemma StatusKeepsRuns(runs: map<Id, Run>, after: map<Id, Run>, requests: map<Id, Request>, turns: map<Id, Id>)
    requires SameRuns(runs, after)
    ensures RunsOk(runs) ==> RunsOk(after)
    ensures ResumesOk(runs, requests) ==> ResumesOk(after, requests)
    ensures TurnsOk(turns, runs) ==> TurnsOk(turns, after)
  {
    forall t: Id ensures Continues(runs, t) ==> Continues(after, t) {
    }
    forall r ensures ResumedFrom(after, r) <==> ResumedFrom(runs, r) {
    }
  }

  lemma NextPlaceIsResume(runs: map<Id, Run>, r: Id, u: Id)
    requires RunsOk(runs) && r in runs && u in runs && runs[u].turn == runs[r].turn && runs[u].sequence == runs[r].sequence + 1
    ensures runs[u].deferredFrom == Some(r)
  {
    assert Continues(runs, u) && Continues(runs, r);
    var w := runs[u].deferredFrom.value;
    assert runs[w].turn == runs[r].turn && runs[w].sequence == runs[r].sequence;
  }

  // The place after a run is free as long as the run is not resumed.
  lemma NextPlaceIsFree(runs: map<Id, Run>, r: Id)
    requires RunsOk(runs) && r in runs && !ResumedFrom(runs, r)
    ensures !PlaceTaken(runs, runs[r].turn, runs[r].sequence + 1)
  {
    if u :| u in runs && runs[u].turn == runs[r].turn && runs[u].sequence == runs[r].sequence + 1 {
      NextPlaceIsResume(runs, r, u);
    }
  }

  function WithResumed(runs: map<Id, Run>, r: Id, t: Id): map<Id, Run>
    requires r in runs
  {
    runs[t := Run(runs[r].turn, runs[r].sequence + 1, Some(r), RQueued)]
  }

  lemma ResumeKeepsRuns(runs: map<Id, Run>, r: Id, t: Id)
    requires RunsOk(runs) && r in runs && t !in runs && !ResumedFrom(runs, r)
    ensures RunsOk(WithResumed(runs, r, t))
  {
    NextPlaceIsFree(runs, r);
    var after := WithResumed(runs, r, t);
    assert Continues(runs, r);
    forall u: Id ensures Continues(after, u) {
      assert Continues(runs, u);
    }
  }

  lemma NewRunKeepsRuns(runs: map<Id, Run>, turns: map<Id, Id>, turn: Id, t: Id)
    requires RunsOk(runs) && TurnsOk(turns, runs) && t !in runs && turn !in turns
    ensures RunsOk(runs[t := Run(turn, 1, None, RQueued)])
  {
    var after := runs[t := Run(turn, 1, None, RQueued)];
    assert forall u :: u in runs ==> runs[u].turn != turn;
    forall u: Id ensures Continues(after, u) {
      assert Continues(runs, u);
    }
  }

  lemma NewRunResumesNothing(runs: map<Id, Run>, t: Id, run: Run, r: Id)
    requires t !in runs && run.deferredFrom == None
    ensures ResumedFrom(runs[t := run], r) <==> ResumedFrom(runs, r)
  {
    if u :| u in runs && runs[u].deferredFrom == Some(r) {
      assert runs[t := run][u].deferredFrom == Some(r);
    }
  }

  // ---------------------------------------------------------------- requests

  lemma {:induction false} AddedRequests(requests: map<Id, Request>, r: Id, calls: seq<string>, ids: seq<Id>, q: Id)
    requires |ids| == |calls| && FreshIds(requests, ids)
    ensures var after := AddRequests(requests, r, calls, ids);
      && (q in requests ==> q in after && after[q] == requests[q])
      && (q in after && q !in requests ==> exists k :: 0 <= k < |ids| && ids[k] == q && after[q] == Request(r, calls[k], Pending))
      && (forall k :: 0 <= k < |ids| ==> ids[k] in after)
  {
    if calls != [] {
      var n := |calls| - 1;
      AddedRequests(requests, r, calls[..n], ids[..n], q);
      var some, after := AddRequests(requests, r, calls[..n], ids[..n]), AddRequests(requests, r, calls, ids);
      if q in after && q !in requests && q != ids[n] {
        var k :| 0 <= k < n && ids[..n][k] == q && some[q] == Request(r, calls[..n][k], Pending);
        assert ids[k] == q && after[q] == Request(r, calls[k], Pending);
      }
      forall k | 0 <= k < |ids| ensures ids[k] in after {
        if k < n {
          assert ids[k] == ids[..n][k];
        }
      }
    }
  }

  lemma PersistKeepsRequests(plan: Plan, runs: set<Id>, requests: map<Id, Request>, r: Id, ids: seq<Id>)
    requires RequestsOk(plan, runs, requests) && r in runs && plan(r).Waiting? && CallsFree(requests, r, plan(r).calls)
    requires |ids| == |plan(r).calls| && FreshIds(requests, ids)
    ensures RequestsOk(plan, runs, AddRequests(requests, r, plan(r).calls, ids))
  {
    var calls := plan(r).calls;
    var after := AddRequests(requests, r, calls, ids);
    forall q | q in after
      ensures after[q].run in runs && plan(after[q].run).Waiting? && after[q].call in plan(after[q].run).calls
      ensures q !in requests ==> after[q].run == r && after[q].call in calls
    {
      AddedRequests(requests, r, calls, ids, q);
    }
    forall p, q | p in after && q in after && after[p].run == after[q].run && after[p].call == after[q].call ensures p == q {
      AddedRequests(requests, r, calls, ids, p);
      AddedRequests(requests, r, calls, ids, q);
    }
  }

  lemma NewRequestsAreUndecided(plan: Plan, s: State, r: Id, ids: seq<Id>)
    requires Consistent(plan, s) && r in s.runs && plan(r).Waiting? && plan(r).calls != [] && CallsFree(s.requests, r, plan(r).calls)
    requires |ids| == |plan(r).calls| && FreshIds(s.requests, ids)
    ensures var after := AddRequests(s.requests, r, plan(r).calls, ids);
      DecisionsOk(after, s.decisions) && EffectsOk(after, s.effects) && ResumesOk(s.runs, after)
  {
    var calls := plan(r).calls;
    var after := AddRequests(s.requests, r, calls, ids);
    forall q
      ensures q in s.requests ==> q in after && after[q] == s.requests[q]
      ensures q in after && q !in s.requests ==> after[q].run == r && after[q].status == Pending
    {
      AddedRequests(s.requests, r, calls, ids, q);
    }
    assert ids[0] in after && ids[0] !in s.requests by {
      AddedRequests(s.requests, r, calls, ids, ids[0]);
    }
    assert PendingIn(after, r);
    assert forall q :: q in s.requests ==> s.requests[q].run != r;
    forall x: Id ensures ResumedFrom(s.runs, x) <==> AllDecided(after, x) {
      OtherRunsDecided(s.requests, after, r, x);
    }
  }

  lemma OtherRunsDecided(requests: map<Id, Request>, after: map<Id, Request>, r: Id, x: Id)
    requires forall q :: q in requests ==> q in after && after[q] == requests[q]
    requires forall q :: q in after && q !in requests ==> after[q].run == r
    ensures x != r ==> (AllDecided(requests, x) <==> AllDecided(after, x))
  {
    if x != r {
      forall q ensures q in after && after[q].run == x <==> q in requests && requests[q].run == x {
      }
    }
  }

  lemma PersistKeeps(plan: Plan, s: State, r: Id, ids: seq<Id>)
    requires Consistent(plan, s)
    ensures Consistent(plan, Persist(s, r, plan(r), ids))
  {
    if r in s.runs {
      var status := if plan(r).Finished? then RCompleted else RWaiting;
      var runs := s.runs[r := s.runs[r].(status := status)];
      StatusKeepsRuns(s.runs, runs, s.requests, s.turns);
      if plan(r).Waiting? && plan(r).calls != [] && CallsFree(s.requests, r, plan(r).calls) && |ids| == |plan(r).calls| && FreshIds(s.requests, ids) {
        PersistKeepsRequests(plan, s.runs.Keys, s.requests, r, ids);
        NewRequestsAreUndecided(plan, s, r, ids);
        StatusKeepsRuns(s.runs, runs, AddRequests(s.requests, r, plan(r).calls, ids), s.turns);
        assert runs.Keys == s.runs.Keys;
      } else {
        assert runs.Keys == s.runs.Keys;
      }
    }
  }

  // ---------------------------------------------------------------- decisions

  lemma DecisionKeeps(requests: map<Id, Request>, decisions: seq<Decision>, effects: seq<Effect>, q: Id, approve: bool)
    requires DecisionsOk(requests, decisions) && EffectsOk(requests, effects) && q in requests && requests[q].status == Pending && !IsDecided(decisions, q)
    ensures var after := requests[q := requests[q].(status := if approve then Approved else Rejected)];
      DecisionsOk(after, decisions + [Decision(q, approve)]) && EffectsOk(after, effects)
  {
    var after := requests[q := requests[q].(status := if approve then Approved else Rejected)];
    var longer := decisions + [Decision(q, approve)];
    assert longer[|decisions|] == Decision(q, approve);
    forall x | x in after && after[x].status != Pending ensures IsDecided(longer, x) {
      if x != q {
        var k :| 0 <= k < |decisions| && decisions[k].request == x;
        assert longer[k].request == x;
      }
    }
    forall k | 0 <= k < |longer| ensures Agrees(after, longer[k]) {
      if k < |decisions| {
        assert Agrees(requests, decisions[k]) && decisions[k].request != q;
      }
    }
  }

  lemma DecisionKeepsRequests(plan: Plan, runs: set<Id>, requests: map<Id, Request>, q: Id, status: RequestStatus)
    requires RequestsOk(plan, runs, requests) && q in requests
    ensures RequestsOk(plan, runs, requests[q := requests[q].(status := status)])
  {
  }

  lemma DecidedElsewhere(requests: map<Id, Request>, q: Id, status: RequestStatus, x: Id)
    requires q in requests && (requests[q].run != x || (requests[q].status != Pending && status != Pending))
    ensures AllDecided(requests[q := requests[q].(status := status)], x) <==> AllDecided(requests, x)
  {
    var after := requests[q := requests[q].(status := status)];
    forall p ensures p in after && after[p].run == x <==> p in requests && requests[p].run == x {
    }
    if p :| p in requests && requests[p].run == x && requests[p].status == Pending {
      assert after[p].status == Pending;
    }
  }

  // Every run but r is resumed exactly when all its requests are decided.
  ghost predicate OthersOk(runs: map<Id, Run>, requests: map<Id, Request>, r: Id) {
    forall x: Id :: x != r ==> (ResumedFrom(runs, x) <==> AllDecided(requests, x))
  }

  // The last decision of a run resumes it; an earlier one does not.
  lemma DecideKeepsResumes(s: State, q: Id, approve: bool)
    requires ResumesOk(s.runs, s.requests) && CanDecide(s, q)
    ensures var r, after := s.requests[q].run, WithDecision(s, q, approve);
      && !ResumedFrom(s.runs, r)
      && (!CompletesRun(s, q, approve) ==> ResumesOk(s.runs, after.requests))
      && (CompletesRun(s, q, approve) ==> AllDecided(after.requests, r) && OthersOk(s.runs, after.requests, r))
  {
    var r, after := s.requests[q].run, WithDecision(s, q, approve);
    assert PendingIn(s.requests, r);
    forall x: Id | x != r ensures ResumedFrom(s.runs, x) <==> AllDecided(after.requests, x) {
      DecidedElsewhere(s.requests, q, if approve then Approved else Rejected, x);
    }
    assert after.requests[q].run == r;
  }

  lemma WithDecisionKeeps(plan: Plan, s: State, q: Id, approve: bool)
    requires Consistent(plan, s) && CanDecide(s, q)
    ensures var after := WithDecision(s, q, approve);
      && RequestsOk(plan, s.runs.Keys, after.requests) && DecisionsOk(after.requests, after.decisions) && EffectsOk(after.requests, s.effects)
      && s.requests[q].run in s.runs
  {
    DecisionKeeps(s.requests, s.decisions, s.effects, q, approve);
    DecisionKeepsRequests(plan, s.runs.Keys, s.requests, q, if approve then Approved else Rejected);
  }

  lemma ConversationKeeps(plan: Plan, s: State, turn: Id, status: ConversationStatus)
    requires Consistent(plan, s)
    ensures Consistent(plan, SetConversation(s, turn, status))
  {
  }

  lemma ResumeKeepsTurns(turns: map<Id, Id>, runs: map<Id, Run>, r: Id, t: Id)
    requires TurnsOk(turns, runs) && r in runs
    ensures TurnsOk(turns, WithResumed(runs, r, t)) && WithResumed(runs, r, t).Keys == runs.Keys + {t}
  {
  }

  lemma ResumeParts(plan: Plan, s: State, r: Id, t: Id)
    requires RequestsOk(plan, s.runs.Keys, s.requests) && RunsOk(s.runs) && TurnsOk(s.turns, s.runs)
    requires r in s.runs && t !in s.runs && !ResumedFrom(s.runs, r) && AllDecided(s.requests, r)
    requires OthersOk(s.runs, s.requests, r)
    ensures var runs := WithResumed(s.runs, r, t);
      RequestsOk(plan, runs.Keys, s.requests) && RunsOk(runs) && ResumesOk(runs, s.requests) && TurnsOk(s.turns, runs)
  {
    ResumeKeepsRuns(s.runs, r, t);
    ResumeAdds(s.runs, r, t, s.requests);
    ResumeKeepsTurns(s.turns, s.runs, r, t);
    MoreRuns(plan, s.runs.Keys, s.runs.Keys + {t}, s.requests);
  }

  lemma ResumeKeeps(plan: Plan, s: State, r: Id, t: Id)
    requires r in s.runs && DecisionsOk(s.requests, s.decisions) && EffectsOk(s.requests, s.effects)
    requires var runs := WithResumed(s.runs, r, t);
      RequestsOk(plan, runs.Keys, s.requests) && RunsOk(runs) && ResumesOk(runs, s.requests) && TurnsOk(s.turns, runs)
    ensures Consistent(plan, Resume(s, r, t))
  {
    ConversationKeeps(plan, s.(runs := WithResumed(s.runs, r, t)), s.runs[r].turn, Active);
  }

  lemma DecideAlone(plan: Plan, s: State, q: Id, approve: bool)
    requires Consistent(plan, s) && CanDecide(s, q) && !CompletesRun(s, q, approve)
    ensures Consistent(plan, WithDecision(s, q, approve))
  {
    WithDecisionKeeps(plan, s, q, approve);
    DecideKeepsResumes(s, q, approve);
  }

  lemma DecideAndResume(plan: Plan, s: State, q: Id, approve: bool, t: Id)
    requires Consistent(plan, s) && CanDecide(s, q) && CompletesRun(s, q, approve) && t !in s.runs
    ensures s.requests[q].run in s.runs && Consistent(plan, Resume(WithDecision(s, q, approve), s.requests[q].run, t))
  {
    WithDecisionKeeps(plan, s, q, approve);
    DecideKeepsResumes(s, q, approve);
    ResumeParts(plan, WithDecision(s, q, approve), s.requests[q].run, t);
    ResumeKeeps(plan, WithDecision(s, q, approve), s.requests[q].run, t);
  }

  lemma DecideKeeps(plan: Plan, s: State, q: Id, approve: bool, t: Id)
    requires Consistent(plan, s)
    ensures Consistent(plan, Decide(s, q, approve, t))
  {
    if CanDecide(s, q) {
      if !CompletesRun(s, q, approve) {
        DecideAlone(plan, s, q, approve);
      } else if t !in s.runs {
        DecideAndResume(plan, s, q, approve, t);
      }
    }
  }

  lemma MoreRuns(plan: Plan, runs: set<Id>, more: set<Id>, requests: map<Id, Request>)
    requires RequestsOk(plan, runs, requests) && runs <= more
    ensures RequestsOk(plan, more, requests)
  {
  }

  lemma ResumeAdds(runs: map<Id, Run>, r: Id, t: Id, requests: map<Id, Request>)
    requires r in runs && t !in runs && AllDecided(requests, r) && OthersOk(runs, requests, r)
    ensures ResumesOk(WithResumed(runs, r, t), requests)
  {
    var after := WithResumed(runs, r, t);
    assert after[t].deferredFrom == Some(r);
    forall x: Id | x != r ensures ResumedFrom(after, x) <==> ResumedFrom(runs, x) {
      if u :| u in runs && runs[u].deferredFrom == Some(x) {
        assert after[u].deferredFrom == Some(x);
      }
    }
  }

  // ---------------------------------------------------------------- executions

  lemma EffectKeeps(requests: map<Id, Request>, decisions: seq<Decision>, effects: seq<Effect>, q: Id, effect: Effect)
    requires DecisionsOk(requests, decisions) && EffectsOk(requests, effects) && q in requests && requests[q].status == Approved && effect.request == Some(q)
    ensures var after := requests[q := requests[q].(status := Executed)];
      DecisionsOk(after, decisions) && EffectsOk(after, effects + [effect])
  {
    var after := requests[q := requests[q].(status := Executed)];
    var longer := effects + [effect];
    assert longer[|effects|] == effect;
    assert !HasEffect(effects, q);
    forall x | x in after ensures after[x].status == Executed <==> HasEffect(longer, x) {
      if HasEffect(effects, x) {
        var k :| 0 <= k < |effects| && effects[k].request == Some(x);
        assert longer[k].request == Some(x);
      }
    }
    forall k | 0 <= k < |decisions| ensures Agrees(after, decisions[k]) {
      assert Agrees(requests, decisions[k]);
    }
  }

  lemma UnlinkedEffectKeeps(requests: map<Id, Request>, effects: seq<Effect>, effect: Effect)
    requires EffectsOk(requests, effects) && effect.request == None
    ensures EffectsOk(requests, effects + [effect])
  {
    var longer := effects + [effect];
    forall x | x in requests ensures HasEffect(longer, x) <==> HasEffect(effects, x) {
      if HasEffect(effects, x) {
        var k :| 0 <= k < |effects| && effects[k].request == Some(x);
        assert longer[k].request == Some(x);
      }
    }
  }

  lemma ExecuteKeeps(plan: Plan, s: State, r: Id, call: string, q: Option<Id>, e: Id, ending: Ending)
    requires Consistent(plan, s)
    ensures Consistent(plan, Execute(s, r, call, q, e, ending))
  {
    if IsLinked(s, r, call, q) && Permitted(s, q) && e !in s.executions && ending == Done {
      if q.Some? {
        EffectKeeps(s.requests, s.decisions, s.effects, q.value, Effect(r, call, q));
        DecisionKeepsRequests(plan, s.runs.Keys, s.requests, q.value, Executed);
        forall x: Id {
          DecidedElsewhere(s.requests, q.value, Executed, x);
        }
      } else {
        UnlinkedEffectKeeps(s.requests, s.effects, Effect(r, call, q));
      }
    }
  }

  // ---------------------------------------------------------------- every run of the service

  lemma StatusStepKeeps(plan: Plan, s: State, r: Id, status: RunStatus, conversation: ConversationStatus)
    requires Consistent(plan, s) && r in s.runs
    ensures Consistent(plan, SetConversation(s.(runs := s.runs[r := s.runs[r].(status := status)]), s.runs[r].turn, conversation))
  {
    var runs := s.runs[r := s.runs[r].(status := status)];
    StatusKeepsRuns(s.runs, runs, s.requests, s.turns);
    assert runs.Keys == s.runs.Keys;
  }

  lemma TurnKeeps(plan: Plan, s: State, c: Id, turn: Id, run: Id)
    requires Consistent(plan, s)
    ensures Consistent(plan, CreateTurn(s, c, turn, run))
  {
    if turn !in s.turns && run !in s.runs {
      NewRunKeepsRuns(s.runs, s.turns, turn, run);
      forall r: Id {
        NewRunResumesNothing(s.runs, run, Run(turn, 1, None, RQueued), r);
      }
      MoreRuns(plan, s.runs.Keys, s.runs.Keys + {run}, s.requests);
    }
  }

  lemma StepKeeps(plan: Plan, s: State, step: Step)
    requires Consistent(plan, s)
    ensures Consistent(plan, Apply(plan, s, step))
  {
    match step
    case SConversation(_) =>
    case STurn(c, turn, run) => TurnKeeps(plan, s, c, turn, run);
    case SPersist(r, ids) => PersistKeeps(plan, s, r, ids);
    case SDecide(q, approve, t) => DecideKeeps(plan, s, q, approve, t);
    case SExecute(r, call, q, e, ending) => ExecuteKeeps(plan, s, r, call, q, e, ending);
    case SPrepare(r) =>
      if r in s.runs {
        StatusStepKeeps(plan, s, r, RRunning, Active);
      }
    case SFail(r) =>
      if r in s.runs {
        StatusStepKeeps(plan, s, r, RFailed, Failed);
      }
  }

  lemma {:induction false} RunKeeps(plan: Plan, steps: seq<Step>)
    ensures Consistent(plan, After(plan, steps))
  {
    if steps != [] {
      RunKeeps(plan, steps[..|steps| - 1]);
      StepKeeps(plan, After(plan, steps[..|steps| - 1]), steps[|steps| - 1]);
    }
  }

  // A request is decided once at most.
  lemma DecidedOnce(plan: Plan, steps: seq<Step>, i: nat, j: nat)
    requires var decisions := After(plan, steps).decisions; i < |decisions| && j < |decisions| && decisions[i].request == decisions[j].request
    ensures i == j
  {
    RunKeeps(plan, steps);
  }

  // What a request asks for takes effect once at most, together with EXECUTED, and only after APPROVE.
  lemma ExecutedOnceAndApproved(plan: Plan, steps: seq<Step>, q: Id)
    ensures var s := After(plan, steps);
      && (forall i, j :: 0 <= i < |s.effects| && 0 <= j < |s.effects| && s.effects[i].request == s.effects[j].request == Some(q) ==> i == j)
      && (HasEffect(s.effects, q) <==> q in s.requests && s.requests[q].status == Executed)
      && (HasEffect(s.effects, q) ==> IsApproved(s.decisions, q) && forall k :: 0 <= k < |s.decisions| && s.decisions[k].request == q ==> s.decisions[k].approve)
  {
    var s := After(plan, steps);
    RunKeeps(plan, steps);
    if q in s.requests && s.requests[q].status == Executed {
      var k :| 0 <= k < |s.decisions| && s.decisions[k].request == q;
      assert Agrees(s.requests, s.decisions[k]);
    }
  }

  // ---------------------------------------------------------------- the answers that were given

  predicate Awaits(s: State, q: Id) {
    q in s.requests && s.requests[q].status == Pending
  }

  // Step k answers request q: the request is PENDING before the step and not after it.
  ghost predicate Answers(plan: Plan, steps: seq<Step>, k: nat, q: Id, approve: bool) {
    && k < |steps| && steps[k].SDecide? && steps[k].q == q && steps[k].approve == approve
    && Awaits(After(plan, steps[..k]), q) && !Awaits(After(plan, steps[..k + 1]), q)
  }

  // A step records nothing, or the answer that it gives to a pending request.
  lemma StepRecords(plan: Plan, s: State, step: Step)
    ensures var s' := Apply(plan, s, step);
      if s'.decisions == s.decisions then step.SDecide? ==> s' == s
      else step.SDecide? && Awaits(s, step.q) && s'.decisions == s.decisions + [Decision(step.q, step.approve)] && step.q in s'.requests
           && s'.requests == s.requests[step.q := s.requests[step.q].(status := if step.approve then Approved else Rejected)]
  {
    if step.SDecide? {
      assert |s.decisions + [Decision(step.q, step.approve)]| == |s.decisions| + 1;
    }
  }

  lemma AnswersOfFront(plan: Plan, steps: seq<Step>, n: nat, k: nat, q: Id, approve: bool)
    requires k < n <= |steps|
    ensures Answers(plan, steps[..n], k, q, approve) == Answers(plan, steps, k, q, approve)
  {
    assert steps[..n][..k] == steps[..k] && steps[..n][..k + 1] == steps[..k + 1];
  }

  // What is recorded was answered so.
  lemma {:induction false} RecordedWasAnswered(plan: Plan, steps: seq<Step>, q: Id, approve: bool) returns (k: nat)
    requires Decision(q, approve) in After(plan, steps).decisions
    ensures Answers(plan, steps, k, q, approve)
  {
    var n := |steps| - 1;
    assert steps[..n + 1] == steps;
    var s := After(plan, steps[..n]);
    StepRecords(plan, s, steps[n]);
    if Decision(q, approve) in s.decisions {
      k := RecordedWasAnswered(plan, steps[..n], q, approve);
      AnswersOfFront(plan, steps, n, k, q, approve);
    } else {
      k := n;
    }
  }

  // What was answered stays recorded.
  lemma {:induction false} AnsweredIsRecorded(plan: Plan, steps: seq<Step>, k: nat, q: Id, approve: bool)
    requires Answers(plan, steps, k, q, approve)
    ensures Decision(q, approve) in After(plan, steps).decisions
  {
    var n := |steps| - 1;
    if k < n {
      AnswersOfFront(plan, steps, n, k, q, approve);
      AnsweredIsRecorded(plan, steps[..n], k, q, approve);
      StepRecords(plan, After(plan, steps[..n]), steps[n]);
    } else {
      LastAnswerIsRecorded(plan, steps, q, approve);
    }
  }

  lemma LastAnswerIsRecorded(plan: Plan, steps: seq<Step>, q: Id, approve: bool)
    requires |steps| > 0 && Answers(plan, steps, |steps| - 1, q, approve)
    ensures Decision(q, approve) in After(plan, steps).decisions
  {
    var n := |steps| - 1;
    assert steps[..n + 1] == steps;
    StepRecords(plan, After(plan, steps[..n]), steps[n]);
  }

  // A request is answered by one step at most; what it asks for takes effect only if that step approves it, and never
  // if it rejects it.
  lemma EffectsFollowAnswers(plan: Plan, steps: seq<Step>, q: Id)
    ensures HasEffect(After(plan, steps).effects, q) ==> exists k :: Answers(plan, steps, k, q, true)
    ensures (exists k :: Answers(plan, steps, k, q, false)) ==> !HasEffect(After(plan, steps).effects, q)
    ensures forall i, j, a, b :: Answers(plan, steps, i, q, a) && Answers(plan, steps, j, q, b) ==> a == b
  {
    var s := After(plan, steps);
    ExecutedOnceAndApproved(plan, steps, q);
    if HasEffect(s.effects, q) {
      var d :| 0 <= d < |s.decisions| && s.decisions[d].request == q && s.decisions[d].approve;
      assert s.decisions[d] == Decision(q, true);
      var k := RecordedWasAnswered(plan, steps, q, true);
    }
    forall i, a | Answers(plan, steps, i, q, a) ensures Decision(q, a) in s.decisions {
      AnsweredIsRecorded(plan, steps, i, q, a);
    }
    RunKeeps(plan, steps);
  }

  // ---------------------------------------------------------------- what takes effect

  // The effect is that of the call which the request asked for, in the run that resumes the asking one.
  predicate AsAsked(runs: map<Id, Run>, requests: map<Id, Request>, effect: Effect) {
    effect.request.Some? ==>
      && effect.request.value in requests && requests[effect.request.value].call == effect.call
      && effect.run in runs && runs[effect.run].deferredFrom == Some(requests[effect.request.value].run)
  }

  ghost predicate RunsLast(runs: map<Id, Run>, after: map<Id, Run>) {
    forall r :: r in runs ==> r in after && after[r].deferredFrom == runs[r].deferredFrom
  }

  ghost predicate RequestsLast(requests: map<Id, Request>, after: map<Id, Request>) {
    forall q :: q in requests ==> q in after && after[q].run == requests[q].run && after[q].call == requests[q].call
  }

  // Runs and requests stay, and keep what they were made for.
  ghost predicate Lasting(s: State, after: State) {
    RunsLast(s.runs, after.runs) && RequestsLast(s.requests, after.requests)
  }

  lemma PersistLasts(s: State, r: Id, outcome: Outcome, ids: seq<Id>)
    ensures Lasting(s, Persist(s, r, outcome, ids)) && Persist(s, r, outcome, ids).effects == s.effects
  {
    if r in s.runs && outcome.Waiting? && |ids| == |outcome.calls| && FreshIds(s.requests, ids) {
      forall q ensures q in s.requests ==> q in AddRequests(s.requests, r, outcome.calls, ids) && AddRequests(s.requests, r, outcome.calls, ids)[q] == s.requests[q] {
        AddedRequests(s.requests, r, outcome.calls, ids, q);
      }
    }
  }

  lemma WithDecisionLasts(s: State, q: Id, approve: bool)
    requires q in s.requests
    ensures Lasting(s, WithDecision(s, q, approve)) && WithDecision(s, q, approve).effects == s.effects
  {
  }

  lemma ResumeLasts(s: State, mid: State, r: Id, t: Id)
    requires r in mid.runs && t !in mid.runs && Lasting(s, mid) && mid.effects == s.effects && mid.runs == s.runs
    ensures Lasting(s, Resume(mid, r, t)) && Resume(mid, r, t).effects == s.effects
  {
  }

  lemma DecideLasts(s: State, q: Id, approve: bool, t: Id)
    ensures Lasting(s, Decide(s, q, approve, t)) && Decide(s, q, approve, t).effects == s.effects
  {
    if CanDecide(s, q) && s.requests[q].run in s.runs {
      WithDecisionLasts(s, q, approve);
      if t !in s.runs {
        ResumeLasts(s, WithDecision(s, q, approve), s.requests[q].run, t);
      }
    }
  }

  lemma ExecuteLasts(s: State, r: Id, call: string, q: Option<Id>, e: Id, ending: Ending)
    ensures Lasting(s, Execute(s, r, call, q, e, ending))
  {
  }

  lemma OtherStepLasts(plan: Plan, s: State, step: Step)
    requires !step.SPersist? && !step.SDecide? && !step.SExecute?
    ensures Lasting(s, Apply(plan, s, step)) && Apply(plan, s, step).effects == s.effects
  {
  }

  lemma ExecuteAsAsked(s: State, r: Id, call: string, q: Option<Id>, e: Id, ending: Ending)
    ensures var effects := Execute(s, r, call, q, e, ending).effects;
      effects == s.effects || (effects == s.effects + [Effect(r, call, q)] && AsAsked(s.runs, s.requests, Effect(r, call, q)))
  {
  }

  lemma StepLasts(plan: Plan, s: State, step: Step)
    ensures Lasting(s, Apply(plan, s, step))
    ensures forall k :: |s.effects| <= k < |Apply(plan, s, step).effects| ==> AsAsked(s.runs, s.requests, Apply(plan, s, step).effects[k])
    ensures s.effects <= Apply(plan, s, step).effects
  {
    match step
    case SPersist(r, ids) => PersistLasts(s, r, plan(r), ids);
    case SDecide(q, approve, t) => DecideLasts(s, q, approve, t);
    case SExecute(r, call, q, e, ending) => ExecuteLasts(s, r, call, q, e, ending); ExecuteAsAsked(s, r, call, q, e, ending);
    case _ => OtherStepLasts(plan, s, step);
  }

  // Whatever takes effect for a request is what the request asked for.
  lemma {:induction false} EffectsAsAsked(plan: Plan, steps: seq<Step>, k: nat)
    requires k < |After(plan, steps).effects|
    ensures AsAsked(After(plan, steps).runs, After(plan, steps).requests, After(plan, steps).effects[k])
  {
    if steps != [] {
      var front, last := steps[..|steps| - 1], steps[|steps| - 1];
      StepLasts(plan, After(plan, front), last);
      if k < |After(plan, front).effects| {
        EffectsAsAsked(plan, front, k);
      }
    }
  }

  // A run has exactly one resumed run once all its requests are decided, and none before.
  lemma ResumedExactlyWhenDecided(plan: Plan, steps: seq<Step>, r: Id)
    ensures var s := After(plan, steps);
      && (ResumedFrom(s.runs, r) <==> AllDecided(s.requests, r))
      && forall t, u :: t in s.runs && u in s.runs && s.runs[t].deferredFrom == s.runs[u].deferredFrom == Some(r) ==> t == u
  {
    var s := After(plan, steps);
    RunKeeps(plan, steps);
    forall t, u | t in s.runs && u in s.runs && s.runs[t].deferredFrom == s.runs[u].deferredFrom == Some(r) ensures t == u {
      ResumedOnce(s.runs, r, t, u);
    }
  }

  lemma ResumedOnce(runs: map<Id, Run>, r: Id, t: Id, u: Id)
    requires RunsOk(runs) && t in runs && u in runs && runs[t].deferredFrom == runs[u].deferredFrom == Some(r)
    ensures t == u
  {
    assert Continues(runs, t) && Continues(runs, u);
  }

  // prepare_agent_run never finds the decisions of the resumed run incomplete, and decide_action never finds
  // the place of the resumed run taken.
  lemma DecisionsAreNeverIncomplete(plan: Plan, steps: seq<Step>, r: Id)
    ensures !Incomplete(After(plan, steps), r)
  {
    var s := After(plan, steps);
    RunKeeps(plan, steps);
    if r in s.runs && s.runs[r].deferredFrom.Some? {
      var source := s.runs[r].deferredFrom.value;
      assert ResumedFrom(s.runs, source);
      assert AllDecided(s.requests, source);
    }
  }

  lemma ResumeIsNeverRefused(plan: Plan, steps: seq<Step>, q: Id, approve: bool, t: Id)
    requires var s := After(plan, steps); CanDecide(s, q) && CompletesRun(s, q, approve) && t !in s.runs
    ensures var s := After(plan, steps); var r := s.requests[q].run;
      r in s.runs && Decide(s, q, approve, t) == Resume(WithDecision(s, q, approve), r, t)
  {
    var s := After(plan, steps);
    RunKeeps(plan, steps);
    NextPlaceIsFree(s.runs, s.requests[q].run);
  }
}
