/** The agent tables as one object, changed by decide_action, persist_agent_run_outcome and _record_tool. */
module AgentService {
  import opened Common
  import opened AgentApproval

  datatype Error =
    | AlreadyDecided | SourceMissing | RunMissing | NotAvailable | NoActions | RepeatedCall | AlreadyComplete
    | IncompleteDecisions | NotApproved | OperationError | Crashed

  // The answer is recorded, the request has the status it calls for, and no other request changes.
  ghost predicate Answered(s: State, q: Id, approve: bool, after: State)
    requires q in s.requests
  {
    && after.decisions == s.decisions + [Decision(q, approve)]
    && after.requests == s.requests[q := s.requests[q].(status := if approve then Approved else Rejected)]
    && after == s.(decisions := after.decisions, requests := after.requests, runs := after.runs, conversations := after.conversations)
  }

  // The conversation of a turn has a new status, and no other one changes.
  ghost predicate ConversationIs(s: State, turn: Id, status: ConversationStatus, after: State) {
    if turn in s.turns then after.conversations == s.conversations[s.turns[turn] := status] else after.conversations == s.conversations
  }

  // Run t continues the turn of run r at the next place, in an ACTIVE conversation.
  ghost predicate Resumed(s: State, r: Id, t: Id, after: State) {
    && r in s.runs && t !in s.runs
    && after.runs == s.runs[t := Run(s.runs[r].turn, s.runs[r].sequence + 1, Some(r), RQueued)]
    && ConversationIs(s, s.runs[r].turn, Active, after)
  }

  // The run and its conversation have new statuses; of the rest only the requests may change.
  ghost predicate RunIs(s: State, r: Id, status: RunStatus, conversation: ConversationStatus, after: State) {
    && r in s.runs
    && after.runs == s.runs[r := s.runs[r].(status := status)]
    && ConversationIs(s, s.runs[r].turn, conversation, after)
    && after == s.(runs := after.runs, conversations := after.conversations, requests := after.requests)
  }

  // One PENDING request of run r for each call, under the id at the same place, beside those that were there.
  ghost predicate RequestsAdded(requests: map<Id, Request>, r: Id, calls: seq<string>, ids: seq<Id>, after: map<Id, Request>) {
    && |ids| == |calls|
    && (forall k :: 0 <= k < |calls| ==> ids[k] in after && after[ids[k]] == Request(r, calls[k], Pending))
    && (forall q :: q in requests ==> q in after && after[q] == requests[q])
    && (forall q :: q in after ==> q in requests || q in ids)
  }

  lemma {:induction false} RequestsAreAdded(requests: map<Id, Request>, r: Id, calls: seq<string>, ids: seq<Id>)
    requires |ids| == |calls| && FreshIds(requests, ids)
    ensures RequestsAdded(requests, r, calls, ids, AddRequests(requests, r, calls, ids))
  {
    if calls != [] {
      RequestsAreAdded(requests, r, calls[..|calls| - 1], ids[..|ids| - 1]);
    }
  }

  // A finished execution with its one effect; the request it was deferred for is EXECUTED.
  ghost predicate Performed(s: State, r: Id, call: string, linked: Option<Id>, e: Id, after: State) {
    && after.executions == s.executions[e := Execution(r, linked, call, ECompleted)]
    && after.effects == s.effects + [Effect(r, call, linked)]
    && (linked == None ==> after.requests == s.requests)
    && (linked.Some? ==> linked.value in s.requests
                         && after.requests == s.requests[linked.value := s.requests[linked.value].(status := Executed)])
    && after == s.(executions := after.executions, effects := after.effects, requests := after.requests)
  }

  class Agents {
    const plan: Plan
    var conversations: map<Id, ConversationStatus>
    var turns: map<Id, Id>
    var runs: map<Id, Run>
    var requests: map<Id, Request>
    var decisions: seq<Decision>
    var executions: map<Id, Execution>
    var effects: seq<Effect>

    constructor (plan: Plan)
      ensures this.plan == plan && View() == EMPTY && Valid()
    {
      this.plan := plan;
      conversations, turns, runs, requests, decisions, executions, effects := map[], map[], map[], map[], [], map[], [];
      new;
      RunKeeps(plan, []);
    }

    function View(): State
      reads this
    {
      State(conversations, turns, runs, requests, decisions, executions, effects)
    }

    ghost predicate Valid()
      reads this
    {
      Consistent(plan, View())
    }

    method SetConversationStatus(turn: Id, status: ConversationStatus)
      modifies this`conversations
      ensures View() == SetConversation(old(View()), turn, status)
    {
      if turn in turns {
        conversations := conversations[turns[turn] := status];
      }
    }

    // create_turn
    method StartTurn(c: Id, turn: Id, run: Id) returns (error: Option<Error>)
      requires Valid() && turn !in turns && run !in runs
      modifies this
      ensures Valid() && View() == CreateTurn(old(View()), c, turn, run)
      ensures error == None <==> old(c in conversations && (conversations[c] == Active || conversations[c] == Completed))
      ensures error == None ==> turns == old(turns)[turn := c] && runs == old(runs)[run := Run(turn, 1, None, RQueued)]
      ensures error == None ==> conversations == old(conversations)[c := Active]
      ensures error.Some? ==> error == Some(NotAvailable) && View() == old(View())
      ensures requests == old(requests) && decisions == old(decisions) && executions == old(executions) && effects == old(effects)
    {
      TurnKeeps(plan, View(), c, turn, run);
      if c !in conversations || (conversations[c] != Active && conversations[c] != Completed) {
        return Some(NotAvailable);
      }
      turns := turns[turn := c];
      runs := runs[run := Run(turn, 1, None, RQueued)];
      conversations := conversations[c := Active];
      return None;
    }

    // The run continues where the source stopped.
    method ResumeRun(source: Id, t: Id)
      requires source in runs
      modifies this`runs, this`conversations
      ensures View() == Resume(old(View()), source, t)
      ensures t !in old(runs) ==> Resumed(old(View()), source, t, View())
    {
      var turn := runs[source].turn;
      runs := runs[t := Run(turn, runs[source].sequence + 1, Some(source), RQueued)];
      SetConversationStatus(turn, Active);
    }

    method RecordDecision(q: Id, approve: bool)
      requires q in requests
      modifies this`decisions, this`requests
      ensures View() == WithDecision(old(View()), q, approve) && Answered(old(View()), q, approve, View())
    {
      decisions := decisions + [Decision(q, approve)];
      requests := requests[q := requests[q].(status := if approve then Approved else Rejected)];
    }

    // decide_action; t is the id for a resumed run
    method DecideAction(q: Id, approve: bool, t: Id) returns (r: Result<Option<Id>, Error>)
      requires Valid() && q in requests && t !in runs
      modifies this
      ensures Valid() && View() == Decide(old(View()), q, approve, t)
      ensures r.Ok? <==> CanDecide(old(View()), q)
      ensures r.Ok? ==> r.value == if CompletesRun(old(View()), q, approve) then Some(t) else None
      ensures r.Err? ==> r.error == AlreadyDecided && View() == old(View())
      ensures r.Ok? ==> Answered(old(View()), q, approve, View())
      ensures r == Ok(None) ==> runs == old(runs) && conversations == old(conversations)
      ensures r.Ok? && r.value.Some? ==> Resumed(old(View()), old(requests)[q].run, t, View())
    {
      ghost var before := View();
      if requests[q].status != Pending {
        return Err(AlreadyDecided);
      }
      if k :| 0 <= k < |decisions| && decisions[k].request == q {
        return Err(AlreadyDecided);
      }
      DecideKeeps(plan, before, q, approve, t);
      DecideSteps(plan, before, q, approve, t);
      var resumed := AcceptDecision(q, approve, t);
      return Ok(resumed);
    }

    method AcceptDecision(q: Id, approve: bool, t: Id) returns (resumed: Option<Id>)
      requires q in requests && requests[q].run in runs && t !in runs && !ResumedFrom(runs, requests[q].run)
      modifies this`decisions, this`requests, this`runs, this`conversations
      ensures View() == if resumed == None then WithDecision(old(View()), q, approve) else Resume(WithDecision(old(View()), q, approve), old(requests)[q].run, t)
      ensures resumed == if PendingIn(WithDecision(old(View()), q, approve).requests, old(requests)[q].run) then None else Some(t)
      ensures Answered(old(View()), q, approve, View())
      ensures resumed == None ==> runs == old(runs) && conversations == old(conversations)
      ensures resumed.Some? ==> Resumed(old(View()), old(requests)[q].run, t, View())
    {
      RecordDecision(q, approve);
      resumed := ResumeIfDecided(requests[q].run, t);
    }

    // The run whose request was decided last goes on.
    method ResumeIfDecided(source: Id, t: Id) returns (resumed: Option<Id>)
      requires source in runs && t !in runs && !ResumedFrom(runs, source)
      modifies this`runs, this`conversations
      ensures resumed == if PendingIn(requests, source) then None else Some(t)
      ensures View() == if resumed == None then old(View()) else Resume(old(View()), source, t)
      ensures resumed.Some? ==> Resumed(old(View()), source, t, View())
    {
      if p :| p in requests && requests[p].run == source && requests[p].status == Pending {
        return None;
      }
      if u :| u in runs && runs[u].deferredFrom == Some(source) {
        assert false;
      }
      ResumeRun(source, t);
      return Some(t);
    }

    // persist_agent_run_outcome, with ids for the requests it adds
    method PersistOutcome(r: Id, ids: seq<Id>) returns (error: Option<Error>)
      requires Valid() && FreshIds(requests, ids) && (plan(r).Waiting? ==> |ids| == |plan(r).calls|)
      modifies this
      ensures Valid() && View() == Persist(old(View()), r, plan(r), ids)
      ensures error == old(
        if r !in runs then Some(RunMissing)
        else if plan(r).Waiting? && plan(r).calls == [] then Some(NoActions)
        else if plan(r).Waiting? && !CallsFree(requests, r, plan(r).calls) then Some(RepeatedCall)
        else None)
      ensures error.Some? ==> View() == old(View())
      ensures error == None && plan(r).Finished? ==> RunIs(old(View()), r, RCompleted, Completed, View()) && requests == old(requests)
      ensures error == None && plan(r).Waiting? ==>
        RunIs(old(View()), r, RWaiting, WaitingApproval, View()) && RequestsAdded(old(requests), r, plan(r).calls, ids, requests)
    {
      PersistKeeps(plan, View(), r, ids);
      if plan(r).Waiting? {
        RequestsAreAdded(requests, r, plan(r).calls, ids);
      }
      if r !in runs {
        return Some(RunMissing);
      }
      match plan(r) {
        case Finished =>
          FinishRun(r);
          return None;
        case Waiting(calls) =>
          error := AwaitApproval(r, calls, ids);
      }
    }

    method FinishRun(r: Id)
      requires r in runs
      modifies this`runs, this`conversations
      ensures View() == Persist(old(View()), r, Finished, [])
    {
      runs := runs[r := runs[r].(status := RCompleted)];
      SetConversationStatus(runs[r].turn, Completed);
    }

    method AwaitApproval(r: Id, calls: seq<string>, ids: seq<Id>) returns (error: Option<Error>)
      requires r in runs && FreshIds(requests, ids) && |ids| == |calls|
      modifies this`runs, this`requests, this`conversations
      ensures View() == Persist(old(View()), r, Waiting(calls), ids)
      ensures error == if calls == [] then Some(NoActions) else if !CallsFree(old(requests), r, calls) then Some(RepeatedCall) else None
    {
      if calls == [] {
        return Some(NoActions);
      }
      var added := InsertRequests(requests, r, calls, ids);
      if added.Err? {
        return Some(added.error);
      }
      runs := runs[r := runs[r].(status := RWaiting)];
      requests := added.value;
      SetConversationStatus(runs[r].turn, WaitingApproval);
      return None;
    }

    // prepare_agent_run, as far as it decides whether the run may go on
    method PrepareRun(r: Id) returns (error: Option<Error>)
      requires Valid()
      modifies this
      ensures Valid() && View() == Prepare(old(View()), r)
      ensures error == old(if r !in runs then Some(RunMissing) else if runs[r].status == RCompleted then Some(AlreadyComplete)
                           else if Incomplete(View(), r) then Some(IncompleteDecisions) else None)
      ensures error == None ==> RunIs(old(View()), r, RRunning, Active, View()) && requests == old(requests)
      ensures error.Some? ==> View() == old(View())
    {
      if r !in runs {
        return Some(RunMissing);
      }
      if runs[r].status == RCompleted {
        return Some(AlreadyComplete);
      }
      if runs[r].deferredFrom.Some? {
        var todo := requests.Keys;
        while todo != {}
          invariant todo <= requests.Keys
          invariant forall q :: q in requests && q !in todo && requests[q].run == runs[r].deferredFrom.value ==> IsDecided(decisions, q)
          decreases todo
        {
          var q :| q in todo;
          if requests[q].run == runs[r].deferredFrom.value && !IsDecided(decisions, q) {
            return Some(IncompleteDecisions);
          }
          todo := todo - {q};
        }
      }
      StatusStepKeeps(plan, View(), r, RRunning, Active);
      runs := runs[r := runs[r].(status := RRunning)];
      SetConversationStatus(runs[r].turn, Active);
      return None;
    }

    // fail_agent_run
    method FailAgentRun(r: Id)
      requires Valid()
      modifies this
      ensures Valid() && View() == FailRun(old(View()), r)
      ensures r in old(runs) ==> RunIs(old(View()), r, RFailed, Failed, View()) && requests == old(requests)
      ensures r !in old(runs) ==> View() == old(View())
    {
      if r in runs {
        StatusStepKeeps(plan, View(), r, RFailed, Failed);
        runs := runs[r := runs[r].(status := RFailed)];
        SetConversationStatus(runs[r].turn, Failed);
      }
    }

    // _linked_action_request
    method LinkedActionRequest(r: Id, call: string) returns (linked: Option<Id>)
      requires r in runs
      ensures IsLinked(View(), r, call, linked)
    {
      if runs[r].deferredFrom == None {
        return None;
      }
      if q :| q in requests && requests[q].run == runs[r].deferredFrom.value && requests[q].call == call {
        return Some(q);
      }
      return None;
    }

    // _record_tool: the row of the execution is committed first, the operation and the statuses after it
    method RecordTool(r: Id, call: string, e: Id, ending: Ending) returns (error: Option<Error>, linked: Option<Id>)
      requires Valid() && r in runs && e !in executions
      modifies this
      ensures Valid() && IsLinked(old(View()), r, call, linked) && View() == Execute(old(View()), r, call, linked, e, ending)
      ensures !Permitted(old(View()), linked) ==> error == Some(NotApproved) && View() == old(View())
      ensures error == None <==> Permitted(old(View()), linked) && ending == Done
      ensures error == None ==> Performed(old(View()), r, call, linked, e, View())
      ensures error.Some? ==> requests == old(requests) && effects == old(effects)
      ensures |effects| == |old(effects)| + if error == None then 1 else 0
    {
      linked := LinkedActionRequest(r, call);
      ExecuteKeeps(plan, View(), r, call, linked, e, ending);
      if linked.Some? {
        var permitted := HasApproval(linked.value);
        if !permitted {
          return Some(NotApproved), linked;
        }
      }
      if ending == NotBegun {
        return Some(Crashed), linked;
      }
      error := RunOperation(r, call, linked, e, ending);
    }

    // The two transactions of an execution that is permitted.
    method RunOperation(r: Id, call: string, linked: Option<Id>, e: Id, ending: Ending) returns (error: Option<Error>)
      requires IsLinked(View(), r, call, linked) && Permitted(View(), linked) && e !in executions && ending != NotBegun
      modifies this`executions, this`effects, this`requests
      ensures View() == Execute(old(View()), r, call, linked, e, ending)
      ensures error == if ending == Done then None else if ending == OperationFailed then Some(OperationError) else Some(Crashed)
      ensures error == None ==> Performed(old(View()), r, call, linked, e, View())
      ensures error.Some? ==> requests == old(requests) && effects == old(effects)
      ensures |effects| == |old(effects)| + if error == None then 1 else 0
    {
      executions := executions[e := Execution(r, linked, call, ERunning)];
      if ending == LostAfterStart || ending == LostBeforeCommit {
        return Some(Crashed);
      }
      RowUpdatedTwice(old(executions), e, Execution(r, linked, call, ERunning), Execution(r, linked, call, EFailed));
      RowUpdatedTwice(old(executions), e, Execution(r, linked, call, ERunning), Execution(r, linked, call, ECompleted));
      if ending == OperationFailed {
        executions := executions[e := executions[e].(status := EFailed)];
        return Some(OperationError);
      }
      effects := effects + [Effect(r, call, linked)];
      executions := executions[e := executions[e].(status := ECompleted)];
      if linked.Some? {
        requests := requests[linked.value := requests[linked.value].(status := Executed)];
      }
      return None;
    }

    // The request has an APPROVE decision and status APPROVED.
    method HasApproval(q: Id) returns (ok: bool)
      requires Valid() && q in requests
      ensures ok <==> requests[q].status == Approved && IsApproved(decisions, q)
    {
      if k :| 0 <= k < |decisions| && decisions[k].request == q {
        assert forall j :: 0 <= j < |decisions| && decisions[j].request == q ==> j == k;
        return decisions[k].approve && requests[q].status == Approved;
      }
      return false;
    }
  }

  lemma RowUpdatedTwice(executions: map<Id, Execution>, e: Id, first: Execution, second: Execution)
    ensures executions[e := first][e := second] == executions[e := second]
  {
  }

  // What decide_action does in a consistent state: a source that is not decided yet is not resumed, and its
  // next place is free.
  lemma DecideSteps(plan: Plan, s: State, q: Id, approve: bool, t: Id)
    requires Consistent(plan, s) && CanDecide(s, q) && t !in s.runs
    ensures s.requests[q].run in s.runs && !ResumedFrom(s.runs, s.requests[q].run)
    ensures Decide(s, q, approve, t) ==
      if PendingIn(WithDecision(s, q, approve).requests, s.requests[q].run) then WithDecision(s, q, approve)
      else Resume(WithDecision(s, q, approve), s.requests[q].run, t)
  {
    DecideKeepsResumes(s, q, approve);
    assert s.requests[q].run in s.runs;
    NextPlaceIsFree(s.runs, s.requests[q].run);
  }

  // The rows of all calls, unless one of them violates the unique constraint.
  method InsertRequests(requests: map<Id, Request>, r: Id, calls: seq<string>, ids: seq<Id>) returns (added: Result<map<Id, Request>, Error>)
    requires |ids| == |calls| && FreshIds(requests, ids)
    ensures added.Ok? <==> CallsFree(requests, r, calls)
    ensures added.Ok? ==> added.value == AddRequests(requests, r, calls, ids)
    ensures added.Err? ==> added.error == RepeatedCall
  {
    var after := requests;
    for k := 0 to |calls|
      invariant after == AddRequests(requests, r, calls[..k], ids[..k]) && CallsFree(requests, r, calls[..k])
    {
      assert calls[..k + 1][..k] == calls[..k] && ids[..k + 1][..k] == ids[..k];
      if calls[k] in calls[..k] {
        return Err(RepeatedCall);
      }
      if q :| q in requests && requests[q].run == r && requests[q].call == calls[k] {
        return Err(RepeatedCall);
      }
      after := after[ids[k] := Request(r, calls[k], Pending)];
    }
    assert calls[..|calls|] == calls && ids[..|ids|] == ids;
    return Ok(after);
  }
}
