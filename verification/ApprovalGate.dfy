/** The human-approval gate, from a single tool call up to the runner's checkpoint. */
module ApprovalGate {
  import opened Decimal
  import opened JobRows
  import opened JobStore
  import opened CheckpointMachine
  import opened Checkpoints

  const MARKER := "APPROVAL_REQUIRED"

  /** What the tool server answers when a call reaches it. */
  datatype McpReply = CallFailed(message: string) | Content(text: string, isError: bool)

  datatype ToolResult = ToolResult(content: string, isError: bool)

  predicate MarkerAt(text: string, i: nat) {
    i + |MARKER| <= |text| && text[i..i + |MARKER|] == MARKER
  }

  predicate HasMarker(text: string) { exists i :: 0 <= i <= |text| && MarkerAt(text, i) }

  function Refusal(name: string): string {
    MARKER + ": tool " + name + " performs a mutating action and requires human approval before it can run."
  }

  // ---- One agent's workbench ----

  /** The value of a workbench: its grants, its one-shot approval and the approvals it is waiting for. */
  datatype Bench = Bench(allowed: set<string>, mutating: set<string>, approved: bool, pending: seq<string>)

  predicate Refused(b: Bench, name: string) { name in b.allowed && name in b.mutating && !b.approved }

  /** Whether a call reaches the tool server at all. */
  predicate Forwarded(b: Bench, name: string) { name in b.allowed && (name in b.mutating ==> b.approved) }

  /** What a call adds to the pending approvals. */
  function Signal(b: Bench, name: string, reply: McpReply): seq<string> {
    if Refused(b, name) then [Refusal(name)]
    else if Forwarded(b, name) && reply.Content? && HasMarker(reply.text) then [reply.text]
    else []
  }

  function AfterCall(b: Bench, name: string, reply: McpReply): Bench {
    b.(pending := b.pending + Signal(b, name, reply))
  }

  class AgentToolWorkbench {
    const allowed: set<string>
    const mutating: set<string>
    const approved: bool
    var pendingApprovals: seq<string>

    ghost function Value(): Bench
      reads this
    {
      Bench(allowed, mutating, approved, pendingApprovals)
    }

    constructor (allowed: set<string>, mutating: set<string>, approved: bool)
      ensures Value() == Bench(allowed, mutating, approved, [])
    {
      this.allowed, this.mutating, this.approved := allowed, mutating, approved;
      pendingApprovals := [];
    }

    /** `reply` is what the tool server says if it is asked; `forwarded` tells whether it was. It is asked exactly for
        granted tools that do not mutate or are approved, and its answer comes back as it is. A granted mutating tool
        without approval is refused. An approval becomes pending exactly when a call is refused or answered with the
        marker. */
    method CallTool(name: string, reply: McpReply) returns (r: ToolResult, forwarded: bool)
      modifies this
      ensures forwarded <==> name in allowed && (name !in mutating || approved)
      ensures r == if name !in allowed then ToolResult("Tool " + name + " is not permitted for this agent.", true)
                   else if name in mutating && !approved then ToolResult(Refusal(name), false)
                   else match reply
                        case CallFailed(message) => ToolResult("Tool call failed: " + message, true)
                        case Content(text, isError) => ToolResult(text, isError)
      ensures pendingApprovals == old(pendingApprovals)
        + (if name in allowed && name in mutating && !approved then [Refusal(name)]
           else if forwarded && reply.Content? && HasMarker(reply.text) then [reply.text]
           else [])
      ensures Value() == AfterCall(old(Value()), name, reply)
      ensures forwarded == Forwarded(old(Value()), name)
    {
      if name !in allowed {
        return ToolResult("Tool " + name + " is not permitted for this agent.", true), false;
      }
      if name in mutating && !approved {
        pendingApprovals := pendingApprovals + [Refusal(name)];
        return ToolResult(Refusal(name), false), false;
      }
      match reply
      case CallFailed(message) => return ToolResult("Tool call failed: " + message, true), true;
      case Content(text, isError) =>
        if HasMarker(text) {
          pendingApprovals := pendingApprovals + [text];
        }
        return ToolResult(text, isError), true;
    }
  }

  // ---- One turn of the group chat ----

  /** An agent's grants. */
  datatype Grant = Grant(allowed: set<string>, mutating: set<string>)

  /** Agents call tools in any order during a turn. */
  datatype ToolCall = ToolCall(agent: nat, tool: string, reply: McpReply)

  /** Every chat call builds its workbenches anew. */
  function FreshBench(g: Grant, approved: bool): Bench { Bench(g.allowed, g.mutating, approved, []) }

  predicate Calls(calls: seq<ToolCall>, agents: nat) {
    forall k :: 0 <= k < |calls| ==> calls[k].agent < agents
  }

  /** Agent i's workbench after the turn: only its own calls reach it. */
  function BenchAfter(b: Bench, agent: nat, calls: seq<ToolCall>): Bench {
    if calls == [] then b else
    var before, c := BenchAfter(b, agent, calls[..|calls| - 1]), calls[|calls| - 1];
    if c.agent == agent then AfterCall(before, c.tool, c.reply) else before
  }

  /** `approval_sink` over the first n agents, gathered from their own workbenches. */
  function Sink(grants: seq<Grant>, approved: bool, calls: seq<ToolCall>, n: nat): seq<string>
    requires n <= |grants|
  {
    if n == 0 then [] else
    Sink(grants, approved, calls, n - 1) + BenchAfter(FreshBench(grants[n - 1], approved), n - 1, calls).pending
  }

  /** A pending approval overrides the chat's own stop reason. */
  function FinishReason(grants: seq<Grant>, approved: bool, calls: seq<ToolCall>, stop: string): string {
    if Sink(grants, approved, calls, |grants|) != [] then APPROVAL else if stop == "" then "stop" else stop
  }

  /** The call left something to approve. */
  predicate Signals(grants: seq<Grant>, approved: bool, c: ToolCall)
    requires c.agent < |grants|
  {
    Signal(FreshBench(grants[c.agent], approved), c.tool, c.reply) != []
  }

  ghost predicate SomeSignal(grants: seq<Grant>, approved: bool, calls: seq<ToolCall>, agent: nat)
    requires Calls(calls, |grants|)
  {
    exists k :: 0 <= k < |calls| && calls[k].agent == agent && Signals(grants, approved, calls[k])
  }

  lemma {:induction false} PendingsOfTurn(grants: seq<Grant>, approved: bool, calls: seq<ToolCall>, agent: nat)
    requires Calls(calls, |grants|) && agent < |grants|
    ensures var b, b' := FreshBench(grants[agent], approved),
      BenchAfter(FreshBench(grants[agent], approved), agent, calls);
      && b'.(pending := []) == b
      && (b'.pending != [] <==> SomeSignal(grants, approved, calls, agent))
  {
    if calls != [] {
      var before, c := calls[..|calls| - 1], calls[|calls| - 1];
      PendingsOfTurn(grants, approved, before, agent);
      assert forall k :: 0 <= k < |before| ==> before[k] == calls[k];
      if SomeSignal(grants, approved, before, agent) {
        var k :| 0 <= k < |before| && before[k].agent == agent && Signals(grants, approved, before[k]);
        assert calls[k] == before[k];
      }
      hide HasMarker;
    }
  }

  ghost predicate SignalsBelow(grants: seq<Grant>, approved: bool, calls: seq<ToolCall>, n: nat)
    requires Calls(calls, |grants|)
  {
    exists k :: 0 <= k < |calls| && calls[k].agent < n && Signals(grants, approved, calls[k])
  }

  lemma OneMoreAgent(grants: seq<Grant>, approved: bool, calls: seq<ToolCall>, n: nat)
    requires Calls(calls, |grants|) && 0 < n
    ensures SignalsBelow(grants, approved, calls, n) <==>
      SignalsBelow(grants, approved, calls, n - 1) || SomeSignal(grants, approved, calls, n - 1)
  {
    hide Signals;
  }

  lemma {:induction false} SinkOfTurn(grants: seq<Grant>, approved: bool, calls: seq<ToolCall>, n: nat)
    requires Calls(calls, |grants|) && n <= |grants|
    ensures Sink(grants, approved, calls, n) != [] <==> SignalsBelow(grants, approved, calls, n)
  {
    if n > 0 {
      hide Signals, SignalsBelow, SomeSignal, BenchAfter;
      SinkOfTurn(grants, approved, calls, n - 1);
      PendingsOfTurn(grants, approved, calls, n - 1);
      OneMoreAgent(grants, approved, calls, n);
    }
  }

  /** The call was refused, or answered with the marker. */
  predicate Gated(grants: seq<Grant>, approved: bool, c: ToolCall)
    requires c.agent < |grants|
  {
    var g := grants[c.agent];
    && c.tool in g.allowed
    && if c.tool in g.mutating && !approved then true else c.reply.Content? && HasMarker(c.reply.text)
  }

  /** A turn ends as a pause exactly when some call in it was refused or was answered with the marker,
      or the chat's own stop reason already said so; otherwise that reason stands, if there is one. */
  lemma PauseIff(grants: seq<Grant>, approved: bool, calls: seq<ToolCall>, stop: string)
    requires Calls(calls, |grants|)
    ensures var reason := FinishReason(grants, approved, calls, stop);
      && (reason == "requires_approval" <==>
            || stop == "requires_approval"
            || exists k :: 0 <= k < |calls| && Gated(grants, approved, calls[k]))
      && (reason != "requires_approval" ==> reason == if stop == "" then "stop" else stop)
  {
    SinkOfTurn(grants, approved, calls, |grants|);
    forall k | 0 <= k < |calls|
      ensures Signals(grants, approved, calls[k]) <==> Gated(grants, approved, calls[k])
    {
      hide HasMarker;
    }
  }

  /** A refusal carries the marker itself, so whoever reads it sees the pause. */
  lemma RefusalIsMarked(name: string)
    ensures HasMarker(Refusal(name))
  {
    assert MarkerAt(Refusal(name), 0);
  }

  // ---- End to end ----

  /** The approval flag the runner sends with the turn it is about to make. */
  predicate TurnApproved(s: Sys) {
    s.live.Some? && s.live.value.pc.AtStep? && Approved(s.live.value.mem, s.live.value.pc.index)
  }

  /** The approval flag of the request a move stands for, be it the planning chat or a step's. */
  predicate Sent(s: Sys, m: Move) { CallAt(s, m) != [] && CallAt(s, m)[0].approved }

  /** The move is a chat whose reply, if it has one, is the one this session and these tool calls produce. The
      chat may also break off after any of them. */
  ghost predicate PlayedBy(s: Sys, m: Move, grants: seq<Grant>, calls: seq<ToolCall>, stop: string) {
    && (m.Plan? || m.Turn?)
    && Calls(calls, |grants|)
    && (m.outcome.Reply? ==> m.outcome.finishReason == FinishReason(grants, Sent(s, m), calls, stop))
  }

  predicate MutationForwarded(s: Sys, m: Move, grants: seq<Grant>, c: ToolCall)
    requires c.agent < |grants|
  {
    c.tool in grants[c.agent].mutating && Forwarded(FreshBench(grants[c.agent], Sent(s, m)), c.tool)
  }

  /** In every schedule and every chat, planning or not: a mutating call reaches the tool server only in a turn for
      the very step the stored checkpoint marks as paused, and, unless that pause was split, only after a requeue
      that followed it. */
  lemma MutationsAreApproved(parse: string -> seq<string>, r: Row, moves: seq<Move>, m: Move,
                             grants: seq<Grant>, calls: seq<ToolCall>, stop: string, k: nat)
    requires IsFresh(r)
    requires Step(parse, Run(parse, Boot(r), moves), m).Some?
    requires PlayedBy(Run(parse, Boot(r), moves), m, grants, calls, stop) && k < |calls|
    requires MutationForwarded(Run(parse, Boot(r), moves), m, grants, calls[k])
    ensures var s := Run(parse, Boot(r), moves);
      && m.Turn? && s.live.Some? && s.live.value.pc.AtStep?
      && Stored(s).pending.Some?
      && Stored(s).pending.value.step == s.live.value.pc.index < |Stored(s).plan|
      && Stored(s).pending.value.prompt == Stored(s).plan[s.live.value.pc.index]
      && (!s.log.split ==> s.log.requeued)
  {
    CalledOnlyWhenMissing(parse, r, moves, m.outcome);
    CheckpointAlways(parse, r, moves);
    if !Run(parse, Boot(r), moves).log.split {
      ApprovedOnlyAfterRequeue(parse, r, moves, m.outcome);
    }
  }

  /** In every schedule: a turn that refused a call is not recorded as completed, neither in the runner's memory
      nor in the table; the runner is left to checkpoint a pause (or the chat's own failure) instead. */
  lemma RefusedTurnNotCompleted(parse: string -> seq<string>, r: Row, moves: seq<Move>, outcome: Outcome,
                                grants: seq<Grant>, calls: seq<ToolCall>, stop: string, k: nat)
    requires IsFresh(r)
    requires Step(parse, Run(parse, Boot(r), moves), Turn(outcome)).Some?
    requires PlayedBy(Run(parse, Boot(r), moves), Turn(outcome), grants, calls, stop) && k < |calls|
    requires Refused(FreshBench(grants[calls[k].agent], TurnApproved(Run(parse, Boot(r), moves))), calls[k].tool)
    ensures var s, s' := Run(parse, Boot(r), moves), Run(parse, Boot(r), moves + [Turn(outcome)]);
      && s'.live.Some?
      && s'.live.value.pc == (if outcome.Reply? then SavePause else SaveError)
      && s'.live.value.mem.steps == Stored(s').steps == Stored(s).steps
      && Str(|Stored(s).steps|) !in Stored(s').steps
  {
    CalledOnlyWhenMissing(parse, r, moves, outcome);
    RunOne(parse, Boot(r), moves, Turn(outcome));
    var s := Run(parse, Boot(r), moves);
    hide Str;
    assert Gated(grants, TurnApproved(s), calls[k]);
    PauseIff(grants, TurnApproved(s), calls, stop);
  }
}
