/**
 * The research agent: the streaming run with automatic resumption and the
 * polling run. The remote client is replaced by scripts of what it
 * delivers: the events of the initial stream, the events of each resumed
 * stream, and the successive replies to status requests. A stream cut
 * short by a transport failure is simply a shorter list of events.
 */
module Agent {
  import opened Wrappers
  import opened Request
  import opened Events

  /** The agent configuration sent with a streaming request. */
  datatype AgentConfig = AgentConfig(agentType: string, thinkingSummaries: string)

  const StreamAgentConfig: AgentConfig := AgentConfig("deep-research", "auto")

  /** The arguments of `interactions.create`. */
  datatype CreateCall = CreateCall(
    input: string,
    agent: string,
    background: bool,
    stream: bool,
    tools: Option<seq<Tool>>,
    agentConfig: Option<AgentConfig>)

  /** The arguments of a streaming `interactions.get`: the interaction to
      re-attach to and the event to resume after. */
  datatype ResumeCall = ResumeCall(id: string, lastEventId: Option<string>)

  /** The resume request made from a given tracking state. */
  function ResumeFrom(s: StreamState): (c: ResumeCall)
    requires Truthy(s.interactionId)
  {
    ResumeCall(s.interactionId.value, s.lastEventId)
  }

  /** `resumes` are the first resume requests a run makes after the
      initial stream left it in state `first`: each made from a state that is
      neither complete nor without an interaction id, and carrying that
      state's id and last event id. */
  ghost predicate ResumesFollow(first: StreamState, resumed: seq<seq<Event>>, resumes: seq<ResumeCall>)
  {
    |resumes| <= |resumed| &&
    forall k :: 0 <= k < |resumes| ==>
      WantsResume(FoldAttempts(first, resumed[..k])) &&
      resumes[k] == ResumeFrom(FoldAttempts(first, resumed[..k]))
  }

  /** One more resume keeps `ResumesFollow`. */
  lemma ResumesFollowExtend(first: StreamState, resumed: seq<seq<Event>>, resumes: seq<ResumeCall>)
    requires ResumesFollow(first, resumed, resumes) && |resumes| < |resumed|
    requires WantsResume(FoldAttempts(first, resumed[..|resumes|]))
    ensures ResumesFollow(first, resumed,
      resumes + [ResumeFrom(FoldAttempts(first, resumed[..|resumes|]))])
  {
  }

  /** What a streaming run did and returned. `scriptExhausted` holds when
      the run would still have resumed but the script had no more streams:
      the source keeps retrying without bound. */
  datatype StreamRun = StreamRun(
    create: CreateCall,
    resumes: seq<ResumeCall>,
    interactionId: Option<string>,
    isComplete: bool,
    output: seq<string>,
    scriptExhausted: bool)

  /** A reply to a status request: `interaction.id`, `.status` and the text
      of each entry of `.outputs`. */
  datatype Interaction = Interaction(id: string, status: string, outputs: seq<string>)

  const CompletedStatus: string := "completed"
  const FailedStatus: string := "failed"

  predicate IsFinal(status: string)
  {
    status == CompletedStatus || status == FailedStatus
  }

  /** How a polling run ends: completed with its report (the last output),
      failed, completed without any output (reading the last output
      raises), stopped by a create or status request that raised, or still
      running when the script ran out. */
  datatype PollOutcome =
    | Completed(id: string, report: string)
    | Failed(id: string)
    | MissingReport
    | RequestFailed
    | Exhausted

  /** The outcome a final reply gives. */
  function FinalOutcome(reply: Interaction): (o: PollOutcome)
    requires IsFinal(reply.status)
    ensures o.Completed? <==> reply.status == CompletedStatus && reply.outputs != []
    ensures o.Completed? ==> o.id == reply.id && o.report == reply.outputs[|reply.outputs| - 1]
    ensures o.Failed? <==> reply.status == FailedStatus
    ensures o.Failed? ==> o.id == reply.id
    ensures !o.Exhausted? && !o.RequestFailed?
  {
    if reply.status == CompletedStatus then
      if reply.outputs == [] then MissingReport
      else Completed(reply.id, reply.outputs[|reply.outputs| - 1])
    else
      Failed(reply.id)
  }

  /** A reply to a status request that keeps the run polling: the request
      succeeded and the status is neither completed nor failed. */
  predicate Pending(reply: Option<Interaction>)
  {
    reply.Some? && !IsFinal(reply.value.status)
  }

  /** The outcome of the reply that ends polling: `None` is a status
      request that raised. */
  function EndOutcome(reply: Option<Interaction>): (o: PollOutcome)
    requires !Pending(reply)
    ensures o.RequestFailed? <==> reply.None?
    ensures reply.Some? ==> o == FinalOutcome(reply.value)
  {
    if reply.None? then RequestFailed else FinalOutcome(reply.value)
  }

  /** What a polling run did: the create call, the id passed to each status
      request, and how it ended. */
  datatype PollRun = PollRun(create: CreateCall, gets: seq<string>, outcome: PollOutcome)

  /**
   * The three single-element lists the event loop updates in place, and
   * the text it writes.
   */
  class StreamTracker {
    var interactionId: Option<string>
    var lastEventId: Option<string>
    var isComplete: bool
    var output: seq<string>

    function State(): (s: StreamState)
      reads this
    {
      StreamState(interactionId, lastEventId, isComplete, output)
    }

    constructor ()
      ensures State() == Initial
    {
      interactionId := None;
      lastEventId := None;
      isComplete := false;
      output := [];
    }

    /** Consumes every event of one stream, in order, without stopping at a
        terminal event. */
    method ProcessStream(events: seq<Event>)
      modifies this
      ensures State() == Fold(old(State()), events)
      ensures isComplete <==> old(isComplete) || exists j :: 0 <= j < |events| && IsTerminal(events[j])
      ensures forall j :: LastStartAt(events, j) ==> interactionId == events[j].interactionId
      ensures (forall j :: 0 <= j < |events| ==> events[j].eventType != StartType) ==>
        interactionId == old(interactionId)
      ensures forall j :: LastIdAt(events, j) ==> lastEventId == events[j].eventId
      ensures (forall j :: 0 <= j < |events| ==> !Truthy(events[j].eventId)) ==>
        lastEventId == old(lastEventId)
      ensures output == old(output) + Transcript(events)
    {
      for i := 0 to |events|
        invariant State() == Fold(old(State()), events[..i])
      {
        var event := events[i];
        if event.eventType == StartType {
          interactionId := event.interactionId;
        }
        if Truthy(event.eventId) {
          lastEventId := event.eventId;
        }
        if event.eventType == DeltaType {
          if event.delta.kind == TextKind {
            output := output + [event.delta.text];
          } else if event.delta.kind == ThoughtKind {
            output := output + [ThoughtPrefix + event.delta.thought + "\n"];
          }
        }
        if event.eventType == CompleteType || event.eventType == ErrorType {
          isComplete := true;
        }
        assert events[..i + 1][..i] == events[..i];
      }
      assert events[..|events|] == events;
      FoldIsComplete(old(State()), events);
      FoldInteractionId(old(State()), events);
      FoldLastEventId(old(State()), events);
      FoldOutput(old(State()), events);
    }
  }

  class DeepResearchAgent {
    const agentName: string

    constructor (agentName: string)
      ensures this.agentName == agentName
    {
      this.agentName := agentName;
    }

    /**
     * Starts a streaming run and keeps re-attaching to the same interaction
     * until a terminal event has been seen, giving up at once when no
     * interaction id was ever captured. `initial` is what the first stream
     * delivers; `resumed[k]` is what the k-th resumed stream delivers.
     */
    method StartResearchStream(request: ResearchRequest, initial: seq<Event>, resumed: seq<seq<Event>>)
      returns (run: StreamRun)
      ensures run.create ==
        CreateCall(FinalPrompt(request), agentName, true, true, ToolsConfig(request), Some(StreamAgentConfig))
      // every resume happens from a state that is neither complete nor
      // without an interaction id, and carries that state's id and marker
      ensures ResumesFollow(Fold(Initial, initial), resumed, run.resumes)
      // what is returned is the state after the streams actually consumed
      ensures var fin := FoldAttempts(Fold(Initial, initial), resumed[..|run.resumes|]);
        run.interactionId == fin.interactionId && run.isComplete == fin.isComplete &&
        run.output == fin.output && (run.scriptExhausted <==> WantsResume(fin))
      // the loop is left only when complete or without an interaction id
      ensures !run.scriptExhausted ==> run.isComplete || !Truthy(run.interactionId)
      ensures run.scriptExhausted ==> |run.resumes| == |resumed| && !run.isComplete
      ensures !WantsResume(Fold(Initial, initial)) ==> run.resumes == []
      // a first stream that fails before `interaction.start` ends the run
      // with no interaction id and no resume
      ensures (forall j :: 0 <= j < |initial| ==> initial[j].eventType != StartType) ==>
        run.resumes == [] && run.interactionId == None
    {
      var create := CreateCall(FinalPrompt(request), agentName, true, true, ToolsConfig(request), Some(StreamAgentConfig));
      var tracker := new StreamTracker();
      tracker.ProcessStream(initial);
      ghost var first := tracker.State();

      var resumes: seq<ResumeCall> := [];
      var i := 0;
      while !tracker.isComplete && Truthy(tracker.interactionId) && i < |resumed|
        invariant 0 <= i <= |resumed| && |resumes| == i
        invariant tracker.State() == FoldAttempts(first, resumed[..i])
        invariant ResumesFollow(first, resumed, resumes)
      {
        ResumesFollowExtend(first, resumed, resumes);
        resumes := resumes + [ResumeCall(tracker.interactionId.value, tracker.lastEventId)];
        tracker.ProcessStream(resumed[i]);
        assert resumed[..i + 1][..i] == resumed[..i];
        i := i + 1;
      }
      assert resumed[..0] == [];
      if forall j :: 0 <= j < |initial| ==> initial[j].eventType != StartType {
        FoldInteractionId(Initial, initial);
      }
      run := StreamRun(create, resumes, tracker.interactionId, tracker.isComplete, tracker.output,
                       !tracker.isComplete && Truthy(tracker.interactionId));
    }

    /**
     * Starts a background run and asks for its status until it is completed
     * or failed. `createdId` is the id the create call returns, or `None`
     * when that call raises; `replies[k]` is the reply to the k-th status
     * request, or `None` when that request raises. Nothing here catches an
     * exception, so a raising request ends the run.
     */
    method StartResearchPoll(request: ResearchRequest, createdId: Option<string>,
                             replies: seq<Option<Interaction>>)
      returns (run: PollRun)
      ensures run.create == CreateCall(FinalPrompt(request), agentName, true, false, ToolsConfig(request), None)
      ensures |run.gets| <= |replies|
      // a raising create call ends the run before any status request
      ensures createdId.None? ==> run.gets == [] && run.outcome == RequestFailed
      // the first request names the created interaction, each later one
      // the interaction returned by the previous reply
      ensures |run.gets| > 0 ==> createdId.Some? && run.gets[0] == createdId.value
      ensures forall k :: 0 < k < |run.gets| ==> replies[k - 1].Some? && run.gets[k] == replies[k - 1].value.id
      ensures forall k :: 0 <= k < |run.gets| - 1 ==> Pending(replies[k])
      // the run goes on exactly as long as every request succeeds with a
      // status that is not final
      ensures run.outcome.Exhausted? <==>
        createdId.Some? && forall k :: 0 <= k < |replies| ==> Pending(replies[k])
      ensures run.outcome.Exhausted? ==> |run.gets| == |replies|
      ensures createdId.Some? && !run.outcome.Exhausted? ==>
        0 < |run.gets| && !Pending(replies[|run.gets| - 1]) &&
        run.outcome == EndOutcome(replies[|run.gets| - 1])
    {
      var create := CreateCall(FinalPrompt(request), agentName, true, false, ToolsConfig(request), None);
      if createdId.None? {
        return PollRun(create, [], RequestFailed);
      }
      var currentId := createdId.value;
      var gets: seq<string> := [];
      var outcome := Exhausted;
      var i := 0;
      while i < |replies|
        invariant 0 <= i <= |replies| && |gets| == i
        invariant i > 0 ==> gets[0] == createdId.value
        invariant forall k :: 0 < k < i ==> replies[k - 1].Some? && gets[k] == replies[k - 1].value.id
        invariant forall k :: 0 <= k < i ==> Pending(replies[k])
        invariant currentId == if i == 0 then createdId.value else replies[i - 1].value.id
        invariant outcome == Exhausted
      {
        gets := gets + [currentId];
        var reply := replies[i];
        i := i + 1;
        if reply.None? {
          outcome := RequestFailed;
          break;
        }
        var interaction := reply.value;
        if interaction.status == CompletedStatus {
          if interaction.outputs == [] {
            outcome := MissingReport;
          } else {
            outcome := Completed(interaction.id, interaction.outputs[|interaction.outputs| - 1]);
          }
          break;
        } else if interaction.status == FailedStatus {
          outcome := Failed(interaction.id);
          break;
        }
        currentId := interaction.id;
      }
      run := PollRun(create, gets, outcome);
    }
  }
}
