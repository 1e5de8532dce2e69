/**
 * The events of a research stream and what consuming them does to the
 * stream's tracking state: the interaction id, the last seen event id, the
 * completion flag and the text written for the reader.
 *
 * `Step` is one pass of the body of the event loop; `Fold` is the whole
 * loop over one stream; `FoldAttempts` is the initial stream followed by
 * every resumed stream.
 */
module Events {
  import opened Wrappers

  const StartType: string := "interaction.start"
  const DeltaType: string := "content.delta"
  const CompleteType: string := "interaction.complete"
  const ErrorType: string := "error"

  const TextKind: string := "text"
  const ThoughtKind: string := "thought_summary"
  const ThoughtPrefix: string := "\n[THOUGHT] "

  /** `event.delta`: its `type`, its `text` (read for text deltas) and its
      `content.text` (read for thought summaries). */
  datatype Delta = Delta(kind: string, text: string, thought: string)

  /** One streamed event. `interactionId` is `event.interaction.id`, read
      only for `interaction.start`; `delta` is read only for
      `content.delta`. */
  datatype Event = Event(
    eventType: string,
    eventId: Option<string>,
    interactionId: Option<string>,
    delta: Delta)

  /** Python truthiness of an optional string. */
  predicate Truthy(o: Option<string>)
  {
    o.Some? && o.value != ""
  }

  predicate IsTerminal(e: Event)
  {
    e.eventType == CompleteType || e.eventType == ErrorType
  }

  /** The tracking state threaded through the event loop, and the text
      written so far, one entry per write. */
  datatype StreamState = StreamState(
    interactionId: Option<string>,
    lastEventId: Option<string>,
    isComplete: bool,
    output: seq<string>)

  const Initial: StreamState := StreamState(None, None, false, [])

  /** The text one event writes: a text delta its text as is, a thought
      summary tagged and ended by the newline `print` adds, anything else
      nothing. */
  function Emitted(e: Event): (out: seq<string>)
  {
    if e.eventType != DeltaType then []
    else if e.delta.kind == TextKind then [e.delta.text]
    else if e.delta.kind == ThoughtKind then [ThoughtPrefix + e.delta.thought + "\n"]
    else []
  }

  /** One iteration of the event loop. The four checks in its body are
      independent of one another, so they are taken together. */
  function Step(s: StreamState, e: Event): (t: StreamState)
  {
    StreamState(
      if e.eventType == StartType then e.interactionId else s.interactionId,
      if Truthy(e.eventId) then e.eventId else s.lastEventId,
      s.isComplete || IsTerminal(e),
      s.output + Emitted(e))
  }

  /** The event loop over a whole stream, first event first. */
  function Fold(s: StreamState, es: seq<Event>): (t: StreamState)
    decreases |es|
  {
    if es == [] then s else Step(Fold(s, es[..|es| - 1]), es[|es| - 1])
  }

  /** The event loop run over each attempt in turn. */
  function FoldAttempts(s: StreamState, attempts: seq<seq<Event>>): (t: StreamState)
    decreases |attempts|
  {
    if attempts == [] then s
    else Fold(FoldAttempts(s, attempts[..|attempts| - 1]), attempts[|attempts| - 1])
  }

  /** All attempts' events, one after the other. */
  function Concat(attempts: seq<seq<Event>>): (es: seq<Event>)
    decreases |attempts|
  {
    if attempts == [] then [] else Concat(attempts[..|attempts| - 1]) + attempts[|attempts| - 1]
  }

  /** All text the events write, first event first (a reference definition
      independent of `Fold`). */
  function Transcript(es: seq<Event>): (out: seq<string>)
    decreases |es|
  {
    if es == [] then [] else Emitted(es[0]) + Transcript(es[1..])
  }

  /** The condition under which the stream is resumed. */
  predicate WantsResume(s: StreamState)
  {
    !s.isComplete && Truthy(s.interactionId)
  }

  /** `es[j]` is the last `interaction.start` event of `es`. */
  predicate LastStartAt(es: seq<Event>, j: int)
  {
    0 <= j < |es| && es[j].eventType == StartType &&
    forall k :: j < k < |es| ==> es[k].eventType != StartType
  }

  /** `es[j]` is the last event of `es` that carries an event id. */
  predicate LastIdAt(es: seq<Event>, j: int)
  {
    0 <= j < |es| && Truthy(es[j].eventId) &&
    forall k :: j < k < |es| ==> !Truthy(es[k].eventId)
  }

  /** Consuming two streams one after the other is consuming their
      concatenation. */
  lemma {:induction false} FoldAppend(s: StreamState, a: seq<Event>, b: seq<Event>)
    ensures Fold(s, a + b) == Fold(Fold(s, a), b)
    decreases |b|
  {
    if b == [] {
      assert a + b == a;
    } else {
      var b' := b[..|b| - 1];
      FoldAppend(s, a, b');
      assert (a + b)[..|a + b| - 1] == a + b';
      assert (a + b)[|a + b| - 1] == b[|b| - 1];
    }
  }

  /** Consuming the attempts in turn is consuming their concatenation: the
      tracking state and the text written are those of one stream made of
      all their events. */
  lemma {:induction false} ResumeIsTransparent(s: StreamState, attempts: seq<seq<Event>>)
    ensures FoldAttempts(s, attempts) == Fold(s, Concat(attempts))
    decreases |attempts|
  {
    if attempts != [] {
      var init := attempts[..|attempts| - 1];
      ResumeIsTransparent(s, init);
      FoldAppend(s, Concat(init), attempts[|attempts| - 1]);
    }
  }

  /** The interaction id ends up as that of the last `interaction.start`
      event, or is left as it was when there is none. */
  lemma {:induction false} FoldInteractionId(s: StreamState, es: seq<Event>)
    ensures (forall j :: 0 <= j < |es| ==> es[j].eventType != StartType) ==>
      Fold(s, es).interactionId == s.interactionId
    ensures forall j :: LastStartAt(es, j) ==> Fold(s, es).interactionId == es[j].interactionId
    decreases |es|
  {
    if es != [] {
      var n := |es| - 1;
      var es' := es[..n];
      FoldInteractionId(s, es');
      assert Fold(s, es) == Step(Fold(s, es'), es[n]);
      if es[n].eventType != StartType {
        forall j | LastStartAt(es, j)
          ensures LastStartAt(es', j)
        {
          assert j != n;
          assert forall k :: j < k < |es'| ==> es'[k] == es[k];
        }
      } else {
        forall j | LastStartAt(es, j)
          ensures j == n
        {
        }
      }
    }
  }

  /** The last event id ends up as that of the last event carrying one;
      events without an id never clear it. */
  lemma {:induction false} FoldLastEventId(s: StreamState, es: seq<Event>)
    ensures (forall j :: 0 <= j < |es| ==> !Truthy(es[j].eventId)) ==>
      Fold(s, es).lastEventId == s.lastEventId
    ensures forall j :: LastIdAt(es, j) ==> Fold(s, es).lastEventId == es[j].eventId
    ensures Truthy(s.lastEventId) ==> Truthy(Fold(s, es).lastEventId)
    decreases |es|
  {
    if es != [] {
      var n := |es| - 1;
      var es' := es[..n];
      FoldLastEventId(s, es');
      assert Fold(s, es) == Step(Fold(s, es'), es[n]);
      if !Truthy(es[n].eventId) {
        forall j | LastIdAt(es, j)
          ensures LastIdAt(es', j)
        {
          assert j != n;
          assert forall k :: j < k < |es'| ==> es'[k] == es[k];
        }
      } else {
        forall j | LastIdAt(es, j)
          ensures j == n
        {
        }
      }
    }
  }

  /** The stream is complete afterwards exactly when it was before or some
      event was `interaction.complete` or `error`; completion is never
      reset. */
  lemma {:induction false} FoldIsComplete(s: StreamState, es: seq<Event>)
    ensures Fold(s, es).isComplete <==>
      s.isComplete || exists j :: 0 <= j < |es| && IsTerminal(es[j])
    decreases |es|
  {
    if es != [] {
      var n := |es| - 1;
      var es' := es[..n];
      FoldIsComplete(s, es');
      if exists j :: 0 <= j < |es'| && IsTerminal(es'[j]) {
        var j :| 0 <= j < |es'| && IsTerminal(es'[j]);
        assert es[j] == es'[j];
      }
      if exists j :: 0 <= j < |es| && IsTerminal(es[j]) {
        var j :| 0 <= j < |es| && IsTerminal(es[j]);
        if j < n {
          assert es'[j] == es[j];
        }
      }
    }
  }

  lemma {:induction false} TranscriptSnoc(es: seq<Event>, e: Event)
    ensures Transcript(es + [e]) == Transcript(es) + Emitted(e)
    decreases |es|
  {
    if es == [] {
      assert [e][1..] == [];
    } else {
      assert (es + [e])[1..] == es[1..] + [e];
      TranscriptSnoc(es[1..], e);
    }
  }

  /** The text written is what was written before, followed by every
      event's own text in stream order. */
  lemma {:induction false} FoldOutput(s: StreamState, es: seq<Event>)
    ensures Fold(s, es).output == s.output + Transcript(es)
    decreases |es|
  {
    if es != [] {
      var n := |es| - 1;
      FoldOutput(s, es[..n]);
      TranscriptSnoc(es[..n], es[n]);
      assert es[..n] + [es[n]] == es;
    }
  }

  /** A content delta never touches the interaction id or the completion
      flag, and touches the last event id only through its own event id. */
  lemma DeltaKeepsTracking(s: StreamState, e: Event)
    requires e.eventType == DeltaType
    ensures Step(s, e).interactionId == s.interactionId
    ensures Step(s, e).isComplete == s.isComplete
    ensures !Truthy(e.eventId) ==> Step(s, e).lastEventId == s.lastEventId
  {
  }

  /** Only content deltas write text, and only text and thought-summary
      deltas: a text delta writes its text as is, a thought summary its
      tagged text. */
  lemma EmittedByKind(e: Event)
    ensures Emitted(e) != [] ==> e.eventType == DeltaType
    ensures e.eventType == DeltaType && e.delta.kind == TextKind ==> Emitted(e) == [e.delta.text]
    ensures e.eventType == DeltaType && e.delta.kind == ThoughtKind ==>
      Emitted(e) == [ThoughtPrefix + e.delta.thought + "\n"]
    ensures e.delta.kind != TextKind && e.delta.kind != ThoughtKind ==> Emitted(e) == []
  {
  }

  /** A text delta followed by a thought summary, neither carrying an event
      id: both texts are written in order and the tracking state is left
      alone. */
  lemma TextThenThought()
    ensures var s := Fold(Initial, [
        Event(DeltaType, None, None, Delta(TextKind, "Hello ", "")),
        Event(DeltaType, None, None, Delta(ThoughtKind, "", "Thinking..."))]);
      s == StreamState(None, None, false, ["Hello ", "\n[THOUGHT] Thinking...\n"])
  {
    var e1 := Event(DeltaType, None, None, Delta(TextKind, "Hello ", ""));
    var e2 := Event(DeltaType, None, None, Delta(ThoughtKind, "", "Thinking..."));
    assert [e1, e2][..1] == [e1];
    assert [e1][..0] == [];
    assert Fold(Initial, [e1]) == StreamState(None, None, false, ["Hello "]);
    assert Emitted(e2) == [ThoughtPrefix + "Thinking..." + "\n"];
    assert ThoughtPrefix + "Thinking..." + "\n" == "\n[THOUGHT] Thinking...\n";
  }
}
