/**
 * Streamed task updates: the sequence of responses a streaming call produces, each carrying a
 * status update or one chunk of an artifact. Chunks of one artifact share an `index`; the first
 * has `append == false`, the later ones `append == true`, and exactly the last has
 * `lastChunk == true`. A status update with `final == true` ends the stream.
 *
 * `Accepts` is the state machine that reads the stream one event at a time, keeping a phase
 * per artifact index; `FollowsRules` states the same rules about positions in the stream and
 * the history before them. `AcceptsIffRules` proves the two agree.
 */
module Streaming {

  import opened Wrappers
  import opened Json
  import opened Models

  /** An artifact, or one streamed chunk of it. */
  datatype Artifact = Artifact(
    name: Option<string>, description: Option<string>, parts: seq<Part>,
    index: nat, append: Option<bool>, lastChunk: Option<bool>, metadata: Option<Metadata>)

  /** The `result` of one streamed response. */
  datatype StreamEvent =
    | StatusUpdate(taskId: Id, status: TaskStatus, final: bool)
    | ArtifactUpdate(taskId: Id, artifact: Artifact)

  /** One response of a stream. */
  datatype StreamResponse = StreamResponse(jsonrpc: string, id: Option<Id>, result: StreamEvent)

  /** A status update that ends the stream. */
  predicate IsFinal(e: StreamEvent) {
    e.StatusUpdate? && e.final
  }

  /** A chunk of the artifact with index `x`. */
  predicate IsChunkOf(e: StreamEvent, x: nat) {
    e.ArtifactUpdate? && e.artifact.index == x
  }

  // ---------------------------------------------------------------- The state machine

  /** Where an artifact index stands: some chunks sent and more to come, or its last chunk sent. */
  datatype Phase = Streaming | Closed

  /** The phase of every index that has been started; an index not in the map has not been started. */
  type Phases = map<nat, Phase>

  /** The phase an index enters with a chunk. */
  function After(a: Artifact): Phase {
    if a.lastChunk == Some(true) then Closed else Streaming
  }

  /** Reads one chunk: the new phases, or None when the chunk is out of place. */
  function ChunkStep(phases: Phases, a: Artifact): Option<Phases> {
    if a.append.None? || a.lastChunk.None? then None
    else if a.index !in phases then
      if a.append.value then None else Some(phases[a.index := After(a)])
    else
      match phases[a.index]
      case Streaming => if a.append.value then Some(phases[a.index := After(a)]) else None
      case Closed => None
  }

  /** The stream, read from the given phases, is well formed so far (it need not have ended). */
  predicate Accepts(phases: Phases, events: seq<StreamEvent>)
    decreases |events|
  {
    if events == [] then true
    else
      match events[0]
      case StatusUpdate(_, _, final) => if final then |events| == 1 else Accepts(phases, events[1..])
      case ArtifactUpdate(_, a) => ChunkStep(phases, a).Some? && Accepts(ChunkStep(phases, a).value, events[1..])
  }


  // ---------------------------------------------------------------- The rules, stated on history

  /** The indices of the chunks in `s`. */
  function ChunkIndices(s: seq<StreamEvent>): (r: set<nat>)
    decreases |s|
  {
    if s == [] then {}
    else (if s[0].ArtifactUpdate? then {s[0].artifact.index} else {}) + ChunkIndices(s[1..])
  }

  /** The indices of the chunks in `s` marked as last. */
  function LastChunkIndices(s: seq<StreamEvent>): (r: set<nat>)
    decreases |s|
  {
    if s == [] then {}
    else (if s[0].ArtifactUpdate? && s[0].artifact.lastChunk == Some(true) then {s[0].artifact.index} else {})
         + LastChunkIndices(s[1..])
  }

  /** The indices closed before the stream began. */
  function ClosedIn(phases: Phases): set<nat> {
    set x | x in phases && phases[x] == Closed
  }

  /**
   * A chunk placed after `history`: it carries both flags, it appends exactly when its index was
   * started before (before the stream or earlier in it), and its index has not been closed.
   */
  predicate ChunkRule(phases: Phases, history: seq<StreamEvent>, a: Artifact) {
    && a.append.Some? && a.lastChunk.Some?
    && a.append.value == (a.index in phases.Keys + ChunkIndices(history))
    && a.index !in ClosedIn(phases) + LastChunkIndices(history)
  }

  /** Every chunk obeys `ChunkRule` with respect to what precedes it, and only the last event may be final. */
  predicate FollowsRules(phases: Phases, events: seq<StreamEvent>) {
    && (forall k :: 0 <= k < |events| && events[k].ArtifactUpdate? ==> ChunkRule(phases, events[..k], events[k].artifact))
    && (forall k :: 0 <= k < |events| - 1 ==> !IsFinal(events[k]))
  }

  /** `ChunkIndices` holds exactly the indices some chunk of `s` has. */
  lemma {:induction false} ChunkIndicesSpec(s: seq<StreamEvent>, x: nat)
    ensures x in ChunkIndices(s) <==> exists j :: 0 <= j < |s| && IsChunkOf(s[j], x)
    decreases |s|
  {
    if s != [] {
      ChunkIndicesSpec(s[1..], x);
      if x in ChunkIndices(s[1..]) {
        var j :| 0 <= j < |s[1..]| && IsChunkOf(s[1..][j], x);
        assert IsChunkOf(s[j + 1], x);
      }
      if exists j :: 0 <= j < |s| && IsChunkOf(s[j], x) {
        var j :| 0 <= j < |s| && IsChunkOf(s[j], x);
        if j > 0 {
          assert IsChunkOf(s[1..][j - 1], x);
        }
      }
    }
  }

  /** `LastChunkIndices` holds exactly the indices some chunk of `s` closes. */
  lemma {:induction false} LastChunkIndicesSpec(s: seq<StreamEvent>, x: nat)
    ensures x in LastChunkIndices(s) <==>
            exists j :: 0 <= j < |s| && IsChunkOf(s[j], x) && s[j].artifact.lastChunk == Some(true)
    decreases |s|
  {
    if s != [] {
      LastChunkIndicesSpec(s[1..], x);
      if x in LastChunkIndices(s[1..]) {
        var j :| 0 <= j < |s[1..]| && IsChunkOf(s[1..][j], x) && s[1..][j].artifact.lastChunk == Some(true);
        assert IsChunkOf(s[j + 1], x) && s[j + 1].artifact.lastChunk == Some(true);
      }
      if exists j :: 0 <= j < |s| && IsChunkOf(s[j], x) && s[j].artifact.lastChunk == Some(true) {
        var j :| 0 <= j < |s| && IsChunkOf(s[j], x) && s[j].artifact.lastChunk == Some(true);
        if j > 0 {
          assert IsChunkOf(s[1..][j - 1], x) && s[1..][j - 1].artifact.lastChunk == Some(true);
        }
      }
    }
  }

  /**
   * A stream that is well formed, has marked the last chunk of every index it started or
   * resumed, and has ended with a final status.
   */
  predicate Complete(phases: Phases, events: seq<StreamEvent>) {
    && Accepts(phases, events)
    && (forall x :: x in phases.Keys + ChunkIndices(events) ==> x in ClosedIn(phases) + LastChunkIndices(events))
    && |events| > 0 && IsFinal(events[|events| - 1])
  }

  // ---------------------------------------------------------------- Agreement

  /** The phases after an accepted event. */
  function StepPhases(phases: Phases, e: StreamEvent): Phases
    requires e.ArtifactUpdate? ==> ChunkStep(phases, e.artifact).Some?
  {
    if e.ArtifactUpdate? then ChunkStep(phases, e.artifact).value else phases
  }

  /** A chunk is accepted by the state machine exactly when it obeys the rules at the start of a stream. */
  lemma ChunkStepIffRule(phases: Phases, a: Artifact)
    ensures ChunkStep(phases, a).Some? <==> ChunkRule(phases, [], a)
  {
    assert ChunkIndices([]) == {} && LastChunkIndices([]) == {};
    assert a.index in ClosedIn(phases) <==> a.index in phases && phases[a.index] == Closed;
  }

  /** Reading one accepted event moves it from the history into the phases without changing what the rules see. */
  lemma ShiftHistory(phases: Phases, e: StreamEvent, q: seq<StreamEvent>)
    requires e.ArtifactUpdate? ==> ChunkStep(phases, e.artifact).Some?
    ensures StepPhases(phases, e).Keys + ChunkIndices(q) == phases.Keys + ChunkIndices([e] + q)
    ensures ClosedIn(StepPhases(phases, e)) + LastChunkIndices(q) == ClosedIn(phases) + LastChunkIndices([e] + q)
  {
    assert ([e] + q)[1..] == q;
    if e.ArtifactUpdate? {
      var a := e.artifact;
      var p' := StepPhases(phases, e);
      assert p' == phases[a.index := After(a)];
      assert ClosedIn(p') == ClosedIn(phases) + (if a.lastChunk == Some(true) then {a.index} else {});
    }
  }

  /** The rules for a stream are the rules for its first event plus the rules for the rest, read from the new phases. */
  lemma RulesCons(phases: Phases, e: StreamEvent, rest: seq<StreamEvent>)
    requires e.ArtifactUpdate? ==> ChunkStep(phases, e.artifact).Some?
    ensures FollowsRules(phases, [e] + rest) <==>
            !(IsFinal(e) && rest != []) && FollowsRules(StepPhases(phases, e), rest)
  {
    var ev := [e] + rest;
    var p' := StepPhases(phases, e);
    if e.ArtifactUpdate? {
      ChunkStepIffRule(phases, e.artifact);
      assert ev[..0] == [];
    }
    forall k | 1 <= k < |ev| && ev[k].ArtifactUpdate?
      ensures ChunkRule(phases, ev[..k], ev[k].artifact) <==> ChunkRule(p', rest[..k - 1], rest[k - 1].artifact)
    {
      assert ev[..k] == [e] + rest[..k - 1];
      assert ev[k] == rest[k - 1];
      ShiftHistory(phases, e, rest[..k - 1]);
    }
    if FollowsRules(p', rest) && !(IsFinal(e) && rest != []) {
      forall k | 0 <= k < |ev| && ev[k].ArtifactUpdate?
        ensures ChunkRule(phases, ev[..k], ev[k].artifact)
      {
        if k == 0 {
          assert ev[..0] == [];
        } else {
          assert rest[k - 1].ArtifactUpdate? by { assert ev[k] == rest[k - 1]; }
        }
      }
      forall k | 0 <= k < |ev| - 1
        ensures !IsFinal(ev[k])
      {
        if k > 0 {
          assert ev[k] == rest[k - 1];
        }
      }
    }
    if FollowsRules(phases, ev) {
      forall k | 0 <= k < |rest| && rest[k].ArtifactUpdate?
        ensures ChunkRule(p', rest[..k], rest[k].artifact)
      {
        assert ev[k + 1] == rest[k];
        assert rest[..k] == rest[..(k + 1) - 1];
      }
      forall k | 0 <= k < |rest| - 1
        ensures !IsFinal(rest[k])
      {
        assert ev[k + 1] == rest[k];
      }
      if rest != [] {
        assert !IsFinal(ev[0]);
      }
    }
  }

  /** The state machine accepts a stream exactly when the stream follows the rules. */
  lemma {:induction false} AcceptsIffRules(phases: Phases, events: seq<StreamEvent>)
    ensures Accepts(phases, events) <==> FollowsRules(phases, events)
    decreases |events|
  {
    if events != [] {
      var e, rest := events[0], events[1..];
      assert events == [e] + rest;
      match e
      case StatusUpdate(_, _, final) =>
        RulesCons(phases, e, rest);
        AcceptsIffRules(phases, rest);
      case ArtifactUpdate(_, a) =>
        ChunkStepIffRule(phases, a);
        if ChunkStep(phases, a).Some? {
          RulesCons(phases, e, rest);
          AcceptsIffRules(ChunkStep(phases, a).value, rest);
        } else {
          assert events[..0] == [];
          assert !ChunkRule(phases, events[..0], events[0].artifact);
        }
    }
  }

  // ---------------------------------------------------------------- What a well-formed stream guarantees

  /** Every chunk of an accepted stream carries `index`, `append` and `lastChunk`. */
  lemma ChunksCarryFlags(phases: Phases, events: seq<StreamEvent>, k: nat)
    requires Accepts(phases, events) && k < |events| && events[k].ArtifactUpdate?
    ensures events[k].artifact.append.Some? && events[k].artifact.lastChunk.Some?
  {
    AcceptsIffRules(phases, events);
  }

  /** The first chunk of an index that was not started before the stream does not append. */
  lemma FirstChunkDoesNotAppend(phases: Phases, events: seq<StreamEvent>, k: nat)
    requires Accepts(phases, events) && k < |events| && events[k].ArtifactUpdate?
    requires events[k].artifact.index !in phases
    requires forall j :: 0 <= j < k ==> !IsChunkOf(events[j], events[k].artifact.index)
    ensures events[k].artifact.append == Some(false)
  {
    AcceptsIffRules(phases, events);
    var x := events[k].artifact.index;
    forall j | 0 <= j < k
      ensures !IsChunkOf(events[..k][j], x)
    {
      assert events[..k][j] == events[j];
    }
    ChunkIndicesSpec(events[..k], x);
  }

  /** Every later chunk of an index appends. */
  lemma LaterChunksAppend(phases: Phases, events: seq<StreamEvent>, j: nat, k: nat)
    requires Accepts(phases, events) && j < k < |events|
    requires events[j].ArtifactUpdate? && IsChunkOf(events[k], events[j].artifact.index)
    ensures events[k].artifact.append == Some(true)
  {
    AcceptsIffRules(phases, events);
    var x := events[j].artifact.index;
    assert IsChunkOf(events[..k][j], x);
    ChunkIndicesSpec(events[..k], x);
  }

  /** A chunk of an index already under way before the stream began (a resubscription) appends. */
  lemma ResumedIndexAppends(phases: Phases, events: seq<StreamEvent>, k: nat)
    requires Accepts(phases, events) && k < |events| && events[k].ArtifactUpdate?
    requires events[k].artifact.index in phases
    ensures events[k].artifact.append == Some(true)
  {
    AcceptsIffRules(phases, events);
  }

  /** No chunk of an index follows the chunk that closed it, so at most one chunk per index is the last. */
  lemma NothingAfterLastChunk(phases: Phases, events: seq<StreamEvent>, j: nat, k: nat)
    requires Accepts(phases, events) && j < k < |events|
    requires events[j].ArtifactUpdate? && events[j].artifact.lastChunk == Some(true)
    ensures !IsChunkOf(events[k], events[j].artifact.index)
  {
    AcceptsIffRules(phases, events);
    var x := events[j].artifact.index;
    assert events[..k][j] == events[j];
    LastChunkIndicesSpec(events[..k], x);
    assert x in LastChunkIndices(events[..k]);
  }

  /** A chunk followed by another chunk of its index is a middle chunk: it is not marked as last. */
  lemma EarlierChunkIsNotLast(phases: Phases, events: seq<StreamEvent>, j: nat, k: nat)
    requires Accepts(phases, events) && j < k < |events|
    requires events[j].ArtifactUpdate? && IsChunkOf(events[k], events[j].artifact.index)
    ensures events[j].artifact.lastChunk == Some(false)
  {
    ChunksCarryFlags(phases, events, j);
    if events[j].artifact.lastChunk == Some(true) {
      NothingAfterLastChunk(phases, events, j, k);
    } else {
      var last := events[j].artifact.lastChunk;
      assert last == Some(last.value) && !last.value;
    }
  }

  /** In a complete stream the last chunk of every index is marked as last. */
  lemma LastChunkIsMarked(phases: Phases, events: seq<StreamEvent>, k: nat)
    requires Complete(phases, events) && k < |events| && events[k].ArtifactUpdate?
    requires forall j :: k < j < |events| ==> !IsChunkOf(events[j], events[k].artifact.index)
    ensures events[k].artifact.lastChunk == Some(true)
  {
    AcceptsIffRules(phases, events);
    var x := events[k].artifact.index;
    ChunkIndicesSpec(events, x);
    assert x in ChunkIndices(events);
    assert x !in ClosedIn(phases);
    LastChunkIndicesSpec(events, x);
    var j :| 0 <= j < |events| && IsChunkOf(events[j], x) && events[j].artifact.lastChunk == Some(true);
    if j < k {
      NothingAfterLastChunk(phases, events, j, k);
    }
  }

  /** A final status is the last event; in a complete stream every earlier status is not final. */
  lemma FinalStatusEndsStream(phases: Phases, events: seq<StreamEvent>, k: nat)
    requires Accepts(phases, events) && k < |events| && IsFinal(events[k])
    ensures k == |events| - 1
  {
    AcceptsIffRules(phases, events);
  }

  /** The events a sequence of responses carries. */
  function Events(rs: seq<StreamResponse>): (ev: seq<StreamEvent>)
    ensures |ev| == |rs| && forall i :: 0 <= i < |rs| ==> ev[i] == rs[i].result
  {
    seq(|rs|, i requires 0 <= i < |rs| => rs[i].result)
  }

  /** Every response of the stream reports on the task `task`. */
  predicate SameTask(task: Id, rs: seq<StreamResponse>) {
    forall i :: 0 <= i < |rs| ==> rs[i].result.taskId == task
  }

  /** A well-formed stream of responses to the request with id `requestId`, about the task `task`. */
  predicate ValidResponseStream(requestId: Id, task: Id, phases: Phases, rs: seq<StreamResponse>) {
    && (forall i :: 0 <= i < |rs| ==> rs[i].jsonrpc == "2.0" && rs[i].id == Some(requestId))
    && SameTask(task, rs)
    && Accepts(phases, Events(rs))
  }

  // ---------------------------------------------------------------- The streams of the format tests

  function TextChunk(text: string, index: nat, append: bool, lastChunk: bool): Artifact {
    Artifact(None, None, [TextPart(text, None)], index, Some(append), Some(lastChunk), None)
  }

  function Status(state: TaskState, timestamp: string): TaskStatus {
    TaskStatus(state, None, Some(timestamp))
  }

  /**
   * The `tasks/sendSubscribe` stream: a working status, three chunks of artifact 0, a final
   * completed status; the first three results name the task `early`, the last two `late`.
   */
  function SendSubscribeStreamNaming(early: Id, late: Id): seq<StreamResponse> {
    [StreamResponse("2.0", Some(NumId(1)), StatusUpdate(early, Status(Working, "2025-04-02T16:59:25.331844"), false)),
     StreamResponse("2.0", Some(NumId(1)), ArtifactUpdate(early, TextChunk("<section 1...>", 0, false, false))),
     StreamResponse("2.0", Some(NumId(1)), ArtifactUpdate(early, TextChunk("<section 2...>", 0, true, false))),
     StreamResponse("2.0", Some(NumId(1)), ArtifactUpdate(late, TextChunk("<section 3...>", 0, true, true))),
     StreamResponse("2.0", Some(NumId(1)), StatusUpdate(late, Status(Completed, "2025-04-02T16:59:35.331844"), true))]
  }

  /** The send-subscribe stream as the format test writes it: the last two results name task `1`. */
  function SendSubscribeStreamAsWritten(task: string): seq<StreamResponse> {
    SendSubscribeStreamNaming(StrId(task), NumId(1))
  }

  /** The send-subscribe stream with every result naming the subscribed task. */
  function SendSubscribeStream(task: string): seq<StreamResponse> {
    SendSubscribeStreamNaming(StrId(task), StrId(task))
  }

  /** The chunk and status order of the send-subscribe stream is well formed from a fresh start and complete. */
  lemma SendSubscribeEventsComplete(early: Id, late: Id)
    ensures Complete(map[], Events(SendSubscribeStreamNaming(early, late)))
  {
    var ev := Events(SendSubscribeStreamNaming(early, late));
    var p1 := map[0 := Streaming];
    var p2 := map[0 := Closed];
    assert p1[0 := Streaming] == p1 && p1[0 := Closed] == p2;
    assert ChunkStep(map[], ev[1].artifact) == Some(p1);
    assert ChunkStep(p1, ev[2].artifact) == Some(p1);
    assert ChunkStep(p1, ev[3].artifact) == Some(p2);
    assert Accepts(p2, ev[4..]);
    assert Accepts(p1, ev[3..]) by { assert ev[3..][1..] == ev[4..]; }
    assert Accepts(p1, ev[2..]) by { assert ev[2..][1..] == ev[3..]; }
    assert Accepts(map[], ev[1..]) by { assert ev[1..][1..] == ev[2..]; }
    assert ev[1..] == ev[0..][1..];
    forall x | x in ChunkIndices(ev)
      ensures x in LastChunkIndices(ev)
    {
      ChunkIndicesSpec(ev, x);
      var j :| 0 <= j < |ev| && IsChunkOf(ev[j], x);
      assert j in {1, 2, 3};
      LastChunkIndicesSpec(ev, x);
      assert IsChunkOf(ev[3], x) && ev[3].artifact.lastChunk == Some(true);
    }
  }

  /** As written, the stream switches task id halfway, so it is no valid stream about any one task. */
  lemma SendSubscribeAsWrittenSwitchesTask(task: string, x: Id)
    ensures !SameTask(x, SendSubscribeStreamAsWritten(task))
    ensures !ValidResponseStream(NumId(1), x, map[], SendSubscribeStreamAsWritten(task))
  {
    var rs := SendSubscribeStreamAsWritten(task);
    assert rs[0].result.taskId == StrId(task) && rs[4].result.taskId == NumId(1);
  }

  /** With one task id throughout, the send-subscribe stream is a valid, complete stream about that task. */
  lemma SendSubscribeStreamIsValid(task: string)
    ensures ValidResponseStream(NumId(1), StrId(task), map[], SendSubscribeStream(task))
    ensures Complete(map[], Events(SendSubscribeStream(task)))
  {
    SendSubscribeEventsComplete(StrId(task), StrId(task));
  }

  /** The `tasks/resubscribe` stream: two more chunks of artifact 0, which was already under way. */
  function ResubscribeStream(task: string): seq<StreamResponse> {
    [StreamResponse("2.0", Some(NumId(1)), ArtifactUpdate(StrId(task), TextChunk("<section 2...>", 0, true, false))),
     StreamResponse("2.0", Some(NumId(1)), ArtifactUpdate(StrId(task), TextChunk("<section 3...>", 0, true, true)))]
  }

  /** The resubscribe stream is well formed when artifact 0 was already streaming, and not from a fresh start. */
  lemma ResubscribeStreamIsValid(task: string)
    ensures ValidResponseStream(NumId(1), StrId(task), map[0 := Streaming], ResubscribeStream(task))
    ensures !Accepts(map[], Events(ResubscribeStream(task)))
  {
    var ev := Events(ResubscribeStream(task));
    var p1, p2 := map[0 := Streaming], map[0 := Closed];
    assert p1[0 := Streaming] == p1 && p1[0 := Closed] == p2;
    assert ChunkStep(map[0 := Streaming], ev[0].artifact) == Some(map[0 := Streaming]);
    assert ChunkStep(map[0 := Streaming], ev[1].artifact) == Some(map[0 := Closed]);
    assert Accepts(map[0 := Closed], ev[1..][1..]);
    assert ChunkStep(map[], ev[0].artifact).None?;
  }
}
