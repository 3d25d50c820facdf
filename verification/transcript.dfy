/** The hook's message reducer and the sorted view it hands to its caller. */
module Transcript {
  import opened Wrappers
  import opened Types
  import opened TimestampOrder

  /** Event tags of the hub protocol. The connect tag is defined but never handled. */
  const CallConnectEvent: string := "call.connected"
  const CallDisconnectEvent: string := "call.disconnected"
  const CallerEvent: string := "call.input_audio.transcription.completed"
  const AiEvent: string := "call.output_audio.transcription.completed"

  /** The tags the reducer acts on; every other tag is ignored silently. */
  predicate Handled(tag: string) {
    tag in [CallerEvent, AiEvent, CallDisconnectEvent]
  }

  /** The history entry a transcript event becomes, if it is one. `freshId`
      stands for the generated `Date.now()`-plus-random id. */
  function ToMessage(message: SignalRMessage, freshId: string): Option<ChatMessage> {
    if message.tag == CallerEvent then
      Some(ChatMessage(freshId, Caller, message.data.timestamp, message.data.message))
    else if message.tag == AiEvent then
      Some(ChatMessage(freshId, Ai, message.data.timestamp, message.data.message))
    else None
  }

  /** A history entry as a zero- or one-element list. */
  function Entries(m: Option<ChatMessage>): seq<ChatMessage> {
    match m
    case Some(x) => [x]
    case None => []
  }

  /** One inbound event applied to the internal (arrival-ordered) history. */
  function Step(history: seq<ChatMessage>, message: SignalRMessage, freshId: string): (r: seq<ChatMessage>)
    ensures !Handled(message.tag) ==> r == history
    ensures message.tag == CallDisconnectEvent ==> r == []
    ensures message.tag == CallerEvent ==>
              |r| == |history| + 1 && r[..|history|] == history
              && r[|history|].sender == Caller && r[|history|].id == freshId
              && r[|history|].timestamp == message.data.timestamp
              && r[|history|].text == message.data.message
    ensures message.tag == AiEvent ==>
              |r| == |history| + 1 && r[..|history|] == history
              && r[|history|].sender == Ai && r[|history|].id == freshId
              && r[|history|].timestamp == message.data.timestamp
              && r[|history|].text == message.data.message
  {
    if Handled(message.tag) then
      match message.tag
      case CallerEvent => history + [ToMessage(message, freshId).value]
      case AiEvent => history + [ToMessage(message, freshId).value]
      case CallDisconnectEvent => []
    else history
  }

  /** A run of inbound events, each with the id it would be given. */
  function Run(history: seq<ChatMessage>, events: seq<SignalRMessage>, ids: seq<string>): seq<ChatMessage>
    requires |ids| == |events|
    decreases |events|
  {
    if events == [] then history
    else Run(Step(history, events[0], ids[0]), events[1..], ids[1..])
  }

  /** The transcript events of a run, as history entries, in arrival order. */
  function Collect(events: seq<SignalRMessage>, ids: seq<string>): seq<ChatMessage>
    requires |ids| == |events|
    decreases |events|
  {
    if events == [] then []
    else
      Entries(ToMessage(events[0], ids[0])) + Collect(events[1..], ids[1..])
  }

  /** Without a disconnect, a run appends exactly its transcript events. */
  lemma {:induction false} RunWithoutDisconnect(history: seq<ChatMessage>, events: seq<SignalRMessage>, ids: seq<string>)
    requires |ids| == |events|
    requires forall i :: 0 <= i < |events| ==> events[i].tag != CallDisconnectEvent
    ensures Run(history, events, ids) == history + Collect(events, ids)
    decreases |events|
  {
    if events != [] {
      var head := Entries(ToMessage(events[0], ids[0]));
      var rest := Collect(events[1..], ids[1..]);
      forall i | 0 <= i < |events[1..]| ensures events[1..][i].tag != CallDisconnectEvent {
        assert events[1..][i] == events[i + 1];
      }
      calc {
        Run(history, events, ids);
        Run(Step(history, events[0], ids[0]), events[1..], ids[1..]);
        { StepAppends(history, events[0], ids[0]); }
        Run(history + head, events[1..], ids[1..]);
        { RunWithoutDisconnect(history + head, events[1..], ids[1..]); }
        (history + head) + rest;
        history + (head + rest);
        history + Collect(events, ids);
      }
    }
  }

  /** Any event but a disconnect appends its entry, if it has one. */
  lemma StepAppends(history: seq<ChatMessage>, message: SignalRMessage, freshId: string)
    requires message.tag != CallDisconnectEvent
    ensures Step(history, message, freshId) == history + Entries(ToMessage(message, freshId))
  {
  }

  /** After a run, the history holds exactly the transcript events that arrived
      after the last disconnect, whatever it held before. */
  lemma {:induction false} RunAfterLastDisconnect(history: seq<ChatMessage>, events: seq<SignalRMessage>, ids: seq<string>, k: nat)
    requires |ids| == |events| && k < |events|
    requires events[k].tag == CallDisconnectEvent
    requires forall i :: k < i < |events| ==> events[i].tag != CallDisconnectEvent
    ensures Run(history, events, ids) == Collect(events[k + 1..], ids[k + 1..])
    decreases k
  {
    if k == 0 {
      assert Step(history, events[0], ids[0]) == [];
      forall i | 0 <= i < |events[1..]| ensures events[1..][i].tag != CallDisconnectEvent {
        assert events[1..][i] == events[i + 1];
      }
      RunWithoutDisconnect([], events[1..], ids[1..]);
    } else {
      var rest, restIds := events[1..], ids[1..];
      forall i | k - 1 < i < |rest| ensures rest[i].tag != CallDisconnectEvent {
        assert rest[i] == events[i + 1];
      }
      RunAfterLastDisconnect(Step(history, events[0], ids[0]), rest, restIds, k - 1);
      assert rest[k..] == events[k + 1..];
      assert restIds[k..] == ids[k + 1..];
    }
  }

  /** A disconnect empties the history, so the next caller event leaves a
      one-element history. */
  lemma DisconnectThenCaller(history: seq<ChatMessage>, disconnect: SignalRMessage, caller: SignalRMessage, id1: string, id2: string)
    requires disconnect.tag == CallDisconnectEvent && caller.tag == CallerEvent
    ensures Step(Step(history, disconnect, id1), caller, id2)
         == [ChatMessage(id2, Caller, caller.data.timestamp, caller.data.message)]
  {
  }

  /** What the hook returns: its history, stably sorted by parsed timestamp. */
  function SortedView(timeKey: string -> int, history: seq<ChatMessage>): (r: seq<ChatMessage>)
    ensures Sorted(timeKey, r)
    ensures multiset(r) == multiset(history)
    ensures StableTo(timeKey, r, history)
  {
    SortSorted(timeKey, history);
    SortPermutes(timeKey, history);
    SortStable(timeKey, history);
    Sort(timeKey, history)
  }

  /** Two messages out of time order are put in time order: a caller line at T1
      followed by an AI line at T0 are shown AI first. */
  lemma SortedViewReorders(id1: string, id2: string)
    ensures
      var timeKey := (t: string) => if t == "T0" then 0 else 1;
      var hi := ChatMessage(id1, Caller, "T1", "hi");
      var hello := ChatMessage(id2, Ai, "T0", "hello");
      var history := Step(Step([], SignalRMessage(CallerEvent, TranscriptionData("T1", "hi")), id1),
                          SignalRMessage(AiEvent, TranscriptionData("T0", "hello")), id2);
      history == [hi, hello] && SortedView(timeKey, history) == [hello, hi]
  {
    var timeKey := (t: string) => if t == "T0" then 0 else 1;
    var hi := ChatMessage(id1, Caller, "T1", "hi");
    var hello := ChatMessage(id2, Ai, "T0", "hello");
    var first := Step([], SignalRMessage(CallerEvent, TranscriptionData("T1", "hi")), id1);
    assert first == [hi];
    assert Step(first, SignalRMessage(AiEvent, TranscriptionData("T0", "hello")), id2) == [hi, hello];
    assert Sort(timeKey, [hello]) == [hello];
    assert [hi, hello][1..] == [hello];
    assert Sort(timeKey, [hi, hello]) == Insert(timeKey, hi, [hello]);
  }
}
