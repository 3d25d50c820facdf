/** The page component's non-rendering logic: the enable flag, forwarding of
    transcript lines to the relay, the manual send, and auto-forwarding. The
    HTTP call is an input: each operation is given what `fetch` produced. */
module Client {
  import opened Wrappers
  import opened Types
  import opened Json
  import TimestampOrder
  import Transcript
  import Connection
  import Relay

  /** `SIGNALR_HUB_URL && AUTH_TOKEN`: the value the enable flag is set to. */
  function EnabledFlag(hubUrl: Option<string>, token: Option<string>): bool {
    Present(hubUrl) && Present(token)
  }

  /** The page feeds the hook the environment values and the derived flag, so the
      hook's gate opens exactly when both values are set, and the hook never
      reports its own missing-token error: the flag is already false then. */
  lemma EnabledFlagGate(s: Connection.HookState, hubUrl: Option<string>, token: Option<string>)
    ensures Connection.GateOpen(Connection.HookParams(hubUrl, token, EnabledFlag(hubUrl, token)))
        <==> Present(hubUrl) && Present(token)
    ensures Connection.Activate(s, Connection.HookParams(hubUrl, token, EnabledFlag(hubUrl, token))).error
         != Some(Connection.TokenMissing)
  {
  }

  /** The wire name of a sender, as the page passes it on. */
  function SenderName(sender: Sender): string {
    match sender
    case Caller => "caller"
    case Ai => "ai"
  }

  /** Relay speaker label: only `"caller"` becomes `"user"`. */
  function SpeakerLabel(speaker: string): (r: string)
    ensures r == "user" || r == "ai"
    ensures r == "user" <==> speaker == "caller"
  {
    if speaker == "caller" then "user" else "ai"
  }

  /** Manually typed text is sent with speaker `"user"`, which is labelled `"ai"`. */
  lemma ManualSendLabelledAi()
    ensures SpeakerLabel("user") == "ai"
  {
  }

  /** The JSON body `forwardToCloudflare` posts. */
  function ForwardBody(transcript: string, speaker: string, now: string): (o: Object)
    ensures o.Keys == {"transcript", "speaker", "type", "confidence", "timestamp"}
    ensures o["transcript"] == Str(transcript) && o["timestamp"] == Str(now)
    ensures o["speaker"] == Str(SpeakerLabel(speaker))
    ensures o["type"] == Str("signalr-forward") && o["confidence"] == Num(0.95)
  {
    map[
      "transcript" := Str(transcript),
      "speaker" := Str(SpeakerLabel(speaker)),
      "type" := Str("signalr-forward"),
      "confidence" := Num(0.95),
      "timestamp" := Str(now)
    ]
  }

  /** A forwarded body always passes the relay's validation, keeps its fixed type,
      label and confidence, and its client timestamp overrides the relay's. */
  lemma ForwardBodyThroughRelay(transcript: string, speaker: string, now: string,
                                upstream: Relay.Upstream, sentAt: string, respondedAt: string)
    ensures var r := Relay.Handle("POST", ForwardBody(transcript, speaker, now), upstream, sentAt, respondedAt);
      && r.forwarded.Some?
      && r.forwarded.value["type"] == Str("signalr-forward")
      && r.forwarded.value["speaker"] == Str(SpeakerLabel(speaker))
      && r.forwarded.value["confidence"] == Num(0.95)
      && r.forwarded.value["transcript"] == Str(transcript)
      && r.forwarded.value["timestamp"] == Str(now)
      && r.forwarded.value["source"] == Str("vercel-app")
  {
    var body := ForwardBody(transcript, speaker, now);
    assert Truthy(Get(body, "type"));
    assert "timestamp" in body && "source" !in body;
    var p := Relay.Payload(body, sentAt);
    assert Relay.Handle("POST", body, upstream, sentAt, respondedAt).forwarded == Some(p);
  }

  /** What `fetch` to the relay produced: a response, or a thrown network error. */
  datatype FetchResult = Responded(ok: bool, status: nat) | NetworkError(reason: string)

  /** The boolean `forwardToCloudflare` resolves to. */
  function Forwarded(f: FetchResult): (r: bool)
    ensures r <==> f.Responded? && f.ok
  {
    match f
    case Responded(ok, _) => ok
    case NetworkError(_) => false
  }

  /** The characters `String.prototype.trim` removes: the ECMAScript WhiteSpace
      and LineTerminator code points. */
  predicate IsWhitespace(c: char) {
    var n := c as int;
    n == 0x09 || n == 0x0A || n == 0x0B || n == 0x0C || n == 0x0D || n == 0x20
    || n == 0xA0 || n == 0x1680 || (0x2000 <= n <= 0x200A) || n == 0x2028 || n == 0x2029
    || n == 0x202F || n == 0x205F || n == 0x3000 || n == 0xFEFF
  }

  function TrimStart(s: string): string
    decreases |s|
  {
    if s != [] && IsWhitespace(s[0]) then TrimStart(s[1..]) else s
  }

  function TrimEnd(s: string): string
    decreases |s|
  {
    if s != [] && IsWhitespace(s[|s| - 1]) then TrimEnd(s[..|s| - 1]) else s
  }

  function Trim(s: string): string {
    TrimEnd(TrimStart(s))
  }

  predicate AllWhitespace(s: string) {
    forall i :: 0 <= i < |s| ==> IsWhitespace(s[i])
  }

  lemma {:induction false} TrimStartEmpty(s: string)
    ensures TrimStart(s) == [] <==> AllWhitespace(s)
    decreases |s|
  {
    if s != [] && IsWhitespace(s[0]) {
      TrimStartEmpty(s[1..]);
      assert AllWhitespace(s[1..]) ==> AllWhitespace(s) by {
        if AllWhitespace(s[1..]) {
          forall i | 0 <= i < |s| ensures IsWhitespace(s[i]) {
            if i > 0 { assert s[i] == s[1..][i - 1]; }
          }
        }
      }
    }
  }

  lemma {:induction false} TrimEndKeepsShape(s: string)
    ensures TrimEnd(s) == [] ==> AllWhitespace(s)
    ensures s != [] && !IsWhitespace(s[0]) ==> TrimEnd(s) != []
    decreases |s|
  {
    if s != [] && IsWhitespace(s[|s| - 1]) {
      var init := s[..|s| - 1];
      TrimEndKeepsShape(init);
      if TrimEnd(s) == [] {
        forall i | 0 <= i < |s| ensures IsWhitespace(s[i]) {
          if i < |s| - 1 { assert s[i] == init[i]; }
        }
      }
      if !IsWhitespace(s[0]) {
        assert init != [] && init[0] == s[0];
      }
    }
  }

  /** `text.trim()` is empty exactly when every character of `text` is whitespace. */
  lemma TrimEmptyIffBlank(s: string)
    ensures Trim(s) == [] <==> AllWhitespace(s)
  {
    TrimStartEmpty(s);
    var t := TrimStart(s);
    TrimEndKeepsShape(t);
    if t == [] {
      assert TrimEnd(t) == [];
    } else {
      TrimStartFront(s);
    }
  }

  lemma {:induction false} TrimStartFront(s: string)
    ensures TrimStart(s) != [] ==> !IsWhitespace(TrimStart(s)[0])
    decreases |s|
  {
    if s != [] && IsWhitespace(s[0]) {
      TrimStartFront(s[1..]);
    }
  }

  /** The page's send controls. */
  datatype Ui = Ui(inputText: string, sending: bool)

  /** The controls after a send, and the body posted, if any. */
  datatype SendResult = SendResult(ui: Ui, posted: Option<Object>)

  /** `sendToCloudflare(text)`: blank text is dropped without touching anything;
      otherwise the text is forwarded as speaker `"user"`, `sending` ends false and
      the input is cleared only on success. */
  function Send(ui: Ui, text: string, now: string, fetch: FetchResult): (r: SendResult)
    ensures AllWhitespace(text) ==> r == SendResult(ui, None)
    ensures !AllWhitespace(text) ==>
              r.posted == Some(ForwardBody(text, "user", now)) && !r.ui.sending
              && (Forwarded(fetch) ==> r.ui.inputText == "")
              && (!Forwarded(fetch) ==> r.ui.inputText == ui.inputText)
  {
    TrimEmptyIffBlank(text);
    if Trim(text) == [] then SendResult(ui, None)
    else
      var busy := ui.(sending := true);
      var after := if Forwarded(fetch) then busy.(inputText := "") else busy;
      SendResult(after.(sending := false), Some(ForwardBody(text, "user", now)))
  }

  /** The message the auto-forward effect picks from the list the hook returns:
      the last one, when the toggle is on and the list is non-empty. */
  function AutoForwardPick(autoForward: bool, messages: seq<ChatMessage>): (r: Option<ChatMessage>)
    ensures r.Some? <==> autoForward && |messages| > 0
    ensures r.Some? ==> r.value == messages[|messages| - 1]
  {
    if autoForward && |messages| > 0 then Some(messages[|messages| - 1]) else None
  }

  /** The body the auto-forward effect posts for the hook's list. */
  function AutoForwardBody(autoForward: bool, messages: seq<ChatMessage>, now: string): (r: Option<Object>)
    ensures r.Some? <==> autoForward && |messages| > 0
    ensures r.Some? ==>
              var last := messages[|messages| - 1];
              && r.value == ForwardBody(last.text, SenderName(last.sender), now)
              && r.value["speaker"] == Str(if last.sender == Caller then "user" else "ai")
  {
    match AutoForwardPick(autoForward, messages)
    case Some(m) => Some(ForwardBody(m.text, SenderName(m.sender), now))
    case None => None
  }

  /** Over the sorted view, auto-forward picks a message of the history with the
      greatest parsed time, and among the messages with that time the one that
      arrived last. */
  lemma AutoForwardPicksLatestTime(timeKey: string -> int, history: seq<ChatMessage>)
    requires |history| > 0
    ensures var m := AutoForwardPick(true, Transcript.SortedView(timeKey, history)).value;
      && m in history
      && (forall e :: e in history ==> TimestampOrder.Key(timeKey, e) <= TimestampOrder.Key(timeKey, m))
      && var same := TimestampOrder.WithKey(timeKey, history, TimestampOrder.Key(timeKey, m));
         |same| > 0 && same[|same| - 1] == m
  {
    var v := Transcript.SortedView(timeKey, history);
    assert |multiset(v)| == |v| && |multiset(history)| == |history|;
    TimestampOrder.LastIsLatest(timeKey, v, history);
  }

  /** The pick is not necessarily the latest arrival: after a caller line at T1
      and an AI line at T0, the caller line is forwarded. */
  lemma AutoForwardNotLatestArrival(id1: string, id2: string)
    ensures
      var timeKey := (t: string) => if t == "T0" then 0 else 1;
      var hi := ChatMessage(id1, Caller, "T1", "hi");
      var hello := ChatMessage(id2, Ai, "T0", "hello");
      var history := [hi, hello];
      AutoForwardPick(true, Transcript.SortedView(timeKey, history)) == Some(hi)
      && history[|history| - 1] != hi
  {
  }
}
