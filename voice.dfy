/** The voice-call session (components/VoiceCallModal.tsx): the gapless
    playback scheduler (a start-time cursor and the set of live sources), the
    per-direction transcript buffers, the `active`-guarded status and the
    teardown. Times are ticks of the output audio clock; audio sources are
    named by consecutive handles in the order they were started. */
module Voice {
  import opened Types
  import opened Strings

  // ---------------------------------------------------------------------------
  // Audio bytes and their binary string
  // ---------------------------------------------------------------------------

  newtype byte = x: int | 0 <= x < 256

  /** The binary string `String.fromCharCode(bytes[i])`, one char per byte. */
  function BinaryOf(bytes: seq<byte>): (s: string)
    ensures |s| == |bytes|
    ensures forall i :: 0 <= i < |bytes| ==> s[i] as int == bytes[i] as int
  {
    seq(|bytes|, i requires 0 <= i < |bytes| => (bytes[i] as int) as char)
  }

  /** `bytes[i] = s.charCodeAt(i)` into a `Uint8Array`, which keeps the low
      eight bits. */
  function BytesOf(s: string): (bytes: seq<byte>)
    ensures |bytes| == |s|
    ensures forall i :: 0 <= i < |s| ==> bytes[i] as int == s[i] as int % 256
  {
    seq(|s|, i requires 0 <= i < |s| => (s[i] as int % 256) as byte)
  }

  /** Every byte sequence survives the trip through its binary string. */
  lemma BytesRoundTrip(bytes: seq<byte>)
    ensures BytesOf(BinaryOf(bytes)) == bytes
  {
    var back := BytesOf(BinaryOf(bytes));
    forall i | 0 <= i < |bytes| ensures back[i] == bytes[i] {
      assert back[i] as int == bytes[i] as int % 256;
    }
  }

  /** A string survives the trip through bytes exactly when every char is
      below 256. */
  lemma BinaryRoundTrip(s: string)
    ensures BinaryOf(BytesOf(s)) == s <==> forall i :: 0 <= i < |s| ==> s[i] as int < 256
  {
    var back := BinaryOf(BytesOf(s));
    if forall i :: 0 <= i < |s| ==> s[i] as int < 256 {
      forall i | 0 <= i < |s| ensures back[i] == s[i] {
        assert back[i] as int == s[i] as int % 256;
      }
    }
    if back == s {
      forall i | 0 <= i < |s| ensures s[i] as int < 256 {
        assert back[i] as int == BytesOf(s)[i] as int;
      }
    }
  }

  /** `encodeAudio` up to the base64 step: the loop that builds the binary string. */
  method EncodeAudio(bytes: array<byte>) returns (binary: string)
    ensures binary == BinaryOf(bytes[..])
  {
    binary := "";
    var i := 0;
    while i < bytes.Length
      invariant 0 <= i <= bytes.Length
      invariant binary == BinaryOf(bytes[..i])
    {
      binary := binary + [(bytes[i] as int) as char];
      i := i + 1;
    }
    assert bytes[..bytes.Length] == bytes[..];
  }

  /** `decodeAudio` after the base64 step: the loop that fills the byte array. */
  method DecodeAudio(binary: string) returns (bytes: array<byte>)
    ensures fresh(bytes)
    ensures bytes[..] == BytesOf(binary)
  {
    bytes := new byte[|binary|];
    var i := 0;
    while i < |binary|
      invariant 0 <= i <= |binary| == bytes.Length
      invariant bytes[..i] == BytesOf(binary)[..i]
    {
      bytes[i] := (binary[i] as int % 256) as byte;
      i := i + 1;
    }
    assert bytes[..] == bytes[..|binary|];
  }

  // ---------------------------------------------------------------------------
  // Session state and server messages
  // ---------------------------------------------------------------------------

  datatype CallStatus = Connecting | Connected | CallError | Ended

  /** When and for how long a started source plays. */
  datatype Playback = Playback(start: int, duration: nat) {
    function End(): int { start + duration }
  }

  /** A transcript line handed to `onVoiceMessage`. */
  datatype Emission = Emission(text: string, sender: Sender)

  /** One part of the model's turn: no audio data, or audio that arrives when
      the output clock reads `arrival` and that decodes to a buffer of the
      given duration, or fails to decode (`None`). */
  datatype AudioPart = NoAudio | Audio(arrival: int, decoded: Option<nat>)

  /** The fields of a server message the callback reads; `interruptTime` is
      the output clock when the interruption is handled. */
  datatype ServerMessage = ServerMessage(
    inputTranscription: Option<string>,
    outputTranscription: Option<string>,
    turnComplete: bool,
    modelTurn: seq<AudioPart>,
    interrupted: bool,
    interruptTime: int)

  /** The component's state and refs. `started[h]` is the playback of source
      `h`; `sources` are the sources that have not ended or been stopped. */
  datatype SessionState = SessionState(
    active: bool,
    status: CallStatus,
    serverActive: bool,
    muted: bool,
    cursor: int,
    sources: set<nat>,
    nextHandle: nat,
    started: seq<Playback>,
    userBuffer: string,
    modelBuffer: string)

  /** A transition's new state, the lines it emitted and the sources it stopped. */
  datatype Step = Step(state: SessionState, emitted: seq<Emission>, stopped: set<nat>)

  const Initial: SessionState :=
    SessionState(false, Connecting, false, false, 0, {}, 0, [], "", "")

  /** What the session keeps true between events: handles name started
      sources; live sources play one after another and all end by the cursor;
      the speaking flag is up while any source is live; an inactive session
      holds no transcript. */
  ghost predicate SessionValid(s: SessionState) {
    && |s.started| == s.nextHandle
    && (forall h :: h in s.sources ==> h < s.nextHandle)
    && (forall h :: h in s.sources ==> s.started[h].End() <= s.cursor)
    && (forall h1, h2 :: h1 in s.sources && h2 in s.sources && h1 < h2 ==>
          s.started[h1].End() <= s.started[h2].start)
    && (s.sources != {} ==> s.serverActive)
    && (!s.active ==> s.userBuffer == "" && s.modelBuffer == "")
  }

  lemma InitialValid()
    ensures SessionValid(Initial)
  {
  }

  // ---------------------------------------------------------------------------
  // Transcripts
  // ---------------------------------------------------------------------------

  /** The buffer after a flush: emptied unless it was blank. */
  function Drained(buffer: string): string {
    if IsBlank(buffer) then buffer else ""
  }

  /** The line a flush emits for one buffer: its trimmed text, unless blank. */
  function LineOf(buffer: string, sender: Sender): seq<Emission> {
    if IsBlank(buffer) then [] else [Emission(Trim(buffer), sender)]
  }

  /** `flushTranscriptions`: the user's line, then the contact's. */
  function Flushed(s: SessionState): (r: Step)
    ensures IsBlank(r.state.userBuffer) && IsBlank(r.state.modelBuffer)
    ensures r.state.(userBuffer := s.userBuffer, modelBuffer := s.modelBuffer) == s
    ensures r.stopped == {}
    ensures r.emitted == [] <==> IsBlank(s.userBuffer) && IsBlank(s.modelBuffer)
  {
    DrainedIsBlank(s.userBuffer);
    DrainedIsBlank(s.modelBuffer);
    Step(s.(userBuffer := Drained(s.userBuffer), modelBuffer := Drained(s.modelBuffer)),
         LineOf(s.userBuffer, User) + LineOf(s.modelBuffer, ContactSender), {})
  }

  /** A flushed line is non-empty and has no whitespace at either end. */
  lemma LineIsTrimmed(buffer: string, sender: Sender)
    ensures forall e :: e in LineOf(buffer, sender) ==>
              && e.text != [] && e.sender == sender
              && !IsWhitespace(e.text[0]) && !IsWhitespace(e.text[|e.text| - 1])
              && Trim(e.text) == e.text
  {
    TrimEnds(buffer);
    TrimIdempotent(buffer);
  }

  /** A drained buffer is blank, so draining again keeps it and emits nothing. */
  lemma DrainedIsBlank(buffer: string)
    ensures IsBlank(Drained(buffer))
    ensures Drained(Drained(buffer)) == Drained(buffer)
    ensures LineOf(Drained(buffer), User) == [] && LineOf(Drained(buffer), ContactSender) == []
  {
    assert Trim("") == "";
  }

  /** A flush emits the user's line before the contact's, each trimmed and
      non-empty, and a second flush emits nothing and changes nothing. */
  lemma FlushProperties(s: SessionState)
    ensures var f := Flushed(s);
            && |f.emitted| <= 2
            && (forall e :: e in f.emitted ==>
                  e.text != [] && !IsWhitespace(e.text[0]) && !IsWhitespace(e.text[|e.text| - 1]))
            && (|f.emitted| == 2 ==> f.emitted[0].sender == User && f.emitted[1].sender == ContactSender)
            && Flushed(f.state) == Step(f.state, [], {})
  {
    LineIsTrimmed(s.userBuffer, User);
    LineIsTrimmed(s.modelBuffer, ContactSender);
    DrainedIsBlank(s.userBuffer);
    DrainedIsBlank(s.modelBuffer);
  }

  // ---------------------------------------------------------------------------
  // Scheduling
  // ---------------------------------------------------------------------------

  function Max(a: int, b: int): int {
    if a >= b then a else b
  }

  /** One audio part: the speaking flag goes up, the cursor moves to the later of
      itself and the arrival time; a decoded buffer then starts at the cursor
      as a new live source and pushes the cursor past its end. */
  function AfterPart(s: SessionState, p: AudioPart): (r: SessionState)
    ensures p.NoAudio? ==> r == s
    ensures p.Audio? && p.decoded.None? ==> r == s.(serverActive := true, cursor := Max(s.cursor, p.arrival))
    ensures p.Audio? && p.decoded.Some? ==>
              var start := Max(s.cursor, p.arrival);
              r == s.(serverActive := true, cursor := start + p.decoded.value,
                      sources := s.sources + {s.nextHandle}, nextHandle := s.nextHandle + 1,
                      started := s.started + [Playback(start, p.decoded.value)])
  {
    match p
    case NoAudio => s
    case Audio(arrival, decoded) =>
      var start := Max(s.cursor, arrival);
      match decoded
      case None => s.(serverActive := true, cursor := start)
      case Some(d) =>
        s.(serverActive := true, cursor := start + d, sources := s.sources + {s.nextHandle},
           nextHandle := s.nextHandle + 1, started := s.started + [Playback(start, d)])
  }

  /** The `for (const part of parts)` loop. */
  function ScheduleParts(s: SessionState, parts: seq<AudioPart>): (r: SessionState)
    ensures r.cursor >= s.cursor && s.sources <= r.sources
    ensures r.(serverActive := s.serverActive, cursor := s.cursor, sources := s.sources,
               nextHandle := s.nextHandle, started := s.started) == s
    decreases |parts|
  {
    if parts == [] then s else ScheduleParts(AfterPart(s, parts[0]), parts[1..])
  }

  /** The handles `lo` up to but excluding `hi`. */
  function HandlesBetween(lo: nat, hi: nat): (r: set<nat>)
    ensures forall h :: h in r <==> lo <= h < hi
    decreases hi - lo
  {
    if lo >= hi then {} else {lo} + HandlesBetween(lo + 1, hi)
  }

  predicate HasAudio(parts: seq<AudioPart>) {
    exists i :: 0 <= i < |parts| && parts[i].Audio?
  }

  /** Scheduling starts new sources only, with consecutive handles, keeps
      everything but the speaking flag, the cursor and the sources, never moves
      the cursor back, and places every new playback between the old cursor and
      the new one, each after the one before. */
  lemma ScheduleTimeline(s: SessionState, parts: seq<AudioPart>)
    requires |s.started| == s.nextHandle
    ensures var r := ScheduleParts(s, parts);
            var n := |s.started|;
            && |r.started| == r.nextHandle >= n
            && r.started[..n] == s.started
            && r.sources == s.sources + HandlesBetween(n, r.nextHandle)
            && r.cursor >= s.cursor
            && r.serverActive == (s.serverActive || HasAudio(parts))
            && r.(serverActive := s.serverActive, cursor := s.cursor, sources := s.sources,
                  nextHandle := s.nextHandle, started := s.started) == s
            && (forall i :: n <= i < |r.started| ==> s.cursor <= r.started[i].start && r.started[i].End() <= r.cursor)
            && (forall i, j :: n <= i < j < |r.started| ==> r.started[i].End() <= r.started[j].start)
  {
    ScheduleShape(s, parts);
    ScheduleOrder(s, parts);
  }

  /** What scheduling changes: new sources with consecutive handles, one
      playback each, the speaking flag exactly when audio came; nothing else. */
  lemma {:induction false} ScheduleShape(s: SessionState, parts: seq<AudioPart>)
    requires |s.started| == s.nextHandle
    ensures var r := ScheduleParts(s, parts);
            var n := |s.started|;
            && |r.started| == r.nextHandle >= n
            && r.started[..n] == s.started
            && r.sources == s.sources + HandlesBetween(n, r.nextHandle)
            && r.serverActive == (s.serverActive || HasAudio(parts))
            && r.(serverActive := s.serverActive, cursor := s.cursor, sources := s.sources,
                  nextHandle := s.nextHandle, started := s.started) == s
    decreases |parts|
  {
    if parts != [] {
      var s1 := AfterPart(s, parts[0]);
      ScheduleShape(s1, parts[1..]);
      var r := ScheduleParts(s1, parts[1..]);
      var n := |s.started|;
      assert r.started[..n] == s.started by {
        assert r.started[..|s1.started|][..n] == s1.started[..n];
      }
      assert HasAudio(parts) == (parts[0].Audio? || HasAudio(parts[1..])) by {
        if HasAudio(parts[1..]) {
          var i :| 0 <= i < |parts[1..]| && parts[1..][i].Audio?;
          assert parts[i + 1].Audio?;
        }
      }
    }
  }

  /** Where scheduling puts the new playbacks: between the old and the new
      cursor, in order, without overlap. */
  lemma {:induction false} ScheduleOrder(s: SessionState, parts: seq<AudioPart>)
    requires |s.started| == s.nextHandle
    ensures var r := ScheduleParts(s, parts);
            var n := |s.started|;
            && r.cursor >= s.cursor
            && (forall i :: n <= i < |r.started| ==> s.cursor <= r.started[i].start && r.started[i].End() <= r.cursor)
            && (forall i, j :: n <= i < j < |r.started| ==> r.started[i].End() <= r.started[j].start)
    decreases |parts|
  {
    if parts != [] {
      var s1 := AfterPart(s, parts[0]);
      ScheduleOrder(s1, parts[1..]);
      var r := ScheduleParts(s1, parts[1..]);
      var n := |s.started|;
      if parts[0].Audio? && parts[0].decoded.Some? {
        assert |r.started| >= n + 1 && r.started[n] == s1.started[n] by {
          ScheduleShape(s1, parts[1..]);
          assert r.started[..n + 1][n] == s1.started[n];
        }
      } else {
        assert s1.started == s.started;
      }
    }
  }

  /** Every audio part arrives no later than the cursor as the parts before it
      have left it. */
  predicate ArrivesInTime(s: SessionState, parts: seq<AudioPart>)
    decreases |parts|
  {
    parts == [] ||
    ((parts[0].Audio? ==> parts[0].arrival <= s.cursor) && ArrivesInTime(AfterPart(s, parts[0]), parts[1..]))
  }

  /** A batch whose parts all arrive by the starting cursor arrives in time,
      since scheduling never moves the cursor back. */
  lemma {:induction false} BatchArrivesInTime(s: SessionState, parts: seq<AudioPart>)
    requires forall i :: 0 <= i < |parts| && parts[i].Audio? ==> parts[i].arrival <= s.cursor
    ensures ArrivesInTime(s, parts)
    decreases |parts|
  {
    if parts != [] {
      var s1 := AfterPart(s, parts[0]);
      forall i | 0 <= i < |parts[1..]| && parts[1..][i].Audio?
        ensures parts[1..][i].arrival <= s1.cursor
      {
        assert parts[i + 1].Audio?;
      }
      BatchArrivesInTime(s1, parts[1..]);
    }
  }

  /** Parts that arrive in time play back to back: the first new playback
      starts at the old cursor, each further one where the one before ends,
      and the cursor ends up at the last end. */
  lemma {:induction false} BackToBack(s: SessionState, parts: seq<AudioPart>)
    requires |s.started| == s.nextHandle
    requires ArrivesInTime(s, parts)
    ensures var r := ScheduleParts(s, parts);
            var n := |s.started|;
            && (|r.started| > n ==> r.started[n].start == s.cursor && r.cursor == r.started[|r.started| - 1].End())
            && (|r.started| == n ==> r.cursor == s.cursor)
            && (forall i :: n <= i < |r.started| - 1 ==> r.started[i + 1].start == r.started[i].End())
    decreases |parts|
  {
    if parts != [] {
      var s1 := AfterPart(s, parts[0]);
      BackToBack(s1, parts[1..]);
      var r := ScheduleParts(s1, parts[1..]);
      var n := |s.started|;
      if parts[0].Audio? && parts[0].decoded.Some? {
        assert s1.started == s.started + [Playback(s.cursor, parts[0].decoded.value)];
        assert |r.started| >= n + 1 && r.started[n] == s1.started[n] by {
          ScheduleTimeline(s1, parts[1..]);
          assert r.started[..n + 1][n] == s1.started[n];
        }
      } else {
        assert s1.started == s.started && s1.cursor == s.cursor;
      }
    }
  }

  /** Scheduling keeps the session's invariant: a new source starts no earlier
      than the cursor, by which every live source has ended. */
  lemma {:induction false} ScheduleKeepsValid(s: SessionState, parts: seq<AudioPart>)
    requires SessionValid(s)
    ensures SessionValid(ScheduleParts(s, parts))
    decreases |parts|
  {
    if parts != [] {
      var s1 := AfterPart(s, parts[0]);
      assert SessionValid(s1) by {
        if parts[0].Audio? && parts[0].decoded.Some? {
          assert forall h :: h in s.sources ==> s1.started[h] == s.started[h];
        }
      }
      ScheduleKeepsValid(s1, parts[1..]);
    }
  }

  // ---------------------------------------------------------------------------
  // Events
  // ---------------------------------------------------------------------------

  /** `cleanup`: every live source is stopped and forgotten; an active session
      is marked ended and not speaking; the cursor returns to 0 and both
      transcript buffers are discarded without being emitted. */
  function Cleaned(s: SessionState): (r: Step)
    ensures r.stopped == s.sources && r.emitted == []
    ensures r.state.sources == {} && r.state.cursor == 0
    ensures r.state.userBuffer == "" && r.state.modelBuffer == ""
    ensures r.state.status == if s.active then Ended else s.status
    ensures r.state.serverActive == (s.serverActive && !s.active)
    ensures r.state.active == s.active && r.state.muted == s.muted
    ensures r.state.started == s.started && r.state.nextHandle == s.nextHandle
  {
    var t := s.(sources := {}, cursor := 0, userBuffer := "", modelBuffer := "");
    Step(if s.active then t.(status := Ended, serverActive := false) else t, [], s.sources)
  }

  /** A second cleanup stops nothing and changes nothing. */
  lemma CleanupIdempotent(s: SessionState)
    ensures var once := Cleaned(s).state;
            Cleaned(once).state == once && Cleaned(once).stopped == {}
  {
    var once := Cleaned(s).state;
    assert Cleaned(once).state == once;
  }

  /** `onmessage`. An inactive session ignores the message. Otherwise the
      transcription fragments are appended, a completed turn is flushed, the
      audio parts are scheduled, and an interruption flushes again, stops every
      live source, moves the cursor to the interruption time and lowers the
      speaking flag. */
  function Receive(s: SessionState, msg: ServerMessage): (r: Step)
    ensures !s.active ==> r.state == s && r.emitted == [] && r.stopped == {}
    ensures r.state.active == s.active && r.state.status == s.status && r.state.muted == s.muted
    ensures !msg.turnComplete && !msg.interrupted ==> r.emitted == []
    ensures !msg.interrupted ==> r.stopped == {} && s.sources <= r.state.sources
    ensures s.active && msg.interrupted ==> s.sources <= r.stopped && r.state.sources == {}
  {
    if !s.active then Step(s, [], {})
    else
      var s1 := s.(userBuffer := s.userBuffer + msg.inputTranscription.GetOr(""),
                   modelBuffer := s.modelBuffer + msg.outputTranscription.GetOr(""));
      var f1 := if msg.turnComplete then Flushed(s1) else Step(s1, [], {});
      var s2 := ScheduleParts(f1.state, msg.modelTurn);
      if msg.interrupted then
        var f2 := Flushed(s2);
        Step(f2.state.(sources := {}, cursor := msg.interruptTime, serverActive := false),
             f1.emitted + f2.emitted, s2.sources)
      else Step(s2, f1.emitted, {})
  }

  /** An interruption leaves no live source and a silent contact, stops every
      source that was live or just started, and restarts the cursor at the
      interruption time. */
  lemma InterruptStopsEverything(s: SessionState, msg: ServerMessage)
    requires SessionValid(s) && s.active && msg.interrupted
    ensures var r := Receive(s, msg);
            && r.state.sources == {} && !r.state.serverActive
            && r.state.cursor == msg.interruptTime
            && s.sources <= r.stopped
            && r.state.status == s.status && r.state.active
            && r.emitted == LineOf(s.userBuffer + msg.inputTranscription.GetOr(""), User) +
                            LineOf(s.modelBuffer + msg.outputTranscription.GetOr(""), ContactSender)
            && IsBlank(r.state.userBuffer) && IsBlank(r.state.modelBuffer)
  {
    var s1 := s.(userBuffer := s.userBuffer + msg.inputTranscription.GetOr(""),
                 modelBuffer := s.modelBuffer + msg.outputTranscription.GetOr(""));
    var f1 := if msg.turnComplete then Flushed(s1) else Step(s1, [], {});
    ScheduleTimeline(f1.state, msg.modelTurn);
    TurnEndFlushes(s, msg);
  }

  /** A turn end or an interruption flushes the transcripts: the lines emitted
      are those of the buffers with this message's fragments appended, the
      user's first, and both buffers end blank. When a message carries both
      signals the second flush finds blank buffers and emits nothing. */
  lemma TurnEndFlushes(s: SessionState, msg: ServerMessage)
    requires s.active && (msg.turnComplete || msg.interrupted)
    ensures var r := Receive(s, msg);
            && r.emitted == LineOf(s.userBuffer + msg.inputTranscription.GetOr(""), User) +
                            LineOf(s.modelBuffer + msg.outputTranscription.GetOr(""), ContactSender)
            && IsBlank(r.state.userBuffer) && IsBlank(r.state.modelBuffer)
  {
    var s1 := s.(userBuffer := s.userBuffer + msg.inputTranscription.GetOr(""),
                 modelBuffer := s.modelBuffer + msg.outputTranscription.GetOr(""));
    if msg.turnComplete {
      FlushAtTurnEnd(s1, msg);
    } else {
      FlushAtInterrupt(s1, msg);
    }
  }

  /** At a turn end the first flush emits the lines; an interruption in the
      same message then finds both buffers blank. */
  lemma FlushAtTurnEnd(s1: SessionState, msg: ServerMessage)
    requires msg.turnComplete
    ensures var f1 := Flushed(s1);
            var s2 := ScheduleParts(f1.state, msg.modelTurn);
            var r := if msg.interrupted then Step(s2, f1.emitted + Flushed(s2).emitted, {}) else Step(s2, f1.emitted, {});
            && r.emitted == LineOf(s1.userBuffer, User) + LineOf(s1.modelBuffer, ContactSender)
            && IsBlank(Flushed(s2).state.userBuffer) && IsBlank(Flushed(s2).state.modelBuffer)
            && IsBlank(s2.userBuffer) && IsBlank(s2.modelBuffer)
  {
    var f1 := Flushed(s1);
    var s2 := ScheduleParts(f1.state, msg.modelTurn);
    assert s2.userBuffer == f1.state.userBuffer && s2.modelBuffer == f1.state.modelBuffer;
    assert Flushed(s2).emitted == [];
    assert f1.emitted + [] == f1.emitted;
  }

  /** An interruption without a turn end flushes the buffers as the message's
      fragments left them. */
  lemma FlushAtInterrupt(s1: SessionState, msg: ServerMessage)
    ensures var s2 := ScheduleParts(s1, msg.modelTurn);
            && [] + Flushed(s2).emitted == LineOf(s1.userBuffer, User) + LineOf(s1.modelBuffer, ContactSender)
            && IsBlank(Flushed(s2).state.userBuffer) && IsBlank(Flushed(s2).state.modelBuffer)
  {
    var s2 := ScheduleParts(s1, msg.modelTurn);
    assert s2.userBuffer == s1.userBuffer && s2.modelBuffer == s1.modelBuffer;
    assert [] + Flushed(s2).emitted == Flushed(s2).emitted;
  }

  /** Without a turn end or an interruption nothing is emitted: the fragments
      stay in their buffers, in arrival order. */
  lemma FragmentsAccumulate(s: SessionState, msg: ServerMessage)
    requires SessionValid(s) && s.active && !msg.turnComplete && !msg.interrupted
    ensures var r := Receive(s, msg);
            && r.emitted == [] && r.stopped == {}
            && r.state.userBuffer == s.userBuffer + msg.inputTranscription.GetOr("")
            && r.state.modelBuffer == s.modelBuffer + msg.outputTranscription.GetOr("")
  {
    var s1 := s.(userBuffer := s.userBuffer + msg.inputTranscription.GetOr(""),
                 modelBuffer := s.modelBuffer + msg.outputTranscription.GetOr(""));
    ScheduleTimeline(s1, msg.modelTurn);
  }

  /** A part that fails to decode adds no source but still raises the speaking
      flag and moves the cursor to the arrival time if that is later: with no
      other audio the contact shows as speaking while nothing plays. */
  lemma DecodeFailureKeepsSpeaking(s: SessionState, arrival: int)
    requires SessionValid(s) && s.active && s.sources == {}
    ensures var msg := ServerMessage(None, None, false, [Audio(arrival, None)], false, 0);
            var r := Receive(s, msg).state;
            && r.sources == {} && r.serverActive && r.cursor == Max(s.cursor, arrival)
  {
    var parts := [Audio(arrival, None)];
    assert parts[1..] == [];
    var s1 := s.(userBuffer := s.userBuffer + "", modelBuffer := s.modelBuffer + "");
    assert ScheduleParts(s1, parts) == AfterPart(s1, parts[0]);
  }

  /** `onclose`: the flush is not guarded by `active`, the status is. */
  function ServerClosed(s: SessionState): (r: Step)
    ensures r.emitted == Flushed(s).emitted
    ensures IsBlank(r.state.userBuffer) && IsBlank(r.state.modelBuffer)
    ensures r.state.status == if s.active then Ended else s.status
    ensures r.stopped == {} && r.state.sources == s.sources && r.state.active == s.active
  {
    var f := Flushed(s);
    Step(if s.active then f.state.(status := Ended) else f.state, f.emitted, {})
  }

  /** The events the session reacts to. `Deactivate` is the effect for a closed
      modal and also the teardown it leaves behind (both set `active` to false
      first, then clean up); `Activate` is the effect for an open modal. */
  datatype Event =
    | Activate
    | Deactivate
    | Connect
    | SetupFailed
    | Opened
    | Received(msg: ServerMessage)
    | SessionClosed
    | SessionError
    | SourceEnded(handle: nat)
    | MuteToggled

  function Apply(s: SessionState, e: Event): (r: Step)
    ensures r.state.active == if e.Activate? then true else if e.Deactivate? then false else s.active
    ensures r.state.muted == if e.MuteToggled? then !s.muted else s.muted
    ensures r.emitted != [] ==> e.Received? || e.SessionClosed?
    ensures r.stopped != {} ==> e.Deactivate? || e.Received?
  {
    match e
    case Activate => Step(s.(active := true), [], {})
    case Deactivate => Cleaned(s.(active := false))
    case Connect => Step(s.(status := Connecting), [], {})
    case SetupFailed => Step(s.(status := CallError), [], {})
    case Opened => Step(if s.active then s.(status := Connected) else s, [], {})
    case Received(msg) => Receive(s, msg)
    case SessionClosed => ServerClosed(s)
    case SessionError => Step(if s.active then s.(status := CallError) else s, [], {})
    case SourceEnded(h) =>
      var rest := s.sources - {h};
      Step(if rest == {} then s.(sources := rest, serverActive := false) else s.(sources := rest), [], {})
    case MuteToggled => Step(s.(muted := !s.muted), [], {})
  }

  /** Every event keeps the session's invariant. */
  lemma ApplyKeepsValid(s: SessionState, e: Event)
    requires SessionValid(s)
    ensures SessionValid(Apply(s, e).state)
  {
    match e
    case Received(msg) => ReceiveKeepsValid(s, msg);
    case SessionClosed => ServerClosedKeepsValid(s);
    case _ =>
  }

  lemma ReceiveKeepsValid(s: SessionState, msg: ServerMessage)
    requires SessionValid(s)
    ensures SessionValid(Receive(s, msg).state)
  {
    if s.active {
      var s1 := s.(userBuffer := s.userBuffer + msg.inputTranscription.GetOr(""),
                   modelBuffer := s.modelBuffer + msg.outputTranscription.GetOr(""));
      var f1 := if msg.turnComplete then Flushed(s1) else Step(s1, [], {});
      ScheduleKeepsValid(f1.state, msg.modelTurn);
    }
  }

  lemma ServerClosedKeepsValid(s: SessionState)
    requires SessionValid(s)
    ensures SessionValid(ServerClosed(s).state)
  {
    DrainedIsBlank("");
  }

  /** While the session is inactive the server callbacks change nothing and emit
      nothing; the close callback flushes regardless, but an inactive session
      has nothing to flush. */
  lemma InactiveCallbacksInert(s: SessionState, e: Event)
    requires SessionValid(s) && !s.active
    requires e.Opened? || e.Received? || e.SessionClosed? || e.SessionError?
    ensures Apply(s, e) == Step(s, [], {})
  {
    assert Trim("") == "";
  }

  /** Closing the modal never shows "ended": `active` is already false when the
      cleanup checks it. */
  lemma DeactivateKeepsStatus(s: SessionState)
    ensures Apply(s, Deactivate).state.status == s.status
    ensures !Apply(s, Deactivate).state.active
  {
  }

  /** An error or an end is not final: a later open callback in an active
      session reports the call as connected again. */
  lemma StatusNotFinal(s: SessionState)
    requires s.active && (s.status == CallError || s.status == Ended)
    ensures Apply(s, Opened).state.status == Connected
  {
  }

  /** Microphone frames go out only while the session is active and unmuted;
      `mutedAtStart` is the mute flag the capture callback was created with. */
  predicate SendsFrame(s: SessionState, mutedAtStart: bool) {
    s.active && !mutedAtStart
  }

  // ---------------------------------------------------------------------------
  // The component
  // ---------------------------------------------------------------------------

  class VoiceSession {
    var active: bool
    var status: CallStatus
    var serverActive: bool
    var muted: bool
    var cursor: int
    var sources: set<nat>
    var nextHandle: nat
    var started: seq<Playback>
    var userBuffer: string
    var modelBuffer: string

    function State(): SessionState
      reads this
    {
      SessionState(active, status, serverActive, muted, cursor, sources, nextHandle, started,
                   userBuffer, modelBuffer)
    }

    ghost predicate Valid()
      reads this
    {
      SessionValid(State())
    }

    constructor ()
      ensures State() == Initial && Valid()
    {
      active, status, serverActive, muted := false, Connecting, false, false;
      cursor, sources, nextHandle, started := 0, {}, 0, [];
      userBuffer, modelBuffer := "", "";
    }

    /** The effect for an open modal (the session start itself is a separate event). */
    method Activate()
      modifies this
      requires Valid()
      ensures State() == Apply(old(State()), Event.Activate).state && Valid()
    {
      active := true;
      ApplyKeepsValid(old(State()), Event.Activate);
    }

    /** `cleanup`. */
    method Cleanup() returns (stopped: set<nat>)
      modifies this
      ensures State() == Cleaned(old(State())).state
      ensures stopped == Cleaned(old(State())).stopped
    {
      stopped := sources;
      sources := {};
      if active {
        status := Ended;
        serverActive := false;
      }
      cursor := 0;
      userBuffer := "";
      modelBuffer := "";
    }

    /** The effect for a closed modal, and the teardown it leaves behind. */
    method Deactivate() returns (stopped: set<nat>)
      modifies this
      requires Valid()
      ensures State() == Apply(old(State()), Event.Deactivate).state && Valid()
      ensures stopped == Apply(old(State()), Event.Deactivate).stopped
    {
      active := false;
      stopped := Cleanup();
      ApplyKeepsValid(old(State()), Event.Deactivate);
    }

    /** The start of `startSession`. */
    method Connect()
      modifies this
      requires Valid()
      ensures State() == Apply(old(State()), Event.Connect).state && Valid()
    {
      status := Connecting;
      ApplyKeepsValid(old(State()), Event.Connect);
    }

    /** The catch of `startSession`: no check of `active`. */
    method SetupFailed()
      modifies this
      requires Valid()
      ensures State() == Apply(old(State()), Event.SetupFailed).state && Valid()
    {
      status := CallError;
      ApplyKeepsValid(old(State()), Event.SetupFailed);
    }

    /** `flushTranscriptions`. */
    method Flush() returns (emitted: seq<Emission>)
      modifies this
      ensures State() == Flushed(old(State())).state
      ensures emitted == Flushed(old(State())).emitted
    {
      ghost var s0 := State();
      emitted := [];
      var user := Trim(userBuffer);
      if user != [] {
        emitted := emitted + [Emission(user, User)];
        userBuffer := "";
      }
      assert userBuffer == Drained(s0.userBuffer) && emitted == LineOf(s0.userBuffer, User);
      var model := Trim(modelBuffer);
      if model != [] {
        emitted := emitted + [Emission(model, ContactSender)];
        modelBuffer := "";
      }
      assert modelBuffer == Drained(s0.modelBuffer);
    }

    /** `onopen`. */
    method OnOpen()
      modifies this
      requires Valid()
      ensures State() == Apply(old(State()), Opened).state && Valid()
    {
      if active {
        status := Connected;
      }
      ApplyKeepsValid(old(State()), Opened);
    }

    /** `onaudioprocess`: the binary string of the frame's PCM bytes is sent when
        the session is active and was not muted when capture started. */
    method CaptureFrame(frame: array<byte>, mutedAtStart: bool) returns (sent: Option<string>)
      ensures sent.Some? <==> SendsFrame(State(), mutedAtStart)
      ensures sent.Some? ==> sent.value == BinaryOf(frame[..])
    {
      if !active || mutedAtStart {
        return None;
      }
      var binary := EncodeAudio(frame);
      sent := Some(binary);
    }

    /** One audio part of the model's turn. */
    method SchedulePart(p: AudioPart)
      modifies this
      ensures State() == AfterPart(old(State()), p)
    {
      if p.Audio? {
        serverActive := true;
        cursor := Max(cursor, p.arrival);
        if p.decoded.Some? {
          started := started + [Playback(cursor, p.decoded.value)];
          cursor := cursor + p.decoded.value;
          sources := sources + {nextHandle};
          nextHandle := nextHandle + 1;
        }
      }
    }

    /** The loop over the parts of the model's turn. */
    method ScheduleAll(parts: seq<AudioPart>)
      modifies this
      ensures State() == ScheduleParts(old(State()), parts)
    {
      var i := 0;
      while i < |parts|
        invariant 0 <= i <= |parts|
        invariant ScheduleParts(State(), parts[i..]) == ScheduleParts(old(State()), parts)
      {
        assert parts[i..][1..] == parts[i + 1..];
        SchedulePart(parts[i]);
        i := i + 1;
      }
      assert parts[i..] == [];
    }

    /** `onmessage`. */
    method OnMessage(msg: ServerMessage) returns (emitted: seq<Emission>, stopped: set<nat>)
      modifies this
      requires Valid()
      ensures State() == Receive(old(State()), msg).state && Valid()
      ensures emitted == Receive(old(State()), msg).emitted
      ensures stopped == Receive(old(State()), msg).stopped
    {
      ghost var s0 := State();
      ReceiveKeepsValid(s0, msg);
      emitted, stopped := [], {};
      if !active {
        return;
      }
      AppendFragments(msg);
      if msg.turnComplete {
        emitted := Flush();
      }
      ScheduleAll(msg.modelTurn);
      if msg.interrupted {
        var more := Flush();
        emitted := emitted + more;
        stopped := Interrupt(msg.interruptTime);
      }
    }

    /** The transcription fragments of one message join their buffers. */
    method AppendFragments(msg: ServerMessage)
      modifies this
      ensures State() == old(State()).(userBuffer := old(userBuffer) + msg.inputTranscription.GetOr(""),
                                       modelBuffer := old(modelBuffer) + msg.outputTranscription.GetOr(""))
    {
      userBuffer := userBuffer + msg.inputTranscription.GetOr("");
      modelBuffer := modelBuffer + msg.outputTranscription.GetOr("");
    }

    /** The interruption branch after its flush: every live source is stopped
        and the cursor restarts at the interruption time. */
    method Interrupt(t: int) returns (stopped: set<nat>)
      modifies this
      ensures stopped == old(sources)
      ensures State() == old(State()).(sources := {}, cursor := t, serverActive := false)
    {
      stopped := sources;
      sources := {};
      cursor := t;
      serverActive := false;
    }

    /** `onclose`: the flush is not guarded by `active`, the status is. */
    method OnClose() returns (emitted: seq<Emission>)
      modifies this
      requires Valid()
      ensures State() == ServerClosed(old(State())).state && Valid()
      ensures emitted == ServerClosed(old(State())).emitted
    {
      ghost var s0 := State();
      ghost var f := Flushed(s0);
      ServerClosedKeepsValid(s0);
      assert ServerClosed(s0) == Step(if s0.active then f.state.(status := Ended) else f.state, f.emitted, {});
      emitted := Flush();
      if active {
        status := Ended;
      }
    }

    /** `onerror`. */
    method OnError()
      modifies this
      requires Valid()
      ensures State() == Apply(old(State()), SessionError).state && Valid()
    {
      if active {
        status := CallError;
      }
      ApplyKeepsValid(old(State()), SessionError);
    }

    /** A source's `ended` listener: it leaves the live set, and the speaking
        flag drops once the set is empty. */
    method OnSourceEnded(h: nat)
      modifies this
      requires Valid()
      ensures State() == Apply(old(State()), SourceEnded(h)).state && Valid()
    {
      sources := sources - {h};
      if sources == {} {
        serverActive := false;
      }
      ApplyKeepsValid(old(State()), SourceEnded(h));
    }

    /** `handleMuteToggle`. */
    method ToggleMute()
      modifies this
      requires Valid()
      ensures State() == Apply(old(State()), MuteToggled).state && Valid()
    {
      muted := !muted;
      ApplyKeepsValid(old(State()), MuteToggled);
    }
  }
}
