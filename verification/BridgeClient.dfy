/**
  The bridge RPC client over a reconnecting socket (packages/bridge-client/src/client.ts).

  `State` holds the client's fields and, beside them, what its callers and the runtime can see:
  which calls were issued, how they were settled, which timers are armed and what was emitted.
  Sockets and calls have identities that are never reused.  Every callback is one event and a run
  is any sequence of events, so late events of sockets already replaced are runs like any other.
 */
module BridgeClient {

  import opened Wrappers

  type CallId = nat
  type Socket = nat

  datatype Failure = Transport | TimedOut | Internal | Remote | FrameTooLarge | NoSocket

  datatype Settlement = Resolved | Rejected(reason: Failure)

  datatype Call = Call(sock: Option<Socket>, timed: bool, ping: bool, streams: bool)

  datatype Emitted = Connected | Disconnected

  /** Frames as the client sorts them; `pong` says that a result is a ping's, with its version. */
  datatype Frame =
    | Unreadable
    | Progress(id: CallId, callbackThrows: bool)
    | MalformedProgress
    | Response(id: CallId, ok: bool, pong: bool)
    | MalformedResponse(to: Option<CallId>)

  datatype State = State(
    socket: Option<Socket>,
    pending: map<CallId, Call>,
    closed: bool,
    announced: bool,
    partialOf: Option<Socket>,          // whose unfinished frame the accumulator holds
    sockets: set<Socket>,
    issued: map<CallId, bool>,          // whether the request could be written: a socket, and one frame
    settled: map<CallId, Settlement>,
    timers: set<CallId>,
    emitted: seq<Emitted>
  )

  const INITIAL := State(None, map[], false, false, None, {}, map[], map[], {}, [])

  datatype Event =
    | SocketConnected(sock: Socket)
    | Send(id: CallId, fits: bool, timed: bool, ping: bool, streams: bool)
    | TimerFired(id: CallId)
    | WriteFailed(id: CallId)
    | Data(sock: Socket, frames: seq<Frame>, leftover: bool)
    | NextFrame(frame: Frame)   // a frame of an earlier chunk, after a listener did something in between
    | UndecodableData(sock: Socket)
    | SocketClosed(sock: Socket)
    | SocketError(sock: Socket)
    | RetryDropsSocket
    | Close

  // ----- what each callback does

  /** A promise keeps its first settlement. */
  function Settle(s: State, id: CallId, o: Settlement): State {
    if id in s.settled then s else s.(settled := s.settled[id := o])
  }

  function Forget(s: State, id: CallId, o: Settlement): State {
    Settle(s.(pending := s.pending - {id}, timers := s.timers - {id}), id, o)
  }

  /** The same for several calls at once. */
  function ForgetAll(s: State, ids: set<CallId>, o: Settlement): State {
    s.(pending := s.pending - ids,
       timers := s.timers - ids,
       settled := map id | id in s.settled.Keys + ids :: if id in s.settled then s.settled[id] else o)
  }

  function Emit(s: State, e: Emitted): State { s.(emitted := s.emitted + [e]) }

  function SentOn(s: State, sock: Socket): set<CallId> {
    set id | id in s.pending && s.pending[id].sock == Some(sock)
  }

  /** `callImpl` once it has connected: a request that cannot be written leaves its entry and timer behind. */
  function SendRequest(s: State, id: CallId, fits: bool, timed: bool, ping: bool, streams: bool): State {
    var written := s.socket.Some? && fits;
    var why := if s.socket.None? then NoSocket else FrameTooLarge;
    s.(pending := s.pending[id := Call(s.socket, timed, ping, streams)],
       timers := if timed then s.timers + {id} else s.timers,
       issued := s.issued[id := written],
       settled := if written || id in s.settled then s.settled else s.settled[id := Rejected(why)])
  }

  function HandleFrame(s: State, f: Frame): State {
    match f
    case Unreadable => s
    case MalformedProgress => s
    case Progress(id, throws) =>
      if id in s.pending && s.pending[id].streams && throws then Forget(s, id, Rejected(Internal)) else s
    case MalformedResponse(id) =>
      if id.Some? && id.value in s.pending then Forget(s, id.value, Rejected(Internal)) else s
    case Response(id, ok, pong) =>
      if id !in s.pending then s
      else if !ok then Forget(s, id, Rejected(Remote))
      else
        var greets := !s.announced && s.pending[id].ping && pong;
        Forget(if greets then Emit(s.(announced := true), Connected) else s, id, Resolved)
  }

  function HandleFrames(s: State, frames: seq<Frame>): State {
    if frames == [] then s else HandleFrame(HandleFrames(s, frames[..|frames| - 1]), frames[|frames| - 1])
  }

  function Unannounce(s: State, silently: bool): State {
    var s' := s.(announced := false);
    if s.announced && !silently then Emit(s', Disconnected) else s'
  }

  predicate Enabled(s: State, e: Event) {
    match e
    case SocketConnected(sock) => sock !in s.sockets && s.socket.None?
    case Send(id, _, _, _, _) => id !in s.issued
    case TimerFired(id) => id in s.timers
    case WriteFailed(id) => id in s.issued && s.issued[id]
    case Data(sock, _, _) => sock in s.sockets
    case NextFrame(_) => true
    case UndecodableData(sock) => sock in s.sockets
    case SocketClosed(sock) => sock in s.sockets
    case SocketError(sock) => sock in s.sockets
    case RetryDropsSocket => !s.closed
    case Close => true
  }

  function Step(s: State, e: Event): State {
    if !Enabled(s, e) then s else
    match e
    case SocketConnected(sock) => s.(socket := Some(sock), sockets := s.sockets + {sock}, partialOf := None)
    case Send(id, fits, timed, ping, streams) => SendRequest(s, id, fits, timed, ping, streams)
    case TimerFired(id) => Forget(s, id, Rejected(TimedOut))
    case WriteFailed(id) => Forget(s, id, Rejected(Transport))
    case Data(sock, frames, leftover) =>
      if s.socket != Some(sock) then s
      else HandleFrames(s.(partialOf := if leftover then Some(sock) else None), frames)
    case NextFrame(frame) => HandleFrame(s, frame)
    case UndecodableData(sock) =>
      if s.socket != Some(sock) then s
      else Unannounce(ForgetAll(s.(partialOf := None, socket := None), s.pending.Keys, Rejected(Transport)), false)
    case SocketClosed(sock) =>
      var s' := ForgetAll(s, SentOn(s, sock), Rejected(Transport));
      Unannounce(if s.socket == Some(sock) then s'.(socket := None, partialOf := None) else s', s.closed)
    case SocketError(sock) => Unannounce(s, s.closed)
    case RetryDropsSocket => s.(socket := None)
    case Close =>
      Unannounce(ForgetAll(s.(closed := true, socket := None), s.pending.Keys, Rejected(Transport)), false)
  }

  function Run(s: State, events: seq<Event>): State {
    if events == [] then s else Step(Run(s, events[..|events| - 1]), events[|events| - 1])
  }

  // ----- what every event keeps

  /** Every call is pending or settled; both only when its request could never be written. */
  ghost predicate CallsTracked(s: State) {
    && s.pending.Keys <= s.issued.Keys && s.settled.Keys <= s.issued.Keys
    && (forall id :: id in s.issued && id !in s.settled ==> id in s.pending)
    && (forall id :: id in s.pending ==> (id in s.settled <==> !s.issued[id]))
  }

  ghost predicate TimersTracked(s: State) {
    forall id :: id in s.timers <==> id in s.pending && s.pending[id].timed
  }

  ghost predicate SocketsTracked(s: State) {
    && (s.socket.Some? ==> s.socket.value in s.sockets)
    && (forall id :: id in s.pending && s.pending[id].sock.Some? ==> s.pending[id].sock.value in s.sockets)
    && (forall id :: id in s.pending && id in s.issued && s.issued[id] ==> s.pending[id].sock.Some?)
    // no frame is ever put together from the bytes of two connections
    && (s.socket.Some? && s.partialOf.Some? ==> s.partialOf == s.socket)
  }

  /** Until `close`, connected and disconnected alternate, and the flag tells which is due. */
  ghost predicate Alternate(closed: bool, announced: bool, emitted: seq<Emitted>) {
    !closed ==>
      && (forall i :: 0 <= i < |emitted| ==> emitted[i] == if i % 2 == 0 then Connected else Disconnected)
      && (announced <==> |emitted| % 2 == 1)
  }

  ghost predicate Inv(s: State) {
    CallsTracked(s) && TimersTracked(s) && SocketsTracked(s) && Alternate(s.closed, s.announced, s.emitted)
  }

  lemma ForgetKeeps(s: State, id: CallId, o: Settlement)
    requires Inv(s) && id in s.issued
    ensures Inv(Forget(s, id, o))
  {
    hide Alternate;
  }

  lemma ForgetAllKeeps(s: State, ids: set<CallId>, o: Settlement)
    requires Inv(s) && ids <= s.issued.Keys
    ensures Inv(ForgetAll(s, ids, o)) && ForgetAll(s, ids, o).closed == s.closed
  {
    hide Alternate;
  }

  lemma SendTracksCalls(s: State, id: CallId, fits: bool, timed: bool, ping: bool, streams: bool)
    requires CallsTracked(s) && id !in s.issued
    ensures CallsTracked(SendRequest(s, id, fits, timed, ping, streams))
  {}

  lemma SendTracksSockets(s: State, id: CallId, fits: bool, timed: bool, ping: bool, streams: bool)
    requires CallsTracked(s) && TimersTracked(s) && SocketsTracked(s) && id !in s.issued
    ensures TimersTracked(SendRequest(s, id, fits, timed, ping, streams))
    ensures SocketsTracked(SendRequest(s, id, fits, timed, ping, streams))
  {}

  lemma SendKeeps(s: State, id: CallId, fits: bool, timed: bool, ping: bool, streams: bool)
    requires Inv(s) && id !in s.issued
    ensures Inv(SendRequest(s, id, fits, timed, ping, streams))
  {
    hide Alternate, CallsTracked, TimersTracked, SocketsTracked;
    SendTracksCalls(s, id, fits, timed, ping, streams);
    SendTracksSockets(s, id, fits, timed, ping, streams);
  }

  lemma EmitAlternates(emitted: seq<Emitted>, e: Emitted)
    requires Alternate(false, e.Disconnected?, emitted)
    ensures Alternate(false, e.Connected?, emitted + [e])
  {}

  lemma HandleFrameKeeps(s: State, f: Frame)
    requires Inv(s)
    ensures Inv(HandleFrame(s, f))
  {
    hide Forget;
    if f.Response? && f.id in s.pending {
      var greets := f.ok && !s.announced && s.pending[f.id].ping && f.pong;
      var s' := if greets then Emit(s.(announced := true), Connected) else s;
      if greets && !s.closed {
        EmitAlternates(s.emitted, Connected);
      }
      ForgetKeeps(s', f.id, if f.ok then Resolved else Rejected(Remote));
    } else if f.Progress? && f.id in s.pending {
      ForgetKeeps(s, f.id, Rejected(Internal));
    } else if f.MalformedResponse? && f.to.Some? && f.to.value in s.pending {
      ForgetKeeps(s, f.to.value, Rejected(Internal));
    }
  }

  lemma {:induction false} HandleFramesKeeps(s: State, frames: seq<Frame>)
    requires Inv(s)
    ensures Inv(HandleFrames(s, frames))
  {
    if frames != [] {
      HandleFramesKeeps(s, frames[..|frames| - 1]);
      HandleFrameKeeps(HandleFrames(s, frames[..|frames| - 1]), frames[|frames| - 1]);
    }
  }

  lemma UnannounceKeeps(s: State, silently: bool)
    requires Inv(s) && (silently ==> s.closed)
    ensures Inv(Unannounce(s, silently))
  {
    if s.announced && !silently && !s.closed {
      EmitAlternates(s.emitted, Disconnected);
    }
  }

  predicate LosesCalls(e: Event) { e.UndecodableData? || e.SocketClosed? || e.Close? }

  lemma InvKept(s: State, e: Event)
    requires Inv(s)
    ensures Inv(Step(s, e))
  {
    hide ForgetAll, Forget, SendRequest, HandleFrame, HandleFrames, Unannounce;
    if LosesCalls(e) {
      LossKeeps(s, e);
    } else if Enabled(s, e) {
      hide CallsTracked, TimersTracked, Alternate;
      match e
      case SocketConnected(_) =>
      case Send(id, fits, timed, ping, streams) => SendKeeps(s, id, fits, timed, ping, streams);
      case TimerFired(id) => ForgetPendingKeeps(s, id, Rejected(TimedOut));
      case WriteFailed(id) => ForgetKeeps(s, id, Rejected(Transport));
      case Data(sock, frames, leftover) =>
        if s.socket == Some(sock) {
          HandleFramesKeeps(s.(partialOf := if leftover then Some(sock) else None), frames);
        }
      case NextFrame(frame) => HandleFrameKeeps(s, frame);
      case SocketError(_) => UnannounceKeeps(s, s.closed);
      case RetryDropsSocket =>
    }
  }

  lemma ForgetPendingKeeps(s: State, id: CallId, o: Settlement)
    requires Inv(s) && id in s.timers
    ensures Inv(Forget(s, id, o))
  {
    hide Alternate, Forget;
    ForgetKeeps(s, id, o);
  }

  /** The events that fail every call, or all calls of a socket. */
  lemma LossKeeps(s: State, e: Event)
    requires Inv(s) && LosesCalls(e)
    ensures Inv(Step(s, e))
  {
    hide ForgetAll, Unannounce, Alternate;
    match e
    case UndecodableData(sock) =>
      var s' := s.(partialOf := None, socket := None);
      ForgetAllKeeps(s', s.pending.Keys, Rejected(Transport));
      UnannounceKeeps(ForgetAll(s', s.pending.Keys, Rejected(Transport)), false);
    case SocketClosed(sock) =>
      ForgetAllKeeps(s, SentOn(s, sock), Rejected(Transport));
      var s' := ForgetAll(s, SentOn(s, sock), Rejected(Transport));
      UnannounceKeeps(if s.socket == Some(sock) then s'.(socket := None, partialOf := None) else s', s.closed);
    case Close =>
      var s' := s.(closed := true, socket := None);
      assert Alternate(true, s.announced, s.emitted) by { AnyAlternates(s.announced, s.emitted); }
      ForgetAllKeeps(s', s.pending.Keys, Rejected(Transport));
      UnannounceKeeps(ForgetAll(s', s.pending.Keys, Rejected(Transport)), false);
  }

  lemma AnyAlternates(announced: bool, emitted: seq<Emitted>)
    ensures Alternate(true, announced, emitted)
  {}

  lemma {:induction false} InvAlways(events: seq<Event>)
    ensures Inv(Run(INITIAL, events))
  {
    hide Step, Inv;
    if events == [] {
      InvInitially();
    } else {
      InvAlways(events[..|events| - 1]);
      InvKept(Run(INITIAL, events[..|events| - 1]), events[|events| - 1]);
    }
  }

  lemma InvInitially()
    ensures Inv(INITIAL)
  {}

  // ----- what that means for callers

  /**
    In every run, a call whose request fits one frame and found a socket is unsettled exactly while
    its id is pending; any other call is settled at once, and being pending does not mean it waits.
    A live timer belongs to a pending call.
   */
  lemma UnsettledExactlyWhilePending(events: seq<Event>, id: CallId)
    ensures var s := Run(INITIAL, events);
            && (id in s.issued && s.issued[id] ==> (id !in s.settled <==> id in s.pending))
            && (id in s.issued && !s.issued[id] ==> id in s.settled)
            && (id in s.timers ==> id in s.pending && s.pending[id].timed)
  {
    InvAlways(events);
  }

  lemma {:induction false} RunOn(s: State, first: seq<Event>, second: seq<Event>)
    ensures Run(s, first + second) == Run(Run(s, first), second)
    decreases |second|
  {
    hide Step;
    if second == [] {
      assert first + second == first;
    } else {
      var n := |second| - 1;
      RunOn(s, first, second[..n]);
      assert (first + second)[..|first + second| - 1] == first + second[..n];
    }
  }

  lemma {:induction false} FramesKeepSettlements(s: State, frames: seq<Frame>, id: CallId)
    requires id in s.settled
    ensures id in HandleFrames(s, frames).settled && HandleFrames(s, frames).settled[id] == s.settled[id]
  {
    hide HandleFrame;
    if frames != [] {
      FramesKeepSettlements(s, frames[..|frames| - 1], id);
      FrameKeepsSettlements(HandleFrames(s, frames[..|frames| - 1]), frames[|frames| - 1], id);
    }
  }

  lemma FrameKeepsSettlements(s: State, f: Frame, id: CallId)
    requires id in s.settled
    ensures id in HandleFrame(s, f).settled && HandleFrame(s, f).settled[id] == s.settled[id]
  {
    hide Forget;
    ForgottenByFrame(s, f, id);
  }

  /** What forgetting a call does to a call. */
  predicate Forgets(s: State, i: CallId, o: Settlement, id: CallId) {
    var t := Forget(s, i, o);
    && (id in t.pending <==> id in s.pending && id != i) && (id in t.pending ==> t.pending[id] == s.pending[id])
    && (id in t.settled <==> id in s.settled || id == i)
    && (id in t.settled ==> t.settled[id] == if id in s.settled then s.settled[id] else o)
  }

  lemma Forgotten(s: State, i: CallId, o: Settlement, id: CallId)
    ensures Forgets(s, i, o, id)
  {}

  /** The same for the call a frame forgets. */
  lemma ForgottenByFrame(s: State, f: Frame, id: CallId)
    ensures f.Progress? ==> Forgets(s, f.id, Rejected(Internal), id)
    ensures f.MalformedResponse? && f.to.Some? ==> Forgets(s, f.to.value, Rejected(Internal), id)
    ensures f.Response? ==> Forgets(s, f.id, Rejected(Remote), id)
    ensures f.Response? ==> Forgets(s, f.id, Resolved, id) && Forgets(Emit(s.(announced := true), Connected), f.id, Resolved, id)
  {
    hide Forget;
    if f.Progress? {
      Forgotten(s, f.id, Rejected(Internal), id);
    } else if f.MalformedResponse? && f.to.Some? {
      Forgotten(s, f.to.value, Rejected(Internal), id);
    } else if f.Response? {
      Forgotten(s, f.id, Rejected(Remote), id);
      Forgotten(s, f.id, Resolved, id);
      Forgotten(Emit(s.(announced := true), Connected), f.id, Resolved, id);
    }
  }

  lemma StepKeepsSettlements(s: State, e: Event, id: CallId)
    requires id in s.settled
    ensures id in Step(s, e).settled && Step(s, e).settled[id] == s.settled[id]
  {
    hide HandleFrames, HandleFrame;
    if e.NextFrame? {
      FrameKeepsSettlements(s, e.frame, id);
    } else if e.Data? {
      FramesKeepSettlements(s.(partialOf := if e.leftover then Some(e.sock) else None), e.frames, id);
    }
  }

  /** `Settle` never replaces a settlement, and nothing else writes one. */
  lemma {:induction false} SettlementsAreFinal(s: State, events: seq<Event>, id: CallId)
    requires id in s.settled
    ensures id in Run(s, events).settled && Run(s, events).settled[id] == s.settled[id]
  {
    hide Step;
    if events != [] {
      SettlementsAreFinal(s, events[..|events| - 1], id);
      StepKeepsSettlements(Run(s, events[..|events| - 1]), events[|events| - 1], id);
    }
  }

  // ----- why a call is settled as it is

  /** What a frame means for a pending call. */
  function Answer(f: Frame, id: CallId, streams: bool): Option<Settlement> {
    if f.Response? && f.id == id && f.ok then Some(Resolved)
    else if f.Response? && f.id == id then Some(Rejected(Remote))
    else if f.MalformedResponse? && f.to == Some(id) then Some(Rejected(Internal))
    else if f.Progress? && f.id == id && f.callbackThrows && streams then Some(Rejected(Internal))
    else None
  }

  /** The first frame that means something for the call decides. */
  function FirstAnswer(frames: seq<Frame>, id: CallId, streams: bool): Option<Settlement> {
    if frames == [] then None
    else
      var before := FirstAnswer(frames[..|frames| - 1], id, streams);
      if before.Some? then before else Answer(frames[|frames| - 1], id, streams)
  }

  /** What the event does to the promise of a call that is not settled, as its caller sees it. */
  function Cause(s: State, e: Event, id: CallId): Option<Settlement> {
    if e.Send? then
      if e.id != id || id in s.issued then None
      else if s.socket.None? then Some(Rejected(NoSocket))
      else if !e.fits then Some(Rejected(FrameTooLarge))
      else None
    else if id !in s.pending then None
    else
      match e
      case TimerFired(i) => if i == id && s.pending[id].timed then Some(Rejected(TimedOut)) else None
      case WriteFailed(i) => if i == id then Some(Rejected(Transport)) else None
      case Data(sock, frames, _) => if s.socket == Some(sock) then FirstAnswer(frames, id, s.pending[id].streams) else None
      case NextFrame(frame) => Answer(frame, id, s.pending[id].streams)
      case UndecodableData(sock) => if s.socket == Some(sock) then Some(Rejected(Transport)) else None
      case SocketClosed(sock) => if s.pending[id].sock == Some(sock) then Some(Rejected(Transport)) else None
      case Close => Some(Rejected(Transport))
      case _ => None
  }

  lemma FrameAnswers(s: State, f: Frame, id: CallId)
    requires id in s.pending && id !in s.settled
    ensures var a, t := Answer(f, id, s.pending[id].streams), HandleFrame(s, f);
            if a.Some? then id in t.settled && t.settled[id] == a.value
            else id !in t.settled && id in t.pending && t.pending[id] == s.pending[id]
  {
    hide Forget;
    ForgottenByFrame(s, f, id);
  }

  lemma {:induction false} FramesAnswer(s: State, frames: seq<Frame>, id: CallId)
    requires id in s.pending && id !in s.settled
    ensures var a, t := FirstAnswer(frames, id, s.pending[id].streams), HandleFrames(s, frames);
            if a.Some? then id in t.settled && t.settled[id] == a.value
            else id !in t.settled && id in t.pending && t.pending[id] == s.pending[id]
  {
    hide HandleFrame, Answer;
    if frames != [] {
      var n := |frames| - 1;
      FramesAnswer(s, frames[..n], id);
      var mid := HandleFrames(s, frames[..n]);
      if id in mid.settled {
        FrameKeepsSettlements(mid, frames[n], id);
      } else {
        FrameAnswers(mid, frames[n], id);
      }
    }
  }

  lemma FrameTouchesPendingOnly(s: State, f: Frame, id: CallId)
    requires id !in s.pending && id !in s.settled
    ensures id !in HandleFrame(s, f).pending && id !in HandleFrame(s, f).settled
  {
    hide Forget;
    ForgottenByFrame(s, f, id);
  }

  lemma {:induction false} FramesTouchPendingOnly(s: State, frames: seq<Frame>, id: CallId)
    requires id !in s.pending && id !in s.settled
    ensures id !in HandleFrames(s, frames).pending && id !in HandleFrames(s, frames).settled
  {
    hide HandleFrame;
    if frames != [] {
      FramesTouchPendingOnly(s, frames[..|frames| - 1], id);
      FrameTouchesPendingOnly(HandleFrames(s, frames[..|frames| - 1]), frames[|frames| - 1], id);
    }
  }

  lemma TimersAreTimed(s: State, id: CallId)
    requires TimersTracked(s) && id in s.timers
    ensures id in s.pending && s.pending[id].timed
  {}

  /** An event settles an unsettled call exactly when it is a cause, and then as the cause says. */
  lemma SettledAsCaused(s: State, e: Event, id: CallId)
    requires Inv(s) && id !in s.settled
    ensures var t, cause := Step(s, e), if Enabled(s, e) then Cause(s, e, id) else None;
            if cause.Some? then id in t.settled && t.settled[id] == cause.value else id !in t.settled
  {
    hide HandleFrames, HandleFrame, Answer, FirstAnswer, Unannounce, Alternate, Forget, TimersTracked, SocketsTracked;
    match e
    case TimerFired(i) =>
      if i in s.timers {
        TimersAreTimed(s, i);
      }
      Forgotten(s, i, Rejected(TimedOut), id);
    case WriteFailed(i) => Forgotten(s, i, Rejected(Transport), id);
    case Data(sock, frames, leftover) =>
      var s' := s.(partialOf := if leftover then Some(sock) else None);
      if id in s.pending {
        FramesAnswer(s', frames, id);
      } else {
        FramesTouchPendingOnly(s', frames, id);
      }
    case NextFrame(frame) =>
      if id in s.pending {
        FrameAnswers(s, frame, id);
      } else {
        FrameTouchesPendingOnly(s, frame, id);
      }
    case UndecodableData(_) =>
      UnannounceTouchesNoCall(ForgetAll(s.(partialOf := None, socket := None), s.pending.Keys, Rejected(Transport)), false);
    case SocketClosed(sock) =>
      var s' := ForgetAll(s, SentOn(s, sock), Rejected(Transport));
      UnannounceTouchesNoCall(if s.socket == Some(sock) then s'.(socket := None, partialOf := None) else s', s.closed);
    case SocketError(_) => UnannounceTouchesNoCall(s, s.closed);
    case Close =>
      UnannounceTouchesNoCall(ForgetAll(s.(closed := true, socket := None), s.pending.Keys, Rejected(Transport)), false);
    case _ =>
  }

  /** The event at `k` settles the call, which was not settled before. */
  ghost predicate SettlesAt(events: seq<Event>, k: nat, id: CallId, o: Settlement)
    requires k < |events|
  {
    var s := Run(INITIAL, events[..k]);
    id !in s.settled && Enabled(s, events[k]) && Cause(s, events[k], id) == Some(o)
  }

  /**
    In every run: a call is settled with `o` exactly when some event was a cause of `o` for it while
    it was not settled.  So it is resolved exactly when a good response to it was handled while it
    was pending and unsettled, and the reason of a rejection is that of the first event that failed it.
   */
  lemma {:induction false} SettledExactlyAsCaused(events: seq<Event>, id: CallId, o: Settlement)
    ensures (id in Run(INITIAL, events).settled && Run(INITIAL, events).settled[id] == o)
       <==> exists k :: 0 <= k < |events| && SettlesAt(events, k, id, o)
  {
    hide Step, Cause, Inv, Enabled;
    if events != [] {
      var n := |events| - 1;
      var s := Run(INITIAL, events[..n]);
      SettledExactlyAsCaused(events[..n], id, o);
      InvAlways(events[..n]);
      forall k | 0 <= k < n
        ensures SettlesAt(events[..n], k, id, o) <==> SettlesAt(events, k, id, o)
      {
        assert events[..n][..k] == events[..k];
      }
      if id in s.settled {
        StepKeepsSettlements(s, events[n], id);
        assert !SettlesAt(events, n, id, o);
        if s.settled[id] != o {
          assert forall k :: 0 <= k < n ==> !SettlesAt(events[..n], k, id, o);
        }
      } else {
        SettledAsCaused(s, events[n], id);
        assert forall k :: 0 <= k < n ==> !SettlesAt(events[..n], k, id, o);
        assert SettlesAt(events, n, id, o) <==> id in Step(s, events[n]).settled && Step(s, events[n]).settled[id] == o;
      }
    }
  }

  /** What each event does to the connection, and what it announces. */
  lemma ConnectionChangesExactly(s: State, e: Event)
    requires Enabled(s, e) && !e.Data?
    ensures var t := Step(s, e);
            && t.closed == (s.closed || e.Close?)
            && t.socket == (if e.SocketConnected? then Some(e.sock) else if LetsGo(s, e) then None else s.socket)
            && t.partialOf == (if e.SocketConnected? || Desyncs(s, e) then None else s.partialOf)
            && t.announced == (if Greets(s, e) then true else if Loses(s, e) then false else s.announced)
            && t.emitted == s.emitted + Says(s, e)
  {
    hide ForgetAll, Forget, SendRequest, HandleFrame, SentOn;
    match e
    case Send(id, fits, timed, ping, streams) => SendTouchesCallsOnly(s, id, fits, timed, ping, streams);
    case TimerFired(id) => ForgetTouchesCallsOnly(s, id, Rejected(TimedOut));
    case WriteFailed(id) => ForgetTouchesCallsOnly(s, id, Rejected(Transport));
    case NextFrame(frame) => FrameChangesExactly(s, frame);
    case UndecodableData(_) => ForgetAllTouchesCallsOnly(s.(partialOf := None, socket := None), s.pending.Keys, Rejected(Transport));
    case SocketClosed(sock) => ForgetAllTouchesCallsOnly(s, SentOn(s, sock), Rejected(Transport));
    case Close => ForgetAllTouchesCallsOnly(s.(closed := true, socket := None), s.pending.Keys, Rejected(Transport));
    case _ =>
  }

  /** The two states differ in their calls only. */
  predicate SameConnection(s: State, t: State) {
    && t.closed == s.closed && t.socket == s.socket && t.partialOf == s.partialOf && t.announced == s.announced
    && t.emitted == s.emitted && t.sockets == s.sockets
  }

  lemma ForgetTouchesCallsOnly(s: State, id: CallId, o: Settlement)
    ensures SameConnection(s, Forget(s, id, o))
  {}

  lemma ForgetAllTouchesCallsOnly(s: State, ids: set<CallId>, o: Settlement)
    ensures SameConnection(s, ForgetAll(s, ids, o))
  {}

  lemma SendTouchesCallsOnly(s: State, id: CallId, fits: bool, timed: bool, ping: bool, streams: bool)
    ensures SameConnection(s, SendRequest(s, id, fits, timed, ping, streams))
  {}

  lemma FrameChangesExactly(s: State, f: Frame)
    ensures SameConnection(if Greets(s, NextFrame(f)) then s.(announced := true, emitted := s.emitted + [Connected]) else s, HandleFrame(s, f))
  {}

  /** Events come whenever they can: timers that are armed, sockets that were ever connected, calls not yet made. */
  lemma EventsCome(s: State, id: CallId, sock: Socket, frames: seq<Frame>, leftover: bool)
    ensures Enabled(s, Close) && (!s.closed ==> Enabled(s, RetryDropsSocket))
    ensures id !in s.issued ==> forall fits, timed, ping, streams :: Enabled(s, Send(id, fits, timed, ping, streams))
    ensures id in s.timers ==> Enabled(s, TimerFired(id))
    ensures id in s.issued && s.issued[id] ==> Enabled(s, WriteFailed(id))
    ensures sock !in s.sockets && s.socket.None? ==> Enabled(s, SocketConnected(sock)) && sock in Step(s, SocketConnected(sock)).sockets
    ensures sock in s.sockets ==>
              && Enabled(s, Data(sock, frames, leftover)) && Enabled(s, UndecodableData(sock))
              && Enabled(s, SocketClosed(sock)) && Enabled(s, SocketError(sock))
    ensures frames != [] ==> Enabled(s, NextFrame(frames[0]))
  {}

  /** The event takes the current socket away. */
  predicate LetsGo(s: State, e: Event) {
    || e.Close? || e.RetryDropsSocket?
    || ((e.UndecodableData? || e.SocketClosed?) && s.socket == Some(e.sock))
  }

  /** The unfinished frame of the current socket is worth nothing any more. */
  predicate Desyncs(s: State, e: Event) { (e.UndecodableData? || e.SocketClosed?) && s.socket == Some(e.sock) }

  /** The good answer to a ping, when none was announced on this connection yet. */
  predicate Greets(s: State, e: Event) {
    && e.NextFrame? && e.frame.Response? && e.frame.ok && e.frame.pong
    && e.frame.id in s.pending && s.pending[e.frame.id].ping && !s.announced
  }

  predicate Loses(s: State, e: Event) {
    e.Close? || e.SocketClosed? || e.SocketError? || (e.UndecodableData? && s.socket == Some(e.sock))
  }

  /** What is emitted; a client closed by its owner does not report the end of its sockets. */
  function Says(s: State, e: Event): seq<Emitted> {
    if Greets(s, e) then [Connected]
    else if Loses(s, e) && s.announced && (e.Close? || e.UndecodableData? || !s.closed) then [Disconnected]
    else []
  }

  /** A socket that closes, current or long replaced, fails exactly the pending calls that went out on it. */
  lemma ClosingFailsOnlyItsOwnCalls(s: State, sock: Socket, id: CallId)
    requires Inv(s) && sock in s.sockets && id in s.issued
    ensures var t := Step(s, SocketClosed(sock));
            if id in SentOn(s, sock)
            then id !in t.pending && id !in t.timers && id in t.settled && (id !in s.settled ==> t.settled[id] == Rejected(Transport))
            else (id in t.pending <==> id in s.pending) && (id in t.settled <==> id in s.settled) && (id in t.timers <==> id in s.timers)
  {
    hide Unannounce;
    var s' := ForgetAll(s, SentOn(s, sock), Rejected(Transport));
    UnannounceTouchesNoCall(if s.socket == Some(sock) then s'.(socket := None, partialOf := None) else s', s.closed);
  }

  lemma UnannounceTouchesNoCall(s: State, silently: bool)
    ensures Unannounce(s, silently).pending == s.pending && Unannounce(s, silently).settled == s.settled
    ensures Unannounce(s, silently).timers == s.timers && Unannounce(s, silently).issued == s.issued
  {}

  /** After `close` nothing is pending, no timer is armed and every call issued so far is settled. */
  lemma CloseSettlesEverything(events: seq<Event>)
    ensures var s := Run(INITIAL, events + [Close]);
            s.pending == map[] && s.timers == {} && s.settled.Keys == s.issued.Keys
  {
    hide Unannounce;
    RunOn(INITIAL, events, [Close]);
    var s := Run(INITIAL, events);
    assert [Close][..0] == [];
    assert Run(s, [Close]) == Step(s, Close);
    InvAlways(events);
    UnannounceTouchesNoCall(ForgetAll(s.(closed := true, socket := None), s.pending.Keys, Rejected(Transport)), false);
  }

  /**
    After any run, a new call is pending as soon as it is sent; it is settled at the same time, and
    thus left behind in the table, exactly when its request does not fit one frame or the socket is
    gone again.
   */
  lemma UnwritableRequestStaysPending(events: seq<Event>, id: CallId, fits: bool, timed: bool, ping: bool, streams: bool)
    requires id !in Run(INITIAL, events).issued
    ensures var s := Run(INITIAL, events);
            var t := Run(INITIAL, events + [Send(id, fits, timed, ping, streams)]);
            && id in t.pending && t.pending[id] == Call(s.socket, timed, ping, streams) && (id in t.timers <==> timed)
            && (id in t.settled <==> !(fits && s.socket.Some?))
  {
    var send := Send(id, fits, timed, ping, streams);
    var s := Run(INITIAL, events);
    RunOn(INITIAL, events, [send]);
    assert [send][..0] == [];
    assert Run(s, [send]) == Step(s, send);
    InvAlways(events);
  }

  lemma StepSends(s: State, id: CallId, fits: bool, timed: bool, ping: bool, streams: bool)
    requires id !in s.issued
    ensures Step(s, Send(id, fits, timed, ping, streams)) == SendRequest(s, id, fits, timed, ping, streams)
  {
    hide HandleFrame, HandleFrames, ForgetAll, Forget, Unannounce, SendRequest;
  }

  lemma SentThenSettled(s: State, sent: State, id: CallId, fits: bool, timed: bool, ping: bool, streams: bool)
    requires sent == s.(issued := s.issued[id := s.socket.Some? && fits],
                        timers := if timed then s.timers + {id} else s.timers,
                        pending := s.pending[id := Call(s.socket, timed, ping, streams)])
    ensures SendRequest(s, id, fits, timed, ping, streams) ==
              if s.socket.None? then Settle(sent, id, Rejected(NoSocket))
              else if !fits then Settle(sent, id, Rejected(FrameTooLarge))
              else sent
  {}

  // ----- the client as an object

  class BridgeClient {
    var socket: Option<Socket>
    var pending: map<CallId, Call>
    var closed: bool
    var announced: bool
    var partialOf: Option<Socket>
    // what the runtime keeps
    var sockets: set<Socket>
    var issued: map<CallId, bool>
    var settled: map<CallId, Settlement>
    var timers: set<CallId>
    var emitted: seq<Emitted>

    function View(): State
      reads this
    {
      State(socket, pending, closed, announced, partialOf, sockets, issued, settled, timers, emitted)
    }

    constructor ()
      ensures View() == INITIAL
    {
      socket, pending, closed, announced, partialOf := None, map[], false, false, None;
      sockets, issued, settled, timers, emitted := {}, map[], map[], {}, [];
    }

    /** The connect callback. */
    method OnConnect(sock: Socket)
      requires sock !in sockets && socket.None?
      modifies this
      ensures View() == Step(old(View()), SocketConnected(sock))
    {
      socket := Some(sock);
      sockets := sockets + {sock};
      partialOf := None;
    }

    /** `callImpl` from the point where it has a socket, or should have. */
    method CallImpl(id: CallId, fits: bool, timed: bool, ping: bool, streams: bool)
      requires id !in issued
      modifies this
      ensures View() == Step(old(View()), Send(id, fits, timed, ping, streams))
    {
      hide Step, Settle, SendRequest;
      ghost var before := View();
      StepSends(before, id, fits, timed, ping, streams);
      var sock := socket;
      Register(id, sock.Some? && fits, Call(sock, timed, ping, streams));
      SentThenSettled(before, View(), id, fits, timed, ping, streams);
      if sock.None? {
        SettleCall(id, Rejected(NoSocket));
      } else if !fits {
        SettleCall(id, Rejected(FrameTooLarge));
      }
    }

    /** The entry and its timer; whether the request will be written is known to the runtime only. */
    method Register(id: CallId, written: bool, call: Call)
      modifies this`issued, this`timers, this`pending
      ensures View() == old(View()).(issued := old(issued)[id := written],
                                     timers := if call.timed then old(timers) + {id} else old(timers),
                                     pending := old(pending)[id := call])
    {
      issued := issued[id := written];
      if call.timed {
        timers := timers + {id};
      }
      pending := pending[id := call];
    }

    method SettleCall(id: CallId, o: Settlement)
      modifies this`settled
      ensures View() == Settle(old(View()), id, o)
    {
      if id !in settled {
        settled := settled[id := o];
      }
    }

    method ForgetCall(id: CallId, o: Settlement)
      modifies this`pending, this`timers, this`settled
      ensures View() == Forget(old(View()), id, o)
    {
      pending := pending - {id};
      timers := timers - {id};
      SettleCall(id, o);
    }

    method OnTimer(id: CallId)
      requires id in timers
      modifies this
      ensures View() == Step(old(View()), TimerFired(id))
    {
      ForgetCall(id, Rejected(TimedOut));
    }

    method OnWriteError(id: CallId)
      requires id in issued && issued[id]
      modifies this
      ensures View() == Step(old(View()), WriteFailed(id))
    {
      ForgetCall(id, Rejected(Transport));
    }

    /** The loops over `pending` that fail the calls of `ids` one by one. */
    method ForgetEach(ids: set<CallId>, o: Settlement)
      modifies this`pending, this`timers, this`settled
      ensures View() == ForgetAll(old(View()), ids, o)
    {
      var todo := ids;
      ForgetNone(View(), o);
      assert ids - todo == {};
      while todo != {}
        invariant todo <= ids
        invariant View() == ForgetAll(old(View()), ids - todo, o)
        decreases todo
      {
        var id :| id in todo;
        ForgetOneMore(old(View()), ids - todo, id, o);
        assert ids - (todo - {id}) == ids - todo + {id};
        ForgetCall(id, o);
        todo := todo - {id};
      }
      assert ids - todo == ids;
    }

    method Announce(e: Emitted)
      modifies this`announced, this`emitted
      ensures View() == Emit(old(View()).(announced := e.Connected?), e)
    {
      announced := e.Connected?;
      emitted := emitted + [e];
    }

    method DropAnnouncement(silently: bool)
      modifies this`announced, this`emitted
      ensures View() == Unannounce(old(View()), silently)
    {
      if announced && !silently {
        Announce(Disconnected);
      }
      announced := false;
    }

    method OnFrame(f: Frame)
      modifies this`pending, this`timers, this`settled, this`announced, this`emitted
      ensures View() == HandleFrame(old(View()), f) == Step(old(View()), NextFrame(f))
    {
      match f
      case Unreadable =>
      case MalformedProgress =>
      case Progress(id, throws) =>
        if id in pending && pending[id].streams && throws {
          ForgetCall(id, Rejected(Internal));
        }
      case MalformedResponse(to) =>
        if to.Some? && to.value in pending {
          ForgetCall(to.value, Rejected(Internal));
        }
      case Response(id, ok, pong) =>
        if id !in pending {
          return;
        }
        var call := pending[id];
        if ok {
          if !announced && call.ping && pong {
            Announce(Connected);
          }
          ForgetCall(id, Resolved);
        } else {
          ForgetCall(id, Rejected(Remote));
        }
    }

    method OnData(sock: Socket, frames: seq<Frame>, leftover: bool)
      requires sock in sockets
      modifies this
      ensures View() == Step(old(View()), Data(sock, frames, leftover))
    {
      if socket != Some(sock) {
        return;
      }
      partialOf := if leftover then Some(sock) else None;
      ghost var start := View();
      var k := 0;
      while k < |frames|
        invariant k <= |frames| && View() == HandleFrames(start, frames[..k])
      {
        OnFrame(frames[k]);
        assert frames[..k + 1][..k] == frames[..k];
        k := k + 1;
      }
      assert frames[..k] == frames;
    }

    method OnUndecodableData(sock: Socket)
      requires sock in sockets
      modifies this
      ensures View() == Step(old(View()), UndecodableData(sock))
    {
      if socket != Some(sock) {
        return;
      }
      partialOf := None;
      ForgetEach(pending.Keys, Rejected(Transport));
      socket := None;
      DropAnnouncement(false);
    }

    method OnSocketClosed(sock: Socket)
      requires sock in sockets
      modifies this
      ensures View() == Step(old(View()), SocketClosed(sock))
    {
      ForgetEach(SentOn(View(), sock), Rejected(Transport));
      if socket == Some(sock) {
        socket := None;
        partialOf := None;
      }
      DropAnnouncement(closed);
    }

    method OnSocketError(sock: Socket)
      requires sock in sockets
      modifies this
      ensures View() == Step(old(View()), SocketError(sock))
    {
      DropAnnouncement(closed);
    }

    /** Before its second attempt, a retried call destroys the current socket. */
    method DropSocketForRetry()
      requires !closed
      modifies this
      ensures View() == Step(old(View()), RetryDropsSocket)
    {
      if socket.Some? {
        socket := None;
      }
    }

    method CloseClient()
      modifies this
      ensures View() == Step(old(View()), Close)
    {
      closed := true;
      socket := None;
      ForgetEach(pending.Keys, Rejected(Transport));
      DropAnnouncement(false);
    }
  }

  lemma ForgetNone(s: State, o: Settlement)
    ensures ForgetAll(s, {}, o) == s
  {
    var t := ForgetAll(s, {}, o);
    assert t.settled == s.settled && t.pending == s.pending && t.timers == s.timers;
  }

  lemma ForgetOneMore(s: State, done: set<CallId>, id: CallId, o: Settlement)
    ensures Forget(ForgetAll(s, done, o), id, o) == ForgetAll(s, done + {id}, o)
  {
    var t, u := Forget(ForgetAll(s, done, o), id, o), ForgetAll(s, done + {id}, o);
    assert t.settled == u.settled;
    assert t.pending == u.pending && t.timers == u.timers;
  }
}
