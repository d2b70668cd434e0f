/** TCP over WebSocket: opening a stream over the monitor channel and relaying a user's bytes over the
    stream's own data channel. Both channels are first in, first out; nothing orders one against
    the other. */
module TcpRelay {
  import opened Words
  import opened FrameFates

  datatype Message = Open(sid: Id) | Connect(sid: Id)

  /** The server's handler of one user connection. */
  datatype Phase = Unopened | Opening | Ready | Relaying | Stopped

  /** The client's entry for a stream: a placeholder has no connection yet. */
  datatype Slot = Absent | Placeholder | Conn

  /** The client's dial to the upstream, and the relay that follows. */
  datatype Dialer = NotDialled | Dialling | DialFailed | Running | Over

  /** The client's reader of the data channel: idle, or with one frame in hand. */
  datatype Reader = NoReader | Waiting | Looking(frame: Payload) | Writing(frame: Payload) | Ended

  /** The server reads the chunks `offered` by the user and relays some as frames: `verdicts` says of
      each whether it was relayed, given up on by the bandwidth limit, or lost in sending. `fates`
      says of each frame that the client's reader has finished with whether it was written upstream,
      written in part, given up on while the entry was a placeholder, or lost with the stream.
      `closed` is set once the stream's own dial failed or its relay ended; `strays` counts frames
      that found no entry before that. */
  datatype Stream = Stream(
    phase: Phase, accepted: bool, announced: bool,
    offered: seq<Payload>, verdicts: seq<Fate>, relayed: seq<Payload>, channel: seq<Payload>,
    slot: Slot, dialer: Dialer, reader: Reader, connOpen: bool, written: Payload, fates: seq<Fate>,
    closed: bool, strays: nat)

  /** The goroutine that handles the monitor channel's messages one at a time. */
  datatype Monitor =
    | Idle
    | DialingData(sid: Id) | Registering(sid: Id) | Spawning(sid: Id) | Announcing(sid: Id)
    | Entering(sid: Id) | StartingDial(sid: Id)

  datatype State = State(queue: seq<Message>, monitor: Monitor, streams: map<Id, Stream>)

  function Init(): State {
    State([], Idle, map[])
  }

  const NEW := Stream(Unopened, false, false, [], [], [], [], Absent, NotDialled, NoReader, false, [], [], false, 0)

  datatype Step =
    | UserConnects(sid: Id)
    | SendOpen(sid: Id)
    | ServerAccepts(sid: Id)                 // the data channel is there for the server
    | ServerReady(sid: Id)                   // told so, or finds it there
    | SendConnect(sid: Id)
    | RelayChunk(sid: Id, chunk: Payload, admitted: bool, sent: bool)
    | ServerStops(sid: Id)
    | TakeMessage
    | MonitorStep(ok: bool)
    | UpstreamDial(sid: Id, ok: bool)
    | ForgetFailed(sid: Id)
    | RelayEnds(sid: Id)
    | ReaderTakes(sid: Id)
    | ReaderLooks(sid: Id)
    | ReaderWrites(sid: Id, ok: bool, part: nat)
    | ReaderSkips(sid: Id)                   // the wait for a connection is over
    | ReaderEnds(sid: Id)

  /** The frame the reader has in hand. */
  function Hand(r: Reader): seq<Payload> {
    if r.Looking? || r.Writing? then [r.frame] else []
  }

  /** The reader is done with its frame. */
  function Settle(r: Stream, fate: Fate): Stream {
    if Hand(r.reader) == [] then r
    else r.(reader := Waiting, fates := r.fates + [fate], written := r.written + Portion(r.reader.frame, fate))
  }

  predicate Enabled(s: State, step: Step) {
    match step
    case UserConnects(sid) => sid !in s.streams
    case TakeMessage => s.monitor == Idle && s.queue != []
    case MonitorStep(ok) => s.monitor != Idle && s.monitor.sid in s.streams
    case _ =>
      && step.sid in s.streams
      && var r := s.streams[step.sid];
      match step
      case SendOpen(_) => r.phase == Unopened
      case ServerAccepts(_) => s.monitor == DialingData(step.sid)
      case ServerReady(_) => r.phase == Opening && (r.announced || r.accepted)
      case SendConnect(_) => r.phase == Ready
      case RelayChunk(_, chunk, admitted, sent) => r.phase == Relaying && (sent ==> r.accepted)
      case UpstreamDial(_, _) => r.dialer == Dialling
      case ForgetFailed(_) => r.dialer == DialFailed
      case RelayEnds(_) => r.dialer == Running
      case ReaderTakes(_) => r.reader == Waiting && r.channel != []
      case ReaderLooks(_) => r.reader.Looking?
      case ReaderWrites(_, ok, part) => r.reader.Writing? && part <= |r.reader.frame|
      case ReaderSkips(_) => r.reader.Looking? && r.slot == Placeholder
      case ReaderEnds(_) => r.reader == Waiting
      case _ => true
  }

  function Entered(slot: Slot): Slot {
    if slot == Absent then Placeholder else slot
  }

  function Put(s: State, sid: Id, r: Stream): State {
    s.(streams := s.streams[sid := r])
  }

  /** The monitor goroutine: open a data channel, enter the stream, only then start the reader and
      announce the channel; on connect, enter the stream, then dial. */
  function Monitored(s: State, ok: bool): State
    requires s.monitor != Idle && s.monitor.sid in s.streams
  {
    var sid := s.monitor.sid;
    var r := s.streams[sid];
    match s.monitor
    case DialingData(_) => s.(monitor := if ok && r.accepted then Registering(sid) else Idle)
    case Registering(_) => Put(s, sid, r.(slot := Entered(r.slot))).(monitor := Spawning(sid))
    case Spawning(_) => Put(s, sid, r.(reader := Waiting)).(monitor := Announcing(sid))
    case Announcing(_) => Put(s, sid, r.(announced := r.announced || ok)).(monitor := Idle)
    case Entering(_) => Put(s, sid, r.(slot := Entered(r.slot))).(monitor := StartingDial(sid))
    case StartingDial(_) => Put(s, sid, r.(dialer := Dialling)).(monitor := Idle)
  }

  /** Everything that touches one stream only. */
  function Stepped(r: Stream, step: Step): Stream {
    match step
    case SendOpen(_) => r.(phase := Opening)
    case ServerAccepts(_) => r.(accepted := true)
    case ServerReady(_) => r.(phase := Ready)
    case SendConnect(_) => r.(phase := Relaying)
    case RelayChunk(_, chunk, admitted, sent) =>
      var read := r.(offered := r.offered + [chunk]);
      if !admitted then read.(verdicts := r.verdicts + [GivenUp])
      else if !sent then read.(verdicts := r.verdicts + [Lost], phase := Stopped)
      else
        read.(verdicts := r.verdicts + [Done], relayed := r.relayed + [chunk], channel := r.channel + [chunk])
    case ServerStops(_) => r.(phase := Stopped)
    case UpstreamDial(_, ok) =>
      if ok then r.(slot := Conn, connOpen := true, dialer := Running) else r.(dialer := DialFailed, closed := true)
    case ForgetFailed(_) => r.(slot := Absent, dialer := Over)
    case RelayEnds(_) => r.(slot := Absent, connOpen := false, dialer := Over, closed := true)
    case ReaderTakes(_) => if r.channel == [] then r else r.(reader := Looking(r.channel[0]), channel := r.channel[1..])
    case ReaderLooks(_) =>
      (match r.slot
       case Absent => Settle(r, Lost).(strays := r.strays + if r.closed then 0 else 1)
       case Placeholder => r
       case Conn => if r.reader.Looking? then r.(reader := Writing(r.reader.frame)) else r)
    case ReaderWrites(_, ok, part) =>
      if r.connOpen && ok then Settle(r, Done)
      else Settle(r, if r.connOpen then Part(part) else Lost).(slot := Absent, connOpen := false, closed := true)
    case ReaderSkips(_) => Settle(r, GivenUp)
    case ReaderEnds(_) => r.(reader := Ended)
    case _ => r
  }

  /** What the server puts on the monitor channel. */
  function Sends(step: Step): seq<Message> {
    match step
    case SendOpen(sid) => [Open(sid)]
    case SendConnect(sid) => [Connect(sid)]
    case _ => []
  }

  function Apply(s: State, step: Step): State
    requires Enabled(s, step)
  {
    match step
    case UserConnects(sid) => Put(s, sid, NEW)
    case TakeMessage =>
      var m := s.queue[0];
      s.(queue := s.queue[1..], monitor := if m.Open? then DialingData(m.sid) else Entering(m.sid))
    case MonitorStep(ok) => Monitored(s, ok)
    case _ =>
      Put(s, step.sid, Stepped(s.streams[step.sid], step)).(queue := s.queue + Sends(step))
  }

  function Exec(steps: seq<Step>): Option<State> {
    if steps == [] then Some(Init())
    else
      var before := Exec(steps[..|steps| - 1]);
      if before.Some? && Enabled(before.value, steps[|steps| - 1])
      then Some(Apply(before.value, steps[|steps| - 1])) else None
  }

  // ---------------------------------------------------------------- what every step keeps

  /** One open and one connect at most are on their way, in that order. */
  predicate InOrder(queue: seq<Message>, sid: Id) {
    forall i, j :: 0 <= i < j < |queue| && queue[i].sid == sid && queue[j].sid == sid ==>
      queue[i].Open? && queue[j].Connect?
  }

  predicate On(m: Monitor, sid: Id) {
    m != Idle && m.sid == sid
  }

  /** How far a stream has come on the client, seen from the monitor channel. */
  predicate Told(s: State, sid: Id, r: Stream) {
    && InOrder(s.queue, sid)
    && (r.phase == Unopened ==> Open(sid) !in s.queue)
    && (r.phase == Unopened || Open(sid) in s.queue ==>
          !On(s.monitor, sid))
    && (r.phase == Unopened || Open(sid) in s.queue
        || s.monitor in {DialingData(sid), Registering(sid), Spawning(sid)} ==>
          r.reader == NoReader)
    && (r.phase in {Unopened, Opening, Ready} ==>
          Connect(sid) !in s.queue && s.monitor !in {Entering(sid), StartingDial(sid)})
    && (r.phase in {Unopened, Opening, Ready}
        || Connect(sid) in s.queue || Open(sid) in s.queue || On(s.monitor, sid) ==>
          r.dialer == NotDialled)
    && (s.monitor in {Entering(sid), StartingDial(sid)} ==> Open(sid) !in s.queue && Connect(sid) !in s.queue)
  }

  /** The entry is there from before the reader starts until the stream is closed, and for good
      gone afterwards. */
  predicate EntryOk(s: State, sid: Id, r: Stream) {
    && (s.monitor in {Spawning(sid), StartingDial(sid)} ==> r.slot != Absent)
    && (r.reader != NoReader && !r.closed ==> r.slot != Absent)
    && (r.slot == Conn ==> r.dialer == Running && !r.closed && r.connOpen)
    && (r.closed ==> r.dialer in {DialFailed, Running, Over} && !r.connOpen)
    && (r.closed && r.slot != Absent ==> r.dialer == DialFailed)
    && (r.dialer == Dialling ==> r.slot == Placeholder)
    && (r.dialer in {DialFailed, Over} ==> r.closed)
    && (r.dialer in {NotDialled, Dialling} ==> !r.connOpen)
    && (r.reader.Writing? ==> r.slot == Conn || r.closed)
    && r.strays == 0
  }

  /** Cut short with the stream. */
  predicate IsCut(f: Fate) {
    f.Part? || f == Lost
  }

  /** Nothing passes after a cut, and a cut is the end. */
  predicate CutOnce(fates: seq<Fate>, over: bool) {
    && (forall i :: 0 <= i < |fates| && IsCut(fates[i]) ==> over)
    && forall i, j :: 0 <= i < j < |fates| && IsCut(fates[i]) ==> !Passes(fates[j])
  }

  predicate NoPart(fates: seq<Fate>) {
    forall i :: 0 <= i < |fates| ==> !fates[i].Part?
  }

  /** Where every chunk and every byte is. */
  predicate BytesOk(r: Stream) {
    && |r.verdicts| == |r.offered| && r.relayed == Whole(r.offered, r.verdicts) && NoPart(r.verdicts)
    && CutOnce(r.verdicts, r.phase == Stopped)
    && |r.fates| <= |r.relayed| && r.relayed[|r.fates|..] == Hand(r.reader) + r.channel
    && r.written == Portions(r.relayed[..|r.fates|], r.fates)
    && CutOnce(r.fates, r.closed)
  }

  predicate StreamOk(s: State, sid: Id)
    requires sid in s.streams
  {
    var r := s.streams[sid];
    Told(s, sid, r) && EntryOk(s, sid, r) && BytesOk(r)
  }

  predicate Inv(s: State) {
    && (forall sid :: sid in s.streams ==> StreamOk(s, sid))
    && (forall i :: 0 <= i < |s.queue| ==> s.queue[i].sid in s.streams)
    && (s.monitor != Idle ==> s.monitor.sid in s.streams)
  }

  /** The stream that a step is about. */
  function Subject(s: State, step: Step): Id
    requires Enabled(s, step)
  {
    match step
    case TakeMessage => s.queue[0].sid
    case MonitorStep(_) => s.monitor.sid
    case _ => step.sid
  }

  // A step on one stream, seen from another.

  lemma OtherQueue(s: State, step: Step, sid: Id)
    requires Enabled(s, step) && sid in s.streams && Subject(s, step) != sid && InOrder(s.queue, sid)
    ensures var q := Apply(s, step).queue;
      InOrder(q, sid) && (Open(sid) in q <==> Open(sid) in s.queue) && (Connect(sid) in q <==> Connect(sid) in s.queue)
  {
    hide Stepped;
    var q := Apply(s, step).queue;
    assert step.TakeMessage? || q == s.queue || q == s.queue + Sends(step);
    if step.TakeMessage? {
      assert s.queue == [s.queue[0]] + q;
    }
  }

  lemma OtherTold(s: State, step: Step, sid: Id)
    requires Enabled(s, step) && sid in s.streams && Subject(s, step) != sid && Told(s, sid, s.streams[sid])
    ensures sid in Apply(s, step).streams && Apply(s, step).streams[sid] == s.streams[sid]
    ensures Told(Apply(s, step), sid, s.streams[sid])
  {
    hide InOrder, Stepped, Sends;
    OtherQueue(s, step, sid);
  }

  lemma OtherEntry(s: State, step: Step, sid: Id)
    requires Enabled(s, step) && sid in s.streams && Subject(s, step) != sid && EntryOk(s, sid, s.streams[sid])
    ensures EntryOk(Apply(s, step), sid, s.streams[sid])
  {
  }

  // A step seen from its own stream.

  predicate OfStream(step: Step) {
    !step.UserConnects? && !step.TakeMessage? && !step.MonitorStep?
  }

  /** The client's progress looks only at these. */
  lemma ToldSame(s: State, t: State, sid: Id, r: Stream, q: Stream)
    requires Told(s, sid, r) && t.queue == s.queue && t.monitor == s.monitor
    requires q.phase == r.phase || (r.phase != Unopened && q.phase in {Ready, Stopped})
          || (q.phase == Stopped && r.reader == NoReader && r.phase == Unopened && !On(s.monitor, sid))
    requires (r.phase !in {Unopened, Opening, Ready} ==> q.phase !in {Unopened, Opening, Ready})
    requires (r.reader == NoReader ==> q.reader == NoReader) && (r.dialer == NotDialled ==> q.dialer == NotDialled)
    ensures Told(t, sid, q)
  {
    hide InOrder;
  }

  lemma QuietStepTold(s: State, step: Step)
    requires Enabled(s, step) && OfStream(step) && Sends(step) == [] && StreamOk(s, step.sid)
    ensures Told(Apply(s, step), step.sid, Apply(s, step).streams[step.sid])
  {
    hide InOrder, BytesOk, EntryOk, Told;
    assert s.queue + [] == s.queue;
    var r := s.streams[step.sid];
    ToldNow(s, step.sid, r);
    ToldSame(s, Apply(s, step), step.sid, r, Stepped(r, step));
  }

  lemma ToldNow(s: State, sid: Id, r: Stream)
    requires Told(s, sid, r)
    ensures r.phase == Unopened ==> !On(s.monitor, sid) && r.reader == NoReader
  {
  }

  lemma SendingStepTold(s: State, step: Step)
    requires Enabled(s, step) && (step.SendOpen? || step.SendConnect?) && StreamOk(s, step.sid)
    ensures Told(Apply(s, step), step.sid, Apply(s, step).streams[step.sid])
  {
    hide BytesOk, EntryOk;
  }

  lemma StreamStepTold(s: State, step: Step)
    requires Enabled(s, step) && OfStream(step) && StreamOk(s, step.sid)
    ensures Told(Apply(s, step), step.sid, Apply(s, step).streams[step.sid])
  {
    hide Told, Stepped;
    if Sends(step) == [] {
      QuietStepTold(s, step);
    } else {
      SendingStepTold(s, step);
    }
  }

  predicate OfReader(step: Step) {
    step.ReaderTakes? || step.ReaderLooks? || step.ReaderWrites? || step.ReaderSkips? || step.ReaderEnds?
  }

  lemma ReaderStepEntry(s: State, step: Step)
    requires Enabled(s, step) && OfReader(step) && StreamOk(s, step.sid)
    ensures EntryOk(Apply(s, step), step.sid, Apply(s, step).streams[step.sid])
  {
    hide BytesOk;
  }

  lemma StreamStepEntry(s: State, step: Step)
    requires Enabled(s, step) && OfStream(step) && !OfReader(step) && StreamOk(s, step.sid)
    ensures EntryOk(Apply(s, step), step.sid, Apply(s, step).streams[step.sid])
  {
    hide BytesOk, InOrder, Portion;
  }

  lemma CutSnoc(fates: seq<Fate>, over: bool, fate: Fate, later: bool)
    requires CutOnce(fates, over) && (over ==> later) && (IsCut(fate) ==> later) && (Passes(fate) ==> !over)
    ensures CutOnce(fates + [fate], later)
  {
  }

  lemma RelayedBytes(r: Stream, chunk: Payload, sid: Id, admitted: bool, sent: bool)
    requires BytesOk(r) && r.phase == Relaying
    ensures BytesOk(Stepped(r, RelayChunk(sid, chunk, admitted, sent)))
  {
    hide Whole, Portions, CutOnce;
    var verdict := if !admitted then GivenUp else if !sent then Lost else Done;
    WholeSnoc(r.offered, r.verdicts, chunk, verdict);
    CutSnoc(r.verdicts, false, verdict, verdict == Lost);
    var more := r.relayed + [chunk];
    assert more[|r.fates|..] == r.relayed[|r.fates|..] + [chunk];
    assert more[..|r.fates|] == r.relayed[..|r.fates|];
    assert Hand(r.reader) + r.channel + [chunk] == Hand(r.reader) + (r.channel + [chunk]);
  }

  lemma TakenBytes(r: Stream, sid: Id)
    requires BytesOk(r) && r.reader == Waiting && r.channel != []
    ensures BytesOk(Stepped(r, ReaderTakes(sid)))
  {
    hide Whole, Portions, CutOnce;
    assert [] + r.channel == [r.channel[0]] + r.channel[1..];
  }

  /** A settled frame, with the stream closed at the same time or not. */
  lemma SettledBytes(r: Stream, fate: Fate, q: Stream)
    requires BytesOk(r) && Hand(r.reader) != []
    requires var t := Settle(r, fate);
      && q.reader == t.reader && q.written == t.written && q.channel == t.channel && q.fates == t.fates
      && q.relayed == r.relayed && q.offered == r.offered && q.verdicts == r.verdicts && q.phase == r.phase
    requires (r.closed ==> q.closed) && (IsCut(fate) ==> q.closed) && (Passes(fate) ==> !r.closed)
    ensures BytesOk(q)
  {
    hide Whole, Portions, CutOnce, NoPart;
    var n, f := |r.fates|, r.reader.frame;
    assert r.relayed[n] == r.relayed[n..][0] == f;
    assert r.relayed[..n + 1] == r.relayed[..n] + [f];
    assert r.relayed[n + 1..] == r.relayed[n..][1..] == r.channel;
    PortionsSnoc(r.relayed[..n], r.fates, f, fate);
    CutSnoc(r.fates, r.closed, fate, q.closed);
  }

  /** The account does not look at the entry, the dial or the monitor channel. */
  lemma BytesSame(r: Stream, q: Stream)
    requires BytesOk(r) && Hand(q.reader) == Hand(r.reader) && q.written == r.written && q.channel == r.channel
    requires q.relayed == r.relayed && q.offered == r.offered && q.verdicts == r.verdicts && q.fates == r.fates
    requires (r.closed ==> q.closed) && (r.phase == Stopped ==> q.phase == Stopped)
    ensures BytesOk(q)
  {
    hide Whole, Portions, NoPart;
  }

  lemma ReaderBytes(r: Stream, step: Step)
    requires BytesOk(r) && OfReader(step) && !step.ReaderTakes?
    requires step.ReaderLooks? || step.ReaderSkips? ==> r.reader.Looking?
    requires step.ReaderWrites? ==> r.reader.Writing?
    requires (step.ReaderEnds? ==> r.reader == Waiting) && (r.reader.Looking? && !r.closed ==> r.slot != Absent)
    requires r.closed ==> !r.connOpen
    requires r.reader.Writing? && !r.connOpen ==> r.closed
    ensures BytesOk(Stepped(r, step))
  {
    hide BytesOk;
    var q := Stepped(r, step);
    match step
    case ReaderLooks(_) =>
      if r.slot == Absent {
        SettledBytes(r, Lost, q);
      } else {
        BytesSame(r, q);
      }
    case ReaderWrites(_, ok, part) =>
      SettledBytes(r, if r.connOpen && ok then Done else if r.connOpen then Part(part) else Lost, q);
    case ReaderSkips(_) => SettledBytes(r, GivenUp, q);
    case ReaderEnds(_) => BytesSame(r, q);
  }

  lemma OtherBytes(r: Stream, step: Step)
    requires BytesOk(r) && !step.RelayChunk? && !OfReader(step)
    requires step.SendOpen? || step.ServerReady? || step.SendConnect? ==> r.phase != Stopped
    ensures BytesOk(Stepped(r, step))
  {
    hide BytesOk;
    BytesSame(r, Stepped(r, step));
  }

  lemma StreamStepBytes(s: State, step: Step)
    requires Enabled(s, step) && OfStream(step) && StreamOk(s, step.sid)
    ensures BytesOk(Apply(s, step).streams[step.sid])
  {
    hide BytesOk, Told, Stepped;
    var r := s.streams[step.sid];
    match step
    case RelayChunk(sid, chunk, admitted, sent) => RelayedBytes(r, chunk, sid, admitted, sent);
    case ReaderTakes(sid) => TakenBytes(r, sid);
    case _ =>
      if OfReader(step) {
        ReaderBytes(r, step);
      } else {
        OtherBytes(r, step);
      }
  }

  lemma MonitorStepTold(s: State, ok: bool)
    requires Enabled(s, MonitorStep(ok)) && StreamOk(s, s.monitor.sid)
    ensures Told(Monitored(s, ok), s.monitor.sid, Monitored(s, ok).streams[s.monitor.sid])
  {
  }

  lemma MonitorStepEntry(s: State, ok: bool)
    requires Enabled(s, MonitorStep(ok)) && StreamOk(s, s.monitor.sid)
    ensures EntryOk(Monitored(s, ok), s.monitor.sid, Monitored(s, ok).streams[s.monitor.sid])
  {
  }

  lemma MonitorStepBytes(s: State, ok: bool)
    requires Enabled(s, MonitorStep(ok)) && StreamOk(s, s.monitor.sid)
    ensures BytesOk(Monitored(s, ok).streams[s.monitor.sid])
  {
    hide BytesOk, EntryOk, InOrder;
    var r := s.streams[s.monitor.sid];
    assert s.monitor.Spawning? ==> r.reader == NoReader;
    BytesSame(r, Monitored(s, ok).streams[s.monitor.sid]);
  }

  lemma MonitorStepOk(s: State, ok: bool)
    requires Enabled(s, MonitorStep(ok)) && StreamOk(s, s.monitor.sid)
    ensures s.monitor.sid in Monitored(s, ok).streams && StreamOk(Monitored(s, ok), s.monitor.sid)
  {
    hide Told, EntryOk, BytesOk;
    MonitorStepTold(s, ok);
    MonitorStepEntry(s, ok);
    MonitorStepBytes(s, ok);
  }

  lemma TakenTold(s: State, r: Stream)
    requires Enabled(s, TakeMessage) && Told(s, s.queue[0].sid, r)
    ensures Told(Apply(s, TakeMessage), s.queue[0].sid, r)
  {
    var m, q := s.queue[0], s.queue[1..];
    assert s.queue == [m] + q;
    assert forall i :: 0 <= i < |q| ==> q[i] == s.queue[i + 1];
  }

  lemma TakenEntry(s: State, r: Stream)
    requires Enabled(s, TakeMessage) && EntryOk(s, s.queue[0].sid, r)
    ensures EntryOk(Apply(s, TakeMessage), s.queue[0].sid, r)
  {
  }

  lemma TakeMessageOk(s: State)
    requires Enabled(s, TakeMessage) && s.queue[0].sid in s.streams && StreamOk(s, s.queue[0].sid)
    ensures StreamOk(Apply(s, TakeMessage), s.queue[0].sid)
  {
    hide Told, EntryOk, BytesOk;
    TakenTold(s, s.streams[s.queue[0].sid]);
    TakenEntry(s, s.streams[s.queue[0].sid]);
  }

  lemma SubjectKeeps(s: State, step: Step)
    requires Inv(s) && Enabled(s, step)
    ensures Subject(s, step) in Apply(s, step).streams && StreamOk(Apply(s, step), Subject(s, step))
  {
    hide StreamOk;
    match step
    case UserConnects(sid) => NewStreamOk(s, sid);
    case TakeMessage => TakeMessageOk(s);
    case MonitorStep(ok) => MonitorStepOk(s, ok);
    case _ => StreamStepOk(s, step);
  }

  lemma StreamStepOk(s: State, step: Step)
    requires Enabled(s, step) && OfStream(step) && StreamOk(s, step.sid)
    ensures step.sid in Apply(s, step).streams && StreamOk(Apply(s, step), step.sid)
  {
    hide EntryOk, Told, BytesOk, Stepped;
    StreamStepTold(s, step);
    if OfReader(step) {
      ReaderStepEntry(s, step);
    } else {
      StreamStepEntry(s, step);
    }
    StreamStepBytes(s, step);
  }

  lemma NewStreamOk(s: State, sid: Id)
    requires Inv(s) && sid !in s.streams
    ensures sid in Put(s, sid, NEW).streams && StreamOk(Put(s, sid, NEW), sid)
  {
  }

  lemma StepKeepsKnown(s: State, step: Step)
    requires Inv(s) && Enabled(s, step)
    ensures var s' := Apply(s, step);
      && (forall i :: 0 <= i < |s'.queue| ==> s'.queue[i].sid in s'.streams)
      && (s'.monitor != Idle ==> s'.monitor.sid in s'.streams)
  {
    hide StreamOk, Stepped;
  }

  lemma {:induction false} StepKeeps(s: State, step: Step)
    requires Inv(s) && Enabled(s, step)
    ensures Inv(Apply(s, step))
  {
    hide Apply, EntryOk, Told, BytesOk;
    var s' := Apply(s, step);
    SubjectKeeps(s, step);
    StepKeepsKnown(s, step);
    forall sid | sid in s'.streams ensures StreamOk(s', sid) {
      if sid != Subject(s, step) {
        StreamsStay(s, step);
        assert StreamOk(s, sid);
        OtherTold(s, step, sid);
        OtherEntry(s, step, sid);
      }
    }
  }

  lemma StreamsStay(s: State, step: Step)
    requires Enabled(s, step)
    ensures Apply(s, step).streams.Keys <= s.streams.Keys + {Subject(s, step)}
  {
  }

  lemma {:induction false} ExecKeeps(steps: seq<Step>)
    requires Exec(steps).Some?
    ensures Inv(Exec(steps).value)
  {
    if steps != [] {
      ExecKeeps(steps[..|steps| - 1]);
      StepKeeps(Exec(steps[..|steps| - 1]).value, steps[|steps| - 1]);
    }
  }

  // ---------------------------------------------------------------- the results

  /** Early registration works: in every interleaving, no data frame finds its stream without an
      entry before that stream's own dial failure or close. */
  lemma NoFrameFindsNoEntry(steps: seq<Step>, sid: Id)
    requires Exec(steps).Some? && sid in Exec(steps).value.streams
    ensures var r := Exec(steps).value.streams[sid];
      r.strays == 0 && (r.reader.Looking? && !r.closed ==> r.slot != Absent)
  {
    ExecKeeps(steps);
    assert StreamOk(Exec(steps).value, sid);
  }

  /** In every run, the frames relayed are exactly the chunks read that were neither refused nor lost;
      the bytes written upstream are what each finished frame's fate lets through, in order; and the
      other frames are, in order, in the reader's hand or in the channel. */
  lemma EveryByteAccounted(steps: seq<Step>, sid: Id)
    requires Exec(steps).Some? && sid in Exec(steps).value.streams
    ensures var r := Exec(steps).value.streams[sid];
      && |r.verdicts| == |r.offered| && r.relayed == Whole(r.offered, r.verdicts)
      && |r.fates| <= |r.relayed| && r.relayed[|r.fates|..] == Hand(r.reader) + r.channel
      && r.written == Portions(r.relayed[..|r.fates|], r.fates)
  {
    ExecKeeps(steps);
    assert StreamOk(Exec(steps).value, sid);
  }

  /** Nothing passes after something given up on. */
  predicate NothingAfterGiveUp(fates: seq<Fate>) {
    forall i, j :: 0 <= i < j < |fates| && fates[i] == GivenUp ==> !Passes(fates[j])
  }

  lemma GapIsGiveUp(fates: seq<Fate>, over: bool)
    requires CutOnce(fates, over)
    ensures NothingAfterGap(fates) <==> NothingAfterGiveUp(fates)
  {
    if NothingAfterGiveUp(fates) {
      forall i, j | 0 <= i < j < |fates| && Passes(fates[j]) ensures fates[i] == Done {
        assert !IsCut(fates[i]) && fates[i] != GivenUp;
      }
    }
  }

  lemma WrittenInOrder(r: Stream)
    requires BytesOk(r)
    ensures AlwaysPrefix(r.fates) <==> NothingAfterGiveUp(r.fates)
    ensures NothingAfterGiveUp(r.fates) ==> r.written <= Concat(r.relayed)
  {
    hide NothingAfterGap, NothingAfterGiveUp, AlwaysPrefix, Portions, CutOnce, Whole, NoPart;
    GapIsGiveUp(r.fates, r.closed);
    PrefixExactly(r.fates);
    if NothingAfterGiveUp(r.fates) {
      var done, rest := r.relayed[..|r.fates|], r.relayed[|r.fates|..];
      PrefixWithoutGap(done, r.fates);
      ConcatSplit(done, rest);
      assert r.relayed == done + rest;
    }
  }

  lemma RelayedInOrder(r: Stream)
    requires BytesOk(r)
    ensures Concat(r.relayed) == Portions(r.offered, r.verdicts)
    ensures AlwaysPrefix(r.verdicts) <==> NothingAfterGiveUp(r.verdicts)
    ensures NothingAfterGiveUp(r.verdicts) ==> Concat(r.relayed) <= Concat(r.offered)
  {
    hide NothingAfterGap, NothingAfterGiveUp, AlwaysPrefix, Portions, CutOnce, Whole;
    WholeIsAll(r.offered, r.verdicts);
    GapIsGiveUp(r.verdicts, r.phase == Stopped);
    PrefixExactly(r.verdicts);
    if NothingAfterGiveUp(r.verdicts) {
      PrefixWithoutGap(r.offered, r.verdicts);
    }
  }

  /** What is written upstream begins what was relayed, whatever the bytes, exactly when no frame was
      written after one whose wait for a connection had run out. */
  lemma WrittenInOrderExactly(steps: seq<Step>, sid: Id)
    requires Exec(steps).Some? && sid in Exec(steps).value.streams
    ensures var r := Exec(steps).value.streams[sid];
      && (AlwaysPrefix(r.fates) <==> NothingAfterGiveUp(r.fates))
      && (NothingAfterGiveUp(r.fates) ==> r.written <= Concat(r.relayed))
  {
    hide BytesOk, NothingAfterGiveUp, AlwaysPrefix, Told, EntryOk, Exec;
    ExecKeeps(steps);
    assert StreamOk(Exec(steps).value, sid);
    WrittenInOrder(Exec(steps).value.streams[sid]);
  }

  /** What is relayed begins what the user sent, whatever the bytes, exactly when no chunk was relayed
      after one that the bandwidth limit refused. */
  lemma RelayedInOrderExactly(steps: seq<Step>, sid: Id)
    requires Exec(steps).Some? && sid in Exec(steps).value.streams
    ensures var r := Exec(steps).value.streams[sid];
      && |r.verdicts| == |r.offered| && Concat(r.relayed) == Portions(r.offered, r.verdicts)
      && (AlwaysPrefix(r.verdicts) <==> NothingAfterGiveUp(r.verdicts))
      && (NothingAfterGiveUp(r.verdicts) ==> Concat(r.relayed) <= Concat(r.offered))
  {
    EveryByteAccounted(steps, sid);
    hide BytesOk, NothingAfterGiveUp, AlwaysPrefix, Told, EntryOk, Exec, Portions;
    ExecKeeps(steps);
    assert StreamOk(Exec(steps).value, sid);
    RelayedInOrder(Exec(steps).value.streams[sid]);
  }

  /** With neither kind of gap, what is written begins what the user sent. */
  lemma WrittenIsUsersPrefix(steps: seq<Step>, sid: Id)
    requires Exec(steps).Some? && sid in Exec(steps).value.streams
    requires var r := Exec(steps).value.streams[sid]; NothingAfterGiveUp(r.fates) && NothingAfterGiveUp(r.verdicts)
    ensures var r := Exec(steps).value.streams[sid]; r.written <= Concat(r.offered)
  {
    WrittenInOrderExactly(steps, sid);
    RelayedInOrderExactly(steps, sid);
  }

  lemma ExecNothing()
    ensures Exec([]) == Some(Init())
  {
  }

  lemma Next(steps: seq<Step>, s: State, step: Step) returns (more: seq<Step>, s': State)
    requires Exec(steps) == Some(s) && Enabled(s, step)
    ensures more == steps + [step] && s' == Apply(s, step) && Exec(more) == Some(s')
  {
    more, s' := steps + [step], Apply(s, step);
    assert more[..|steps|] == steps;
  }

  /** The client has entered the stream, started its reader and announced the data channel. */
  lemma Announced(sid: Id) returns (steps: seq<Step>, s: State)
    ensures Exec(steps) == Some(s) && sid in s.streams && s.monitor == Idle && s.queue == []
    ensures s.streams[sid]
         == NEW.(phase := Opening, accepted := true, announced := true, slot := Placeholder, reader := Waiting)
  {
    hide Exec;
    ExecNothing();
    steps, s := Next([], Init(), UserConnects(sid));
    steps, s := Next(steps, s, SendOpen(sid));
    steps, s := Next(steps, s, TakeMessage);
    assert s.monitor == DialingData(sid) && s.queue == [] && s.streams[sid] == NEW.(phase := Opening);
    steps, s := Next(steps, s, ServerAccepts(sid));
    steps, s := Next(steps, s, MonitorStep(true));
    steps, s := Next(steps, s, MonitorStep(true));
    assert s.monitor == Spawning(sid);
    assert s.streams[sid] == NEW.(phase := Opening, accepted := true, slot := Placeholder);
    steps, s := Next(steps, s, MonitorStep(true));
    steps, s := Next(steps, s, MonitorStep(true));
  }

  /** A stream at its relay, the client yet to be told to connect. */
  lemma Opened(sid: Id) returns (steps: seq<Step>, s: State)
    ensures Exec(steps) == Some(s) && sid in s.streams && s.monitor == Idle && s.queue == [Connect(sid)]
    ensures s.streams[sid]
         == NEW.(phase := Relaying, accepted := true, announced := true, slot := Placeholder, reader := Waiting)
  {
    hide Exec;
    steps, s := Announced(sid);
    steps, s := Next(steps, s, ServerReady(sid));
    steps, s := Next(steps, s, SendConnect(sid));
  }

  lemma Dialled(sid: Id, steps0: seq<Step>, s0: State) returns (steps: seq<Step>, s: State)
    requires Exec(steps0) == Some(s0) && sid in s0.streams && s0.monitor == Idle && s0.queue == [Connect(sid)]
    requires s0.streams[sid].slot == Placeholder
    ensures Exec(steps) == Some(s) && sid in s.streams
    ensures s.streams[sid] == s0.streams[sid].(slot := Conn, connOpen := true, dialer := Running)
  {
    hide Exec;
    steps, s := Next(steps0, s0, TakeMessage);
    steps, s := Next(steps, s, MonitorStep(true));
    steps, s := Next(steps, s, MonitorStep(true));
    steps, s := Next(steps, s, UpstreamDial(sid, true));
  }

  /** A step of one stream that sends nothing on the monitor channel. */
  lemma StreamNext(steps: seq<Step>, s: State, step: Step) returns (more: seq<Step>, s': State)
    requires Exec(steps) == Some(s) && Enabled(s, step) && OfStream(step) && Sends(step) == []
    ensures Exec(more) == Some(s') && s' == Put(s, step.sid, Stepped(s.streams[step.sid], step))
  {
    hide Exec, Stepped, Enabled;
    more, s' := Next(steps, s, step);
    assert s.queue + [] == s.queue;
  }

  /** The reader hands the one frame in the channel to the upstream. */
  lemma Delivered(sid: Id, steps0: seq<Step>, s0: State, f: Payload) returns (steps: seq<Step>, s: State)
    requires Exec(steps0) == Some(s0) && sid in s0.streams
    requires var r := s0.streams[sid]; r.slot == Conn && r.connOpen && r.reader == Waiting && r.channel == [f]
    ensures Exec(steps) == Some(s) && sid in s.streams
    ensures var r := s0.streams[sid];
      s.streams[sid] == r.(channel := [], written := r.written + f, fates := r.fates + [Done])
  {
    hide Exec, Apply;
    var r := s0.streams[sid];
    steps, s := StreamNext(steps0, s0, ReaderTakes(sid));
    assert s.streams[sid] == r.(channel := [], reader := Looking(f));
    steps, s := StreamNext(steps, s, ReaderLooks(sid));
    assert s.streams[sid] == r.(channel := [], reader := Writing(f));
    steps, s := StreamNext(steps, s, ReaderWrites(sid, true, 0));
  }

  /** A chunk relayed and, its wait over, given up on. */
  lemma Skipped(sid: Id, steps0: seq<Step>, s0: State, f: Payload) returns (steps: seq<Step>, s: State)
    requires Exec(steps0) == Some(s0) && sid in s0.streams
    requires var r := s0.streams[sid];
      r.phase == Relaying && r.accepted && r.slot == Placeholder && r.reader == Waiting && r.channel == []
    ensures Exec(steps) == Some(s) && sid in s.streams && s.monitor == s0.monitor && s.queue == s0.queue
    ensures var r := s0.streams[sid];
      s.streams[sid] == r.(offered := r.offered + [f], verdicts := r.verdicts + [Done],
                           relayed := r.relayed + [f], fates := r.fates + [GivenUp])
  {
    hide Exec, Apply;
    var r := s0.streams[sid];
    var t := r.(offered := r.offered + [f], verdicts := r.verdicts + [Done], relayed := r.relayed + [f]);
    steps, s := StreamNext(steps0, s0, RelayChunk(sid, f, true, true));
    assert r.channel + [f] == [f];
    assert s.streams[sid] == t.(channel := [f]);
    steps, s := StreamNext(steps, s, ReaderTakes(sid));
    assert s.streams[sid] == t.(reader := Looking(f));
    steps, s := StreamNext(steps, s, ReaderSkips(sid));
    assert r.written + [] == r.written;
  }

  /** The bounded wait does break the order: a frame given up on before the dial leaves a gap. */
  lemma SkippedFrameLeavesGap(sid: Id) returns (steps: seq<Step>)
    ensures Exec(steps).Some? && sid in Exec(steps).value.streams
    ensures var r := Exec(steps).value.streams[sid];
      r.verdicts == [Done, Done] && !r.closed && r.strays == 0 && !(r.written <= Concat(r.relayed))
  {
    hide Exec, Apply;
    var s;
    steps, s := Opened(sid);
    steps, s := Skipped(sid, steps, s, [1]);
    steps, s := StreamNext(steps, s, RelayChunk(sid, [2], true, true));
    steps, s := Dialled(sid, steps, s);
    steps, s := Delivered(sid, steps, s, [2]);
    var r := s.streams[sid];
    assert r.written == [2] && r.relayed == [[1], [2]];
    assert Concat(r.relayed) == [1] + Concat([[2]]);
    assert r.written[0] != Concat(r.relayed)[0];
  }

  /** So does a chunk refused twice by the bandwidth limit: the relay drops it and goes on. */
  lemma DroppedChunkLeavesGap(sid: Id) returns (steps: seq<Step>)
    ensures Exec(steps).Some? && sid in Exec(steps).value.streams
    ensures var r := Exec(steps).value.streams[sid];
      r.fates == [Done] && !r.closed && r.written <= Concat(r.relayed) && !(r.written <= Concat(r.offered))
  {
    hide Exec, Apply;
    var s;
    steps, s := Opened(sid);
    steps, s := StreamNext(steps, s, RelayChunk(sid, [1], false, true));
    steps, s := StreamNext(steps, s, RelayChunk(sid, [2], true, true));
    steps, s := Dialled(sid, steps, s);
    steps, s := Delivered(sid, steps, s, [2]);
    var r := s.streams[sid];
    assert r.written == [2] && r.relayed == [[2]] && r.offered == [[1], [2]];
    assert Concat(r.relayed) == [2] + Concat([]);
    assert Concat(r.offered) == [1] + Concat([[2]]);
    assert r.written[0] != Concat(r.offered)[0];
  }
}
