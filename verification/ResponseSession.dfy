/** The server's side of a streamed request's response: its session, its timeout, its callback. */
module ResponseSession {
  import opened Words
  import opened SemanticStream
  import Callbacks

  // ---------------------------------------------------------------- one request

  /** The entry in the table of sessions, the running timeout, the callback that a whole response or the
      timeout takes, whether the browser's connection is closed, and what the browser has received. */
  datatype Session = Session(open: bool, timer: bool, callback: bool, shut: bool, browser: Payload)

  const NONE := Session(false, false, false, false, [])

  /** Whether the download limit allows an answer and its write succeeds; how many bytes a failed write
      delivers, and whether the error page then written gets through. */
  datatype Luck = Luck(allowed: bool, written: bool, part: nat, told: bool)

  function Ended(x: Session): Session {
    x.(open := false, callback := false)
  }

  function Received(x: Session, data: Payload): Session {
    if x.shut then x else x.(browser := x.browser + data)
  }

  function Destroyed(x: Session, told: bool, notFound: Payload): Session {
    Received(x, if told then notFound else []).(shut := true)
  }

  predicate Came(x: Session, luck: Luck) {
    luck.allowed && luck.written && !x.shut
  }

  /** Bytes written to the browser; the connection is closed with an error page if that fails. */
  function Relayed(x: Session, data: Payload, luck: Luck, notFound: Payload): Session {
    if !luck.allowed then Destroyed(x, luck.told, notFound)
    else if Came(x, luck) then Received(x, data)
    else Destroyed(Received(x, data[..Min(luck.part, |data|)]), luck.told, notFound)
  }

  function Dispatched(x: Session, f: Frame, luck: Luck, notFound: Payload): (Session, bool) {
    if !x.open then (x, false)
    else
      var y := Relayed(x.(timer := false), f.data, luck, notFound);
      (if f.fin || !Came(x, luck) then Ended(y) else y, true)
  }

  /** A whole response takes the callback, which stops the timeout and leaves the session's entry. */
  function Answered(x: Session, data: Payload, luck: Luck, notFound: Payload): Session {
    if !x.callback then x else Relayed(x.(callback := false, timer := false), data, luck, notFound)
  }

  datatype Happening =
    | Begins
    | FrameComes(f: Frame, luck: Luck)
    | WholeComes(data: Payload, luck: Luck)
    | TimesOut(page: Payload, luck: Luck)
    | SendFails(told: bool)
    | Closes                                   // the browser's connection is over
    | Shuts                                    // another request of the connection closes it

  function Happens(x: Session, e: Happening, notFound: Payload): Session {
    match e
    case Begins => x.(open := true, timer := true, callback := true)
    case FrameComes(f, luck) => Dispatched(x, f, luck, notFound).0
    case WholeComes(data, luck) => Answered(x, data, luck, notFound)
    case TimesOut(page, luck) =>
      if !x.timer then x else Answered(x.(open := false, timer := false), page, luck, notFound)
    case SendFails(told) => Destroyed(Ended(x.(timer := false)), told, notFound)
    case Closes => Ended(x.(timer := x.timer && !x.open, shut := true))
    case Shuts => x.(shut := true)
  }

  function Run(x: Session, es: seq<Happening>, notFound: Payload): Session {
    if es == [] then x else Happens(Run(x, es[..|es| - 1], notFound), es[|es| - 1], notFound)
  }

  // ---------------------------------------------------------------- the program

  class StreamResponder {
    var streamResp: set<Callbacks.Key>      // the requests with an open session
    var timers: set<Callbacks.Key>
    var shut: set<Id>
    var browsers: map<Callbacks.Key, Payload>
    const callbacks: Callbacks.CallbackContainer<Callbacks.Key>
    const notFound: Payload

    ghost predicate Valid()
      reads this, callbacks
    {
      callbacks.Valid()
    }

    ghost function At(k: Callbacks.Key): Session
      reads this, callbacks
    {
      Session(k in streamResp, k in timers, k in callbacks.Contents, k.tcp in shut,
              if k in browsers then browsers[k] else [])
    }

    constructor (notFound: Payload)
      ensures Valid() && fresh(callbacks) && this.notFound == notFound && forall k :: At(k) == NONE
    {
      this.notFound := notFound;
      callbacks := new Callbacks.CallbackContainer();
      streamResp, timers, shut, browsers := {}, {}, {}, map[];
    }

    /** The callback, the session and its timer are set up before anything is sent. */
    method Begin(k: Callbacks.Key)
      requires Valid()
      modifies this, callbacks
      ensures Valid()
      ensures forall j :: At(j) == Beside(j, old(At(j)), k, old(At(k)), Begins, notFound)
    {
      callbacks.Set(k.tcp, k.request, k);
      assert k == Callbacks.Key(k.tcp, k.request);
      streamResp := streamResp + {k};
      timers := timers + {k};
    }

    method FinishSession(k: Callbacks.Key)
      requires Valid()
      modifies this, callbacks
      ensures Valid()
      ensures At(k) == Ended(old(At(k)))
      ensures forall j :: j != k ==> At(j) == old(At(j))
    {
      streamResp := streamResp - {k};
      var ignored := callbacks.Take(k.tcp, k.request);
      assert k == Callbacks.Key(k.tcp, k.request);
    }

    /** On a closed connection nothing is delivered. */
    method Write(k: Callbacks.Key, data: Payload)
      modifies this`browsers
      ensures At(k) == Received(old(At(k)), data)
      ensures forall j :: j != k ==> At(j) == old(At(j))
    {
      if k.tcp !in shut {
        browsers := browsers[k := (if k in browsers then browsers[k] else []) + data];
      }
    }

    /** The error page, if the connection still takes it, and the end of the connection. */
    method DestroyConnection(k: Callbacks.Key, told: bool)
      modifies this`browsers, this`shut
      ensures At(k) == Destroyed(old(At(k)), told, notFound)
      ensures forall j :: j != k ==> At(j) == if j.tcp == k.tcp then old(At(j)).(shut := true) else old(At(j))
    {
      if told {
        Write(k, notFound);
      } else {
        Write(k, []);
        assert forall p: Payload :: p + [] == p;
      }
      shut := shut + {k.tcp};
    }

    /** The limit, the write, and what follows when either fails. */
    method Relay(k: Callbacks.Key, data: Payload, luck: Luck) returns (ok: bool)
      modifies this`browsers, this`shut
      ensures ok == Came(old(At(k)), luck)
      ensures At(k) == Relayed(old(At(k)), data, luck, notFound)
      ensures forall j :: j != k ==> At(j) == Other(j, old(At(j)), k, At(k))
    {
      if !luck.allowed {
        DestroyConnection(k, luck.told);
        return false;
      }
      if !luck.written || k.tcp in shut {
        Write(k, data[..Min(luck.part, |data|)]);
        DestroyConnection(k, luck.told);
        return false;
      }
      Write(k, data);
      return true;
    }

    method Dispatch(k: Callbacks.Key, f: Frame, luck: Luck) returns (known: bool)
      requires Valid()
      modifies this, callbacks
      ensures Valid()
      ensures known == Dispatched(old(At(k)), f, luck, notFound).1
      ensures forall j :: At(j) == Beside(j, old(At(j)), k, old(At(k)), FrameComes(f, luck), notFound)
    {
      hide Relayed, Happens;
      FrameHappens(At(k), f, luck, notFound);
      if k !in streamResp {
        return false;
      }
      timers := timers - {k};
      var ok := Relay(k, f.data, luck);
      if !ok {
        FinishSession(k);
        return true;
      }
      if f.kind == Head && f.fin {
        FinishSession(k);
        return true;
      }
      if f.kind == Body && f.fin {
        FinishSession(k);
      }
      return true;
    }

    /** A whole response: whoever takes the callback runs it. */
    method HandleResponse(k: Callbacks.Key, data: Payload, luck: Luck)
      requires Valid()
      modifies this, callbacks
      ensures Valid()
      ensures forall j :: At(j) == Beside(j, old(At(j)), k, old(At(k)), WholeComes(data, luck), notFound)
    {
      hide Relayed;
      var callback := callbacks.Take(k.tcp, k.request);
      assert k == Callbacks.Key(k.tcp, k.request);
      if callback == None {
        return;
      }
      timers := timers - {k};
      var ok := Relay(k, data, luck);
    }

    /** The timer's handler, if the timer is still running. */
    method TimeOut(k: Callbacks.Key, page: Payload, luck: Luck)
      requires Valid()
      modifies this, callbacks
      ensures Valid()
      ensures forall j :: At(j) == Beside(j, old(At(j)), k, old(At(k)), TimesOut(page, luck), notFound)
    {
      hide Relayed, Dispatched, Destroyed;
      if k !in timers {
        return;
      }
      timers := timers - {k};
      streamResp := streamResp - {k};
      HandleResponse(k, page, luck);
    }

    /** The request could not be sent. */
    method SendError(k: Callbacks.Key, told: bool)
      requires Valid()
      modifies this, callbacks
      ensures Valid()
      ensures forall j :: At(j) == Beside(j, old(At(j)), k, old(At(k)), SendFails(told), notFound)
    {
      hide Happens, Destroyed;
      SendFailsIs(At(k), told, notFound);
      timers := timers - {k};
      FinishSession(k);
      assert forall j :: j != k ==> At(j) == old(At(j));
      DestroyConnection(k, told);
    }

    /** The browser's connection is over: every session of it goes, with its timer. */
    method Close(tcp: Id)
      requires Valid()
      modifies this, callbacks
      ensures Valid()
      ensures forall j :: At(j) == if j.tcp == tcp then Happens(old(At(j)), Closes, notFound) else old(At(j))
    {
      shut := shut + {tcp};
      callbacks.Remove(tcp);
      var todo := streamResp;
      while todo != {}
        invariant Valid() && shut == old(shut) + {tcp} && browsers == old(browsers)
        invariant callbacks.Contents == Callbacks.Without(old(callbacks.Contents), tcp)
        invariant todo <= old(streamResp)
        invariant forall k :: k in streamResp <==> k in old(streamResp) && (k.tcp != tcp || k in todo)
        invariant forall k :: k in timers <==>
          k in old(timers) && (k.tcp != tcp || k in todo || k !in old(streamResp))
        decreases todo
      {
        var k :| k in todo;
        if k.tcp == tcp {
          timers := timers - {k};
          streamResp := streamResp - {k};
        }
        todo := todo - {k};
      }
    }
  }

  /** Another request of the same connection sees it closed. */
  function Other(j: Callbacks.Key, x: Session, k: Callbacks.Key, now: Session): Session {
    if j.tcp == k.tcp && now.shut then x.(shut := true) else x
  }

  /** What becomes of request `j` when something happens to request `k`. */
  function Beside(j: Callbacks.Key, x: Session, k: Callbacks.Key, own: Session, e: Happening,
                  notFound: Payload): Session
  {
    if j == k then Happens(own, e, notFound) else Other(j, x, k, Happens(own, e, notFound))
  }

  lemma SendFailsIs(x: Session, told: bool, notFound: Payload)
    ensures var y := Ended(x.(timer := false));
      Happens(x, SendFails(told), notFound) == Destroyed(y, told, notFound) && Destroyed(y, told, notFound).shut
  {
  }

  lemma FrameHappens(x: Session, f: Frame, luck: Luck, notFound: Payload)
    ensures Happens(x, FrameComes(f, luck), notFound) == Dispatched(x, f, luck, notFound).0
  {
  }

  // ---------------------------------------------------------------- many requests at once

  datatype Call =
    | For(k: Callbacks.Key, what: Happening)
    | Over(tcp: Id)

  /** Where each request stands after a run of calls on the one table. */
  function After(calls: seq<Call>, j: Callbacks.Key, notFound: Payload): Session {
    if calls == [] then NONE
    else
      var init := calls[..|calls| - 1];
      match calls[|calls| - 1]
      case For(k, what) => Beside(j, After(init, j, notFound), k, After(init, k, notFound), what, notFound)
      case Over(tcp) => if j.tcp == tcp then Happens(After(init, j, notFound), Closes, notFound)
                        else After(init, j, notFound)
  }

  /** What one request sees of such a run: its own calls, and its connection closed by another. */
  function Seen(calls: seq<Call>, j: Callbacks.Key, notFound: Payload): seq<Happening> {
    if calls == [] then []
    else
      var init := calls[..|calls| - 1];
      Seen(init, j, notFound) +
      match calls[|calls| - 1]
      case For(k, what) =>
        if j == k then [what]
        else if j.tcp == k.tcp && After(calls, k, notFound).shut then [Shuts] else []
      case Over(tcp) => if j.tcp == tcp then [Closes] else []
  }

  lemma RunSnoc(x: Session, es: seq<Happening>, e: Happening, notFound: Payload)
    ensures Run(x, es + [e], notFound) == Happens(Run(x, es, notFound), e, notFound)
  {
    assert (es + [e])[..|es|] == es;
  }

  /** Requests share the table of sessions, the table of callbacks and their connections; each goes
      its own way but for a connection that another one closes. */
  lemma {:induction false} SessionsFollow(calls: seq<Call>, j: Callbacks.Key, notFound: Payload)
    ensures After(calls, j, notFound) == Run(NONE, Seen(calls, j, notFound), notFound)
  {
    hide Happens;
    if calls != [] {
      var init, before := calls[..|calls| - 1], Seen(calls[..|calls| - 1], j, notFound);
      SessionsFollow(init, j, notFound);
      var seen := Seen(calls, j, notFound);
      if seen == before {
        return;
      }
      var e := seen[|before|];
      assert seen == before + [e];
      RunSnoc(NONE, before, e, notFound);
      if e == Shuts {
        ShutsIs(After(init, j, notFound), notFound);
      }
    }
  }

  lemma ShutsIs(x: Session, notFound: Payload)
    ensures Happens(x, Shuts, notFound) == x.(shut := true)
  {
  }

  // ---------------------------------------------------------------- entries left behind

  /** No frame and no whole response has come. */
  predicate Untouched(es: seq<Happening>) {
    forall j :: 0 <= j < |es| ==> !es[j].FrameComes? && !es[j].WholeComes?
  }

  predicate SomeWhole(es: seq<Happening>) {
    exists j :: 0 <= j < |es| && es[j].WholeComes?
  }

  predicate GetsThrough(luck: Luck) {
    luck.allowed && luck.written
  }

  /** Another request closes the connection, or the first whole response does not get through. */
  predicate Breaks(es: seq<Happening>, j: nat)
    requires j < |es|
  {
    es[j].Shuts? || (es[j].WholeComes? && !GetsThrough(es[j].luck) && !SomeWhole(es[..j]))
  }

  predicate Broken(shut: bool, es: seq<Happening>) {
    shut || exists j :: 0 <= j < |es| && Breaks(es, j)
  }

  /** What takes an open session's entry out of the table: a last frame, one that does not get
      through, the timeout as long as nothing has come, a failed send, the end of the connection. */
  predicate Ends(shut: bool, es: seq<Happening>, i: nat)
    requires i < |es|
  {
    match es[i]
    case FrameComes(f, luck) => f.fin || !GetsThrough(luck) || Broken(shut, es[..i])
    case TimesOut(_, _) => Untouched(es[..i])
    case SendFails(_) => true
    case Closes => true
    case _ => false
  }

  predicate NothingEnds(shut: bool, es: seq<Happening>) {
    forall i :: 0 <= i < |es| ==> !Ends(shut, es, i)
  }

  lemma UntouchedSnoc(es: seq<Happening>, e: Happening)
    ensures Untouched(es + [e]) == (Untouched(es) && !e.FrameComes? && !e.WholeComes?)
  {
    var more := es + [e];
    assert more[|es|] == e && forall j :: 0 <= j < |es| ==> more[j] == es[j];
  }

  lemma SomeWholeSnoc(es: seq<Happening>, e: Happening)
    ensures SomeWhole(es + [e]) == (SomeWhole(es) || e.WholeComes?)
  {
    var more := es + [e];
    assert more[|es|] == e;
    assert forall j :: 0 <= j < |es| ==> more[j] == es[j];
  }

  predicate BreaksLast(es: seq<Happening>, e: Happening) {
    e.Shuts? || (e.WholeComes? && !GetsThrough(e.luck) && !SomeWhole(es))
  }

  lemma BrokenSnoc(shut: bool, es: seq<Happening>, e: Happening)
    ensures Broken(shut, es + [e]) == (Broken(shut, es) || BreaksLast(es, e))
  {
    hide SomeWhole;
    var more := es + [e];
    assert more[|es|] == e && more[..|es|] == es;
    forall j | 0 <= j < |es| ensures Breaks(more, j) == Breaks(es, j) {
      assert more[j] == es[j] && more[..j] == es[..j];
    }
    assert Breaks(more, |es|) == BreaksLast(es, e);
  }

  lemma NothingEndsSnoc(shut: bool, es: seq<Happening>, e: Happening)
    ensures NothingEnds(shut, es + [e]) == (NothingEnds(shut, es) && !Ends(shut, es + [e], |es|))
  {
    hide Untouched, Broken;
    var more := es + [e];
    assert more[..|es|] == es;
    forall i | 0 <= i < |es| ensures Ends(shut, more, i) == Ends(shut, es, i) {
      assert more[i] == es[i] && more[..i] == es[..i];
    }
  }

  predicate NoBegin(es: seq<Happening>) {
    forall i :: 0 <= i < |es| ==> !es[i].Begins?
  }

  /** As long as nothing has ended the session: whether its timeout still runs, its callback is still
      there and its connection is closed. */
  predicate Standing(x: Session, shut: bool, es: seq<Happening>) {
    x.timer == Untouched(es) && x.callback == !SomeWhole(es) && x.shut == Broken(shut, es)
  }

  /** One more happening to a session that stands. */
  lemma StandingStep(x: Session, shut: bool, es: seq<Happening>, e: Happening, notFound: Payload)
    requires x.open && Standing(x, shut, es) && !e.Begins?
    requires Untouched(es) ==> !SomeWhole(es)
    ensures var y := Happens(x, e, notFound);
      y.open == !Ends(shut, es + [e], |es|) && (y.open ==> Standing(y, shut, es + [e]))
  {
    assert (es + [e])[|es|] == e && (es + [e])[..|es|] == es;
    UntouchedSnoc(es, e);
    SomeWholeSnoc(es, e);
    BrokenSnoc(shut, es, e);
    hide Untouched, SomeWhole, Broken;
  }

  /** A session not open has no running timeout. */
  lemma GoneForGood(x: Session, e: Happening, notFound: Payload)
    requires !x.open && !e.Begins?
    ensures !Happens(x, e, notFound).open
  {
  }

  /** A session that has begun is open until something ends it, and stands as described till then. */
  lemma {:induction false} OpenExactly(x: Session, es: seq<Happening>, notFound: Payload)
    requires x.open && x.timer && x.callback && NoBegin(es)
    ensures var y := Run(x, es, notFound);
      y.open == NothingEnds(x.shut, es) && (y.open ==> Standing(y, x.shut, es))
  {
    hide Happens, Standing, Ends;
    if es == [] {
      NothingYet(x);
    } else {
      var init, e := es[..|es| - 1], es[|es| - 1];
      assert es == init + [e];
      OpenExactly(x, init, notFound);
      NothingEndsSnoc(x.shut, init, e);
      var y := Run(x, init, notFound);
      if y.open {
        WholeTouches(init);
        StandingStep(y, x.shut, init, e, notFound);
      } else {
        GoneForGood(y, e, notFound);
      }
    }
  }

  lemma NothingYet(x: Session)
    requires x.timer && x.callback
    ensures Standing(x, x.shut, [])
  {
  }

  lemma WholeTouches(es: seq<Happening>)
    ensures Untouched(es) ==> !SomeWhole(es)
  {
  }

  /** A session's entry stays in the table with no callback and no timeout exactly when a whole response
      has come since it began, and since then, or before, neither a last frame, a frame that did not
      get through, a timeout with nothing come before it, a failed send nor the end of the connection. */
  lemma LeftBehindExactly(x: Session, es: seq<Happening>, notFound: Payload)
    requires x.open && x.timer && x.callback && NoBegin(es)
    ensures var y := Run(x, es, notFound);
      && (y.open && !y.callback <==> SomeWhole(es) && NothingEnds(x.shut, es))
      && (y.open && !y.callback ==> !y.timer)
  {
    OpenExactly(x, es, notFound);
    WholeTouches(es);
  }

  lemma {:induction false} RunAppend(x: Session, a: seq<Happening>, b: seq<Happening>, notFound: Payload)
    ensures Run(x, a + b, notFound) == Run(Run(x, a, notFound), b, notFound)
  {
    if b == [] {
      assert a + b == a;
    } else {
      assert a + b == a + b[..|b| - 1] + [b[|b| - 1]] && b == b[..|b| - 1] + [b[|b| - 1]];
      RunAppend(x, a, b[..|b| - 1], notFound);
      RunSnoc(x, a + b[..|b| - 1], b[|b| - 1], notFound);
      RunSnoc(Run(x, a, notFound), b[..|b| - 1], b[|b| - 1], notFound);
    }
  }

  /** The same in the table of all requests, for one that saw `before`, then began, then saw `es`. */
  lemma EntryLeftExactly(calls: seq<Call>, k: Callbacks.Key, before: seq<Happening>, es: seq<Happening>,
                         notFound: Payload)
    requires Seen(calls, k, notFound) == before + [Begins] + es && NoBegin(es)
    ensures var y := After(calls, k, notFound);
      y.open && !y.callback <==> SomeWhole(es) && NothingEnds(Run(NONE, before, notFound).shut, es)
  {
    hide After, Seen, SomeWhole, NothingEnds;
    var x := Run(NONE, before + [Begins], notFound);
    SessionsFollow(calls, k, notFound);
    RunSnoc(NONE, before, Begins, notFound);
    RunAppend(NONE, before + [Begins], es, notFound);
    LeftBehindExactly(x, es, notFound);
  }

  lemma AfterSnoc(calls: seq<Call>, k: Callbacks.Key, what: Happening, notFound: Payload)
    ensures After(calls + [For(k, what)], k, notFound) == Happens(After(calls, k, notFound), what, notFound)
  {
    assert (calls + [For(k, what)])[..|calls|] == calls;
  }

  /** It happens: the client answers a streamed request with a whole response, its error page. The
      timeout no longer takes the entry away. */
  lemma LeftBehindHappens(k: Callbacks.Key, page: Payload, late: Payload, luck: Luck, notFound: Payload)
    returns (calls: seq<Call>)
    ensures After(calls, k, notFound) == Session(true, false, false, false, page)
    ensures After(calls + [For(k, TimesOut(late, luck))], k, notFound) == After(calls, k, notFound)
  {
    hide After;
    NoneYet(k, notFound);
    AfterSnoc([], k, Begins, notFound);
    calls := [] + [For(k, Begins)];
    AfterSnoc(calls, k, WholeComes(page, Luck(true, true, 0, false)), notFound);
    calls := calls + [For(k, WholeComes(page, Luck(true, true, 0, false)))];
    AfterSnoc(calls, k, TimesOut(late, luck), notFound);
    assert [] + page == page;
  }

  lemma NoneYet(k: Callbacks.Key, notFound: Payload)
    ensures After([], k, notFound) == NONE
  {
  }

  // ---------------------------------------------------------------- what the browser is given

  /** What an answer brings to an open connection: all of it, or the part a failed write delivers and then
      the error page if that gets through. */
  function Brought(data: Payload, luck: Luck, notFound: Payload): Payload {
    if GetsThrough(luck) then data
    else (if luck.allowed then data[..Min(luck.part, |data|)] else []) + if luck.told then notFound else []
  }

  /** Only a frame for an open session, a whole response or a timeout that still finds the callback, and
      the error page of a failed send reach the browser; and the connection is closed after exactly
      those that do not get through. */
  lemma BrowserExactly(x: Session, e: Happening, notFound: Payload)
    requires !x.shut
    ensures var y := Happens(x, e, notFound);
      match e
      case FrameComes(f, luck) =>
        y.browser == x.browser + (if x.open then Brought(f.data, luck, notFound) else [])
        && y.shut == (x.open && !GetsThrough(luck))
      case WholeComes(data, luck) =>
        y.browser == x.browser + (if x.callback then Brought(data, luck, notFound) else [])
        && y.shut == (x.callback && !GetsThrough(luck))
      case TimesOut(page, luck) =>
        y.browser == x.browser + (if x.timer && x.callback then Brought(page, luck, notFound) else [])
        && y.shut == (x.timer && x.callback && !GetsThrough(luck))
      case SendFails(told) => y.browser == x.browser + (if told then notFound else []) && y.shut
      case Begins => y.browser == x.browser && !y.shut
      case _ => y.browser == x.browser && y.shut
  {
    hide Relayed, Destroyed, Brought, GetsThrough, Came;
    assert x.browser + [] == x.browser;
    match e
    case FrameComes(f, luck) => RelayedBrings(x.(timer := false), f.data, luck, notFound);
    case WholeComes(data, luck) => RelayedBrings(x.(callback := false, timer := false), data, luck, notFound);
    case TimesOut(page, luck) =>
      RelayedBrings(x.(open := false, callback := false, timer := false), page, luck, notFound);
    case SendFails(told) => DestroyedBrings(Ended(x.(timer := false)), told, notFound);
    case _ =>
  }

  lemma RelayedBrings(x: Session, data: Payload, luck: Luck, notFound: Payload)
    requires !x.shut
    ensures var y := Relayed(x, data, luck, notFound);
      y.browser == x.browser + Brought(data, luck, notFound) && y.shut == !GetsThrough(luck)
  {
    var part := if luck.allowed then data[..Min(luck.part, |data|)] else [];
    var told := if luck.told then notFound else [];
    assert x.browser + [] == x.browser && [] + told == told;
    assert x.browser + part + told == x.browser + (part + told);
  }

  lemma DestroyedBrings(x: Session, told: bool, notFound: Payload)
    requires !x.shut
    ensures var y := Destroyed(x, told, notFound);
      y.browser == x.browser + (if told then notFound else []) && y.shut
  {
  }

  /** Once the connection is closed nothing reaches the browser any more, whatever happens. */
  lemma {:induction false} ClosedReceivesNothing(x: Session, es: seq<Happening>, notFound: Payload)
    requires x.shut
    ensures Run(x, es, notFound).browser == x.browser && Run(x, es, notFound).shut
  {
    if es != [] {
      ClosedReceivesNothing(x, es[..|es| - 1], notFound);
    }
  }

  // ---------------------------------------------------------------- a response in frames

  predicate Lucky(e: Happening) {
    e.FrameComes? && GetsThrough(e.luck)
  }

  /** The first `n` frames came through. */
  predicate LuckySoFar(es: seq<Happening>, fs: seq<Frame>, n: nat)
    requires n <= |es| && n <= |fs|
  {
    forall i :: 0 <= i < n ==> Lucky(es[i]) && es[i].f == fs[i]
  }

  function Halfway(x: Session, received: Payload, n: nat, total: nat): Session {
    var y := x.(timer := x.timer && n == 0, browser := x.browser + received);
    if n == total then Ended(y) else y
  }

  lemma {:induction false} RelayedSoFar(x: Session, es: seq<Happening>, fs: seq<Frame>, n: nat, notFound: Payload)
    requires x.open && !x.shut && n <= |fs| && n <= |es| && IsMessage(fs) && LuckySoFar(es, fs, n)
    ensures Run(x, es[..n], notFound) == Halfway(x, Carried(fs[..n]), n, |fs|)
  {
    hide Carried;
    if n == 0 {
      NothingRun(Slot(None, []));
      assert x.browser + [] == x.browser && fs[..0] == [];
    } else {
      RelayedSoFar(x, es, fs, n - 1, notFound);
      assert es[..n][..n - 1] == es[..n - 1] && fs[..n] == fs[..n - 1] + [fs[n - 1]];
      assert es[n - 1].f == fs[n - 1] && Lucky(es[n - 1]);
      CarriedSnoc(fs[..n - 1], fs[n - 1]);
    }
  }

  /** What comes from the client or the timer. */
  predicate FromOutside(e: Happening) {
    e.FrameComes? || e.WholeComes? || e.TimesOut?
  }

  lemma {:induction false} ClosedForGood(x: Session, es: seq<Happening>, n: nat, notFound: Payload)
    requires n <= |es| && (forall i :: n <= i < |es| ==> FromOutside(es[i]))
    requires var y := Run(x, es[..n], notFound); !y.open && !y.timer && !y.callback
    ensures Run(x, es, notFound) == Run(x, es[..n], notFound)
    decreases |es| - n
  {
    if n == |es| {
      assert es[..n] == es;
    } else {
      assert es[..n + 1][..n] == es[..n];
      ClosedForGood(x, es, n + 1, notFound);
    }
  }

  /** The browser receives exactly the head and the body, after which the session, its timeout and
      its callback are gone, and anything further from the client or the timer is ignored. */
  lemma ResponseArrives(x: Session, es: seq<Happening>, head: Payload, body: Payload, notFound: Payload)
    requires x.open && !x.shut && |es| >= |Framed(head, Pieces(body, 0))|
    requires LuckySoFar(es, Framed(head, Pieces(body, 0)), |Framed(head, Pieces(body, 0))|)
    requires forall i :: 0 <= i < |es| ==> FromOutside(es[i])
    ensures Run(x, es, notFound) == Session(false, false, false, false, x.browser + (head + body))
  {
    var parts := Pieces(body, 0);
    var fs := Framed(head, parts);
    IsFramed(head, parts);
    FinOnLastOnly(head, parts);
    PiecesJoin(body, 0);
    assert body[0..] == body && fs[..|fs|] == fs;
    RelayedSoFar(x, es, fs, |fs|, notFound);
    ClosedForGood(x, es, |fs|, notFound);
  }

  /** If a frame does not come through, the browser has what came before it, the part of it that a
      failed write delivered, then the error page if it gets through, and nothing after: the session
      is over and its connection closed. */
  lemma ResponseCut(x: Session, es: seq<Happening>, head: Payload, parts: seq<Payload>, n: nat, notFound: Payload)
    requires x.open && !x.shut && n < |es| && n < |Framed(head, parts)|
    requires LuckySoFar(es, Framed(head, parts), n) && es[n].FrameComes? && !Lucky(es[n])
    requires forall i :: n <= i < |es| ==> FromOutside(es[i])
    ensures Run(x, es, notFound) == Session(false, false, false, true,
      x.browser + Carried(Framed(head, parts)[..n]) + Brought(es[n].f.data, es[n].luck, notFound))
  {
    var fs := Framed(head, parts);
    IsFramed(head, parts);
    RelayedSoFar(x, es, fs, n, notFound);
    assert es[..n + 1][..n] == es[..n];
    CutNow(Run(x, es[..n], notFound), es[n].f, es[n].luck, notFound);
    ClosedForGood(x, es, n + 1, notFound);
  }

  lemma CutNow(x: Session, f: Frame, luck: Luck, notFound: Payload)
    requires x.open && !x.shut && !GetsThrough(luck)
    ensures Happens(x, FrameComes(f, luck), notFound)
         == Session(false, false, false, true, x.browser + Brought(f.data, luck, notFound))
  {
    var part := if luck.allowed then f.data[..Min(luck.part, |f.data|)] else [];
    var told := if luck.told then notFound else [];
    assert x.browser + [] == x.browser;
    assert x.browser + part + told == x.browser + (part + told);
  }
}
