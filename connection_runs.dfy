/** Properties of whole sequences of controller events: the retry policy
    over a run of failures, the terminal state after the retry budget is
    spent, and what a run may do to the log and to the socket. */
module ConnectionRuns {

  import opened Wrappers
  import opened ChatStore
  import opened Connection

  /** The state after the events `evs`, one at a time, or None when one of
      them cannot occur in the state it meets. */
  function Run(s: Conn, evs: seq<Event>): Option<Conn>
    decreases evs
  {
    if evs == [] then Some(s)
    else if Enabled(s, evs[0]) then Run(Step(s, evs[0]), evs[1..])
    else None
  }

  /** The number of messages in `msgs` with text `text`. */
  function CountText(msgs: seq<Message>, text: string): nat
  {
    if msgs == [] then 0
    else (if msgs[0].content == text then 1 else 0) + CountText(msgs[1..], text)
  }

  /** The number of close events in `evs`. */
  function Closes(evs: seq<Event>): nat
  {
    if evs == [] then 0 else (if evs[0].SocketClose? then 1 else 0) + Closes(evs[1..])
  }

  /** The number of send events in `evs`. */
  function Sends(evs: seq<Event>): nat
  {
    if evs == [] then 0 else (if evs[0].SendMessage? then 1 else 0) + Sends(evs[1..])
  }

  /** The events of a connection failure: error, close, the reconnect timer. */
  predicate FailureEvent(e: Event)
  {
    e.SocketError? || e.SocketClose? || e.ReconnectTimer?
  }

  /** One retry per id: the socket closes and the reconnect timer fires. */
  function RetryCycles(ids: seq<Id>): (evs: seq<Event>)
    ensures |evs| == 2 * |ids|
  {
    if ids == [] then [] else [SocketClose(ids[0]), ReconnectTimer] + RetryCycles(ids[1..])
  }

  lemma {:induction false} CountTextConcat(a: seq<Message>, b: seq<Message>, text: string)
    ensures CountText(a + b, text) == CountText(a, text) + CountText(b, text)
  {
    if a != [] {
      assert (a + b)[0] == a[0] && (a + b)[1..] == a[1..] + b;
      CountTextConcat(a[1..], b, text);
    } else {
      assert a + b == b;
    }
  }

  /** Running `a` then `b` is running `a + b`. */
  lemma {:induction false} RunConcat(s: Conn, a: seq<Event>, b: seq<Event>)
    ensures Run(s, a + b) == match Run(s, a) case None => None case Some(t) => Run(t, b)
    decreases a
  {
    if a != [] {
      assert (a + b)[0] == a[0] && (a + b)[1..] == a[1..] + b;
      if Enabled(s, a[0]) {
        RunConcat(Step(s, a[0]), a[1..], b);
      }
    } else {
      assert a + b == b;
    }
  }

  /** Every reachable state keeps the invariant; in particular the attempt
      counter never exceeds the cap and at most one reconnect is pending. */
  lemma {:induction false} RunPreservesInv(s: Conn, evs: seq<Event>, r: Conn)
    requires Inv(s) && Run(s, evs) == Some(r)
    ensures Inv(r)
    ensures r.attempts <= MaxReconnectAttempts
    decreases evs
  {
    if evs != [] {
      RunPreservesInv(Step(s, evs[0]), evs[1..], r);
    }
  }

  /** Only selecting a chat rewrites the log: in a run without it, every
      earlier message stays where it was. */
  lemma {:induction false} LogIsAppendOnly(s: Conn, evs: seq<Event>, r: Conn)
    requires forall i :: 0 <= i < |evs| ==> !evs[i].SelectChat?
    requires Run(s, evs) == Some(r)
    ensures s.messages <= r.messages
    decreases evs
  {
    if evs != [] {
      var t := Step(s, evs[0]);
      LogIsAppendOnly(t, evs[1..], r);
    }
  }

  /** Frames are written only by sends, at most one per send, and never
      taken back. */
  lemma {:induction false} OutboxOnlyFromSends(s: Conn, evs: seq<Event>, r: Conn)
    requires Run(s, evs) == Some(r)
    ensures s.outbox <= r.outbox
    ensures |r.outbox| <= |s.outbox| + Sends(evs)
    decreases evs
  {
    if evs != [] {
      OutboxOnlyFromSends(Step(s, evs[0]), evs[1..], r);
    }
  }

  /** Once the socket is closed with no reconnect pending, no further event
      reopens it: the socket stays closed, nothing is scheduled, the counter
      does not move and no frame is written. */
  lemma {:induction false} DeadIsFinal(s: Conn, evs: seq<Event>, r: Conn)
    requires Dead(s) && Run(s, evs) == Some(r)
    ensures Dead(r) && r.attempts == s.attempts && r.outbox == s.outbox
    decreases evs
  {
    if evs != [] {
      DeadIsFinal(Step(s, evs[0]), evs[1..], r);
    }
  }

  /** One failure event: what it adds to the log (at most one bot notice)
      and how it moves the counter. */
  lemma FailureStep(s: Conn, e: Event)
    requires Inv(s) && FailureEvent(e) && Enabled(s, e)
    ensures var t := Step(s, e);
      && Inv(t)
      && t.mounted == s.mounted && t.chats == s.chats && t.active == s.active && t.outbox == s.outbox
      && t.attempts == (if e.SocketClose? then Min(MaxReconnectAttempts, s.attempts + 1) else s.attempts)
      && s.messages <= t.messages && |t.messages| <= |s.messages| + 1
      && (forall i :: |s.messages| <= i < |t.messages| ==>
            t.messages[i].kind == Bot && (t.messages[i].content == ReconnectingText || t.messages[i].content == FailedText))
      && CountText(t.messages[|s.messages|..], ReconnectingText)
           == (if s.mounted && e.SocketClose? && s.attempts == 0 then 1 else 0)
      && CountText(t.messages[|s.messages|..], FailedText)
           == (if s.mounted && e.SocketClose? && s.attempts >= MaxReconnectAttempts then 1 else 0)
      && (e.SocketClose? && s.attempts >= MaxReconnectAttempts ==> Dead(t))
  {
    var t := Step(s, e);
    var d := t.messages[|s.messages|..];
    if |t.messages| == |s.messages| {
      assert d == [];
    } else {
      assert d == [t.messages[|s.messages|]];
      assert CountText(d[1..], ReconnectingText) == 0 && CountText(d[1..], FailedText) == 0;
    }
  }

  /** A run of failures (errors, closes, reconnect timers, no open): the
      counter rises by one per close up to the cap and at most one close
      happens beyond it, after which nothing is pending and the socket is
      closed; chats and frames are untouched. */
  lemma {:induction false} FailureRunCounter(s: Conn, evs: seq<Event>, r: Conn)
    requires Inv(s)
    requires forall i :: 0 <= i < |evs| ==> FailureEvent(evs[i])
    requires Run(s, evs) == Some(r)
    ensures s.attempts + Closes(evs) <= MaxReconnectAttempts + 1
    ensures r.attempts == Min(MaxReconnectAttempts, s.attempts + Closes(evs))
    ensures s.attempts + Closes(evs) > MaxReconnectAttempts ==> Dead(r)
    ensures r.mounted == s.mounted && r.chats == s.chats && r.active == s.active && r.outbox == s.outbox
    decreases evs
  {
    if evs != [] {
      var e, rest := evs[0], evs[1..];
      var t := Step(s, e);
      FailureStep(s, e);
      assert Run(t, rest) == Some(r);
      FailureRunCounter(t, rest, r);
    }
  }

  /** What a run of failures does to the log: it only gains bot notices,
      kept after every earlier message; the "reconnecting" notice is appended
      once, by the first close, when the run starts from a reset counter, and
      never otherwise; the "unable to connect" notice is appended once, by
      the close beyond the cap, and never otherwise. */
  lemma {:induction false} FailureRunLog(s: Conn, evs: seq<Event>, r: Conn)
    requires Inv(s)
    requires forall i :: 0 <= i < |evs| ==> FailureEvent(evs[i])
    requires Run(s, evs) == Some(r)
    ensures s.messages <= r.messages
    ensures forall i :: |s.messages| <= i < |r.messages| ==>
      r.messages[i].kind == Bot && (r.messages[i].content == ReconnectingText || r.messages[i].content == FailedText)
    ensures CountText(r.messages[|s.messages|..], ReconnectingText)
         == if s.mounted && s.attempts == 0 && Closes(evs) > 0 then 1 else 0
    ensures CountText(r.messages[|s.messages|..], FailedText)
         == if s.mounted && s.attempts + Closes(evs) > MaxReconnectAttempts then 1 else 0
    decreases evs
  {
    if evs == [] {
      assert r.messages[|s.messages|..] == [];
    } else {
      var e, rest := evs[0], evs[1..];
      var t := Step(s, e);
      FailureStep(s, e);
      assert Run(t, rest) == Some(r);
      FailureRunCounter(s, evs, r);
      FailureRunCounter(t, rest, r);
      FailureRunLog(t, rest, r);
      var added, later := t.messages[|s.messages|..], r.messages[|t.messages|..];
      assert r.messages[|s.messages|..] == added + later;
      CountTextConcat(added, later, ReconnectingText);
      CountTextConcat(added, later, FailedText);
      forall i | |s.messages| <= i < |t.messages|
        ensures r.messages[i] == t.messages[i]
      {
      }
    }
  }

  /** `|ids|` retries in a row from a live socket, each below the cap: the
      counter rises by `|ids|`, a new socket is connecting at the end, and the
      only message added is the "reconnecting" notice of the first close when
      the counter started at 0. */
  lemma {:induction false} RetryCyclesRun(s: Conn, ids: seq<Id>)
    requires Inv(s) && Live(s.ws) && s.attempts + |ids| <= MaxReconnectAttempts
    ensures Run(s, RetryCycles(ids)).Some?
    ensures var r := Run(s, RetryCycles(ids)).value;
      && r.attempts == s.attempts + |ids|
      && Live(r.ws) && r.timer.None? && Inv(r) && r.mounted == s.mounted
      && (ids != [] ==> r.ws == Socket(Connecting))
      && r.isLoading == s.isLoading
      && r.messages == s.messages
           + (if s.mounted && s.attempts == 0 && ids != [] then [Message(ids[0], Bot, ReconnectingText)] else [])
    decreases ids
  {
    if ids != [] {
      var evs := RetryCycles(ids);
      var t1 := CloseStep(s, ids[0]);
      var t2 := TimerStep(t1);
      assert evs[0] == SocketClose(ids[0]) && evs[1..][0] == ReconnectTimer;
      assert evs[1..][1..] == RetryCycles(ids[1..]);
      assert Run(s, evs) == Run(t2, RetryCycles(ids[1..]));
      RetryCyclesRun(t2, ids[1..]);
    }
  }

  /** A complete outage from a fresh connection: five retries are each
      scheduled (after the fifth close the counter is 5 and a sixth socket
      is still tried), and the sixth close appends the "unable to connect"
      notice and leaves nothing pending. The log gains exactly the two
      notices. */
  lemma FullOutage(s: Conn, ids: seq<Id>, last: Id)
    requires Inv(s) && s.mounted && Live(s.ws) && s.attempts == 0
    requires |ids| == MaxReconnectAttempts
    ensures Run(s, RetryCycles(ids)).Some?
    ensures var t := Run(s, RetryCycles(ids)).value;
      t.attempts == MaxReconnectAttempts && t.ws == Socket(Connecting)
    ensures Run(s, RetryCycles(ids) + [SocketClose(last)]).Some?
    ensures var r := Run(s, RetryCycles(ids) + [SocketClose(last)]).value;
      && r.attempts == MaxReconnectAttempts
      && Dead(r)
      && !r.isLoading
      && r.messages == s.messages + [Message(ids[0], Bot, ReconnectingText), Message(last, Bot, FailedText)]
  {
    RetryCyclesRun(s, ids);
    RunConcat(s, RetryCycles(ids), [SocketClose(last)]);
  }

  /** Unmounting with the socket still open does not end reconnecting: the
      close that follows the cleanup still raises the counter and schedules
      a reconnect, while the log no longer changes. */
  lemma ReconnectAfterCleanup(s: Conn, noticeId: Id)
    requires Inv(s) && s.mounted && s.ws == Socket(Open)
    requires s.attempts < MaxReconnectAttempts
    ensures Run(s, [EffectCleanup, SocketClose(noticeId)]).Some?
    ensures var r := Run(s, [EffectCleanup, SocketClose(noticeId)]).value;
      && !r.mounted
      && r.timer == Some(ReconnectIntervalMs)
      && r.attempts == s.attempts + 1
      && r.messages == s.messages
  {
    var evs := [EffectCleanup, SocketClose(noticeId)];
    var t := CleanupStep(s);
    assert evs[1..] == [SocketClose(noticeId)];
    assert Run(s, evs) == Run(t, [SocketClose(noticeId)]);
    assert Run(t, [SocketClose(noticeId)]) == Run(CloseStep(t, noticeId), []);
  }

  /** Continuing that run: the scheduled reconnect fires and the new socket
      opens after unmount. The counter is reset and the log is unchanged, and
      no handler can close that socket any more: only a close coming from
      the server moves it out of the open state. */
  lemma ReopenAfterCleanup(s: Conn, noticeId: Id, welcomeId: Id)
    requires Inv(s) && s.mounted && s.ws == Socket(Open)
    requires s.attempts < MaxReconnectAttempts
    ensures Run(s, [EffectCleanup, SocketClose(noticeId), ReconnectTimer, SocketOpen(welcomeId)]).Some?
    ensures var r := Run(s, [EffectCleanup, SocketClose(noticeId), ReconnectTimer, SocketOpen(welcomeId)]).value;
      && !r.mounted
      && r.ws == Socket(Open)
      && r.timer.None?
      && r.attempts == 0
      && r.messages == s.messages
      && forall e :: Enabled(r, e) && !e.SocketClose? ==> Step(r, e).ws == Socket(Open)
  {
    var evs := [EffectCleanup, SocketClose(noticeId), ReconnectTimer, SocketOpen(welcomeId)];
    var t1 := CleanupStep(s);
    var t2 := CloseStep(t1, noticeId);
    var t3 := TimerStep(t2);
    assert evs[1..] == [SocketClose(noticeId), ReconnectTimer, SocketOpen(welcomeId)];
    assert evs[1..][1..] == [ReconnectTimer, SocketOpen(welcomeId)];
    assert evs[1..][1..][1..] == [SocketOpen(welcomeId)];
    assert Run(s, evs) == Run(t1, evs[1..]);
    assert Run(t1, evs[1..]) == Run(t2, evs[1..][1..]);
    assert Run(t2, evs[1..][1..]) == Run(t3, [SocketOpen(welcomeId)]);
    assert Run(t3, [SocketOpen(welcomeId)]) == Run(OpenStep(t3, welcomeId), []);
  }

  /** Cleanup while a reconnect is pending cancels it, and afterwards no
      event at all can occur. */
  lemma CleanupWhileRetryPending(s: Conn)
    requires Inv(s) && s.mounted && s.timer.Some?
    ensures Dead(CleanupStep(s))
    ensures forall e :: !Enabled(CleanupStep(s), e)
  {
  }
}
