/** The main loop of the notifier: start-up, then cycles of poll, validate,
    notify. One cycle is specified by `StepState`, a run of cycles by `Run`;
    the class `Poller` holds the cursor and the messages handed to the chat
    client, and its methods are proved against those functions. */
module BotLoop {
  import opened PyJson
  import opened Failures
  import opened Homework

  /** What the outside world supplies to one cycle: the clock when the request
      is built, the clock after the cycle's work, the server's answer to each
      possible request, and whether the chat client accepts this cycle's
      message. */
  datatype Tick = Tick(requestTime: int, clock: int, server: Request -> HttpResult, delivers: bool)

  /** The loop's state: the cursor, every message handed to `send_message`,
      and those the chat client accepted. */
  datatype LoopState = LoopState(cursor: int, outbox: seq<string>, delivered: seq<string>)

  const FAILURE_PREFIX: string := "Сбой в работе программы: "

  /** The text sent when a cycle raises `error`. */
  function FailureText(error: Error): (text: string)
    ensures FAILURE_PREFIX <= text
  {
    FAILURE_PREFIX + Message(error)
  }

  /** The reply the server gives to this cycle's request, built from the cursor. */
  function ReplyTo(env: Env, cursor: int, t: Tick): HttpResult {
    t.server(PollRequest(env.practicumToken, Some(cursor), t.requestTime))
  }

  /** The message one cycle sends: the formatted first homework, the failure
      text of the exception the cycle raised, or none for a successful cycle
      with an empty list. */
  function Notice(env: Env, cursor: int, t: Tick): (m: Option<string>)
    ensures m.None? <==> Poll(ReplyTo(env, cursor, t)) == Ok(None)
    ensures Poll(ReplyTo(env, cursor, t)).Ok? ==> m == Poll(ReplyTo(env, cursor, t)).value
    ensures Poll(ReplyTo(env, cursor, t)).Err? ==> m == Some(FailureText(Poll(ReplyTo(env, cursor, t)).error))
    ensures m.Some? ==> STATUS_CHANGED <= m.value || FAILURE_PREFIX <= m.value
  {
    match Poll(ReplyTo(env, cursor, t))
    case Ok(message) => message
    case Err(error) => Some(FailureText(error))
  }

  function AsSeq(m: Option<string>): (s: seq<string>)
    ensures |s| <= 1
    ensures m.Some? ==> s == [m.value]
    ensures m.None? <==> s == []
  {
    if m.Some? then [m.value] else []
  }

  /** One cycle of `while True`. The cursor moves to the clock only when the
      cycle raised nothing; the server's `current_date` plays no part. At most
      one message is sent, and the chat client's answer decides only whether
      it is among the delivered ones. */
  function StepState(env: Env, s: LoopState, t: Tick): (s': LoopState)
    ensures Poll(ReplyTo(env, s.cursor, t)).Ok? ==> s'.cursor == t.clock
    ensures Poll(ReplyTo(env, s.cursor, t)).Err? ==> s'.cursor == s.cursor
    ensures |s'.outbox| == |s.outbox| + (if Poll(ReplyTo(env, s.cursor, t)) == Ok(None) then 0 else 1)
    ensures s.outbox <= s'.outbox && s.delivered <= s'.delivered
    ensures Poll(ReplyTo(env, s.cursor, t)).Ok? ==>
              s'.outbox == s.outbox + AsSeq(Poll(ReplyTo(env, s.cursor, t)).value)
    ensures Poll(ReplyTo(env, s.cursor, t)).Err? ==>
              s'.outbox == s.outbox + [FailureText(Poll(ReplyTo(env, s.cursor, t)).error)]
    ensures s'.delivered == s.delivered + (if t.delivers then s'.outbox[|s.outbox|..] else [])
  {
    var sent := AsSeq(Notice(env, s.cursor, t));
    LoopState(
      if Poll(ReplyTo(env, s.cursor, t)).Ok? then t.clock else s.cursor,
      s.outbox + sent,
      s.delivered + (if t.delivers then sent else []))
  }

  /** The state after the cycles `ticks`, in order. */
  function Run(env: Env, s: LoopState, ticks: seq<Tick>): LoopState
    decreases |ticks|
  {
    if ticks == [] then s
    else StepState(env, Run(env, s, ticks[..|ticks| - 1]), ticks[|ticks| - 1])
  }

  /** A message the loop can send: a status change or a failure report. */
  predicate IsNotification(m: string) {
    STATUS_CHANGED <= m || FAILURE_PREFIX <= m
  }

  /** Running cycles only appends to what was sent, at most one message per
      cycle, and each appended message is a status change or a failure
      report; the accepted messages are never more than those sent. */
  lemma {:induction false} RunAppendsNotifications(env: Env, s: LoopState, ticks: seq<Tick>)
    ensures s.outbox <= Run(env, s, ticks).outbox && s.delivered <= Run(env, s, ticks).delivered
    ensures |Run(env, s, ticks).outbox| <= |s.outbox| + |ticks|
    ensures |Run(env, s, ticks).delivered| - |s.delivered| <= |Run(env, s, ticks).outbox| - |s.outbox|
    ensures forall i :: |s.outbox| <= i < |Run(env, s, ticks).outbox| ==> IsNotification(Run(env, s, ticks).outbox[i])
  {
    if ticks != [] {
      var prefix := ticks[..|ticks| - 1];
      RunAppendsNotifications(env, s, prefix);
      var mid := Run(env, s, prefix);
      var t := ticks[|ticks| - 1];
      var m := Notice(env, mid.cursor, t);
      assert Run(env, s, ticks) == StepState(env, mid, t);
      assert Run(env, s, ticks).outbox == mid.outbox + AsSeq(m);
    }
  }

  /** The cycles `ticks` with the chat client's answers replaced by `flags`. */
  function WithDelivery(ticks: seq<Tick>, flags: seq<bool>): (r: seq<Tick>)
    requires |flags| == |ticks|
    ensures |r| == |ticks|
    ensures forall i :: 0 <= i < |ticks| ==> r[i] == ticks[i].(delivers := flags[i])
  {
    seq(|ticks|, i requires 0 <= i < |ticks| => ticks[i].(delivers := flags[i]))
  }

  /** Flipping the chat client's answers changes nothing but `delivered`:
      a failed send never alters the cursor or what the loop goes on to send. */
  lemma {:induction false} RunIgnoresDelivery(env: Env, s: LoopState, ticks: seq<Tick>, flags: seq<bool>)
    requires |flags| == |ticks|
    ensures Run(env, s, WithDelivery(ticks, flags)).cursor == Run(env, s, ticks).cursor
    ensures Run(env, s, WithDelivery(ticks, flags)).outbox == Run(env, s, ticks).outbox
  {
    if ticks != [] {
      var n := |ticks| - 1;
      var other := WithDelivery(ticks, flags);
      assert other[..n] == WithDelivery(ticks[..n], flags[..n]);
      RunIgnoresDelivery(env, s, ticks[..n], flags[..n]);
      var a := Run(env, s, ticks[..n]);
      var b := Run(env, s, other[..n]);
      assert a.cursor == b.cursor && a.outbox == b.outbox;
      var t := ticks[n];
      assert other[n] == t.(delivers := flags[n]);
      assert ReplyTo(env, a.cursor, t) == ReplyTo(env, b.cursor, other[n]);
    }
  }

  /** Whether cycle `k` of the run `ticks` raised nothing. */
  predicate Succeeds(env: Env, s: LoopState, ticks: seq<Tick>, k: int)
    requires 0 <= k < |ticks|
  {
    Poll(ReplyTo(env, Run(env, s, ticks[..k]).cursor, ticks[k])).Ok?
  }

  /** The cursor after a run: the clock of the last cycle that raised
      nothing, or the starting cursor when every cycle raised. */
  lemma RunCursor(env: Env, s: LoopState, ticks: seq<Tick>)
    ensures (forall k :: 0 <= k < |ticks| ==> !Succeeds(env, s, ticks, k)) ==> Run(env, s, ticks).cursor == s.cursor
    ensures forall k :: 0 <= k < |ticks| && Succeeds(env, s, ticks, k)
                        && (forall j :: k < j < |ticks| ==> !Succeeds(env, s, ticks, j))
                        ==> Run(env, s, ticks).cursor == ticks[k].clock
  {
    var oks := Outcomes(env, s, ticks);
    RunCursorFollowsOutcomes(env, s, ticks);
    if forall k :: 0 <= k < |ticks| ==> !Succeeds(env, s, ticks, k) {
      assert forall k :: 0 <= k < |oks| ==> !oks[k];
      CursorWhenNoneSucceed(s.cursor, ticks, oks);
    }
    forall k | 0 <= k < |ticks| && Succeeds(env, s, ticks, k)
               && (forall j :: k < j < |ticks| ==> !Succeeds(env, s, ticks, j))
      ensures Run(env, s, ticks).cursor == ticks[k].clock
    {
      assert oks[k] && forall j :: k < j < |oks| ==> !oks[j];
      CursorAtLastSuccess(s.cursor, ticks, oks, k);
    }
  }

  /** Which cycles of the run `ticks` raised nothing. */
  function Outcomes(env: Env, s: LoopState, ticks: seq<Tick>): (oks: seq<bool>)
    ensures |oks| == |ticks|
    ensures forall k :: 0 <= k < |ticks| ==> oks[k] == Succeeds(env, s, ticks, k)
  {
    seq(|ticks|, k requires 0 <= k < |ticks| => Succeeds(env, s, ticks, k))
  }

  /** The cursor after cycles whose outcomes are `oks`, starting from `start`. */
  function CursorAfter(start: int, ticks: seq<Tick>, oks: seq<bool>): int
    requires |oks| == |ticks|
  {
    if ticks == [] then start
    else if oks[|ticks| - 1] then ticks[|ticks| - 1].clock
    else CursorAfter(start, ticks[..|ticks| - 1], oks[..|ticks| - 1])
  }

  lemma {:induction false} RunCursorFollowsOutcomes(env: Env, s: LoopState, ticks: seq<Tick>)
    ensures Run(env, s, ticks).cursor == CursorAfter(s.cursor, ticks, Outcomes(env, s, ticks))
  {
    if ticks != [] {
      var n := |ticks| - 1;
      var prefix := ticks[..n];
      forall j | 0 <= j < n
        ensures Outcomes(env, s, prefix)[j] == Outcomes(env, s, ticks)[..n][j]
      {
        PrefixSucceeds(env, s, ticks, j);
      }
      assert Outcomes(env, s, prefix) == Outcomes(env, s, ticks)[..n];
      LastCycleCursor(env, s, ticks);
      RunCursorFollowsOutcomes(env, s, prefix);
    }
  }

  lemma {:induction false} CursorWhenNoneSucceed(start: int, ticks: seq<Tick>, oks: seq<bool>)
    requires |oks| == |ticks|
    requires forall k :: 0 <= k < |oks| ==> !oks[k]
    ensures CursorAfter(start, ticks, oks) == start
  {
    if ticks != [] {
      CursorWhenNoneSucceed(start, ticks[..|ticks| - 1], oks[..|ticks| - 1]);
    }
  }

  lemma {:induction false} CursorAtLastSuccess(start: int, ticks: seq<Tick>, oks: seq<bool>, k: int)
    requires |oks| == |ticks| && 0 <= k < |oks| && oks[k]
    requires forall j :: k < j < |oks| ==> !oks[j]
    ensures CursorAfter(start, ticks, oks) == ticks[k].clock
  {
    if k < |ticks| - 1 {
      CursorAtLastSuccess(start, ticks[..|ticks| - 1], oks[..|ticks| - 1], k);
    }
  }

  /** A cycle of a run is the same cycle of that run extended by one more. */
  lemma PrefixSucceeds(env: Env, s: LoopState, ticks: seq<Tick>, k: int)
    requires 0 <= k < |ticks| - 1
    ensures Succeeds(env, s, ticks[..|ticks| - 1], k) == Succeeds(env, s, ticks, k)
  {
    assert ticks[..|ticks| - 1][..k] == ticks[..k];
  }

  /** The last cycle of a run sets the cursor to its clock when it raised
      nothing and leaves it otherwise. */
  lemma LastCycleCursor(env: Env, s: LoopState, ticks: seq<Tick>)
    requires ticks != []
    ensures Run(env, s, ticks).cursor ==
              if Succeeds(env, s, ticks, |ticks| - 1) then ticks[|ticks| - 1].clock
              else Run(env, s, ticks[..|ticks| - 1]).cursor
  {
  }

  /** One run of the notifier: `main` with the credential check, then the cycles. */
  class Poller {
    const env: Env
    var cursor: int
    var outbox: seq<string>
    var delivered: seq<string>

    function State(): LoopState
      reads this
    {
      LoopState(cursor, outbox, delivered)
    }

    /** The loop as `main` enters it, once the credentials are present: the
        cursor starts at the current time and nothing has been sent. */
    constructor (env: Env, now: int)
      requires CheckTokens(env)
      ensures this.env == env && State() == LoopState(now, [], [])
    {
      this.env := env;
      cursor := now;
      outbox := [];
      delivered := [];
    }

    /** `send_message`: hand the text to the chat client; a failure there is
        logged and swallowed, so the caller sees no difference. */
    method SendMessage(text: string, accepted: bool)
      modifies this
      ensures cursor == old(cursor) && outbox == old(outbox) + [text]
      ensures delivered == old(delivered) + (if accepted then [text] else [])
    {
      outbox := outbox + [text];
      if accepted {
        delivered := delivered + [text];
      }
    }

    /** One pass of the body of `while True`. */
    method Step(t: Tick)
      modifies this
      ensures State() == StepState(env, old(State()), t)
    {
      var reply := t.server(PollRequest(env.practicumToken, Some(cursor), t.requestTime));
      var response := ReadReply(reply);
      if response.Err? {
        SendMessage(FailureText(response.error), t.delivers);
        return;
      }
      var homeworks := CheckResponse(response.value);
      if homeworks.Err? {
        SendMessage(FailureText(homeworks.error), t.delivers);
        return;
      }
      if |homeworks.value| > 0 {
        var message := ParseStatus(homeworks.value[0]);
        if message.Err? {
          SendMessage(FailureText(message.error), t.delivers);
          return;
        }
        SendMessage(message.value, t.delivers);
      }
      cursor := t.clock;
    }

    /** The cycles `ticks`, one after the other. */
    method RunCycles(ticks: seq<Tick>)
      modifies this
      ensures State() == Run(env, old(State()), ticks)
    {
      var i := 0;
      while i < |ticks|
        invariant 0 <= i <= |ticks|
        invariant State() == Run(env, old(State()), ticks[..i])
      {
        assert ticks[..i + 1][..i] == ticks[..i];
        Step(ticks[i]);
        i := i + 1;
      }
      assert ticks[..i] == ticks;
    }
  }

  /** `main`: a missing credential raises VariableDoesNotExist before the loop
      starts; otherwise the loop starts with the cursor at the current time. */
  method Start(env: Env, now: int) returns (r: Result<Poller>)
    ensures r.Err? <==> !CheckTokens(env)
    ensures r.Err? ==> r.error == VariableDoesNotExist(MISSING_VARIABLES)
    ensures r.Ok? ==> fresh(r.value) && r.value.env == env && r.value.State() == LoopState(now, [], [])
  {
    if !CheckTokens(env) {
      return Err(VariableDoesNotExist(MISSING_VARIABLES));
    }
    var poller := new Poller(env, now);
    return Ok(poller);
  }
}
