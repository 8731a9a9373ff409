/** One proxy of the client: its phases, and the messages that each phase change sends to the
    server. */
module ProxyWrappers {
  import opened Options

  const SECOND := 1_000_000_000
  const WAIT_RESPONSE_TIMEOUT := 20 * SECOND
  const START_ERR_TIMEOUT := 30 * SECOND

  datatype Phase = New | WaitStart | StartErr | Running | CheckFailed | Closed

  /** What a wrapper keeps besides its name and configuration. */
  datatype Status = Status(phase: Phase, err: string, remoteAddr: string, lastSend: int, lastErr: int)

  datatype Kind = StartMsg | CloseMsg

  /** A new status and the message that goes with it, if any. */
  datatype Out = Out(status: Status, msg: Option<Kind>)

  const FRESH := Status(New, "", "", 0, 0)

  /** It is time to ask the server to start the proxy. */
  predicate Due(s: Status, now: int) {
    || s.phase.New? || s.phase.CheckFailed?
    || (s.phase.WaitStart? && now > s.lastSend + WAIT_RESPONSE_TIMEOUT)
    || (s.phase.StartErr? && now > s.lastErr + START_ERR_TIMEOUT)
  }

  /** One pass of the worker that watches the proxy. */
  function Check(s: Status, healthy: bool, now: int): Out {
    if healthy then
      if Due(s, now) then Out(s.(phase := WaitStart, lastSend := now), Some(StartMsg)) else Out(s, None)
    else if s.phase.Running? || s.phase.WaitStart? then Out(s.(phase := CheckFailed), Some(CloseMsg))
    else Out(s, None)
  }

  /** The server answered: `respErr` is its error, `runErr` the error of running the proxy then; the
      empty string stands for none. Only a wrapper that waits takes notice. */
  function Respond(s: Status, remoteAddr: string, respErr: string, runErr: string, now: int): Out {
    if !s.phase.WaitStart? then Out(s, None)
    else if respErr != "" then
      Out(s.(remoteAddr := remoteAddr, phase := StartErr, err := respErr, lastErr := now), None)
    else if runErr != "" then
      Out(s.(remoteAddr := remoteAddr, phase := StartErr, err := runErr, lastErr := now), Some(CloseMsg))
    else Out(s.(remoteAddr := remoteAddr, phase := Running, err := ""), None)
  }

  function Stopped(s: Status): Out {
    Out(s.(phase := Closed), Some(CloseMsg))
  }

  /** An answer makes a waiting wrapper run if and only if neither the server nor running the proxy
      failed; otherwise it keeps the first error and the time, and a proxy that the server has accepted
      is closed there. Other wrappers take no notice. */
  lemma AnswerMeans(s: Status, addr: string, respErr: string, runErr: string, now: int)
    ensures var o := Respond(s, addr, respErr, runErr, now);
            && (!s.phase.WaitStart? ==> o == Out(s, None))
            && (s.phase.WaitStart? ==>
                  && o.status.remoteAddr == addr && o.status.lastSend == s.lastSend
                  && (o.status.phase.Running? <==> respErr == "" && runErr == "")
                  && (o.status.phase.Running? ==> o.status.err == "")
                  && (!o.status.phase.Running? ==>
                        && o.status.phase.StartErr? && o.status.lastErr == now
                        && o.status.err == if respErr != "" then respErr else runErr)
                  && o.msg == if respErr == "" && runErr != "" then Some(CloseMsg) else None)
  {
  }

  /** A pass asks for a start if and only if the proxy is healthy and was never started, was closed for
      want of health, has waited for more than 20 seconds, or failed more than 30 seconds ago; it closes
      the proxy if and only if that is unhealthy and running or waiting; otherwise it changes nothing. */
  lemma PassMeans(s: Status, healthy: bool, now: int)
    ensures var o := Check(s, healthy, now);
            && (o.msg == Some(StartMsg) <==>
                  healthy && (|| s.phase == New || s.phase == CheckFailed
                              || (s.phase == WaitStart && now - s.lastSend > 20_000_000_000)
                              || (s.phase == StartErr && now - s.lastErr > 30_000_000_000)))
            && (o.msg == Some(CloseMsg) <==> !healthy && (s.phase == Running || s.phase == WaitStart))
            && (o.msg == Some(StartMsg) ==> o.status == s.(phase := WaitStart, lastSend := now))
            && (o.msg == Some(CloseMsg) ==> o.status == s.(phase := CheckFailed))
            && (o.msg == None ==> o.status == s)
  {
  }

  // ---------------------------------------------------------------- the objects

  datatype Message<C> = NewProxy(name: string, cfg: C) | CloseProxy(name: string)

  /** The channel to the server. A send on the closed channel is caught and the message is lost. */
  class SendChannel<C(==)> {
    var open: bool
    var sent: seq<Message<C>>

    constructor ()
      ensures open && sent == []
    {
      open, sent := true, [];
    }

    method HandleEvent(m: Message<C>) returns (ok: bool)
      modifies this`sent
      ensures ok == open && sent == if open then old(sent) + [m] else old(sent)
    {
      if !open { return false; }
      sent := sent + [m];
      return true;
    }

    method Close()
      modifies this`open
      ensures !open
    {
      open := false;
    }
  }

  function MessageOf<C>(name: string, cfg: C, k: Kind): Message<C> {
    if k.StartMsg? then NewProxy(name, cfg) else CloseProxy(name)
  }

  /** What the channel holds after an event. */
  function SentAfter<C>(sent: seq<Message<C>>, open: bool, name: string, cfg: C, msg: Option<Kind>)
    : seq<Message<C>>
  {
    if open && msg.Some? then sent + [MessageOf(name, cfg, msg.value)] else sent
  }

  /** A start message names the proxy and brings its configuration, a close message only names it; what is
      sent on a closed channel is lost. */
  lemma SentMeans<C>(sent: seq<Message<C>>, open: bool, name: string, cfg: C)
    ensures SentAfter(sent, open, name, cfg, Some(StartMsg)) == if open then sent + [NewProxy(name, cfg)] else sent
    ensures SentAfter(sent, open, name, cfg, Some(CloseMsg)) == if open then sent + [CloseProxy(name)] else sent
    ensures SentAfter(sent, open, name, cfg, None) == sent
  {
  }

  class Wrapper<C(==)> {
    const name: string
    const cfg: C
    const handler: SendChannel<C>
    var phase: Phase
    var err: string
    var remoteAddr: string
    var lastSendStartMsg: int
    var lastStartErr: int
    var health: nat
    var closeChClosed: bool
    var pxyClosed: bool

    constructor (name: string, cfg: C, healthCheck: bool, handler: SendChannel<C>)
      ensures this.name == name && this.cfg == cfg && this.handler == handler
      ensures Now() == FRESH && !closeChClosed && !pxyClosed && health == if healthCheck then 1 else 0
    {
      this.name, this.cfg, this.handler := name, cfg, handler;
      phase, err, remoteAddr, lastSendStartMsg, lastStartErr := New, "", "", 0, 0;
      health := if healthCheck then 1 else 0;
      closeChClosed, pxyClosed := false, false;
    }

    function Now(): Status
      reads this
    {
      Status(phase, err, remoteAddr, lastSendStartMsg, lastStartErr)
    }

    method SetRunningStatus(addr: string, respErr: string, runErr: string, now: int) returns (failed: bool)
      modifies this`phase, this`err, this`remoteAddr, this`lastStartErr, handler`sent
      ensures var o := Respond(old(Now()), addr, respErr, runErr, now);
              && Now() == o.status
              && handler.sent == SentAfter(old(handler.sent), handler.open, name, cfg, o.msg)
      ensures failed == !(old(phase).WaitStart? && phase.Running?)
    {
      if !phase.WaitStart? { return true; }
      remoteAddr := addr;
      if respErr != "" {
        phase := StartErr;
        err := respErr;
        lastStartErr := now;
        return true;
      }
      if runErr != "" {
        var _ := handler.HandleEvent(CloseProxy(name));
        phase := StartErr;
        err := runErr;
        lastStartErr := now;
        return true;
      }
      phase := Running;
      err := "";
      return false;
    }

    /** One pass of the worker. */
    method CheckWorker(now: int)
      modifies this`phase, this`lastSendStartMsg, handler`sent
      ensures var o := Check(old(Now()), health == 0, now);
              && Now() == o.status
              && handler.sent == SentAfter(old(handler.sent), handler.open, name, cfg, o.msg)
    {
      if health == 0 {
        if || phase == New || phase == CheckFailed
           || (phase == WaitStart && now > lastSendStartMsg + WAIT_RESPONSE_TIMEOUT)
           || (phase == StartErr && now > lastStartErr + START_ERR_TIMEOUT)
        {
          phase := WaitStart;
          lastSendStartMsg := now;
          var _ := handler.HandleEvent(NewProxy(name, cfg));
        }
      } else if phase == Running || phase == WaitStart {
        var _ := handler.HandleEvent(CloseProxy(name));
        phase := CheckFailed;
      }
    }

    /** Closing the channel of a wrapper a second time would panic. */
    method Stop()
      requires !closeChClosed
      modifies this`phase, this`closeChClosed, this`pxyClosed, handler`sent
      ensures closeChClosed && pxyClosed
      ensures var o := Stopped(old(Now()));
              && Now() == o.status
              && handler.sent == SentAfter(old(handler.sent), handler.open, name, cfg, o.msg)
    {
      closeChClosed := true;
      pxyClosed := true;
      phase := Closed;
      var _ := handler.HandleEvent(CloseProxy(name));
    }

    method StatusNormalCallback()
      modifies this`health
      ensures health == 0
    {
      health := 0;
    }

    method StatusFailedCallback()
      modifies this`health
      ensures health == 1
    {
      health := 1;
    }
  }
}
