/** common/comet.go: the older comet manager kept in the `common` package. It
    records no subscription handles: subscribing sends only the subscription
    request, and stopping sends a single unsubscribe for the literal handle
    "handle". */
module LegacyComet {
  import opened Wrappers
  import opened Envelope
  import opened Calls
  import Root = Comet
  import LegacyCommon
  import Response

  /** The legacy NsoJsonRpcComet, over its own copy of a connection. */
  class NsoJsonRpcComet {
    const nsocon: LegacyCommon.NsoJsonConnection
    var cometStarted: bool
    const cometID: string

    /** A started manager has logged its connection in. */
    ghost predicate Valid()
      reads this, nsocon
    {
      nsocon.Valid() && (cometStarted ==> nsocon.request != null)
    }

    /** The manager can send: its connection has a requester. */
    ghost predicate Ready()
      reads this, nsocon
    {
      Valid() && nsocon.request != null
    }

    /** NewNsoJsonRpcComet: never fails; copies `source` by value and takes
        the comet id for the number `cometDraw` + 1. */
    constructor(source: LegacyCommon.NsoJsonConnection, cometDraw: int)
      requires source.Valid() && 0 <= cometDraw < 65000
      ensures Valid() && fresh(nsocon)
      ensures !cometStarted && cometID == Root.CometId(cometDraw + 1)
      ensures nsocon.request == source.request && nsocon.id == source.id && nsocon.th == source.th
      ensures nsocon.nsocon == source.nsocon && nsocon.log == []
    {
      cometID := Root.CometId(cometDraw + 1);
      nsocon := new LegacyCommon.NsoJsonConnection.Copy(source);
      cometStarted := false;
    }

    /** comet: exactly {"comet_id": cometID}. */
    method Comet(reply: Reply) returns (body: Body, err: Option<string>)
      requires Ready()
      modifies nsocon`log
      ensures Ready()
      ensures nsocon.log == old(nsocon.log) + [Wire(nsocon.id, Call.Comet(cometID))]
      ensures Params(Call.Comet(cometID)) == map["comet_id" := Str(cometID)]
      ensures body == reply.Body() && err == reply.Error()
    {
      body, err := nsocon.SendPost(Call.Comet(cometID), reply);
    }

    /** startSubscription: arms the subscription `handle`. */
    method StartSubscription(handle: string, reply: Reply) returns (body: Body, err: Option<string>)
      requires Ready()
      modifies nsocon`log
      ensures Ready()
      ensures nsocon.log == old(nsocon.log) + [Wire(nsocon.id, Call.StartSubscription(handle))]
      ensures body == reply.Body() && err == reply.Error()
    {
      body, err := nsocon.SendPost(Call.StartSubscription(handle), reply);
    }

    /** SubscribeChanges: only the subscription request; the handle in the
        reply is neither recorded nor armed. */
    method SubscribeChanges(path: string, reply: Reply) returns (body: Body, err: Option<string>)
      requires Ready()
      modifies nsocon`log
      ensures Ready()
      ensures nsocon.log == old(nsocon.log) + [Wire(nsocon.id, Call.SubscribeChanges(cometID, path))]
      ensures body == reply.Body() && err == reply.Error()
    {
      body, err := nsocon.SendPost(Call.SubscribeChanges(cometID, path), reply);
    }

    /** unsubscribe: one request, for the literal handle "handle". */
    method Unsubscribe(reply: Reply) returns (body: Body, err: Option<string>)
      requires Ready()
      modifies nsocon`log
      ensures Ready()
      ensures nsocon.log == old(nsocon.log) + [Wire(nsocon.id, Call.Unsubscribe("handle"))]
      ensures body == reply.Body() && err == reply.Error()
    {
      body, err := nsocon.SendPost(Call.Unsubscribe("handle"), reply);
    }

    /** StartComet: refuses a started manager and changes nothing; otherwise
        it is marked started at once, then logs in (a step that fails when
        the send fails), opens a private read transaction and polls,
        stopping at the first error. */
    method StartComet(username: string, password: string, loginReply: Reply, transReply: Reply,
                      cometReply: Reply)
      returns (err: Option<string>)
      requires Valid()
      modifies this`cometStarted, nsocon
      ensures Valid()
      ensures old(cometStarted) ==>
        && err == Some(Root.AlreadyRunning) && cometStarted
        && nsocon.log == old(nsocon.log) && nsocon.th == old(nsocon.th)
        && nsocon.request == old(nsocon.request)
      ensures !old(cometStarted) ==> cometStarted && fresh(nsocon.request)
      ensures !old(cometStarted) && loginReply.TransportError? ==>
        && err == loginReply.Error() && nsocon.th == old(nsocon.th)
        && nsocon.log == old(nsocon.log) + [Wire(nsocon.id, Call.Login(username, password))]
      ensures !old(cometStarted) && loginReply.Delivered? && transReply.TransportError? ==>
        && err == transReply.Error() && nsocon.th == old(nsocon.th)
        && nsocon.log == old(nsocon.log)
           + [Wire(nsocon.id, Call.Login(username, password)),
              Wire(nsocon.id, Call.NewTrans("read", "private", "", "reuse"))]
      ensures !old(cometStarted) && loginReply.Delivered? && transReply.Delivered? ==>
        && err == cometReply.Error() && nsocon.th == Response.HandleOf(transReply.body, "th")
        && nsocon.log == old(nsocon.log)
           + [Wire(nsocon.id, Call.Login(username, password)),
              Wire(nsocon.id, Call.NewTrans("read", "private", "", "reuse")),
              Wire(nsocon.id, Call.Comet(cometID))]
    {
      err := Root.CheckCometState(cometStarted, false);
      if err.Some? {
        return;
      }
      cometStarted := true;
      var _ := nsocon.NsoLogin(username, password, loginReply);
      err := loginReply.Error();
      if err.Some? {
        return;
      }
      var _, e := nsocon.NewTransaction("read", "private", "", "reuse", transReply);
      if e.Some? {
        return e;
      }
      var _, pollError := Comet(cometReply);
      err := pollError;
    }

    /** StopComet: refuses a stopped manager and changes nothing; otherwise
        it unsubscribes "handle", polls once more and logs out, stopping at
        the first error, and is marked stopped only when all succeeded. */
    method StopComet(unsubReply: Reply, cometReply: Reply, logoutReply: Reply, closeError: Option<string>)
      returns (err: Option<string>)
      requires Valid()
      modifies this`cometStarted, nsocon`log
      ensures Valid()
      ensures !old(cometStarted) ==>
        err == Some(Root.NotRunning) && !cometStarted && nsocon.log == old(nsocon.log)
      ensures old(cometStarted) && unsubReply.TransportError? ==>
        && err == unsubReply.Error() && cometStarted
        && nsocon.log == old(nsocon.log) + [Wire(nsocon.id, Call.Unsubscribe("handle"))]
      ensures old(cometStarted) && unsubReply.Delivered? && cometReply.TransportError? ==>
        && err == cometReply.Error() && cometStarted
        && nsocon.log == old(nsocon.log)
           + [Wire(nsocon.id, Call.Unsubscribe("handle")), Wire(nsocon.id, Call.Comet(cometID))]
      ensures old(cometStarted) && unsubReply.Delivered? && cometReply.Delivered? ==>
        && err == closeError && (cometStarted <==> closeError.Some?)
        && nsocon.log == old(nsocon.log)
           + [Wire(nsocon.id, Call.Unsubscribe("handle")), Wire(nsocon.id, Call.Comet(cometID)),
              Wire(nsocon.id, Call.Logout)]
    {
      err := Root.CheckCometState(cometStarted, true);
      if err.Some? {
        return;
      }
      var _, e := Unsubscribe(unsubReply);
      if e.Some? {
        return e;
      }
      var _, pollError := Comet(cometReply);
      if pollError.Some? {
        return pollError;
      }
      err := nsocon.NsoLogout(logoutReply, closeError);
      if err.Some? {
        return;
      }
      cometStarted := false;
    }
  }

  /** The calls a subscription to `path` and a stop that succeeds make. */
  function SubscribeThenStopCalls(cometID: string, path: string): seq<Call>
  {
    [Call.SubscribeChanges(cometID, path), Call.Unsubscribe("handle"), Call.Comet(cometID), Call.Logout]
  }

  /** None of those calls unsubscribes a handle other than "handle". */
  lemma SubscribeThenStopMisses(cometID: string, path: string, h: string)
    requires h != "handle"
    ensures Call.Unsubscribe(h) !in SubscribeThenStopCalls(cometID, path)
  {
  }

  /** A subscription whose server handle is `h`, followed by a stop that
      succeeds: the manager is stopped, and the one unsubscribe sent is for
      "handle", whatever `h` was. */
  method SubscribeThenStop(com: NsoJsonRpcComet, path: string, h: string, unsubReply: Reply,
                           cometReply: Reply, logoutReply: Reply)
    requires com.Ready() && com.cometStarted
    requires unsubReply.Delivered? && cometReply.Delivered?
    modifies com`cometStarted, com.nsocon`log
    ensures !com.cometStarted
    ensures com.nsocon.log
      == old(com.nsocon.log) + WireAll(com.nsocon.id, SubscribeThenStopCalls(com.cometID, path))
  {
    var reply := Delivered(Decoded(map["handle" := Str(h)]));
    var _, _ := com.SubscribeChanges(path, reply);
    var _ := com.StopComet(unsubReply, cometReply, logoutReply, None);
  }
}
