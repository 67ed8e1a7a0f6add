/** comet.go: the comet subscription manager. It logs in, opens a read
    transaction and polls under a fixed comet id; each subscription's handle
    is recorded and armed, and stopping unsubscribes every recorded handle
    before the last poll and the logout. */
module Comet {
  import opened Wrappers
  import opened Envelope
  import opened Text
  import opened Calls
  import Connection
  import Response

  const AlreadyRunning := "comet is already running"
  const NotRunning := "comet is not running"
  const NoHandle := "could not find handle"

  /** checkCometState: no error when the manager is in the wanted state. */
  function CheckCometState(cometStarted: bool, wantedState: bool): (err: Option<string>)
    ensures err.None? <==> cometStarted == wantedState
    ensures err.Some? && cometStarted ==> err.value == AlreadyRunning
    ensures err.Some? && !cometStarted ==> err.value == NotRunning
  {
    if cometStarted != wantedState then
      if cometStarted then Some(AlreadyRunning) else Some(NotRunning)
    else
      None
  }

  /** The comet id for the number `n` that was drawn. */
  function CometId(n: int): string
  {
    "remote-comet-" + IntToDecimal(n)
  }

  /** A comet id is "remote-comet-" and the digits of its number, which read
      back as that number. */
  lemma CometIdDigits(n: int)
    requires 1 <= n <= 65000
    ensures exists digits: string ::
      && CometId(n) == "remote-comet-" + digits
      && (forall k :: 0 <= k < |digits| ==> IsDigit(digits[k]))
      && ParseDecimal(digits) == n && digits[0] != '0'
  {
    var digits := NatToDecimal(n);
    DecimalRoundTrip(n);
    assert CometId(n) == "remote-comet-" + digits;
  }

  /** The handle a new response reads out of a subscription's reply. */
  function NewHandle(body: Body): Result<string, string>
  {
    if body.Undecodable? then Failure(body.err)
    else if "handle" in body.result then Success(body.result["handle"].s)
    else Failure(NoHandle)
  }

  /** One unsubscribe request per handle, in the order of `handles`. */
  function UnsubscribeCalls(id: int, handles: seq<string>): seq<Request>
  {
    seq(|handles|, k requires 0 <= k < |handles| => Wire(id, Call.Unsubscribe(handles[k])))
  }

  /** The position of the first failed send in `replies`, or |replies| when
      none failed. */
  function FirstFailure(replies: seq<Reply>): (k: nat)
    ensures k <= |replies|
    ensures forall j :: 0 <= j < k ==> replies[j].Delivered?
    ensures k < |replies| ==> replies[k].TransportError?
  {
    if |replies| == 0 then 0
    else
      var k := FirstFailure(replies[..|replies| - 1]);
      if k < |replies| - 1 || replies[|replies| - 1].TransportError? then k
      else |replies|
  }

  /** NsoJsonRpcComet. `cometID` never changes; `handles` only grows. */
  class NsoJsonRpcComet {
    const nsocon: Connection.JsonConnection
    var cometStarted: bool
    const cometID: string
    var handles: seq<string>

    /** A started manager has logged its connection in. */
    ghost predicate Valid()
      reads this, nsocon
    {
      nsocon.Valid() && (cometStarted ==> nsocon.request != null)
    }

    /** The manager can send: its connection has a requester. */
    ghost predicate Ready()
      reads this, nsocon
    {
      Valid() && nsocon.request != null
    }

    constructor(nsocon: Connection.JsonConnection, cometID: string)
      requires nsocon.Valid()
      ensures Valid()
      ensures this.nsocon == nsocon && this.cometID == cometID
      ensures !cometStarted && handles == []
    {
      this.nsocon := nsocon;
      this.cometID := cometID;
      cometStarted := false;
      handles := [];
    }

    /** NewNsoJsonRpcComet: `cometDraw` is the number drawn for the comet id,
        `idDraw` the one drawn for the request id. */
    static method New(protocol: string, ip: string, port: int, username: string, password: string,
                      sslVerify: bool, addr: Connection.AddressOracle, cometDraw: int, idDraw: int)
      returns (r: Result<NsoJsonRpcComet, string>)
      requires 0 <= cometDraw < 65000 && 0 <= idDraw < 65000
      ensures var c := Connection.NewHttpConnection(protocol, ip, port, username, password, sslVerify, addr);
        c.Failure? ==> r == Failure(c.error)
      ensures var c := Connection.NewHttpConnection(protocol, ip, port, username, password, sslVerify, addr);
        c.Success? ==> r.Success? && fresh(r.value) && fresh(r.value.nsocon) && r.value.nsocon.nsocon == c.value
      ensures r.Success? ==>
        && r.value.Valid() && !r.value.cometStarted && r.value.handles == []
        && r.value.cometID == CometId(cometDraw + 1)
        && r.value.nsocon.id == idDraw + 1 && r.value.nsocon.request == null
        && r.value.nsocon.th == 0 && r.value.nsocon.log == []
    {
      var cometID := CometId(cometDraw + 1);
      var conn := Connection.JsonConnection.New(protocol, ip, port, username, password, sslVerify, addr, idDraw);
      if conn.Failure? {
        return Failure(conn.error);
      }
      var com := new NsoJsonRpcComet(conn.value, cometID);
      return Success(com);
    }

    /** comet: one poll under the comet id. */
    method Comet(reply: Reply) returns (body: Body, err: Option<string>)
      requires Ready()
      modifies nsocon`log, nsocon.request
      ensures Ready() && nsocon.request.insecureTLS == !nsocon.nsocon.sslVerify
      ensures nsocon.log == old(nsocon.log) + [Wire(nsocon.id, Call.Comet(cometID))]
      ensures body == reply.Body() && err == reply.Error()
    {
      body, err := nsocon.SendPost(Call.Comet(cometID), reply);
    }

    /** CometPoll: a poll, as `comet`. */
    method CometPoll(reply: Reply) returns (body: Body, err: Option<string>)
      requires Ready()
      modifies nsocon`log, nsocon.request
      ensures Ready() && nsocon.request.insecureTLS == !nsocon.nsocon.sslVerify
      ensures nsocon.log == old(nsocon.log) + [Wire(nsocon.id, Call.Comet(cometID))]
      ensures body == reply.Body() && err == reply.Error()
    {
      body, err := Comet(reply);
    }

    /** startSubscription: arms the subscription `handle`. */
    method StartSubscription(handle: string, reply: Reply) returns (body: Body, err: Option<string>)
      requires Ready()
      modifies nsocon`log, nsocon.request
      ensures Ready() && nsocon.request.insecureTLS == !nsocon.nsocon.sslVerify
      ensures nsocon.log == old(nsocon.log) + [Wire(nsocon.id, Call.StartSubscription(handle))]
      ensures body == reply.Body() && err == reply.Error()
    {
      body, err := nsocon.SendPost(Call.StartSubscription(handle), reply);
    }

    /** GetSubscriptions: lists the subscriptions; no params are sent. */
    method GetSubscriptions(reply: Reply) returns (body: Body, err: Option<string>)
      requires Ready()
      modifies nsocon`log, nsocon.request
      ensures Ready() && nsocon.request.insecureTLS == !nsocon.nsocon.sslVerify
      ensures nsocon.log == old(nsocon.log) + [Wire(nsocon.id, Call.GetSubscriptions)]
      ensures body == reply.Body() && err == reply.Error()
    {
      body, err := nsocon.SendPost(Call.GetSubscriptions, reply);
    }

    /** What a subscription call `c` does: when its reply yields no handle,
        only `c` was sent, nothing was recorded, and the error is returned
        with the subscription's body; otherwise the handle is appended to
        `handles` and then armed, and the arming's body and error are
        returned, so a handle whose arming failed stays recorded. */
    twostate predicate SubscribeOutcome(new c: Call, new reply: Reply, new startReply: Reply, new body: Body,
                                        new err: Option<string>)
      reads this, nsocon, nsocon.request
    {
      && Ready() && nsocon.request.insecureTLS == !nsocon.nsocon.sslVerify
      && var got := NewHandle(reply.Body());
      && (got.Failure? ==>
            && handles == old(handles)
            && nsocon.log == old(nsocon.log) + [Wire(nsocon.id, c)]
            && body == reply.Body() && err == Some(got.error))
      && (got.Success? ==>
            && handles == old(handles) + [got.value]
            && nsocon.log == old(nsocon.log)
               + [Wire(nsocon.id, c), Wire(nsocon.id, Call.StartSubscription(got.value))]
            && body == startReply.Body() && err == startReply.Error())
    }

    /** The steps every Subscribe method shares. */
    method Subscribe(c: Call, reply: Reply, startReply: Reply) returns (body: Body, err: Option<string>)
      requires Ready()
      modifies this`handles, nsocon`log, nsocon.request
      ensures SubscribeOutcome(c, reply, startReply, body, err)
    {
      ghost var sent := nsocon.log + [Wire(nsocon.id, c)];
      body, err := nsocon.SendPost(c, reply);
      assert nsocon.log == sent;
      if err.Some? {
        assert NewHandle(reply.Body()) == Failure(err.value);
        return;
      }
      var respData := new Response.NsoJsonResponse();
      var newHandle, e := respData.GetCometHandle(body);
      if e.Some? {
        assert NewHandle(reply.Body()) == Failure(e.value);
        return body, e;
      }
      assert NewHandle(reply.Body()) == Success(newHandle);
      handles := handles + [newHandle];
      body, err := StartSubscription(newHandle, startReply);
      assert nsocon.log == sent + [Wire(nsocon.id, Call.StartSubscription(newHandle))];
    }

    /** SubscribeChanges: changes under `path`. */
    method SubscribeChanges(path: string, reply: Reply, startReply: Reply) returns (body: Body, err: Option<string>)
      requires Ready()
      modifies this`handles, nsocon`log, nsocon.request
      ensures SubscribeOutcome(Call.SubscribeChanges(cometID, path), reply, startReply, body, err)
    {
      body, err := Subscribe(Call.SubscribeChanges(cometID, path), reply, startReply);
    }

    /** SubscribePollLeaf: the leaf at `path`, polled every `interval` seconds. */
    method SubscribePollLeaf(path: string, interval: int, reply: Reply, startReply: Reply)
      returns (body: Body, err: Option<string>)
      requires Ready()
      modifies this`handles, nsocon`log, nsocon.request
      ensures SubscribeOutcome(Call.SubscribePollLeaf(cometID, path, interval), reply, startReply, body, err)
    {
      body, err := Subscribe(Call.SubscribePollLeaf(cometID, path, interval), reply, startReply);
    }

    /** SubscribeCDBOper: operational data under `path`. */
    method SubscribeCDBOper(path: string, reply: Reply, startReply: Reply) returns (body: Body, err: Option<string>)
      requires Ready()
      modifies this`handles, nsocon`log, nsocon.request
      ensures SubscribeOutcome(Call.SubscribeCdbOper(cometID, path), reply, startReply, body, err)
    {
      body, err := Subscribe(Call.SubscribeCdbOper(cometID, path), reply, startReply);
    }

    /** SubscribeUpgrade: upgrade events. */
    method SubscribeUpgrade(reply: Reply, startReply: Reply) returns (body: Body, err: Option<string>)
      requires Ready()
      modifies this`handles, nsocon`log, nsocon.request
      ensures SubscribeOutcome(Call.SubscribeUpgrade(cometID), reply, startReply, body, err)
    {
      body, err := Subscribe(Call.SubscribeUpgrade(cometID), reply, startReply);
    }

    /** SubscribeJSONRpcBatch: JSON-RPC batch events. */
    method SubscribeJSONRpcBatch(reply: Reply, startReply: Reply) returns (body: Body, err: Option<string>)
      requires Ready()
      modifies this`handles, nsocon`log, nsocon.request
      ensures SubscribeOutcome(Call.SubscribeJsonRpcBatch(cometID), reply, startReply, body, err)
    {
      body, err := Subscribe(Call.SubscribeJsonRpcBatch(cometID), reply, startReply);
    }

    /** unsubscribe: one unsubscribe per recorded handle, in order, stopping
        at the first failed send, whose error it returns; `replies[k]`
        answers the k-th. The handles stay recorded. */
    method Unsubscribe(replies: seq<Reply>) returns (err: Option<string>)
      requires Ready() && |replies| == |handles|
      modifies nsocon`log, nsocon.request
      ensures Ready()
      ensures FirstFailure(replies) < |handles| ==>
        && err == replies[FirstFailure(replies)].Error()
        && nsocon.log == old(nsocon.log) + UnsubscribeCalls(nsocon.id, handles[..FirstFailure(replies) + 1])
      ensures FirstFailure(replies) == |handles| ==>
        err == None && nsocon.log == old(nsocon.log) + UnsubscribeCalls(nsocon.id, handles)
    {
      var i := 0;
      while i < |handles|
        invariant 0 <= i <= |handles|
        invariant Ready()
        invariant forall j :: 0 <= j < i ==> replies[j].Delivered?
        invariant nsocon.log == old(nsocon.log) + UnsubscribeCalls(nsocon.id, handles[..i])
      {
        assert UnsubscribeCalls(nsocon.id, handles[..i + 1])
          == UnsubscribeCalls(nsocon.id, handles[..i]) + [Wire(nsocon.id, Call.Unsubscribe(handles[i]))];
        var _, e := nsocon.SendPost(Call.Unsubscribe(handles[i]), replies[i]);
        if e.Some? {
          return e;
        }
        i := i + 1;
      }
      assert handles[..i] == handles;
      err := None;
    }

    /** StartComet: refuses a started manager and changes nothing; otherwise
        it is marked started at once, then logs in with the given
        credentials, opens a private read transaction and polls, stopping at
        the first error. */
    method StartComet(username: string, password: string, loginReply: Reply, transReply: Reply,
                      cometReply: Reply)
      returns (err: Option<string>)
      requires Valid()
      modifies this`cometStarted, nsocon
      ensures Valid() && handles == old(handles)
      ensures old(cometStarted) ==>
        && err == Some(AlreadyRunning) && cometStarted
        && nsocon.log == old(nsocon.log) && nsocon.th == old(nsocon.th)
        && nsocon.request == old(nsocon.request)
      ensures !old(cometStarted) ==> cometStarted && fresh(nsocon.request)
      ensures !old(cometStarted) && loginReply.TransportError? ==>
        && err == loginReply.Error() && nsocon.th == old(nsocon.th)
        && nsocon.log == old(nsocon.log) + [Wire(nsocon.id, Call.Login(username, password))]
      ensures !old(cometStarted) && loginReply.Delivered? && transReply.TransportError? ==>
        && err == transReply.Error() && nsocon.th == old(nsocon.th)
        && nsocon.log == old(nsocon.log)
           + [Wire(nsocon.id, Call.Login(username, password)),
              Wire(nsocon.id, Call.NewTrans("read", "private", "", "reuse"))]
      ensures !old(cometStarted) && loginReply.Delivered? && transReply.Delivered? ==>
        && err == cometReply.Error() && nsocon.th == Response.HandleOf(transReply.body, "th")
        && nsocon.log == old(nsocon.log)
           + [Wire(nsocon.id, Call.Login(username, password)),
              Wire(nsocon.id, Call.NewTrans("read", "private", "", "reuse")),
              Wire(nsocon.id, Call.Comet(cometID))]
    {
      err := CheckCometState(cometStarted, false);
      if err.Some? {
        return;
      }
      cometStarted := true;
      err := nsocon.LoginWith(username, password, loginReply);
      if err.Some? {
        return;
      }
      err := nsocon.NewTransaction("read", "private", "", "reuse", transReply);
      if err.Some? {
        return;
      }
      var _, e := Comet(cometReply);
      err := e;
    }

    /** StopComet: refuses a stopped manager and changes nothing; otherwise
        it unsubscribes every handle, polls once more and logs out, stopping
        at the first error, and is marked stopped only when all of them
        succeeded. The handles are never cleared. */
    method StopComet(unsubReplies: seq<Reply>, cometReply: Reply, logoutReply: Reply, closeError: Option<string>)
      returns (err: Option<string>)
      requires Valid() && |unsubReplies| == |handles|
      modifies this`cometStarted, nsocon`log, nsocon.request
      ensures Valid() && handles == old(handles)
      ensures !old(cometStarted) ==>
        err == Some(NotRunning) && !cometStarted && nsocon.log == old(nsocon.log)
      ensures old(cometStarted) && FirstFailure(unsubReplies) < |handles| ==>
        && err == unsubReplies[FirstFailure(unsubReplies)].Error() && cometStarted
        && nsocon.log
           == old(nsocon.log) + UnsubscribeCalls(nsocon.id, handles[..FirstFailure(unsubReplies) + 1])
      ensures old(cometStarted) && FirstFailure(unsubReplies) == |handles| && cometReply.TransportError? ==>
        && err == cometReply.Error() && cometStarted
        && nsocon.log
           == old(nsocon.log) + UnsubscribeCalls(nsocon.id, handles) + [Wire(nsocon.id, Call.Comet(cometID))]
      ensures old(cometStarted) && FirstFailure(unsubReplies) == |handles| && cometReply.Delivered? ==>
        && err == closeError && (cometStarted <==> closeError.Some?)
        && nsocon.log
           == old(nsocon.log) + UnsubscribeCalls(nsocon.id, handles)
              + [Wire(nsocon.id, Call.Comet(cometID)), Wire(nsocon.id, Call.Logout)]
    {
      err := CheckCometState(cometStarted, true);
      if err.Some? {
        return;
      }
      err := Unsubscribe(unsubReplies);
      if err.Some? {
        return;
      }
      var _, e := Comet(cometReply);
      if e.Some? {
        return e;
      }
      err := nsocon.NsoLogout(logoutReply, closeError);
      if err.Some? {
        return;
      }
      cometStarted := false;
    }
  }

  /** A subscription whose server handle is `h`, followed by a stop that
      succeeds: `h` is recorded, the manager is stopped, and an unsubscribe
      for `h` is among the requests sent. */
  method SubscribeThenStop(com: NsoJsonRpcComet, path: string, h: string, startReply: Reply,
                           unsubReplies: seq<Reply>, cometReply: Reply, logoutReply: Reply)
    requires com.Ready() && com.cometStarted
    requires |unsubReplies| == |com.handles| + 1
    requires forall k :: 0 <= k < |unsubReplies| ==> unsubReplies[k].Delivered?
    requires cometReply.Delivered?
    modifies com`cometStarted, com`handles, com.nsocon`log, com.nsocon.request
    ensures !com.cometStarted && com.handles == old(com.handles) + [h]
    ensures old(com.nsocon.log) <= com.nsocon.log
    ensures Wire(com.nsocon.id, Call.Unsubscribe(h)) in com.nsocon.log[|old(com.nsocon.log)|..]
  {
    var before := com.nsocon.log;
    var reply := Delivered(Decoded(map["handle" := Str(h)]));
    assert NewHandle(reply.Body()) == Success(h);
    var _, _ := com.SubscribeChanges(path, reply, startReply);
    var subscribed := com.nsocon.log;
    assert |subscribed| == |before| + 2;
    assert FirstFailure(unsubReplies) == |com.handles|;
    var _ := com.StopComet(unsubReplies, cometReply, logoutReply, None);
    var n := |com.handles|;
    var unsubscribed := UnsubscribeCalls(com.nsocon.id, com.handles);
    assert com.nsocon.log[|subscribed| + n - 1] == unsubscribed[n - 1];
    assert com.nsocon.log[|subscribed| + n - 1] == Wire(com.nsocon.id, Call.Unsubscribe(h));
    assert com.nsocon.log[|before|..][n + 1] == com.nsocon.log[|subscribed| + n - 1];
    assert before <= subscribed <= com.nsocon.log;
  }
}
