/** common/common.go: the older copy of the connection and configuration
    API kept in the `common` package. Its server address (constructor and
    URL) is the same code as the root package's and is modelled by
    Connection.HttpConnection, Connection.NewHttpConnection and
    Connection.NsoUrl. It differs in what follows: the connection never
    fails to build and takes an address that is already checked, sending
    leaves the TLS setting alone, login takes the credentials and ignores
    the send error, the configuration holds a copy of the connection, and a
    complex query sends three parameters only. */
module LegacyCommon {
  import opened Wrappers
  import opened Envelope
  import opened Calls
  import Connection
  import Response
  import Config

  /** The legacy NsoJsonConnection. `log` records every request sent through it. */
  class NsoJsonConnection {
    var request: Connection.Requester?
    const id: int
    var th: int
    const nsocon: Connection.HttpConnection
    ghost var log: seq<Request>

    /** The request id lies in [1, 65000] and every request sent carries it. */
    ghost predicate Valid()
      reads this
    {
      && 1 <= id <= 65000
      && forall k :: 0 <= k < |log| ==> log[k].id == id
    }

    /** NewNsoJsonConnection: never fails; `draw` is the value
        rand.Intn(65000) returned. */
    constructor(c: Connection.HttpConnection, draw: int)
      requires 0 <= draw < 65000
      ensures Valid()
      ensures nsocon == c && id == draw + 1
      ensures request == null && th == 0 && log == []
    {
      nsocon := c;
      id := draw + 1;
      request := null;
      th := 0;
      log := [];
    }

    /** A copy of `source` as it is now, sharing its requester; the copy
        records only what is sent through it. */
    constructor Copy(source: NsoJsonConnection)
      requires source.Valid()
      ensures Valid()
      ensures request == source.request && id == source.id && th == source.th && nsocon == source.nsocon
      ensures log == []
    {
      request := source.request;
      id := source.id;
      th := source.th;
      nsocon := source.nsocon;
      log := [];
    }

    /** sendPost: posts the request for `c`; the TLS setting is left as it is. */
    method SendPost(c: Call, reply: Reply) returns (body: Body, err: Option<string>)
      requires Valid() && request != null
      modifies this`log
      ensures Valid()
      ensures log == old(log) + [Wire(id, c)]
      ensures body == reply.Body() && err == reply.Error()
    {
      log := log + [Wire(id, c)];
      body := reply.Body();
      err := reply.Error();
    }

    /** NsoLogin: a new requester, then a login call with the given
        credentials; the send error is dropped and the body returned. */
    method NsoLogin(username: string, password: string, reply: Reply) returns (body: Body)
      requires Valid()
      modifies this
      ensures Valid()
      ensures fresh(request) && !request.insecureTLS
      ensures th == old(th)
      ensures log == old(log) + [Wire(id, Call.Login(username, password))]
      ensures body == reply.Body()
    {
      request := new Connection.Requester();
      var b, _ := SendPost(Call.Login(username, password), reply);
      body := b;
    }

    /** NsoLogout: the send error is ignored; what is returned is the error
        of closing the response body, `closeError`. */
    method NsoLogout(reply: Reply, closeError: Option<string>) returns (err: Option<string>)
      requires Valid() && request != null
      modifies this`log
      ensures Valid()
      ensures log == old(log) + [Wire(id, Call.Logout)]
      ensures err == closeError
    {
      var _, _ := SendPost(Call.Logout, reply);
      err := closeError;
    }

    /** NewTransaction: `th` is set from the result only when the send
        succeeded; the body and the error are returned. */
    method NewTransaction(mode: string, confMode: string, tag: string, onPendingChanges: string,
                          reply: Reply)
      returns (body: Body, err: Option<string>)
      requires Valid() && request != null
      modifies this`log, this`th
      ensures Valid()
      ensures log == old(log) + [Wire(id, Call.NewTrans(mode, confMode, tag, onPendingChanges))]
      ensures body == reply.Body() && err == reply.Error()
      ensures reply.TransportError? ==> th == old(th)
      ensures reply.Delivered? ==> th == Response.HandleOf(reply.body, "th")
    {
      body, err := SendPost(Call.NewTrans(mode, confMode, tag, onPendingChanges), reply);
      if err.Some? {
        return;
      }
      var response := new Response.NsoJsonResponse();
      th := response.GetTransactionHandle(body);
    }

    /** GetTransaction: lists the transactions. */
    method GetTransaction(reply: Reply) returns (body: Body, err: Option<string>)
      requires Valid() && request != null
      modifies this`log
      ensures Valid()
      ensures log == old(log) + [Wire(id, Call.GetTrans)]
      ensures body == reply.Body() && err == reply.Error()
    {
      body, err := SendPost(Call.GetTrans, reply);
    }

    /** GetSystemSetting: reads one system setting. */
    method GetSystemSetting(operation: string, reply: Reply) returns (body: Body, err: Option<string>)
      requires Valid() && request != null
      modifies this`log
      ensures Valid()
      ensures log == old(log) + [Wire(id, Call.GetSystemSetting(operation))]
      ensures body == reply.Body() && err == reply.Error()
    {
      body, err := SendPost(Call.GetSystemSetting(operation), reply);
    }

    /** Abort: aborts the request with id `requestId`. */
    method Abort(requestId: int, reply: Reply) returns (body: Body, err: Option<string>)
      requires Valid() && request != null
      modifies this`log
      ensures Valid()
      ensures log == old(log) + [Wire(id, Call.Abort(requestId))]
      ensures body == reply.Body() && err == reply.Error()
    {
      body, err := SendPost(Call.Abort(requestId), reply);
    }

    /** EvalXPATH: evaluates an expression in the current transaction. */
    method EvalXPATH(xpathExpression: string, reply: Reply) returns (body: Body, err: Option<string>)
      requires Valid() && request != null
      modifies this`log
      ensures Valid()
      ensures log == old(log) + [Wire(id, Call.EvalXPath(th, xpathExpression))]
      ensures body == reply.Body() && err == reply.Error()
    {
      body, err := SendPost(Call.EvalXPath(th, xpathExpression), reply);
    }
  }

  /** The "params" of the legacy start_query: the transaction, the
      expression and the result format, whatever else the caller gave. */
  function StartQueryParams(th: int, xpathExpression: string, resultAs: string): (p: map<string, Value>)
    ensures p.Keys == {"th", "xpath_expr", "result_as"}
    ensures p["th"] == Num(th) && p["xpath_expr"] == Str(xpathExpression) && p["result_as"] == Str(resultAs)
  {
    map["th" := Num(th), "xpath_expr" := Str(xpathExpression), "result_as" := Str(resultAs)]
  }

  /** A path query, paging and sorting are lost in the legacy start_query:
      for the same criteria the root package sends the path (or the
      expression), the paging and the total, the legacy one only the
      expression it was given and the result format. */
  lemma StartQueryDropsCriteria(th: int, q: Config.QueryCriteria)
    ensures var legacy := StartQueryParams(th, q.xpathExpression, q.resultAs);
      var root := Config.StartQueryParams(th, q);
      && "chunk_size" in root && "chunk_size" !in legacy
      && "initial_offset" in root && "initial_offset" !in legacy
      && "include_total" in root && "include_total" !in legacy
      && (q.xpathExpression == "" ==> "path" in root && "path" !in legacy)
  {
    Config.StartQueryCommonParams(th, q);
    if q.xpathExpression == "" {
      Config.StartQueryPathParams(th, q);
    }
  }

  /** The legacy NsoJsonRpcConfig: it works on its own copy of a connection. */
  class NsoJsonRpcConfig {
    const nsocon: NsoJsonConnection

    /** The copy is valid and has a requester. */
    ghost predicate Ready()
      reads nsocon
    {
      nsocon.Valid() && nsocon.request != null
    }

    /** NewNsoJsonRpcConfig: copies `source` by value, so its transaction
        handle is the one `source` had at this point. */
    constructor(source: NsoJsonConnection)
      requires source.Valid()
      ensures fresh(nsocon) && nsocon.Valid()
      ensures nsocon.request == source.request && nsocon.id == source.id
      ensures nsocon.th == source.th && nsocon.nsocon == source.nsocon && nsocon.log == []
    {
      nsocon := new NsoJsonConnection.Copy(source);
    }

    /** ShowConfig: the configuration under `path`. */
    method ShowConfig(path: string, resultAs: string, withOper: bool, maxSize: int, reply: Reply) returns (body: Body, err: Option<string>)
      requires Ready()
      modifies nsocon`log
      ensures Ready()
      ensures nsocon.log == old(nsocon.log) + [Wire(nsocon.id, Call.ShowConfig(nsocon.th, path, resultAs, withOper, maxSize))]
      ensures body == reply.Body() && err == reply.Error()
    {
      body, err := nsocon.SendPost(Call.ShowConfig(nsocon.th, path, resultAs, withOper, maxSize), reply);
    }

    /** Deref: what the leafref at `path` points to. */
    method Deref(path: string, resultAs: string, reply: Reply) returns (body: Body, err: Option<string>)
      requires Ready()
      modifies nsocon`log
      ensures Ready()
      ensures nsocon.log == old(nsocon.log) + [Wire(nsocon.id, Call.Deref(nsocon.th, path, resultAs))]
      ensures body == reply.Body() && err == reply.Error()
    {
      body, err := nsocon.SendPost(Call.Deref(nsocon.th, path, resultAs), reply);
    }

    /** GetLeafrefValues: the values a leafref may take. */
    method GetLeafrefValues(path: string, skipGrouping: bool, keys: seq<string>, reply: Reply) returns (body: Body, err: Option<string>)
      requires Ready()
      modifies nsocon`log
      ensures Ready()
      ensures nsocon.log == old(nsocon.log) + [Wire(nsocon.id, Call.GetLeafrefValues(nsocon.th, path, skipGrouping, keys))]
      ensures body == reply.Body() && err == reply.Error()
    {
      body, err := nsocon.SendPost(Call.GetLeafrefValues(nsocon.th, path, skipGrouping, keys), reply);
    }

    /** RunAction: runs the action at `path` with `inputData` as its parameters. */
    method RunAction(path: string, inputData: map<string, Value>, reply: Reply) returns (body: Body, err: Option<string>)
      requires Ready()
      modifies nsocon`log
      ensures Ready()
      ensures nsocon.log == old(nsocon.log) + [Wire(nsocon.id, Call.RunAction(nsocon.th, path, inputData))]
      ensures body == reply.Body() && err == reply.Error()
    {
      body, err := nsocon.SendPost(Call.RunAction(nsocon.th, path, inputData), reply);
    }

    /** GetSchema: the schema of `path`. */
    method GetSchema(path: string, reply: Reply) returns (body: Body, err: Option<string>)
      requires Ready()
      modifies nsocon`log
      ensures Ready()
      ensures nsocon.log == old(nsocon.log) + [Wire(nsocon.id, Call.GetSchema(nsocon.th, path))]
      ensures body == reply.Body() && err == reply.Error()
    {
      body, err := nsocon.SendPost(Call.GetSchema(nsocon.th, path), reply);
    }

    /** GetListKeys: the keys of the list at `path`. */
    method GetListKeys(path: string, reply: Reply) returns (body: Body, err: Option<string>)
      requires Ready()
      modifies nsocon`log
      ensures Ready()
      ensures nsocon.log == old(nsocon.log) + [Wire(nsocon.id, Call.GetListKeys(nsocon.th, path))]
      ensures body == reply.Body() && err == reply.Error()
    {
      body, err := nsocon.SendPost(Call.GetListKeys(nsocon.th, path), reply);
    }

    /** GetValue: the value of the leaf at `path`. */
    method GetValue(path: string, checkDefault: bool, reply: Reply) returns (body: Body, err: Option<string>)
      requires Ready()
      modifies nsocon`log
      ensures Ready()
      ensures nsocon.log == old(nsocon.log) + [Wire(nsocon.id, Call.GetValue(nsocon.th, path, checkDefault))]
      ensures body == reply.Body() && err == reply.Error()
    {
      body, err := nsocon.SendPost(Call.GetValue(nsocon.th, path, checkDefault), reply);
    }

    /** GetValues: the values of `leafs` under `path`. */
    method GetValues(path: string, leafs: seq<string>, checkDefault: bool, reply: Reply) returns (body: Body, err: Option<string>)
      requires Ready()
      modifies nsocon`log
      ensures Ready()
      ensures nsocon.log == old(nsocon.log) + [Wire(nsocon.id, Call.GetValues(nsocon.th, path, leafs, checkDefault))]
      ensures body == reply.Body() && err == reply.Error()
    {
      body, err := nsocon.SendPost(Call.GetValues(nsocon.th, path, leafs, checkDefault), reply);
    }

    /** Create: creates `path`. */
    method Create(path: string, reply: Reply) returns (body: Body, err: Option<string>)
      requires Ready()
      modifies nsocon`log
      ensures Ready()
      ensures nsocon.log == old(nsocon.log) + [Wire(nsocon.id, Call.Create(nsocon.th, path))]
      ensures body == reply.Body() && err == reply.Error()
    {
      body, err := nsocon.SendPost(Call.Create(nsocon.th, path), reply);
    }

    /** Exists: whether `path` exists. */
    method Exists(path: string, reply: Reply) returns (body: Body, err: Option<string>)
      requires Ready()
      modifies nsocon`log
      ensures Ready()
      ensures nsocon.log == old(nsocon.log) + [Wire(nsocon.id, Call.Exists(nsocon.th, path))]
      ensures body == reply.Body() && err == reply.Error()
    {
      body, err := nsocon.SendPost(Call.Exists(nsocon.th, path), reply);
    }

    /** GetCase: the case chosen for `choice` under `path`. */
    method GetCase(path: string, choice: string, reply: Reply) returns (body: Body, err: Option<string>)
      requires Ready()
      modifies nsocon`log
      ensures Ready()
      ensures nsocon.log == old(nsocon.log) + [Wire(nsocon.id, Call.GetCase(nsocon.th, path, choice))]
      ensures body == reply.Body() && err == reply.Error()
    {
      body, err := nsocon.SendPost(Call.GetCase(nsocon.th, path, choice), reply);
    }

    /** Load: loads `data` at `path`. */
    method Load(data: string, path: string, dataFormat: string, mode: string, reply: Reply) returns (body: Body, err: Option<string>)
      requires Ready()
      modifies nsocon`log
      ensures Ready()
      ensures nsocon.log == old(nsocon.log) + [Wire(nsocon.id, Call.Load(nsocon.th, data, path, dataFormat, mode))]
      ensures body == reply.Body() && err == reply.Error()
    {
      body, err := nsocon.SendPost(Call.Load(nsocon.th, data, path, dataFormat, mode), reply);
    }

    /** SetValue: sets the leaf at `path`. */
    method SetValue(path: string, value: Value, dryRun: bool, reply: Reply) returns (body: Body, err: Option<string>)
      requires Ready()
      modifies nsocon`log
      ensures Ready()
      ensures nsocon.log == old(nsocon.log) + [Wire(nsocon.id, Call.SetValue(nsocon.th, path, value, dryRun))]
      ensures body == reply.Body() && err == reply.Error()
    {
      body, err := nsocon.SendPost(Call.SetValue(nsocon.th, path, value, dryRun), reply);
    }

    /** ValidateCommit: validates the transaction before a commit. */
    method ValidateCommit(reply: Reply) returns (body: Body, err: Option<string>)
      requires Ready()
      modifies nsocon`log
      ensures Ready()
      ensures nsocon.log == old(nsocon.log) + [Wire(nsocon.id, Call.ValidateCommit(nsocon.th))]
      ensures body == reply.Body() && err == reply.Error()
    {
      body, err := nsocon.SendPost(Call.ValidateCommit(nsocon.th), reply);
    }

    /** Commit: the same dry-run flags as the root package, built the same
        way; what is sent is `Config.CommitFlags`. */
    method Commit(dryRun: bool, output: string, reverse: bool, reply: Reply)
      returns (body: Body, err: Option<string>)
      requires Ready()
      modifies nsocon`log
      ensures Ready()
      ensures nsocon.log
        == old(nsocon.log) + [Wire(nsocon.id, Call.Commit(nsocon.th, Config.CommitFlags(dryRun, output, reverse)))]
      ensures body == reply.Body() && err == reply.Error()
    {
      var flags: Option<seq<string>> := None;
      if dryRun {
        flags := Config.Append(flags, "dry-run=" + output);
        assert flags.value == ["dry-run=" + output];
        if output == "native" && reverse {
          flags := Config.Append(flags, "dry-run-reverse");
          assert flags.value == ["dry-run=" + output, "dry-run-reverse"];
        }
      }
      body, err := nsocon.SendPost(Call.Commit(nsocon.th, flags), reply);
    }

    /** Delete: deletes `path`. */
    method Delete(path: string, reply: Reply) returns (body: Body, err: Option<string>)
      requires Ready()
      modifies nsocon`log
      ensures Ready()
      ensures nsocon.log == old(nsocon.log) + [Wire(nsocon.id, Call.Delete(nsocon.th, path))]
      ensures body == reply.Body() && err == reply.Error()
    {
      body, err := nsocon.SendPost(Call.Delete(nsocon.th, path), reply);
    }

    /** GetServicePoints: the service points; the request carries no params. */
    method GetServicePoints(reply: Reply) returns (body: Body, err: Option<string>)
      requires Ready()
      modifies nsocon`log
      ensures Ready()
      ensures nsocon.log == old(nsocon.log) + [Wire(nsocon.id, Call.GetServicePoints)]
      ensures body == reply.Body() && err == reply.Error()
    {
      body, err := nsocon.SendPost(Call.GetServicePoints, reply);
    }

    /** GetTemplateVariables: the variables of the template `name`. */
    method GetTemplateVariables(name: string, reply: Reply) returns (body: Body, err: Option<string>)
      requires Ready()
      modifies nsocon`log
      ensures Ready()
      ensures nsocon.log == old(nsocon.log) + [Wire(nsocon.id, Call.GetTemplateVariables(nsocon.th, name))]
      ensures body == reply.Body() && err == reply.Error()
    {
      body, err := nsocon.SendPost(Call.GetTemplateVariables(nsocon.th, name), reply);
    }

    /** Query: the one-shot query. */
    method Query(xpathExpression: string, resultAs: string, reply: Reply) returns (body: Body, err: Option<string>)
      requires Ready()
      modifies nsocon`log
      ensures Ready()
      ensures nsocon.log == old(nsocon.log) + [Wire(nsocon.id, Call.Query(nsocon.th, xpathExpression, resultAs))]
      ensures body == reply.Body() && err == reply.Error()
    {
      body, err := nsocon.SendPost(Call.Query(nsocon.th, xpathExpression, resultAs), reply);
    }

    /** StartQuery: sends only the transaction, the expression and the result
        format; the other criteria are accepted and ignored. */
    method StartQuery(xpathExpression: string, path: string, selection: seq<string>, chunkSize: int,
                      initialOffset: int, sort: seq<string>, sortOrder: string, includeTotal: bool,
                      contextNode: string, resultAs: string, reply: Reply)
      returns (body: Body, err: Option<string>)
      requires Ready()
      modifies nsocon`log
      ensures Ready()
      ensures nsocon.log
        == old(nsocon.log) + [Wire(nsocon.id, Call.StartQuery(StartQueryParams(nsocon.th, xpathExpression, resultAs)))]
      ensures body == reply.Body() && err == reply.Error()
    {
      var params := map["th" := Num(nsocon.th), "xpath_expr" := Str(xpathExpression), "result_as" := Str(resultAs)];
      body, err := nsocon.SendPost(Call.StartQuery(params), reply);
    }
  }

  /** A transaction opened on the source after the configuration was made
      is not seen by the configuration, which keeps sending the handle the
      source had when it was copied. */
  method TransactionAfterCopy(source: NsoJsonConnection, reply: Reply)
    returns (config: NsoJsonRpcConfig)
    requires source.Valid() && source.request != null
    modifies source`log, source`th
    ensures fresh(config) && fresh(config.nsocon)
    ensures config.nsocon.th == old(source.th)
    ensures reply.Delivered? ==> source.th == Response.HandleOf(reply.body, "th")
  {
    config := new NsoJsonRpcConfig(source);
    var _, _ := source.NewTransaction("read_write", "private", "", "reuse", reply);
  }
}
