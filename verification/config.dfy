/** config.go: the transaction-scoped configuration API. Every builder sends
    the connection's current transaction handle with its arguments under
    fixed keys; the dry-run flags of a commit and the parameters of a
    complex query are computed from the arguments. */
module Config {
  import opened Wrappers
  import opened Envelope
  import opened Calls
  import Connection
  import Response

  /** Go's `append` on a slice that may still be nil. */
  function Append(flags: Option<seq<string>>, flag: string): (r: Option<seq<string>>)
    ensures r.Some? && |r.value| >= 1 && r.value[|r.value| - 1] == flag
    ensures flags.None? ==> r.value == [flag]
    ensures flags.Some? ==> r.value[..|r.value| - 1] == flags.value
  {
    Some((if flags.Some? then flags.value else []) + [flag])
  }

  /** The "flags" of a commit: none unless it is a dry run; a dry run names
      its output format, and asks for the reverse diff only for the native
      format. */
  function CommitFlags(dryRun: bool, output: string, reverse: bool): (flags: Option<seq<string>>)
    ensures flags.None? <==> !dryRun
    ensures flags.Some? ==> 1 <= |flags.value| <= 2 && flags.value[0] == "dry-run=" + output
    ensures flags.Some? ==> (|flags.value| == 2 <==> output == "native" && reverse)
    ensures flags.Some? && |flags.value| == 2 ==> flags.value[1] == "dry-run-reverse"
  {
    if !dryRun then None
    else if output == "native" && reverse then Some(["dry-run=" + output, "dry-run-reverse"])
    else Some(["dry-run=" + output])
  }

  /** The criteria of a complex query (the fields of QueryObject but its handle). */
  datatype QueryCriteria = QueryCriteria(
    xpathExpression: string,
    path: string,
    selection: seq<string>,
    chunkSize: int,
    initialOffset: int,
    sort: seq<string>,
    sortOrder: string,
    includeTotal: bool,
    contextNode: string,
    resultAs: string)

  const NoQueryTarget := "either xpathExpression needs to be given or path"

  /** NewQueryObject: a query needs an expression or a path; an expression
      wins, and the path is then dropped. Giving both is not an error. */
  function NewQueryObject(xpathExpression: string, path: string, selection: seq<string>, chunkSize: int,
                          initialOffset: int, sort: seq<string>, sortOrder: string, includeTotal: bool,
                          contextNode: string, resultAs: string)
    : (r: Result<QueryCriteria, string>)
    ensures r.Failure? <==> xpathExpression == "" && path == ""
    ensures r.Failure? ==> r.error == NoQueryTarget
    ensures r.Success? ==> r.value.xpathExpression == xpathExpression
    ensures r.Success? && xpathExpression != "" ==> r.value.path == ""
    ensures r.Success? && xpathExpression == "" ==> r.value.path == path
    ensures r.Success? ==>
      && r.value.selection == selection && r.value.chunkSize == chunkSize
      && r.value.initialOffset == initialOffset && r.value.sort == sort
      && r.value.sortOrder == sortOrder && r.value.includeTotal == includeTotal
      && r.value.contextNode == contextNode && r.value.resultAs == resultAs
  {
    if xpathExpression != "" then
      Success(QueryCriteria(xpathExpression, "", selection, chunkSize, initialOffset, sort, sortOrder,
                            includeTotal, contextNode, resultAs))
    else if path != "" then
      Success(QueryCriteria("", path, selection, chunkSize, initialOffset, sort, sortOrder,
                            includeTotal, contextNode, resultAs))
    else
      Failure(NoQueryTarget)
  }

  /** `key` is present in `p` and holds `v`. */
  predicate Carries(p: map<string, Value>, key: string, v: Value)
  {
    key in p && p[key] == v
  }

  /** Every key a start_query request may carry. */
  const StartQueryKeys: set<string> := {
    "th", "xpath_expr", "selection", "sort", "path", "context_node",
    "chunk_size", "initial_offset", "sort_order", "include_total", "result_as"}

  /** The "params" of start_query for the transaction `th`, filled in the
      order the client fills them. */
  function StartQueryParams(th: int, q: QueryCriteria): map<string, Value>
  {
    var located :=
      if q.xpathExpression != "" then
        var withExpr := map["th" := Num(th), "xpath_expr" := Str(q.xpathExpression)];
        var withSelection := if |q.selection| > 0 then withExpr["selection" := Strs(q.selection)] else withExpr;
        if |q.sort| > 0 then withSelection["sort" := Strs(q.sort)] else withSelection
      else
        var withPath := map["th" := Num(th), "path" := Str(q.path)];
        if q.contextNode != "" then withPath["context_node" := Str(q.contextNode)] else withPath;
    var paged := located["chunk_size" := Num(q.chunkSize)]["initial_offset" := Num(q.initialOffset)];
    var sorted := if q.sortOrder != "" then paged["sort_order" := Str(q.sortOrder)] else paged;
    sorted["include_total" := Bool(q.includeTotal)]["result_as" := Str(q.resultAs)]
  }

  /** Every start_query carries the transaction, the paging, the total and
      the result format, and the sort order exactly when one is given; it
      carries no key outside StartQueryKeys. */
  lemma StartQueryCommonParams(th: int, q: QueryCriteria)
    ensures var p := StartQueryParams(th, q);
      && p.Keys <= StartQueryKeys
      && Carries(p, "th", Num(th))
      && Carries(p, "chunk_size", Num(q.chunkSize)) && Carries(p, "initial_offset", Num(q.initialOffset))
      && Carries(p, "include_total", Bool(q.includeTotal)) && Carries(p, "result_as", Str(q.resultAs))
      && (q.sortOrder != "" ==> Carries(p, "sort_order", Str(q.sortOrder)))
      && (q.sortOrder == "" ==> "sort_order" !in p)
  {
  }

  /** An expression query carries the expression, never a path or a context
      node, and a selection and a sort exactly when they are not empty. */
  lemma StartQueryExpressionParams(th: int, q: QueryCriteria)
    requires q.xpathExpression != ""
    ensures var p := StartQueryParams(th, q);
      && Carries(p, "xpath_expr", Str(q.xpathExpression))
      && "path" !in p && "context_node" !in p
      && (|q.selection| > 0 ==> Carries(p, "selection", Strs(q.selection)))
      && (|q.selection| == 0 ==> "selection" !in p)
      && (|q.sort| > 0 ==> Carries(p, "sort", Strs(q.sort)))
      && (|q.sort| == 0 ==> "sort" !in p)
  {
  }

  /** A path query carries the path, never an expression, a selection or a
      sort, and a context node exactly when one is given. */
  lemma StartQueryPathParams(th: int, q: QueryCriteria)
    requires q.xpathExpression == ""
    ensures var p := StartQueryParams(th, q);
      && Carries(p, "path", Str(q.path))
      && "xpath_expr" !in p && "selection" !in p && "sort" !in p
      && (q.contextNode != "" ==> Carries(p, "context_node", Str(q.contextNode)))
      && (q.contextNode == "" ==> "context_node" !in p)
  {
  }

  /** The start_query "params" as StartQuery fills them, one key at a time. */
  method FillStartQueryParams(th: int, q: QueryCriteria) returns (params: map<string, Value>)
    ensures params == StartQueryParams(th, q)
  {
    params := map["th" := Num(th)];
    if q.xpathExpression != "" {
      params := params["xpath_expr" := Str(q.xpathExpression)];
      if |q.selection| > 0 {
        params := params["selection" := Strs(q.selection)];
      }
      if |q.sort| > 0 {
        params := params["sort" := Strs(q.sort)];
      }
    } else {
      params := params["path" := Str(q.path)];
      if q.contextNode != "" {
        params := params["context_node" := Str(q.contextNode)];
      }
    }
    params := params["chunk_size" := Num(q.chunkSize)];
    params := params["initial_offset" := Num(q.initialOffset)];
    if q.sortOrder != "" {
      params := params["sort_order" := Str(q.sortOrder)];
    }
    params := params["include_total" := Bool(q.includeTotal)];
    params := params["result_as" := Str(q.resultAs)];
  }

  /** QueryObject: the criteria and the handle start_query returned. */
  class QueryObject {
    const criteria: QueryCriteria
    var qh: int

    constructor(criteria: QueryCriteria)
      ensures this.criteria == criteria && qh == 0
    {
      this.criteria := criteria;
      qh := 0;
    }
  }

  /** NsoJsonRpcConfig: the configuration API over its own connection. */
  class NsoJsonRpcConfig {
    const nsocon: Connection.JsonConnection

    /** The connection is valid and logged in (it has a requester). */
    ghost predicate Ready()
      reads nsocon
    {
      nsocon.Valid() && nsocon.request != null
    }

    constructor(nsocon: Connection.JsonConnection)
      ensures this.nsocon == nsocon
    {
      this.nsocon := nsocon;
    }

    /** NewNsoJsonRpcConfig: the connection constructor's error, unchanged,
        or a configuration over a new connection. */
    static method New(protocol: string, ip: string, port: int, username: string, password: string,
                      sslVerify: bool, addr: Connection.AddressOracle, draw: int)
      returns (r: Result<NsoJsonRpcConfig, string>)
      requires 0 <= draw < 65000
      ensures var c := Connection.NewHttpConnection(protocol, ip, port, username, password, sslVerify, addr);
        c.Failure? ==> r == Failure(c.error)
      ensures var c := Connection.NewHttpConnection(protocol, ip, port, username, password, sslVerify, addr);
        c.Success? ==> r.Success? && fresh(r.value) && fresh(r.value.nsocon) && r.value.nsocon.nsocon == c.value
      ensures r.Success? ==>
        && r.value.nsocon.Valid() && r.value.nsocon.id == draw + 1
        && r.value.nsocon.request == null && r.value.nsocon.th == 0 && r.value.nsocon.log == []
    {
      var conn := Connection.JsonConnection.New(protocol, ip, port, username, password, sslVerify, addr, draw);
      if conn.Failure? {
        return Failure(conn.error);
      }
      var config := new NsoJsonRpcConfig(conn.value);
      return Success(config);
    }

    /** NsoLogin: logs the connection in with its stored credentials. */
    method NsoLogin(reply: Reply) returns (err: Option<string>)
      requires nsocon.Valid()
      modifies nsocon
      ensures Ready() && fresh(nsocon.request) && nsocon.request.insecureTLS == !nsocon.nsocon.sslVerify
      ensures nsocon.th == old(nsocon.th)
      ensures nsocon.log
        == old(nsocon.log) + [Wire(nsocon.id, Call.Login(nsocon.nsocon.username, nsocon.nsocon.password))]
      ensures err == reply.Error()
    {
      err := nsocon.NsoLogin(reply);
    }

    /** NsoLogout: logs the connection out. */
    method NsoLogout(reply: Reply, closeError: Option<string>) returns (err: Option<string>)
      requires Ready()
      modifies nsocon`log, nsocon.request
      ensures Ready() && nsocon.request.insecureTLS == !nsocon.nsocon.sslVerify
      ensures nsocon.log == old(nsocon.log) + [Wire(nsocon.id, Call.Logout)]
      ensures err == closeError
    {
      err := nsocon.NsoLogout(reply, closeError);
    }

    /** NewTransaction: opens the transaction the other builders work in. */
    method NewTransaction(mode: string, confMode: string, tag: string, onPendingChanges: string, reply: Reply)
      returns (err: Option<string>)
      requires Ready()
      modifies nsocon`log, nsocon`th, nsocon.request
      ensures Ready() && nsocon.request.insecureTLS == !nsocon.nsocon.sslVerify
      ensures nsocon.log == old(nsocon.log) + [Wire(nsocon.id, Call.NewTrans(mode, confMode, tag, onPendingChanges))]
      ensures err == reply.Error()
      ensures reply.TransportError? ==> nsocon.th == old(nsocon.th)
      ensures reply.Delivered? ==> nsocon.th == Response.HandleOf(reply.body, "th")
    {
      err := nsocon.NewTransaction(mode, confMode, tag, onPendingChanges, reply);
    }

    /** ShowConfig: the configuration under `path`. */
    method ShowConfig(path: string, resultAs: string, withOper: bool, maxSize: int, reply: Reply) returns (body: Body, err: Option<string>)
      requires Ready()
      modifies nsocon`log, nsocon.request
      ensures Ready() && nsocon.request.insecureTLS == !nsocon.nsocon.sslVerify
      ensures nsocon.log == old(nsocon.log) + [Wire(nsocon.id, Call.ShowConfig(nsocon.th, path, resultAs, withOper, maxSize))]
      ensures body == reply.Body() && err == reply.Error()
    {
      body, err := nsocon.SendPost(Call.ShowConfig(nsocon.th, path, resultAs, withOper, maxSize), reply);
    }

    /** Deref: what the leafref at `path` points to. */
    method Deref(path: string, resultAs: string, reply: Reply) returns (body: Body, err: Option<string>)
      requires Ready()
      modifies nsocon`log, nsocon.request
      ensures Ready() && nsocon.request.insecureTLS == !nsocon.nsocon.sslVerify
      ensures nsocon.log == old(nsocon.log) + [Wire(nsocon.id, Call.Deref(nsocon.th, path, resultAs))]
      ensures body == reply.Body() && err == reply.Error()
    {
      body, err := nsocon.SendPost(Call.Deref(nsocon.th, path, resultAs), reply);
    }

    /** GetLeafrefValues: the values a leafref may take. */
    method GetLeafrefValues(path: string, skipGrouping: bool, keys: seq<string>, reply: Reply) returns (body: Body, err: Option<string>)
      requires Ready()
      modifies nsocon`log, nsocon.request
      ensures Ready() && nsocon.request.insecureTLS == !nsocon.nsocon.sslVerify
      ensures nsocon.log == old(nsocon.log) + [Wire(nsocon.id, Call.GetLeafrefValues(nsocon.th, path, skipGrouping, keys))]
      ensures body == reply.Body() && err == reply.Error()
    {
      body, err := nsocon.SendPost(Call.GetLeafrefValues(nsocon.th, path, skipGrouping, keys), reply);
    }

    /** RunAction: runs the action at `path` with `inputData` as its parameters. */
    method RunAction(path: string, inputData: map<string, Value>, reply: Reply) returns (body: Body, err: Option<string>)
      requires Ready()
      modifies nsocon`log, nsocon.request
      ensures Ready() && nsocon.request.insecureTLS == !nsocon.nsocon.sslVerify
      ensures nsocon.log == old(nsocon.log) + [Wire(nsocon.id, Call.RunAction(nsocon.th, path, inputData))]
      ensures body == reply.Body() && err == reply.Error()
    {
      body, err := nsocon.SendPost(Call.RunAction(nsocon.th, path, inputData), reply);
    }

    /** GetSchema: the schema of `path`. */
    method GetSchema(path: string, reply: Reply) returns (body: Body, err: Option<string>)
      requires Ready()
      modifies nsocon`log, nsocon.request
      ensures Ready() && nsocon.request.insecureTLS == !nsocon.nsocon.sslVerify
      ensures nsocon.log == old(nsocon.log) + [Wire(nsocon.id, Call.GetSchema(nsocon.th, path))]
      ensures body == reply.Body() && err == reply.Error()
    {
      body, err := nsocon.SendPost(Call.GetSchema(nsocon.th, path), reply);
    }

    /** GetListKeys: the keys of the list at `path`. */
    method GetListKeys(path: string, reply: Reply) returns (body: Body, err: Option<string>)
      requires Ready()
      modifies nsocon`log, nsocon.request
      ensures Ready() && nsocon.request.insecureTLS == !nsocon.nsocon.sslVerify
      ensures nsocon.log == old(nsocon.log) + [Wire(nsocon.id, Call.GetListKeys(nsocon.th, path))]
      ensures body == reply.Body() && err == reply.Error()
    {
      body, err := nsocon.SendPost(Call.GetListKeys(nsocon.th, path), reply);
    }

    /** GetValue: the value of the leaf at `path`. */
    method GetValue(path: string, checkDefault: bool, reply: Reply) returns (body: Body, err: Option<string>)
      requires Ready()
      modifies nsocon`log, nsocon.request
      ensures Ready() && nsocon.request.insecureTLS == !nsocon.nsocon.sslVerify
      ensures nsocon.log == old(nsocon.log) + [Wire(nsocon.id, Call.GetValue(nsocon.th, path, checkDefault))]
      ensures body == reply.Body() && err == reply.Error()
    {
      body, err := nsocon.SendPost(Call.GetValue(nsocon.th, path, checkDefault), reply);
    }

    /** GetValues: the values of `leafs` under `path`. */
    method GetValues(path: string, leafs: seq<string>, checkDefault: bool, reply: Reply) returns (body: Body, err: Option<string>)
      requires Ready()
      modifies nsocon`log, nsocon.request
      ensures Ready() && nsocon.request.insecureTLS == !nsocon.nsocon.sslVerify
      ensures nsocon.log == old(nsocon.log) + [Wire(nsocon.id, Call.GetValues(nsocon.th, path, leafs, checkDefault))]
      ensures body == reply.Body() && err == reply.Error()
    {
      body, err := nsocon.SendPost(Call.GetValues(nsocon.th, path, leafs, checkDefault), reply);
    }

    /** Create: creates `path`. */
    method Create(path: string, reply: Reply) returns (body: Body, err: Option<string>)
      requires Ready()
      modifies nsocon`log, nsocon.request
      ensures Ready() && nsocon.request.insecureTLS == !nsocon.nsocon.sslVerify
      ensures nsocon.log == old(nsocon.log) + [Wire(nsocon.id, Call.Create(nsocon.th, path))]
      ensures body == reply.Body() && err == reply.Error()
    {
      body, err := nsocon.SendPost(Call.Create(nsocon.th, path), reply);
    }

    /** Exists: whether `path` exists. */
    method Exists(path: string, reply: Reply) returns (body: Body, err: Option<string>)
      requires Ready()
      modifies nsocon`log, nsocon.request
      ensures Ready() && nsocon.request.insecureTLS == !nsocon.nsocon.sslVerify
      ensures nsocon.log == old(nsocon.log) + [Wire(nsocon.id, Call.Exists(nsocon.th, path))]
      ensures body == reply.Body() && err == reply.Error()
    {
      body, err := nsocon.SendPost(Call.Exists(nsocon.th, path), reply);
    }

    /** GetCase: the case chosen for `choice` under `path`. */
    method GetCase(path: string, choice: string, reply: Reply) returns (body: Body, err: Option<string>)
      requires Ready()
      modifies nsocon`log, nsocon.request
      ensures Ready() && nsocon.request.insecureTLS == !nsocon.nsocon.sslVerify
      ensures nsocon.log == old(nsocon.log) + [Wire(nsocon.id, Call.GetCase(nsocon.th, path, choice))]
      ensures body == reply.Body() && err == reply.Error()
    {
      body, err := nsocon.SendPost(Call.GetCase(nsocon.th, path, choice), reply);
    }

    /** Load: loads `data` at `path`. */
    method Load(data: string, path: string, dataFormat: string, mode: string, reply: Reply) returns (body: Body, err: Option<string>)
      requires Ready()
      modifies nsocon`log, nsocon.request
      ensures Ready() && nsocon.request.insecureTLS == !nsocon.nsocon.sslVerify
      ensures nsocon.log == old(nsocon.log) + [Wire(nsocon.id, Call.Load(nsocon.th, data, path, dataFormat, mode))]
      ensures body == reply.Body() && err == reply.Error()
    {
      body, err := nsocon.SendPost(Call.Load(nsocon.th, data, path, dataFormat, mode), reply);
    }

    /** SetValue: sets the leaf at `path`. */
    method SetValue(path: string, value: Value, dryRun: bool, reply: Reply) returns (body: Body, err: Option<string>)
      requires Ready()
      modifies nsocon`log, nsocon.request
      ensures Ready() && nsocon.request.insecureTLS == !nsocon.nsocon.sslVerify
      ensures nsocon.log == old(nsocon.log) + [Wire(nsocon.id, Call.SetValue(nsocon.th, path, value, dryRun))]
      ensures body == reply.Body() && err == reply.Error()
    {
      body, err := nsocon.SendPost(Call.SetValue(nsocon.th, path, value, dryRun), reply);
    }

    /** ValidateCommit: validates the transaction before a commit. */
    method ValidateCommit(reply: Reply) returns (body: Body, err: Option<string>)
      requires Ready()
      modifies nsocon`log, nsocon.request
      ensures Ready() && nsocon.request.insecureTLS == !nsocon.nsocon.sslVerify
      ensures nsocon.log == old(nsocon.log) + [Wire(nsocon.id, Call.ValidateCommit(nsocon.th))]
      ensures body == reply.Body() && err == reply.Error()
    {
      body, err := nsocon.SendPost(Call.ValidateCommit(nsocon.th), reply);
    }

    /** Commit: the flags are built by appending to a nil list, so a commit
        that is not a dry run sends `null`; what is sent is `CommitFlags`. */
    method Commit(dryRun: bool, output: string, reverse: bool, reply: Reply)
      returns (body: Body, err: Option<string>)
      requires Ready()
      modifies nsocon`log, nsocon.request
      ensures Ready() && nsocon.request.insecureTLS == !nsocon.nsocon.sslVerify
      ensures nsocon.log
        == old(nsocon.log) + [Wire(nsocon.id, Call.Commit(nsocon.th, CommitFlags(dryRun, output, reverse)))]
      ensures body == reply.Body() && err == reply.Error()
    {
      var flags: Option<seq<string>> := None;
      if dryRun {
        flags := Append(flags, "dry-run=" + output);
        assert flags.value == ["dry-run=" + output];
        if output == "native" && reverse {
          flags := Append(flags, "dry-run-reverse");
          assert flags.value == ["dry-run=" + output, "dry-run-reverse"];
        }
      }
      body, err := nsocon.SendPost(Call.Commit(nsocon.th, flags), reply);
    }

    /** Delete: deletes `path`. */
    method Delete(path: string, reply: Reply) returns (body: Body, err: Option<string>)
      requires Ready()
      modifies nsocon`log, nsocon.request
      ensures Ready() && nsocon.request.insecureTLS == !nsocon.nsocon.sslVerify
      ensures nsocon.log == old(nsocon.log) + [Wire(nsocon.id, Call.Delete(nsocon.th, path))]
      ensures body == reply.Body() && err == reply.Error()
    {
      body, err := nsocon.SendPost(Call.Delete(nsocon.th, path), reply);
    }

    /** GetServicePoints: the service points; the request carries no params. */
    method GetServicePoints(reply: Reply) returns (body: Body, err: Option<string>)
      requires Ready()
      modifies nsocon`log, nsocon.request
      ensures Ready() && nsocon.request.insecureTLS == !nsocon.nsocon.sslVerify
      ensures nsocon.log == old(nsocon.log) + [Wire(nsocon.id, Call.GetServicePoints)]
      ensures body == reply.Body() && err == reply.Error()
    {
      body, err := nsocon.SendPost(Call.GetServicePoints, reply);
    }

    /** GetTemplateVariables: the variables of the template `name`. */
    method GetTemplateVariables(name: string, reply: Reply) returns (body: Body, err: Option<string>)
      requires Ready()
      modifies nsocon`log, nsocon.request
      ensures Ready() && nsocon.request.insecureTLS == !nsocon.nsocon.sslVerify
      ensures nsocon.log == old(nsocon.log) + [Wire(nsocon.id, Call.GetTemplateVariables(nsocon.th, name))]
      ensures body == reply.Body() && err == reply.Error()
    {
      body, err := nsocon.SendPost(Call.GetTemplateVariables(nsocon.th, name), reply);
    }

    /** Query: the one-shot query. */
    method Query(xpathExpression: string, resultAs: string, reply: Reply) returns (body: Body, err: Option<string>)
      requires Ready()
      modifies nsocon`log, nsocon.request
      ensures Ready() && nsocon.request.insecureTLS == !nsocon.nsocon.sslVerify
      ensures nsocon.log == old(nsocon.log) + [Wire(nsocon.id, Call.Query(nsocon.th, xpathExpression, resultAs))]
      ensures body == reply.Body() && err == reply.Error()
    {
      body, err := nsocon.SendPost(Call.Query(nsocon.th, xpathExpression, resultAs), reply);
    }

    /** StartQuery: sends the query's parameters, filled in key by key, then
        stores the handle it reads from the reply in the query object before
        it looks at the send error; a failed send leaves the handle 0. */
    method StartQuery(query: QueryObject, reply: Reply) returns (err: Option<string>)
      requires Ready()
      modifies nsocon`log, nsocon.request, query
      ensures Ready() && nsocon.request.insecureTLS == !nsocon.nsocon.sslVerify
      ensures nsocon.log
        == old(nsocon.log) + [Wire(nsocon.id, Call.StartQuery(StartQueryParams(nsocon.th, query.criteria)))]
      ensures query.qh == Response.HandleOf(reply.Body(), "qh")
      ensures err == reply.Error()
    {
      var params := FillStartQueryParams(nsocon.th, query.criteria);
      var body, e := nsocon.SendPost(Call.StartQuery(params), reply);
      var response := new Response.NsoJsonResponse();
      query.qh := response.GetQueryHandle(body);
      err := e;
    }

    /** RunQuery: the next chunk of the query's results. */
    method RunQuery(query: QueryObject, reply: Reply) returns (body: Body, err: Option<string>)
      requires Ready()
      modifies nsocon`log, nsocon.request
      ensures Ready() && nsocon.request.insecureTLS == !nsocon.nsocon.sslVerify
      ensures nsocon.log == old(nsocon.log) + [Wire(nsocon.id, Call.RunQuery(query.qh))]
      ensures body == reply.Body() && err == reply.Error()
    {
      body, err := nsocon.SendPost(Call.RunQuery(query.qh), reply);
    }

    /** ResetQuery: restarts the query from its first result. */
    method ResetQuery(query: QueryObject, reply: Reply) returns (body: Body, err: Option<string>)
      requires Ready()
      modifies nsocon`log, nsocon.request
      ensures Ready() && nsocon.request.insecureTLS == !nsocon.nsocon.sslVerify
      ensures nsocon.log == old(nsocon.log) + [Wire(nsocon.id, Call.ResetQuery(query.qh))]
      ensures body == reply.Body() && err == reply.Error()
    {
      body, err := nsocon.SendPost(Call.ResetQuery(query.qh), reply);
    }

    /** StopQuery: ends the query; the object keeps its handle. */
    method StopQuery(query: QueryObject, reply: Reply) returns (err: Option<string>)
      requires Ready()
      modifies nsocon`log, nsocon.request
      ensures Ready() && nsocon.request.insecureTLS == !nsocon.nsocon.sslVerify
      ensures nsocon.log == old(nsocon.log) + [Wire(nsocon.id, Call.StopQuery(query.qh))]
      ensures err == reply.Error()
    {
      var _, e := nsocon.SendPost(Call.StopQuery(query.qh), reply);
      err := e;
    }
  }
}
