/** Every remote call the client makes, with the method name and the "params"
    object it puts on the wire. `Decode` reads a call back from a method name
    and a params object; `DecodeWire` proves that every call survives the trip,
    which says that each argument travels under its own fixed key and that
    distinct calls never produce the same request. */
module Calls {
  import opened Wrappers
  import opened Envelope
  import M = Methods

  datatype Call =
    // session (common.go)
    | Login(user: string, passwd: string)
    | Logout
    | NewTrans(mode: string, confMode: string, tag: string, onPendingChanges: string)
    | GetTrans
    | GetSystemSetting(operation: string)
    | Abort(requestId: int)
    | EvalXPath(th: int, xpathExpr: string)
    // transaction-scoped configuration (config.go)
    | ShowConfig(th: int, path: string, resultAs: string, withOper: bool, maxSize: int)
    | Deref(th: int, path: string, resultAs: string)
    | GetLeafrefValues(th: int, path: string, skipGrouping: bool, keys: seq<string>)
    | RunAction(th: int, path: string, input: map<string, Value>)
    | GetSchema(th: int, path: string)
    | GetListKeys(th: int, path: string)
    | GetValue(th: int, path: string, checkDefault: bool)
    | GetValues(th: int, path: string, leafs: seq<string>, checkDefault: bool)
    | Create(th: int, path: string)
    | Exists(th: int, path: string)
    | GetCase(th: int, path: string, choice: string)
    | Load(th: int, data: string, path: string, format: string, loadMode: string)
    | SetValue(th: int, path: string, value: Value, dryRun: bool)
    | ValidateCommit(th: int)
    | Commit(th: int, flags: Option<seq<string>>)
    | Delete(th: int, path: string)
    | GetServicePoints
    | GetTemplateVariables(th: int, name: string)
    | Query(th: int, xpathExpr: string, resultAs: string)
    // queries (config.go)
    | StartQuery(queryParams: map<string, Value>)
    | RunQuery(qh: int)
    | ResetQuery(qh: int)
    | StopQuery(qh: int)
    // comet (comet.go)
    | SubscribeChanges(cometId: string, path: string)
    | SubscribePollLeaf(cometId: string, path: string, interval: int)
    | SubscribeCdbOper(cometId: string, path: string)
    | SubscribeUpgrade(cometId: string)
    | SubscribeJsonRpcBatch(cometId: string)
    | GetSubscriptions
    | Comet(cometId: string)
    | StartSubscription(handle: string)
    | Unsubscribe(handle: string)

  /** The JSON-RPC method a call invokes. */
  function MethodOf(c: Call): M.Method
  {
    match c
    case Login(_, _) => M.Login
    case Logout => M.Logout
    case NewTrans(_, _, _, _) => M.NewTrans
    case GetTrans => M.GetTrans
    case GetSystemSetting(_) => M.GetSystemSetting
    case Abort(_) => M.Abort
    case EvalXPath(_, _) => M.EvalXPath
    case ShowConfig(_, _, _, _, _) => M.ShowConfig
    case Deref(_, _, _) => M.Deref
    case GetLeafrefValues(_, _, _, _) => M.GetLeafrefValues
    case RunAction(_, _, _) => M.RunAction
    case GetSchema(_, _) => M.GetSchema
    case GetListKeys(_, _) => M.GetListKeys
    case GetValue(_, _, _) => M.GetValue
    case GetValues(_, _, _, _) => M.GetValues
    case Create(_, _) => M.Create
    case Exists(_, _) => M.Exists
    case GetCase(_, _, _) => M.GetCase
    case Load(_, _, _, _, _) => M.Load
    case SetValue(_, _, _, _) => M.SetValue
    case ValidateCommit(_) => M.ValidateCommit
    case Commit(_, _) => M.Commit
    case Delete(_, _) => M.Delete
    case GetServicePoints => M.GetServicePoints
    case GetTemplateVariables(_, _) => M.GetTemplateVariables
    case Query(_, _, _) => M.Query
    case StartQuery(_) => M.StartQuery
    case RunQuery(_) => M.RunQuery
    case ResetQuery(_) => M.ResetQuery
    case StopQuery(_) => M.StopQuery
    case SubscribeChanges(_, _) => M.SubscribeChanges
    case SubscribePollLeaf(_, _, _) => M.SubscribePollLeaf
    case SubscribeCdbOper(_, _) => M.SubscribeCdbOper
    case SubscribeUpgrade(_) => M.SubscribeUpgrade
    case SubscribeJsonRpcBatch(_) => M.SubscribeJsonRpcBatch
    case GetSubscriptions => M.GetSubscriptions
    case Comet(_) => M.Comet
    case StartSubscription(_) => M.StartSubscription
    case Unsubscribe(_) => M.Unsubscribe
  }

  /** A nil flag list marshals as `null`. */
  function FlagsValue(flags: Option<seq<string>>): Value
  {
    if flags.Some? then Strs(flags.value) else Null
  }

  /** The "params" object of a call. The logout, get_trans,
      get_service_points and get_subscriptions requests carry no "params"
      member at all; they are given the empty map, so an absent "params" and
      an empty object are the same value here. No other call sends an empty
      object, so this identifies nothing that the client tells apart. */
  function Params(c: Call): map<string, Value>
  {
    match c
    case Login(user, passwd) => map["user" := Str(user), "passwd" := Str(passwd)]
    case Logout => map[]
    case NewTrans(mode, confMode, tag, onPending) =>
      map["db" := Str("running"), "mode" := Str(mode), "conf_mode" := Str(confMode),
          "tag" := Str(tag), "on_pending_changes" := Str(onPending)]
    case GetTrans => map[]
    case GetSystemSetting(operation) => map["operation" := Str(operation)]
    case Abort(requestId) => map["id" := Num(requestId)]
    case EvalXPath(th, xpathExpr) => map["th" := Num(th), "xpath_expr" := Str(xpathExpr)]
    case ShowConfig(th, path, resultAs, withOper, maxSize) =>
      map["th" := Num(th), "path" := Str(path), "result_as" := Str(resultAs),
          "with_oper" := Bool(withOper), "max_size" := Num(maxSize)]
    case Deref(th, path, resultAs) =>
      map["th" := Num(th), "path" := Str(path), "result_as" := Str(resultAs)]
    case GetLeafrefValues(th, path, skipGrouping, keys) =>
      map["th" := Num(th), "path" := Str(path), "skip_grouping" := Bool(skipGrouping),
          "keys" := Strs(keys)]
    case RunAction(th, path, input) =>
      map["th" := Num(th), "path" := Str(path), "params" := Object(input)]
    case GetSchema(th, path) => map["th" := Num(th), "path" := Str(path)]
    case GetListKeys(th, path) => map["th" := Num(th), "path" := Str(path)]
    case GetValue(th, path, checkDefault) =>
      map["th" := Num(th), "path" := Str(path), "check_default" := Bool(checkDefault)]
    case GetValues(th, path, leafs, checkDefault) =>
      map["th" := Num(th), "path" := Str(path), "check_default" := Bool(checkDefault),
          "leafs" := Strs(leafs)]
    case Create(th, path) => map["th" := Num(th), "path" := Str(path)]
    case Exists(th, path) => map["th" := Num(th), "path" := Str(path)]
    case GetCase(th, path, choice) =>
      map["th" := Num(th), "path" := Str(path), "choice" := Str(choice)]
    case Load(th, data, path, format, loadMode) =>
      map["th" := Num(th), "data" := Str(data), "path" := Str(path),
          "format" := Str(format), "mode" := Str(loadMode)]
    case SetValue(th, path, value, dryRun) =>
      map["th" := Num(th), "path" := Str(path), "value" := value, "dryrun" := Bool(dryRun)]
    case ValidateCommit(th) => map["th" := Num(th)]
    case Commit(th, flags) => map["th" := Num(th), "flags" := FlagsValue(flags)]
    case Delete(th, path) => map["th" := Num(th), "path" := Str(path)]
    case GetServicePoints => map[]
    case GetTemplateVariables(th, name) => map["th" := Num(th), "name" := Str(name)]
    case Query(th, xpathExpr, resultAs) =>
      map["th" := Num(th), "xpath_expr" := Str(xpathExpr), "result_as" := Str(resultAs)]
    case StartQuery(queryParams) => queryParams
    case RunQuery(qh) => map["qh" := Num(qh)]
    case ResetQuery(qh) => map["qh" := Num(qh)]
    case StopQuery(qh) => map["qh" := Num(qh)]
    case SubscribeChanges(cometId, path) => map["comet_id" := Str(cometId), "path" := Str(path)]
    case SubscribePollLeaf(cometId, path, interval) =>
      map["comet_id" := Str(cometId), "path" := Str(path), "interval" := Num(interval)]
    case SubscribeCdbOper(cometId, path) => map["comet_id" := Str(cometId), "path" := Str(path)]
    case SubscribeUpgrade(cometId) => map["comet_id" := Str(cometId)]
    case SubscribeJsonRpcBatch(cometId) => map["comet_id" := Str(cometId)]
    case GetSubscriptions => map[]
    case Comet(cometId) => map["comet_id" := Str(cometId)]
    case StartSubscription(handle) => map["handle" := Str(handle)]
    case Unsubscribe(handle) => map["handle" := Str(handle)]
  }

  /** The request a connection with request id `id` sends for `c`. */
  function Wire(id: int, c: Call): Request
  {
    Request(id, MethodOf(c), Params(c))
  }

  // Typed reads of a params object, failing when the key is missing or holds
  // a value of another kind.

  function StrAt(p: map<string, Value>, key: string): Option<string>
  {
    if key in p && p[key].Str? then Some(p[key].s) else None
  }

  function NumAt(p: map<string, Value>, key: string): Option<int>
  {
    if key in p && p[key].Num? then Some(p[key].n) else None
  }

  function BoolAt(p: map<string, Value>, key: string): Option<bool>
  {
    if key in p && p[key].Bool? then Some(p[key].b) else None
  }

  function StrsAt(p: map<string, Value>, key: string): Option<seq<string>>
  {
    if key in p && p[key].Strs? then Some(p[key].items) else None
  }

  function ObjectAt(p: map<string, Value>, key: string): Option<map<string, Value>>
  {
    if key in p && p[key].Object? then Some(p[key].fields) else None
  }

  function ValueAt(p: map<string, Value>, key: string): Option<Value>
  {
    if key in p then Some(p[key]) else None
  }

  function FlagsAt(p: map<string, Value>, key: string): Option<Option<seq<string>>>
  {
    if key !in p then None
    else if p[key].Null? then Some(None)
    else if p[key].Strs? then Some(Some(p[key].items))
    else None
  }


  /** Reads a call back from the method it invokes and its params object. */
  function Decode(m: M.Method, p: map<string, Value>): Option<Call>
  {
    match m
    case Login =>
      var user :- StrAt(p, "user"); var passwd :- StrAt(p, "passwd");
      Some(Login(user, passwd))
    case Logout => Some(Logout)
    case NewTrans =>
      var mode :- StrAt(p, "mode"); var confMode :- StrAt(p, "conf_mode");
      var tag :- StrAt(p, "tag"); var onPending :- StrAt(p, "on_pending_changes");
      Some(NewTrans(mode, confMode, tag, onPending))
    case GetTrans => Some(GetTrans)
    case GetSystemSetting =>
      var operation :- StrAt(p, "operation");
      Some(GetSystemSetting(operation))
    case Abort =>
      var requestId :- NumAt(p, "id");
      Some(Abort(requestId))
    case EvalXPath =>
      var th :- NumAt(p, "th"); var xpathExpr :- StrAt(p, "xpath_expr");
      Some(EvalXPath(th, xpathExpr))
    case ShowConfig =>
      var th :- NumAt(p, "th"); var path :- StrAt(p, "path");
      var resultAs :- StrAt(p, "result_as"); var withOper :- BoolAt(p, "with_oper");
      var maxSize :- NumAt(p, "max_size");
      Some(ShowConfig(th, path, resultAs, withOper, maxSize))
    case Deref =>
      var th :- NumAt(p, "th"); var path :- StrAt(p, "path");
      var resultAs :- StrAt(p, "result_as");
      Some(Deref(th, path, resultAs))
    case GetLeafrefValues =>
      var th :- NumAt(p, "th"); var path :- StrAt(p, "path");
      var skipGrouping :- BoolAt(p, "skip_grouping"); var keys :- StrsAt(p, "keys");
      Some(GetLeafrefValues(th, path, skipGrouping, keys))
    case RunAction =>
      var th :- NumAt(p, "th"); var path :- StrAt(p, "path");
      var input :- ObjectAt(p, "params");
      Some(RunAction(th, path, input))
    case GetSchema =>
      var th :- NumAt(p, "th"); var path :- StrAt(p, "path");
      Some(GetSchema(th, path))
    case GetListKeys =>
      var th :- NumAt(p, "th"); var path :- StrAt(p, "path");
      Some(GetListKeys(th, path))
    case GetValue =>
      var th :- NumAt(p, "th"); var path :- StrAt(p, "path");
      var checkDefault :- BoolAt(p, "check_default");
      Some(GetValue(th, path, checkDefault))
    case GetValues =>
      var th :- NumAt(p, "th"); var path :- StrAt(p, "path");
      var leafs :- StrsAt(p, "leafs"); var checkDefault :- BoolAt(p, "check_default");
      Some(GetValues(th, path, leafs, checkDefault))
    case Create =>
      var th :- NumAt(p, "th"); var path :- StrAt(p, "path");
      Some(Create(th, path))
    case Exists =>
      var th :- NumAt(p, "th"); var path :- StrAt(p, "path");
      Some(Exists(th, path))
    case GetCase =>
      var th :- NumAt(p, "th"); var path :- StrAt(p, "path");
      var choice :- StrAt(p, "choice");
      Some(GetCase(th, path, choice))
    case Load =>
      var th :- NumAt(p, "th"); var data :- StrAt(p, "data");
      var path :- StrAt(p, "path"); var format :- StrAt(p, "format");
      var loadMode :- StrAt(p, "mode");
      Some(Load(th, data, path, format, loadMode))
    case SetValue =>
      var th :- NumAt(p, "th"); var path :- StrAt(p, "path");
      var value :- ValueAt(p, "value"); var dryRun :- BoolAt(p, "dryrun");
      Some(SetValue(th, path, value, dryRun))
    case ValidateCommit =>
      var th :- NumAt(p, "th");
      Some(ValidateCommit(th))
    case Commit =>
      var th :- NumAt(p, "th"); var flags :- FlagsAt(p, "flags");
      Some(Commit(th, flags))
    case Delete =>
      var th :- NumAt(p, "th"); var path :- StrAt(p, "path");
      Some(Delete(th, path))
    case GetServicePoints => Some(GetServicePoints)
    case GetTemplateVariables =>
      var th :- NumAt(p, "th"); var name :- StrAt(p, "name");
      Some(GetTemplateVariables(th, name))
    case Query =>
      var th :- NumAt(p, "th"); var xpathExpr :- StrAt(p, "xpath_expr");
      var resultAs :- StrAt(p, "result_as");
      Some(Query(th, xpathExpr, resultAs))
    case StartQuery => Some(StartQuery(p))
    case RunQuery =>
      var qh :- NumAt(p, "qh");
      Some(RunQuery(qh))
    case ResetQuery =>
      var qh :- NumAt(p, "qh");
      Some(ResetQuery(qh))
    case StopQuery =>
      var qh :- NumAt(p, "qh");
      Some(StopQuery(qh))
    case SubscribeChanges =>
      var cometId :- StrAt(p, "comet_id"); var path :- StrAt(p, "path");
      Some(SubscribeChanges(cometId, path))
    case SubscribePollLeaf =>
      var cometId :- StrAt(p, "comet_id"); var path :- StrAt(p, "path");
      var interval :- NumAt(p, "interval");
      Some(SubscribePollLeaf(cometId, path, interval))
    case SubscribeCdbOper =>
      var cometId :- StrAt(p, "comet_id"); var path :- StrAt(p, "path");
      Some(SubscribeCdbOper(cometId, path))
    case SubscribeUpgrade =>
      var cometId :- StrAt(p, "comet_id");
      Some(SubscribeUpgrade(cometId))
    case SubscribeJsonRpcBatch =>
      var cometId :- StrAt(p, "comet_id");
      Some(SubscribeJsonRpcBatch(cometId))
    case GetSubscriptions => Some(GetSubscriptions)
    case Comet =>
      var cometId :- StrAt(p, "comet_id");
      Some(Comet(cometId))
    case StartSubscription =>
      var handle :- StrAt(p, "handle");
      Some(StartSubscription(handle))
    case Unsubscribe =>
      var handle :- StrAt(p, "handle");
      Some(Unsubscribe(handle))
  }

  /** Round trip for the session calls of a connection. */
  lemma DecodeSessionCalls(c: Call)
    requires c.Login? || c.Logout? || c.NewTrans? || c.GetTrans?
    ensures Decode(MethodOf(c), Params(c)) == Some(c)
  {
  }

  /** Round trip for the connection-level queries. */
  lemma DecodeSettingCalls(c: Call)
    requires c.GetSystemSetting? || c.Abort? || c.EvalXPath?
    ensures Decode(MethodOf(c), Params(c)) == Some(c)
  {
  }

  /** Round trip for the configuration reads. */
  lemma DecodeReadCalls(c: Call)
    requires c.ShowConfig? || c.Deref? || c.GetLeafrefValues? || c.RunAction?
    ensures Decode(MethodOf(c), Params(c)) == Some(c)
  {
  }

  /** Round trip for the schema and value reads. */
  lemma DecodeSchemaCalls(c: Call)
    requires c.GetSchema? || c.GetListKeys? || c.GetValue? || c.GetValues?
    ensures Decode(MethodOf(c), Params(c)) == Some(c)
  {
  }

  /** Round trip for the edits. */
  lemma DecodeEditCalls(c: Call)
    requires c.Create? || c.Exists? || c.GetCase? || c.Load?
    ensures Decode(MethodOf(c), Params(c)) == Some(c)
  {
  }

  /** Round trip for the writes and commits. */
  lemma DecodeCommitCalls(c: Call)
    requires c.SetValue? || c.ValidateCommit? || c.Commit? || c.Delete?
    ensures Decode(MethodOf(c), Params(c)) == Some(c)
  {
  }

  /** Round trip for the service, template and one-shot query calls. */
  lemma DecodeServiceCalls(c: Call)
    requires c.GetServicePoints? || c.GetTemplateVariables? || c.Query?
    ensures Decode(MethodOf(c), Params(c)) == Some(c)
  {
  }

  /** Round trip for the calls of a query handle. */
  lemma DecodeQueryHandleCalls(c: Call)
    requires c.StartQuery? || c.RunQuery? || c.ResetQuery? || c.StopQuery?
    ensures Decode(MethodOf(c), Params(c)) == Some(c)
  {
  }

  /** Round trip for the subscriptions. */
  lemma DecodeSubscribeCalls(c: Call)
    requires c.SubscribeChanges? || c.SubscribePollLeaf? || c.SubscribeCdbOper? || c.SubscribeUpgrade?
    ensures Decode(MethodOf(c), Params(c)) == Some(c)
  {
  }

  /** Round trip for the comet channel calls. */
  lemma DecodeCometCalls(c: Call)
    requires c.SubscribeJsonRpcBatch? || c.GetSubscriptions? || c.Comet? || c.StartSubscription? || c.Unsubscribe?
    ensures Decode(MethodOf(c), Params(c)) == Some(c)
  {
  }

  /** Every call is read back from its request: each argument travels under a
      key of its own, and no two calls produce the same request. */
  lemma DecodeWire(c: Call)
    ensures Decode(MethodOf(c), Params(c)) == Some(c)
  {
    if c.Login? || c.Logout? || c.NewTrans? || c.GetTrans? {
      DecodeSessionCalls(c);
    } else if c.GetSystemSetting? || c.Abort? || c.EvalXPath? {
      DecodeSettingCalls(c);
    } else if c.ShowConfig? || c.Deref? || c.GetLeafrefValues? || c.RunAction? {
      DecodeReadCalls(c);
    } else if c.GetSchema? || c.GetListKeys? || c.GetValue? || c.GetValues? {
      DecodeSchemaCalls(c);
    } else if c.Create? || c.Exists? || c.GetCase? || c.Load? {
      DecodeEditCalls(c);
    } else if c.SetValue? || c.ValidateCommit? || c.Commit? || c.Delete? {
      DecodeCommitCalls(c);
    } else if c.GetServicePoints? || c.GetTemplateVariables? || c.Query? {
      DecodeServiceCalls(c);
    } else if c.StartQuery? || c.RunQuery? || c.ResetQuery? || c.StopQuery? {
      DecodeQueryHandleCalls(c);
    } else if c.SubscribeChanges? || c.SubscribePollLeaf? || c.SubscribeCdbOper? || c.SubscribeUpgrade? {
      DecodeSubscribeCalls(c);
    } else {
      DecodeCometCalls(c);
    }
  }

  /** Distinct calls never produce the same request. */
  lemma WireInjective(id: int, c1: Call, c2: Call)
    requires Wire(id, c1) == Wire(id, c2)
    ensures c1 == c2
  {
    DecodeWire(c1);
    DecodeWire(c2);
  }

  /** The requests for `calls`, in order. */
  function WireAll(id: int, calls: seq<Call>): seq<Request>
  {
    seq(|calls|, k requires 0 <= k < |calls| => Wire(id, calls[k]))
  }
}
