# nsojsonrpcrequestergo, modelled in Dafny

nsojsonrpcrequestergo is a Go client for the JSON-RPC interface of Cisco NSO.
It has three parts:

- **Connection.** A connection stores the server's protocol, address, port,
  credentials and TLS setting, and draws a request id. Every request it
  posts is a JSON-RPC 2.0 envelope with that id.
- **Configuration API** (`NsoJsonRpcConfig`). It logs in, opens a
  transaction, and then sends one request per operation (show_config,
  get_value, commit, start_query …). Each request carries the current
  transaction handle `th` and the arguments under fixed keys.
- **Comet manager** (`NsoJsonRpcComet`). It logs in, opens a read
  transaction and polls under a fixed comet id. It records the handle of
  every subscription and arms it. Stopping unsubscribes every recorded
  handle, polls once more and logs out.

The `common` package holds an older copy of the connection, the
configuration API and the comet manager. It is modelled too.

## How the model is built

- **Requests.** `Calls.Call` lists every remote call the client makes.
  `Calls.Wire(id, c)` is the request the client posts for `c`: the method
  name and the "params" object.
- **Request log.** Each connection object has a ghost `log` of the requests
  it has posted. Every sending method states exactly what it appends.
- **The server.** The server is not modelled. Each send takes the server's
  answer as a `Reply` argument: a transport error, or a delivered body.
  A delivered body either cannot be decoded or is the decoded "result"
  object.
- **Address validation and DNS.** The IPv4 check and the DNS lookup are an
  `AddressOracle` argument.
- **Randomness.** The random draws for the request id and the comet id are
  `draw` arguments in `[0, 65000)`.
- **Object state.** The Go structs whose fields change in place are
  classes:
  - a connection's requester and `th`;
  - a comet manager's started flag and handles;
  - a query object's `qh`.

  Values are datatypes: the server address and the query criteria.
- **Copies.** The legacy constructors copy a connection by value. The model
  makes a fresh copy object whose requester is shared with the source.

## Model

| member | source | states |
|---|---|---|
| Methods.Name | common.go:191 | the "method" string of every request, spelled as each builder spells it (for example "login" here); Calls.DecodeWire reads the method back from it |
| Calls.Params | config.go:77-707 | the "params" object of every call: each argument under its fixed key, th where the builder sends it, and an empty object for the four calls that send none; the Calls.Decode*Calls lemmas read every argument back from it |
| Calls.Wire | common.go:135-141 | the request a call is marshalled to: jsonrpc "2.0", the connection id, the method name and the params; Calls.DecodeWire and Calls.WireInjective are its inverse and its injectivity |
| Calls.DecodeSessionCalls | common.go:188-275 | login, logout, new_trans and get_trans put every argument under its own key: the call is read back from its method name and params |
| Calls.DecodeSettingCalls | common.go:280-342 | get_system_setting, abort and eval_xpath are read back from their method name and params |
| Calls.DecodeReadCalls | config.go:77-176 | show_config, deref, get_leafref_values and run_action are read back from their method name and params |
| Calls.DecodeSchemaCalls | config.go:180-274 | get_schema, get_list_keys, get_value and get_values are read back from their method name and params |
| Calls.DecodeEditCalls | config.go:278-375 | create, exists, get_case and load are read back from their method name and params |
| Calls.DecodeCommitCalls | config.go:381-484 | set_value, validate_commit, commit (with nil or present flags) and delete are read back from their method name and params |
| Calls.DecodeServiceCalls | config.go:487-554 | get_service_points, get_template_variables and query are read back from their method name and params |
| Calls.DecodeQueryHandleCalls | config.go:596-707 | start_query, run_query, reset_query and stop_query are read back from their method name and params |
| Calls.DecodeSubscribeCalls | comet.go:115-233 | the change, poll-leaf, cdb-oper and upgrade subscriptions are read back from their method name and params |
| Calls.DecodeCometCalls | comet.go:236-396 | batch subscription, get_subscriptions, comet, start_subscription and unsubscribe are read back from their method name and params |
| Calls.DecodeWire | common.go:135-141 | every call the client makes is recovered from the request it posts |
| Calls.WireInjective | common.go:135-141 | on one connection, two different calls never produce the same request |
| Response.Merge | response.go:28-37 | decoding a body into a response adds the body's result keys with their values and keeps every other key with its old value; an undecodable body changes nothing |
| Response.Rewrite | response.go:78-80 | the three replacements, in their order: delete "[[", delete "]]", turn "] [" into ","; Response.FixQueryResults states that its rows join back into this string |
| Response.FixQueryResults | response.go:77-83 | the rows are at least one, contain no comma, and join with "," back into the string after the three bracket rewrites |
| Response.FixQueryResultsUnique | response.go:77-83 | any non-empty list of comma-free rows that joins into the rewritten string is exactly the result |
| Response.FixQueryResultsPlain | response.go:77-83 | a string with no double bracket, no "] [" and no comma gives one row, itself |
| Response.FixQueryResultsEmpty | response.go:77-83 | the empty rendering gives one empty row |
| Response.FixQueryResultsTwoRows | response.go:77-83 | a two-row rendering "[[a] [b]]" of bracket- and comma-free rows gives [a, b] |
| Response.FixQueryResultsExample | response.go:77-83 | "[[a b] [c d]]" gives ["a b", "c d"] |
| Response.NsoJsonResponse.constructor | response.go:20-24 | a new response holds an empty result |
| Response.NsoJsonResponse.ResponseToStruct | response.go:28-37 | the result becomes the merge of the old result and the body; the decoding error is returned |
| Response.NsoJsonResponse.Find | response.go:45-50 | the scan over the result finds a value exactly when the key is present, and that value is the key's |
| Response.NsoJsonResponse.FindNumber | response.go:41-55 | the number under "th" or "qh", or 0 when the key is absent |
| Response.HandleOf | response.go:41-73 | the "th" or "qh" number of a decoded body that has the key, otherwise 0; NewTransaction, StartQuery and StartComet state the new th or qh with it |
| Response.NsoJsonResponse.GetTransactionHandle | response.go:41-55 | a decoding error is ignored; the handle is the body's "th" when it has one, otherwise the merged result's "th", or 0 |
| Response.NsoJsonResponse.GetQueryHandle | response.go:59-73 | the same for "qh" |
| Response.NsoJsonResponse.GetQueryResults | response.go:87-102 | decoding error: no rows and that error; "results" present: its FixQueryResults rows; otherwise no rows and "could not find results" |
| Response.NsoJsonResponse.GetCometHandle | response.go:106-122 | decoding error: "" and that error; "handle" present: its string; otherwise "" and "could not find handle" |
| Connection.NewHttpConnection | common.go:40-82 | success exactly for http/https, a unicast or resolvable address and a port in 1..65535; fields stored with JSON headers; an unresolved name is replaced by its first lookup |
| Connection.ConstructorErrorOrder | common.go:40-82 | the protocol error wins over the address error, which wins over the port error |
| Connection.ConstructorTestCases | common_test.go:8-93 | the two accepted and the four rejected constructions of the package tests, each with its error message |
| Connection.NsoUrl | common.go:85-87 | the URL every request is posted to; Connection.NsoUrlPort and the two URL test cases state its form |
| Connection.NsoUrlPort | common.go:85-87 | the URL is protocol "://" ip ":" decimal port "/jsonrpc", whose digits read back as the port and have no leading zero |
| Connection.NsoUrlHttpTestCase | common_test.go:105 | http, 192.168.1.1, 8080 give "http://192.168.1.1:8080/jsonrpc" |
| Connection.NsoUrlHttpsTestCase | common_test.go:106 | https, 192.168.1.1, 443 give "https://192.168.1.1:443/jsonrpc" |
| Connection.Requester.constructor | common.go:195-196 | a new requester verifies TLS certificates |
| Connection.JsonConnection.constructor | common.go:118-130 | id is draw + 1, so in 1..65000; no requester, th 0, nothing sent |
| Connection.JsonConnection.New | common.go:118-130 | the address constructor's error unchanged, or a fresh connection over its address |
| Connection.JsonConnection.SendPost | common.go:146-163 | posts exactly the request for the call; TLS verification follows sslVerify; the reply's body and error are returned |
| Connection.JsonConnection.LoginWith | comet.go:43 | a fresh requester, then the login call with the given credentials; th unchanged |
| Connection.JsonConnection.NsoLogin | common.go:188-207 | a fresh requester, then the login call with the stored credentials; the send error is returned |
| Connection.JsonConnection.NsoLogout | common.go:210-226 | the logout call is posted; its send error is ignored and the body-close error is returned |
| Connection.JsonConnection.NewTransaction | common.go:234-258 | new_trans on the running database; on a send error th is kept, otherwise th is the reply's "th" or 0 |
| Connection.JsonConnection.GetTransaction | common.go:261-275 | posts get_trans; returns the reply |
| Connection.JsonConnection.GetSystemSetting | common.go:280-297 | posts get_system_setting for the operation; returns the reply |
| Connection.JsonConnection.Abort | common.go:302-319 | posts abort for the request id; returns the reply |
| Connection.JsonConnection.EvalXPATH | common.go:324-342 | posts eval_xpath in the current transaction; returns the reply |
| Config.Append | config.go:435-438 | Go's append on a flag slice that may still be nil: the result is never nil, ends with the new flag and keeps every earlier flag before it |
| Config.CommitFlags | config.go:432-441 | no flags (nil) unless a dry run; a dry run names its output, and adds "dry-run-reverse" exactly for native output with reverse |
| Config.NewQueryObject | config.go:577-592 | fails with its message exactly when neither an expression nor a path is given; an expression drops the path; every other criterion is kept |
| Config.StartQueryParams | config.go:597-624 | the start_query params filled from th and the criteria; Config.StartQueryCommonParams, StartQueryExpressionParams and StartQueryPathParams state which keys it carries |
| Config.StartQueryCommonParams | config.go:596-624 | start_query always carries th, chunk_size, initial_offset, include_total and result_as, carries sort_order exactly when it is given, and nothing outside its eleven keys |
| Config.StartQueryExpressionParams | config.go:600-609 | an expression query carries xpath_expr, never path or context_node, and selection and sort exactly when they are non-empty |
| Config.StartQueryPathParams | config.go:610-615 | a path query carries path, never xpath_expr, selection or sort, and context_node exactly when it is given |
| Config.FillStartQueryParams | config.go:596-624 | the key-by-key fill gives exactly StartQueryParams |
| Config.QueryObject.constructor | config.go:557-563 | a query object keeps its criteria and starts with handle 0 |
| Config.NsoJsonRpcConfig.constructor | config.go:10-13 | the configuration works on the given connection |
| Config.NsoJsonRpcConfig.New | config.go:22-32 | the connection constructor's error unchanged, or a configuration over a fresh, unlogged connection |
| Config.NsoJsonRpcConfig.NsoLogin | config.go:35-44 | logs the connection in with its stored credentials |
| Config.NsoJsonRpcConfig.NsoLogout | config.go:47-55 | logs the connection out and returns the body-close error |
| Config.NsoJsonRpcConfig.NewTransaction | config.go:62-70 | opens a transaction; th set from the reply, kept on a send error |
| Config.NsoJsonRpcConfig.ShowConfig | config.go:77-99 | posts show_config with th and its arguments; returns the reply |
| Config.NsoJsonRpcConfig.Deref | config.go:104-124 | posts deref with th and its arguments; returns the reply |
| Config.NsoJsonRpcConfig.GetLeafrefValues | config.go:130-151 | posts get_leafref_values with th and its arguments; returns the reply |
| Config.NsoJsonRpcConfig.RunAction | config.go:156-176 | posts run_action with th, path and params; returns the reply |
| Config.NsoJsonRpcConfig.GetSchema | config.go:180-199 | posts get_schema with th and path; returns the reply |
| Config.NsoJsonRpcConfig.GetListKeys | config.go:203-222 | posts get_list_keys with th and path; returns the reply |
| Config.NsoJsonRpcConfig.GetValue | config.go:227-247 | posts get_value with th and its arguments; returns the reply |
| Config.NsoJsonRpcConfig.GetValues | config.go:253-274 | posts get_values with th and its arguments; returns the reply |
| Config.NsoJsonRpcConfig.Create | config.go:278-297 | posts create with th and path; returns the reply |
| Config.NsoJsonRpcConfig.Exists | config.go:302-321 | posts exists with th and path; returns the reply |
| Config.NsoJsonRpcConfig.GetCase | config.go:326-346 | posts get_case with th and its arguments; returns the reply |
| Config.NsoJsonRpcConfig.Load | config.go:353-375 | posts load with th and its arguments; returns the reply |
| Config.NsoJsonRpcConfig.SetValue | config.go:381-402 | posts set_value with th and its arguments; returns the reply |
| Config.NsoJsonRpcConfig.ValidateCommit | config.go:407-425 | posts validate_commit with th; returns the reply |
| Config.NsoJsonRpcConfig.Commit | config.go:432-461 | posts commit with th and the CommitFlags of its arguments; returns the reply |
| Config.NsoJsonRpcConfig.Delete | config.go:465-484 | posts delete with th and path; returns the reply |
| Config.NsoJsonRpcConfig.GetServicePoints | config.go:487-501 | posts get_service_points without params; returns the reply |
| Config.NsoJsonRpcConfig.GetTemplateVariables | config.go:506-525 | posts get_template_variables with th and name; returns the reply |
| Config.NsoJsonRpcConfig.Query | config.go:534-554 | posts query with th and its arguments; returns the reply |
| Config.NsoJsonRpcConfig.StartQuery | config.go:596-643 | posts start_query with StartQueryParams of th and the criteria; the query's qh becomes the reply's "qh" or 0; the send error is returned |
| Config.NsoJsonRpcConfig.RunQuery | config.go:647-664 | posts run_query for the query's qh; returns the reply |
| Config.NsoJsonRpcConfig.ResetQuery | config.go:668-685 | posts reset_query for the query's qh; returns the reply |
| Config.NsoJsonRpcConfig.StopQuery | config.go:690-707 | posts stop_query for the query's qh; returns the send error |
| Comet.CheckCometState | comet.go:398-412 | no error exactly when the manager is in the wanted state; otherwise "already running" or "not running" by the current state |
| Comet.CometId | comet.go:23 | "remote-comet-" followed by the drawn number; Comet.CometIdDigits states its digits |
| Comet.CometIdDigits | comet.go:23 | the comet id is "remote-comet-" and digits without a leading zero that read back as the drawn number |
| Comet.NewHandle | response.go:106-122 | the subscription handle read out of a reply: the decoding error, the "handle" string, or "could not find handle"; Comet.NsoJsonRpcComet.Subscribe is stated with it |
| Comet.FirstFailure | comet.go:374-396 | every reply before the position was delivered, and the reply at the position (if any) failed |
| Comet.NsoJsonRpcComet.constructor | comet.go:11-17 | a new manager is stopped and has no handles |
| Comet.NsoJsonRpcComet.New | comet.go:22-33 | the connection constructor's error unchanged, or a stopped manager with no handles and comet id "remote-comet-" + (draw + 1) |
| Comet.NsoJsonRpcComet.Comet | comet.go:331-350 | posts comet with the comet id; returns the reply |
| Comet.NsoJsonRpcComet.CometPoll | comet.go:100-112 | one poll, as comet |
| Comet.NsoJsonRpcComet.StartSubscription | comet.go:352-372 | posts start_subscription for the handle; returns the reply |
| Comet.NsoJsonRpcComet.GetSubscriptions | comet.go:313-328 | posts get_subscriptions without params; returns the reply |
| Comet.NsoJsonRpcComet.Subscribe | comet.go:115-152 | without a handle in the reply: only the subscription was sent, nothing recorded, the error returned; with one: the handle is appended and then armed, and the arming's reply is returned |
| Comet.NsoJsonRpcComet.SubscribeChanges | comet.go:115-152 | Subscribe with subscribe_changes for the path |
| Comet.NsoJsonRpcComet.SubscribePollLeaf | comet.go:156-193 | Subscribe with subscribe_poll_leaf for the path and interval |
| Comet.NsoJsonRpcComet.SubscribeCDBOper | comet.go:197-233 | Subscribe with subscribe_cdboper for the path |
| Comet.NsoJsonRpcComet.SubscribeUpgrade | comet.go:236-271 | Subscribe with subscribe_upgrade |
| Comet.NsoJsonRpcComet.SubscribeJSONRpcBatch | comet.go:274-309 | Subscribe with subscribe_jsonrpc_batch |
| Comet.NsoJsonRpcComet.Unsubscribe | comet.go:374-396 | one unsubscribe per recorded handle, in order, up to and including the first failed send, whose error is returned; none failed: all sent and no error |
| Comet.NsoJsonRpcComet.StartComet | comet.go:35-63 | a started manager is refused and nothing changes; otherwise started at once, then login, a private read transaction and a poll, stopping at the first error |
| Comet.NsoJsonRpcComet.StopComet | comet.go:66-95 | a stopped manager is refused; otherwise unsubscribe all, poll, log out, stopping at the first error; stopped only when all succeeded; the handles stay recorded |
| Comet.SubscribeThenStop | comet.go:66-95 | after a subscription with handle h and a successful stop, h is recorded and an unsubscribe for h was sent |
| LegacyCommon.NsoJsonConnection.constructor | common/common.go:111-117 | never fails; id is draw + 1; no requester, th 0 |
| LegacyCommon.NsoJsonConnection.Copy | common/common.go:358-362 | a by-value copy: same requester, id, th and address; its own state from then on |
| LegacyCommon.NsoJsonConnection.SendPost | common/common.go:131-140 | posts exactly the request for the call; the TLS setting is left alone; returns the reply |
| LegacyCommon.NsoJsonConnection.NsoLogin | common/common.go:158-173 | a fresh requester that verifies TLS, then the login call with the given credentials; only the body is returned |
| LegacyCommon.NsoJsonConnection.NsoLogout | common/common.go:176-192 | the logout call is posted; the body-close error is returned |
| LegacyCommon.NsoJsonConnection.NewTransaction | common/common.go:199-223 | new_trans; th kept on a send error, otherwise the reply's "th" or 0; the reply is returned |
| LegacyCommon.NsoJsonConnection.GetTransaction | common/common.go:226-240 | posts get_trans; returns the reply |
| LegacyCommon.NsoJsonConnection.GetSystemSetting | common/common.go:244-261 | posts get_system_setting; returns the reply |
| LegacyCommon.NsoJsonConnection.Abort | common/common.go:265-282 | posts abort; returns the reply |
| LegacyCommon.NsoJsonConnection.EvalXPATH | common/common.go:286-304 | posts eval_xpath in the current transaction; returns the reply |
| LegacyCommon.StartQueryParams | common/common.go:849-869 | the legacy start_query carries exactly th, xpath_expr and result_as |
| LegacyCommon.StartQueryDropsCriteria | common/common.go:849-869 | paging, the total and a path query's path, all carried by the root start_query, are absent from the legacy one |
| LegacyCommon.TransactionAfterCopy | common/common.go:358-362 | a transaction opened on the source after the copy is not seen by the configuration's copy |
| LegacyCommon.NsoJsonRpcConfig.constructor | common/common.go:358-362 | a fresh copy of the source connection |
| LegacyCommon.NsoJsonRpcConfig.ShowConfig | common/common.go:369-391 | posts show_config with th and its arguments; returns the reply |
| LegacyCommon.NsoJsonRpcConfig.Deref | common/common.go:396-416 | posts deref; returns the reply |
| LegacyCommon.NsoJsonRpcConfig.GetLeafrefValues | common/common.go:422-443 | posts get_leafref_values; returns the reply |
| LegacyCommon.NsoJsonRpcConfig.RunAction | common/common.go:448-468 | posts run_action; returns the reply |
| LegacyCommon.NsoJsonRpcConfig.GetSchema | common/common.go:472-491 | posts get_schema; returns the reply |
| LegacyCommon.NsoJsonRpcConfig.GetListKeys | common/common.go:495-514 | posts get_list_keys; returns the reply |
| LegacyCommon.NsoJsonRpcConfig.GetValue | common/common.go:519-539 | posts get_value; returns the reply |
| LegacyCommon.NsoJsonRpcConfig.GetValues | common/common.go:545-566 | posts get_values; returns the reply |
| LegacyCommon.NsoJsonRpcConfig.Create | common/common.go:570-589 | posts create; returns the reply |
| LegacyCommon.NsoJsonRpcConfig.Exists | common/common.go:594-613 | posts exists; returns the reply |
| LegacyCommon.NsoJsonRpcConfig.GetCase | common/common.go:618-638 | posts get_case; returns the reply |
| LegacyCommon.NsoJsonRpcConfig.Load | common/common.go:645-667 | posts load; returns the reply |
| LegacyCommon.NsoJsonRpcConfig.SetValue | common/common.go:673-694 | posts set_value; returns the reply |
| LegacyCommon.NsoJsonRpcConfig.ValidateCommit | common/common.go:699-717 | posts validate_commit; returns the reply |
| LegacyCommon.NsoJsonRpcConfig.Commit | common/common.go:724-753 | posts commit with the same CommitFlags as the root package; returns the reply |
| LegacyCommon.NsoJsonRpcConfig.Delete | common/common.go:757-776 | posts delete; returns the reply |
| LegacyCommon.NsoJsonRpcConfig.GetServicePoints | common/common.go:779-793 | posts get_service_points; returns the reply |
| LegacyCommon.NsoJsonRpcConfig.GetTemplateVariables | common/common.go:798-817 | posts get_template_variables; returns the reply |
| LegacyCommon.NsoJsonRpcConfig.Query | common/common.go:826-846 | posts query; returns the reply |
| LegacyCommon.NsoJsonRpcConfig.StartQuery | common/common.go:849-869 | takes all ten criteria but posts only th, xpath_expr and result_as; returns the reply |
| LegacyComet.NsoJsonRpcComet.constructor | common/comet.go:21-26 | never fails; a stopped manager over a copy of the connection, with comet id "remote-comet-" + (draw + 1) |
| LegacyComet.NsoJsonRpcComet.Comet | common/comet.go:116-136 | posts comet with params exactly {"comet_id": id}; returns the reply |
| LegacyComet.NsoJsonRpcComet.StartSubscription | common/comet.go:138-158 | posts start_subscription for the handle; returns the reply |
| LegacyComet.NsoJsonRpcComet.SubscribeChanges | common/comet.go:92-113 | posts only subscribe_changes; the handle is neither recorded nor armed |
| LegacyComet.NsoJsonRpcComet.Unsubscribe | common/comet.go:160-180 | posts one unsubscribe for the literal handle "handle" |
| LegacyComet.NsoJsonRpcComet.StartComet | common/comet.go:28-56 | a started manager is refused and nothing changes; otherwise started at once, then login, a private read transaction and a poll, stopping at the first error; th is kept until the transaction succeeds, then becomes the reply's "th" or 0 |
| LegacyComet.NsoJsonRpcComet.StopComet | common/comet.go:59-88 | a stopped manager is refused; otherwise unsubscribe "handle", poll, log out, stopping at the first error; stopped only when all succeeded |
| LegacyComet.SubscribeThenStopMisses | common/comet.go:166 | a subscription and a successful stop never unsubscribe a handle other than "handle" |
| LegacyComet.SubscribeThenStop | common/comet.go:59-113 | a subscription followed by a successful stop posts exactly subscribe_changes, unsubscribe "handle", comet and logout |

## Left out

- HTTP, TLS and JSON marshalling are not modelled. A send is answered by the
  `Reply` its caller passes in. The JSON body is the `Calls.Params` map.
- Handles are JSON numbers (`float64`) in the source. Here they are integers.
- The source reads "results" and "handle" through `fmt.Sprintf("%s", v)`.
  Here they are taken to be strings already.
- The type assertion `value.(float64)` panics on a non-numeric "th" or
  "qh". Here a decoded result is assumed well typed, so that panic is not
  modelled.
- Nil and empty slice or map arguments are not told apart, except for
  the commit flags, which are `None` when no flag is set and marshal as
  `null`. A nil `keys` (GetLeafrefValues), nil `leafs` (GetValues) or nil
  `inputData` (RunAction) marshals as `null` in the source. Here it is the
  empty sequence or map, like an empty one.
- Calls.Params: a request without a "params" member (logout, get_trans,
  get_service_points, get_subscriptions) is given the empty params map.
- Every sender requires a logged-in connection (`request != null`). The
  source panics on its nil requester when a request is sent before
  NsoLogin.
- The request id and the comet id come from `rand` seeded with the clock.
  Here they are `draw` arguments.
- The IPv4 unicast check and the DNS lookup (ipv4addresstools.go, net) are
  an `AddressOracle` argument. ipv4addresstools.go is not part of this
  model.
- `sendGet` is never called by the library and is not modelled. The
  example program in main.go is not part of this model.
- Long polling blocks in the source. Here a poll is one request and its
  reply.
- NsoLogout, StartQuery and GetQueryHandle: on a failed send the source
  dereferences a nil response and would crash. Here the model goes on
  with an undecodable body, so the query handle becomes 0.
- Connection.JsonConnection.NsoLogout: the error of closing the response
  body is a `closeError` argument.
- Connection.JsonConnection.LoginWith: comet.go:43 calls the connection's
  `NsoLogin` with two arguments the method does not take. Here that step is
  a login with the given credentials, failing when its send fails.
- LegacyComet.NsoJsonRpcComet.StartComet: common/comet.go:36 and :42 use
  results of `NsoLogin` and `NewTransaction` whose types do not match.
  Here these steps fail exactly when their sends fail.
- The legacy address constructor and `NsoUrl` (common/common.go:39-86) are
  the same code as the root ones. They are modelled by
  `Connection.NewHttpConnection` and `Connection.NsoUrl`.
- The legacy `NsoJsonResponse.GetTransactionHandle`
  (common/common.go:316-343) is modelled by
  `Response.NsoJsonResponse.GetTransactionHandle`.
- `NsoHeaders` only returns the stored headers. It is the `headers` field.
- `Request` does not hold the URL or the headers of a post. Every send posts
  to `NsoUrl` of the connection's address with its JSON `headers`
  (common.go:157), and no operation changes either, so every request of a
  connection goes to the same URL with the same headers.
- `FixQueryResults` follows the code, not the intended CSV format. A
  two-row result `[[a b] [c d]]` gives the two rows `"a b"` and `"c d"`,
  not four values.
- `NewQueryObject` follows the code: giving both an expression and a path
  is not an error, and the expression wins.
- `StopComet` follows the code: it never clears the recorded handles. A
  manager that is started again unsubscribes the old handles once more.

## Findings

| source | as written | input that shows it | evidently intended | confidence | as-written member | corrected member |
|---|---|---|---|---|---|---|
| common/comet.go:160-180 | `unsubscribe` sends one request for the literal handle `"handle"` (line 166), and `SubscribeChanges` never records the handle the server returned | a subscription answered with handle `"h1"`, then `StopComet` with every send succeeding: the only unsubscribe is for `"handle"`, so `"h1"` stays subscribed | record every returned handle and unsubscribe each one, as comet.go:374-396 does | medium, not executed | LegacyComet.SubscribeThenStopMisses | Comet.SubscribeThenStop |
