/** The JSON-RPC methods the client calls, and how each is spelled on the wire. */
module Methods {

  datatype Method =
    | Login
    | Logout
    | NewTrans
    | GetTrans
    | GetSystemSetting
    | Abort
    | EvalXPath
    | ShowConfig
    | Deref
    | GetLeafrefValues
    | RunAction
    | GetSchema
    | GetListKeys
    | GetValue
    | GetValues
    | Create
    | Exists
    | GetCase
    | Load
    | SetValue
    | ValidateCommit
    | Commit
    | Delete
    | GetServicePoints
    | GetTemplateVariables
    | Query
    | StartQuery
    | RunQuery
    | ResetQuery
    | StopQuery
    | SubscribeChanges
    | SubscribePollLeaf
    | SubscribeCdbOper
    | SubscribeUpgrade
    | SubscribeJsonRpcBatch
    | GetSubscriptions
    | Comet
    | StartSubscription
    | Unsubscribe

  /** The method's name in a request's "method" member. */
  function Name(m: Method): string
  {
    match m
    case Login => "login"
    case Logout => "logout"
    case NewTrans => "new_trans"
    case GetTrans => "get_trans"
    case GetSystemSetting => "get_system_setting"
    case Abort => "abort"
    case EvalXPath => "eval_xpath"
    case ShowConfig => "show_config"
    case Deref => "deref"
    case GetLeafrefValues => "get_leafref_values"
    case RunAction => "run_action"
    case GetSchema => "get_schema"
    case GetListKeys => "get_list_keys"
    case GetValue => "get_value"
    case GetValues => "get_values"
    case Create => "create"
    case Exists => "exists"
    case GetCase => "get_case"
    case Load => "load"
    case SetValue => "set_value"
    case ValidateCommit => "validate_commit"
    case Commit => "commit"
    case Delete => "delete"
    case GetServicePoints => "get_service_points"
    case GetTemplateVariables => "get_template_variables"
    case Query => "query"
    case StartQuery => "start_query"
    case RunQuery => "run_query"
    case ResetQuery => "reset_query"
    case StopQuery => "stop_query"
    case SubscribeChanges => "subscribe_changes"
    case SubscribePollLeaf => "subscribe_poll_leaf"
    case SubscribeCdbOper => "subscribe_cdboper"
    case SubscribeUpgrade => "subscribe_upgrade"
    case SubscribeJsonRpcBatch => "subscribe_jsonrpc_batch"
    case GetSubscriptions => "get_subscriptions"
    case Comet => "comet"
    case StartSubscription => "start_subscription"
    case Unsubscribe => "unsubscribe"
  }
}
