/** common.go: the validated server address (nsoJsonRpcHTTPConnection) and the
    session requester (nsoJsonConnection) that every other part of the client
    sends through. */
module Connection {
  import opened Wrappers
  import opened Envelope
  import opened Text
  import opened Calls
  import Response

  /** The request headers (nsoRequestHeaders). */
  datatype Headers = Headers(contentType: string, accept: string)

  /** Both headers of every request are "application/json". */
  const JsonHeaders := Headers("application/json", "application/json")

  /** nsoJsonRpcHTTPConnection. NsoHeaders is the access to `headers`. */
  datatype HttpConnection = HttpConnection(
    protocol: string,
    ip: string,
    port: int,
    username: string,
    password: string,
    sslVerify: bool,
    headers: Headers)

  /** What the constructor learns about an address from outside the model:
      the error IpV4UnicastAddress reports for it (None when it is a valid
      IPv4 unicast address), and the addresses a DNS lookup of it yields, each
      already rendered as a string. */
  datatype AddressOracle = AddressOracle(
    unicastError: string -> Option<string>,
    lookup: string -> seq<string>)

  const ProtocolError := "only http, and https is supported"
  const PortError := "valid port range between 1 and 65535"

  /** The address the constructor has to resolve. */
  predicate Resolvable(ip: string, addr: AddressOracle)
  {
    addr.unicastError(ip).None? || |addr.lookup(ip)| >= 1
  }

  /** newNsoJsonRpcHTTPConnection: checks the protocol, then the address (a
      name that is not an IPv4 unicast address is looked up, and its first
      result used), then the port. */
  function NewHttpConnection(protocol: string, ip: string, port: int, username: string,
                             password: string, sslVerify: bool, addr: AddressOracle)
    : (r: Result<HttpConnection, string>)
    ensures r.Success? <==>
      (protocol == "http" || protocol == "https") && Resolvable(ip, addr) && 1 <= port <= 65535
    ensures r.Success? ==>
      && r.value.protocol == protocol && r.value.port == port
      && r.value.username == username && r.value.password == password
      && r.value.sslVerify == sslVerify && r.value.headers == JsonHeaders
    ensures r.Success? && addr.unicastError(ip).None? ==> r.value.ip == ip
    ensures r.Success? && addr.unicastError(ip).Some? ==> r.value.ip == addr.lookup(ip)[0]
  {
    if protocol != "http" && protocol != "https" then
      Failure(ProtocolError)
    else
      var err := addr.unicastError(ip);
      var found := addr.lookup(ip);
      if err.Some? && |found| == 0 then
        Failure(err.value)
      else
        var resolved := if err.Some? then found[0] else ip;
        if port < 1 || port > 65535 then
          Failure(PortError)
        else
          Success(HttpConnection(protocol, resolved, port, username, password, sslVerify, JsonHeaders))
  }

  /** Which error the constructor reports, in the order it checks. */
  lemma ConstructorErrorOrder(protocol: string, ip: string, port: int, username: string,
                              password: string, sslVerify: bool, addr: AddressOracle)
    ensures protocol != "http" && protocol != "https" ==>
      NewHttpConnection(protocol, ip, port, username, password, sslVerify, addr) == Failure(ProtocolError)
    ensures (protocol == "http" || protocol == "https") && addr.unicastError(ip).Some? && |addr.lookup(ip)| == 0 ==>
      NewHttpConnection(protocol, ip, port, username, password, sslVerify, addr)
        == Failure(addr.unicastError(ip).value)
    ensures (protocol == "http" || protocol == "https") && Resolvable(ip, addr) && (port < 1 || port > 65535) ==>
      NewHttpConnection(protocol, ip, port, username, password, sslVerify, addr) == Failure(PortError)
  {
  }

  /** The cases exercised by the package's tests: good parameters are stored
      as given, and each bad one is refused with its own message, the bad
      address taking precedence over a good port. */
  lemma ConstructorTestCases(addr: AddressOracle)
    requires addr.unicastError("192.168.1.1") == None
    requires addr.unicastError("192.168.1.1000") == Some("not a valid IPv4 address")
    requires addr.lookup("192.168.1.1000") == []
    ensures NewHttpConnection("http", "192.168.1.1", 8080, "admin", "admin", false, addr)
      == Success(HttpConnection("http", "192.168.1.1", 8080, "admin", "admin", false, JsonHeaders))
    ensures NewHttpConnection("https", "192.168.1.1", 443, "user", "pass", true, addr)
      == Success(HttpConnection("https", "192.168.1.1", 443, "user", "pass", true, JsonHeaders))
    ensures NewHttpConnection("ssh", "192.168.1.1", 8080, "admin", "admin", false, addr)
      == Failure("only http, and https is supported")
    ensures NewHttpConnection("https", "192.168.1.1000", 443, "user", "pass", true, addr)
      == Failure("not a valid IPv4 address")
    ensures NewHttpConnection("https", "192.168.1.1", 0, "user", "pass", true, addr)
      == Failure("valid port range between 1 and 65535")
    ensures NewHttpConnection("https", "192.168.1.1", 65536, "user", "pass", true, addr)
      == Failure("valid port range between 1 and 65535")
  {
  }

  /** NsoUrl: "<protocol>://<ip>:<port>/jsonrpc". */
  function NsoUrl(c: HttpConnection): string
  {
    c.protocol + "://" + c.ip + ":" + IntToDecimal(c.port) + "/jsonrpc"
  }

  /** For a valid port the URL carries the port's digits, which read back as
      the port and have no leading zero. */
  lemma NsoUrlPort(c: HttpConnection)
    requires 1 <= c.port <= 65535
    ensures exists digits: string ::
      && NsoUrl(c) == c.protocol + "://" + c.ip + ":" + digits + "/jsonrpc"
      && (forall k :: 0 <= k < |digits| ==> IsDigit(digits[k]))
      && ParseDecimal(digits) == c.port && digits[0] != '0'
  {
    var digits := NatToDecimal(c.port);
    DecimalRoundTrip(c.port);
    assert NsoUrl(c) == c.protocol + "://" + c.ip + ":" + digits + "/jsonrpc";
  }

  /** The URLs of the package's tests. */
  lemma NsoUrlHttpTestCase()
    ensures NsoUrl(HttpConnection("http", "192.168.1.1", 8080, "admin", "admin", false, JsonHeaders))
      == "http://192.168.1.1:8080/jsonrpc"
  {
    assert IntToDecimal(8080) == "8080" by {
      assert NatToDecimal(80) == "80" by {
        assert NatToDecimal(8) == "8";
      }
      assert NatToDecimal(808) == "808";
    }
    assert "http" + "://" + "192.168.1.1" == "http://192.168.1.1";
    assert "http://192.168.1.1" + ":" + "8080" == "http://192.168.1.1:8080";
  }

  lemma NsoUrlHttpsTestCase()
    ensures NsoUrl(HttpConnection("https", "192.168.1.1", 443, "user", "pass", true, JsonHeaders))
      == "https://192.168.1.1:443/jsonrpc"
  {
    assert IntToDecimal(443) == "443" by {
      assert NatToDecimal(44) == "44" by {
        assert NatToDecimal(4) == "4";
      }
    }
    assert "https" + "://" + "192.168.1.1" == "https://192.168.1.1";
    assert "https://192.168.1.1" + ":" + "443" == "https://192.168.1.1:443";
  }

  /** The HTTP client (req.Req); only its TLS setting is visible. */
  class Requester {
    var insecureTLS: bool

    /** req.New(): certificates are verified. */
    constructor()
      ensures !insecureTLS
    {
      insecureTLS := false;
    }
  }

  /** nsoJsonConnection. `log` records every request sent through it. */
  class JsonConnection {
    var request: Requester?
    const id: int
    var th: int
    const nsocon: HttpConnection
    ghost var log: seq<Request>

    /** The request id lies in [1, 65000] and every request sent carries it. */
    ghost predicate Valid()
      reads this
    {
      && 1 <= id <= 65000
      && forall k :: 0 <= k < |log| ==> log[k].id == id
    }

    /** `draw` is the value rand.Intn(65000) returned. */
    constructor(nsocon: HttpConnection, draw: int)
      requires 0 <= draw < 65000
      ensures Valid()
      ensures this.nsocon == nsocon && id == draw + 1
      ensures request == null && th == 0 && log == []
    {
      this.nsocon := nsocon;
      id := draw + 1;
      request := null;
      th := 0;
      log := [];
    }

    /** newNsoJsonConnection: the constructor's error, unchanged, or a new
        connection with a fresh request id. */
    static method New(protocol: string, ip: string, port: int, username: string, password: string,
                      sslVerify: bool, addr: AddressOracle, draw: int)
      returns (r: Result<JsonConnection, string>)
      requires 0 <= draw < 65000
      ensures var c := NewHttpConnection(protocol, ip, port, username, password, sslVerify, addr);
        c.Failure? ==> r == Failure(c.error)
      ensures var c := NewHttpConnection(protocol, ip, port, username, password, sslVerify, addr);
        c.Success? ==> r.Success? && fresh(r.value) && r.value.nsocon == c.value
      ensures r.Success? ==>
        && r.value.Valid() && r.value.id == draw + 1
        && r.value.request == null && r.value.th == 0 && r.value.log == []
    {
      var c := NewHttpConnection(protocol, ip, port, username, password, sslVerify, addr);
      if c.Failure? {
        return Failure(c.error);
      }
      var conn := new JsonConnection(c.value, draw);
      return Success(conn);
    }

    /** sendPost: sets certificate checking from sslVerify, then posts the
        request for `c`; the server's `reply` is what comes back. */
    method SendPost(c: Call, reply: Reply) returns (body: Body, err: Option<string>)
      requires Valid() && request != null
      modifies this`log, request
      ensures Valid()
      ensures log == old(log) + [Wire(id, c)]
      ensures request.insecureTLS == !nsocon.sslVerify
      ensures body == reply.Body() && err == reply.Error()
    {
      if nsocon.sslVerify {
        request.insecureTLS := false;
      } else {
        request.insecureTLS := true;
      }
      log := log + [Wire(id, c)];
      body := reply.Body();
      err := reply.Error();
    }

    /** Login with the given credentials: a new requester, then a login call. */
    method LoginWith(user: string, passwd: string, reply: Reply) returns (err: Option<string>)
      requires Valid()
      modifies this
      ensures Valid()
      ensures fresh(request) && request.insecureTLS == !nsocon.sslVerify
      ensures th == old(th)
      ensures log == old(log) + [Wire(id, Call.Login(user, passwd))]
      ensures err == reply.Error()
    {
      request := new Requester();
      var _, e := SendPost(Call.Login(user, passwd), reply);
      err := e;
    }

    /** NsoLogin: login with the stored credentials. */
    method NsoLogin(reply: Reply) returns (err: Option<string>)
      requires Valid()
      modifies this
      ensures Valid()
      ensures fresh(request) && request.insecureTLS == !nsocon.sslVerify
      ensures th == old(th)
      ensures log == old(log) + [Wire(id, Call.Login(nsocon.username, nsocon.password))]
      ensures err == reply.Error()
    {
      err := LoginWith(nsocon.username, nsocon.password, reply);
    }

    /** NsoLogout: the send error is ignored; what is returned is the error of
        closing the response body, `closeError`. */
    method NsoLogout(reply: Reply, closeError: Option<string>) returns (err: Option<string>)
      requires Valid() && request != null
      modifies this`log, request
      ensures Valid() && request.insecureTLS == !nsocon.sslVerify
      ensures log == old(log) + [Wire(id, Call.Logout)]
      ensures err == closeError
    {
      var _, _ := SendPost(Call.Logout, reply);
      err := closeError;
    }

    /** NewTransaction: on a send error `th` is kept; otherwise it becomes the
        "th" of the result, or 0 when there is none. */
    method NewTransaction(mode: string, confMode: string, tag: string, onPendingChanges: string,
                          reply: Reply)
      returns (err: Option<string>)
      requires Valid() && request != null
      modifies this`log, this`th, request
      ensures Valid() && request.insecureTLS == !nsocon.sslVerify
      ensures log == old(log) + [Wire(id, Call.NewTrans(mode, confMode, tag, onPendingChanges))]
      ensures err == reply.Error()
      ensures reply.TransportError? ==> th == old(th)
      ensures reply.Delivered? ==> th == Response.HandleOf(reply.body, "th")
    {
      var body, e := SendPost(Call.NewTrans(mode, confMode, tag, onPendingChanges), reply);
      if e.Some? {
        return e;
      }
      var response := new Response.NsoJsonResponse();
      th := response.GetTransactionHandle(body);
      err := None;
    }

    /** GetTransaction: lists the transactions. */
    method GetTransaction(reply: Reply) returns (body: Body, err: Option<string>)
      requires Valid() && request != null
      modifies this`log, request
      ensures Valid() && request.insecureTLS == !nsocon.sslVerify
      ensures log == old(log) + [Wire(id, Call.GetTrans)]
      ensures body == reply.Body() && err == reply.Error()
    {
      body, err := SendPost(Call.GetTrans, reply);
    }

    /** GetSystemSetting: reads one system setting. */
    method GetSystemSetting(operation: string, reply: Reply) returns (body: Body, err: Option<string>)
      requires Valid() && request != null
      modifies this`log, request
      ensures Valid() && request.insecureTLS == !nsocon.sslVerify
      ensures log == old(log) + [Wire(id, Call.GetSystemSetting(operation))]
      ensures body == reply.Body() && err == reply.Error()
    {
      body, err := SendPost(Call.GetSystemSetting(operation), reply);
    }

    /** Abort: aborts the request with id `requestId`. */
    method Abort(requestId: int, reply: Reply) returns (body: Body, err: Option<string>)
      requires Valid() && request != null
      modifies this`log, request
      ensures Valid() && request.insecureTLS == !nsocon.sslVerify
      ensures log == old(log) + [Wire(id, Call.Abort(requestId))]
      ensures body == reply.Body() && err == reply.Error()
    {
      body, err := SendPost(Call.Abort(requestId), reply);
    }

    /** EvalXPATH: evaluates an expression in the current transaction. */
    method EvalXPATH(xpathExpression: string, reply: Reply) returns (body: Body, err: Option<string>)
      requires Valid() && request != null
      modifies this`log, request
      ensures Valid() && request.insecureTLS == !nsocon.sslVerify
      ensures log == old(log) + [Wire(id, Call.EvalXPath(th, xpathExpression))]
      ensures body == reply.Body() && err == reply.Error()
    {
      body, err := SendPost(Call.EvalXPath(th, xpathExpression), reply);
    }
  }
}
