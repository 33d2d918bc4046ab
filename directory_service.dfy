/**
 * The client of the Wio directory service (WioLinkService/WioLinkService.cs).
 *
 * HTTP transport and JSON decoding are not modelled: every response is given
 * as the record the deserializer produced, `None` standing for a body that
 * decoded to null. What is modelled is the request each operation sends
 * (verb, endpoint, form fields, authorization header), the rule by which each
 * operation accepts or rejects its decoded response, and the client's one
 * piece of mutable state, the authorization header set by `SetToken`.
 */
module DirectoryService {
  import opened Wrappers

  // Board names and the placeholder node name the service exposes.
  const BoardWioLink1_0: string := "Wio Link v1.0"
  const BoardWioNode1_0: string := "Wio Node v1.0"
  const TemporaryNodeName: string := "node000"

  // Endpoint paths, relative to the server base URL.
  const LoginPath: string := "/v1/user/login"
  const CreatePath: string := "/v1/nodes/create"
  const ListPath: string := "/v1/nodes/list"
  const RenamePath: string := "/v1/nodes/rename"
  const DeletePath: string := "/v1/nodes/delete"

  /** `string.IsNullOrEmpty` negated. */
  predicate NonEmpty(s: Option<string>)
  {
    s.Some? && s.value != ""
  }

  // ---------------------------------------------------------------------
  // Decoded responses

  datatype LoginResponse = LoginResponse(error: Option<string>, token: Option<string>, userId: Option<string>)

  datatype CreateNodeResponse = CreateNodeResponse(error: Option<string>, nodeKey: Option<string>, nodeSn: Option<string>)

  datatype Node = Node(name: string, nodeKey: string, nodeSn: string, dataxserver: Option<string>, board: string, online: bool)

  datatype NodeListResponse = NodeListResponse(error: Option<string>, nodes: Option<seq<Node>>)

  /** The body of rename and delete replies. */
  datatype ResultResponse = ResultResponse(error: Option<string>, result: Option<string>)

  /**
   * What an operation makes of its decoded response: it returns a value, or
   * it throws an `ApplicationException` whose message may be null.
   */
  datatype Reply<+T> = Accepted(value: T) | Rejected(message: Option<string>)

  /** The check at the end of `UserLoginAsync`. */
  function CheckLogin(response: Option<LoginResponse>): (r: Reply<LoginResponse>)
    ensures r.Accepted? <==>
      response.Some? && response.value.error.None?
      && NonEmpty(response.value.token) && NonEmpty(response.value.userId)
    ensures r.Accepted? ==> r.value == response.value
    ensures r.Rejected? ==> r.message == (if response.Some? then response.value.error else None)
  {
    match response
    case None => Rejected(None)
    case Some(resp) =>
      if resp.error.None? && NonEmpty(resp.token) && NonEmpty(resp.userId) then Accepted(resp)
      else Rejected(resp.error)
  }

  /** The check at the end of `CreateNodeAsync`. */
  function CheckCreate(response: Option<CreateNodeResponse>): (r: Reply<CreateNodeResponse>)
    ensures r.Accepted? <==>
      response.Some? && response.value.error.None?
      && NonEmpty(response.value.nodeKey) && NonEmpty(response.value.nodeSn)
    ensures r.Accepted? ==> r.value == response.value
    ensures r.Rejected? ==> r.message == (if response.Some? then response.value.error else None)
  {
    match response
    case None => Rejected(None)
    case Some(resp) =>
      if resp.error.None? && NonEmpty(resp.nodeKey) && NonEmpty(resp.nodeSn) then Accepted(resp)
      else Rejected(resp.error)
  }

  /** The check at the end of `ListAllNodesOfUserAsync`: an accepted listing always has a node list. */
  function CheckList(response: Option<NodeListResponse>): (r: Reply<NodeListResponse>)
    ensures r.Accepted? <==> response.Some? && response.value.error.None? && response.value.nodes.Some?
    ensures r.Accepted? ==> r.value == response.value && r.value.nodes.Some?
    ensures r.Rejected? ==> r.message == (if response.Some? then response.value.error else None)
  {
    match response
    case None => Rejected(None)
    case Some(resp) =>
      if resp.error.None? && resp.nodes.Some? then Accepted(resp) else Rejected(resp.error)
  }

  /**
   * The check shared by `RenameNodeAsync` and `DeleteNodeAsync`: the reply
   * must carry no error and the result "ok"; the exception carries the error
   * when there is one and the result otherwise.
   */
  function CheckResult(response: Option<ResultResponse>): (r: Reply<()>)
    ensures r.Accepted? <==> response.Some? && response.value.error.None? && response.value.result == Some("ok")
    ensures r.Rejected? && response.Some? && response.value.error.Some? ==> r.message == response.value.error
    ensures r.Rejected? && response.Some? && response.value.error.None? ==>
      r.message == response.value.result && r.message != Some("ok")
    ensures r.Rejected? && response.None? ==> r.message.None?
  {
    match response
    case None => Rejected(None)
    case Some(resp) =>
      if resp.error.None? && resp.result == Some("ok") then Accepted(())
      else if resp.error.Some? then Rejected(resp.error)
      else Rejected(resp.result)
  }

  // ---------------------------------------------------------------------
  // Requests

  datatype Verb = Get | Post

  /** An `AuthenticationHeaderValue`: a scheme and its parameter. */
  datatype AuthHeader = AuthHeader(scheme: string, parameter: string)

  datatype HttpRequest = HttpRequest(
    verb: Verb,
    url: string,
    form: seq<(string, string)>,
    authorization: Option<AuthHeader>)

  /** The five calls the client can make, with their arguments. */
  datatype Operation =
    | UserLogin(email: string, password: string)
    | CreateNode(name: string, board: string)
    | ListNodes
    | RenameNode(nodeSn: string, newName: string)
    | DeleteNode(nodeSn: string)

  function Path(op: Operation): string
  {
    match op
    case UserLogin(_, _) => LoginPath
    case CreateNode(_, _) => CreatePath
    case ListNodes => ListPath
    case RenameNode(_, _) => RenamePath
    case DeleteNode(_) => DeletePath
  }

  /** The form fields, in the order the source's dictionary initialisers list them. */
  function Form(op: Operation): seq<(string, string)>
  {
    match op
    case UserLogin(email, password) => [("email", email), ("password", password)]
    case CreateNode(name, board) => [("name", name), ("board", board)]
    case ListNodes => []
    case RenameNode(sn, name) => [("node_sn", sn), ("name", name)]
    case DeleteNode(sn) => [("node_sn", sn)]
  }

  /** The request a client with base URL `base` and header `auth` sends for `op`. */
  function RequestOf(base: string, auth: Option<AuthHeader>, op: Operation): (req: HttpRequest)
    ensures base + "/v1/" <= req.url
  {
    HttpRequest(if op.ListNodes? then Get else Post, base + Path(op), Form(op), auth)
  }

  /**
   * Reads back which operation a request is, from its URL, verb and form;
   * `None` for anything the client does not send.
   */
  function OperationOf(base: string, req: HttpRequest): Option<Operation>
  {
    if !(base <= req.url) then None
    else
      var path, form := req.url[|base|..], req.form;
      if req.verb == Get then
        if path == ListPath && form == [] then Some(ListNodes) else None
      else if path == LoginPath && |form| == 2 && form[0].0 == "email" && form[1].0 == "password" then
        Some(UserLogin(form[0].1, form[1].1))
      else if path == CreatePath && |form| == 2 && form[0].0 == "name" && form[1].0 == "board" then
        Some(CreateNode(form[0].1, form[1].1))
      else if path == RenamePath && |form| == 2 && form[0].0 == "node_sn" && form[1].0 == "name" then
        Some(RenameNode(form[0].1, form[1].1))
      else if path == DeletePath && |form| == 1 && form[0].0 == "node_sn" then
        Some(DeleteNode(form[0].1))
      else None
  }

  /** Every request names its operation unambiguously: endpoints and field names tell them apart. */
  lemma RequestRoundTrip(base: string, auth: Option<AuthHeader>, op: Operation)
    ensures OperationOf(base, RequestOf(base, auth, op)) == Some(op)
  {
    var req := RequestOf(base, auth, op);
    assert req.url[|base|..] == Path(op);
  }

  /** Two different operations never produce the same request. */
  lemma RequestsDistinct(base: string, auth: Option<AuthHeader>, op1: Operation, op2: Operation)
    requires op1 != op2
    ensures RequestOf(base, auth, op1) != RequestOf(base, auth, op2)
  {
    RequestRoundTrip(base, auth, op1);
    RequestRoundTrip(base, auth, op2);
  }

  /** The header `SetToken` installs for a token: scheme "token", or none at all for null. */
  function TokenHeader(token: Option<string>): (h: Option<AuthHeader>)
    ensures h.Some? <==> token.Some?
    ensures h.Some? ==> h.value.scheme == "token" && h.value.parameter == token.value
  {
    match token
    case None => None
    case Some(t) => Some(AuthHeader("token", t))
  }

  /** A `WioLinkService`: a fixed server base URL and a mutable authorization header. */
  class DirectoryClient {
    const baseUrl: string
    var authorization: Option<AuthHeader>

    constructor (wioLinkServer: string)
      ensures baseUrl == wioLinkServer && authorization.None?
    {
      baseUrl := wioLinkServer;
      authorization := None;
    }

    /** Replaces the authorization header; nothing else changes. */
    method SetToken(token: Option<string>)
      modifies this
      ensures authorization == TokenHeader(token)
    {
      authorization := TokenHeader(token);
    }

    /** The request this client sends now for `op`. */
    function Request(op: Operation): (req: HttpRequest)
      reads this
      ensures OperationOf(baseUrl, req) == Some(op)
      ensures req.authorization == authorization
    {
      RequestRoundTrip(baseUrl, authorization, op);
      RequestOf(baseUrl, authorization, op)
    }
  }
}
