/**
  The GIB e-Arsiv portal client: the login state machine over the session
  token, the seven invoice operations in the portal's command vocabulary, and
  the rule that every operation except login turns a transport failure into
  an empty or negative result.

  The portal behind the session is the client's `serve` function: it maps
  each request, given the requests sent before it, to a failure or a decoded
  JSON reply. Each command carries a fresh
  correlation id (`callid`), which callers pass in.
 */
module GibEarsiv {

  import opened Wire
  import opened Text
  import opened Dates

  const TestBaseUrl: string := "https://earsivportaltest.efatura.gov.tr"
  const ProductionBaseUrl: string := "https://earsivportal.efatura.gov.tr"

  const TokenEndpoint: string := "/earsiv-services/assos-login"
  const InvoicesEndpoint: string := "/earsiv-services/portal/getUserInvoiceData"
  const InvoiceHtmlEndpoint: string := "/earsiv-services/portal/getInvoiceView"
  const DownloadEndpoint: string := "/earsiv-services/download"
  const CreateDraftEndpoint: string := "/earsiv-services/portal/createDraftInvoice"
  const SignEndpoint: string := "/earsiv-services/portal/signDraftInvoice"
  const CancelEndpoint: string := "/earsiv-services/portal/cancelDraftInvoice"

  const UnknownAuthError: string := "Unknown authentication error"
  const DownloadSuffix: string := "&belgeTip=FATURA&onayDurumu=Onaylandı&cmd=EARSIV_PORTAL_BELGE_INDIR"

  /** `BASE_URLS.get(environment, BASE_URLS["test"])`. */
  function BaseUrlFor(environment: string): (url: string)
    ensures url == ProductionBaseUrl <==> environment == "production"
    ensures url == TestBaseUrl <==> environment != "production"
  {
    var hosts := map["test" := TestBaseUrl, "production" := ProductionBaseUrl];
    if environment in hosts then hosts[environment] else hosts["test"]
  }

  /** `if not self.token`: a token is held when it is set and non-empty. */
  predicate HasToken(token: Option<string>) {
    token.Some? && token.value != ""
  }

  /** The token as it goes into a payload: `None` becomes JSON null. */
  function TokenValue(token: Option<string>): Value {
    match token
    case None => Null
    case Some(t) => Str(t)
  }

  /** The token as an f-string renders it. */
  function TokenText(token: Option<string>): string {
    match token
    case None => "None"
    case Some(t) => t
  }

  function LoginRequest(username: string, password: string): Request {
    Request(TokenEndpoint, map[
      "assoscmd" := Str("anologin"), "rtype" := Str("json"), "userid" := Str(username),
      "sifre" := Str(password), "sifre2" := Str(password), "parola" := Str("1")])
  }

  /** A command payload: command name, correlation id, page name, token and the nested `jp` object. */
  function Command(endpoint: string, cmd: string, page: string, token: Option<string>, callId: string, jp: Value): Request {
    Request(endpoint, map[
      "cmd" := Str(cmd), "callid" := Str(callId), "pageName" := Str(page),
      "token" := TokenValue(token), "jp" := jp])
  }

  function ListRequest(token: Option<string>, callId: string, from: string, to: string): Request {
    Command(InvoicesEndpoint, "EARSIV_PORTAL_TASLAKLARI_GETIR", "RG_BASITFATURA", token, callId,
      Obj(map["baslangic" := Str(from), "bitis" := Str(to), "hangiTip" := Str("5000/30000")]))
  }

  function ViewRequest(token: Option<string>, callId: string, invoiceUuid: string): Request {
    Command(InvoiceHtmlEndpoint, "EARSIV_PORTAL_FATURA_GOSTER", "RG_TASLAKLAR", token, callId,
      Obj(map["ettn" := Str(invoiceUuid)]))
  }

  function CreateDraftRequest(token: Option<string>, callId: string, invoiceData: map<string, Value>): Request {
    Command(CreateDraftEndpoint, "EARSIV_PORTAL_FATURA_OLUSTUR", "RG_BASITFATURA", token, callId, Obj(invoiceData))
  }

  function SignRequest(token: Option<string>, callId: string, invoiceUuid: Value): Request {
    Command(SignEndpoint, "EARSIV_PORTAL_FATURA_IMZALA", "RG_TASLAKLAR", token, callId,
      Obj(map["imzalanacaklar" := Arr([invoiceUuid])]))
  }

  function CancelRequest(token: Option<string>, callId: string, invoiceUuid: string, reason: string): Request {
    Command(CancelEndpoint, "EARSIV_PORTAL_FATURA_SIL", "RG_TASLAKLAR", token, callId,
      Obj(map["silinecekler" := Arr([Str(invoiceUuid)]), "aciklama" := Str(reason)]))
  }

  /** The `token` field of a login reply; a missing or null field leaves the token unset. */
  function TokenIn(body: map<string, Value>): Option<string> {
    match Get(body, "token", Null)
    case Str(t) => Some(t)
    case _ => None
  }

  /**
    The outcome of one login exchange: the new token when the reply carries a
    truthy `userid`, otherwise the exception `get_token` raises.
   */
  function LoginOutcome(reply: Exchange): (r: Result<Option<string>>)
    ensures r.Ok? <==> reply.Reply? && Truthy(Get(reply.body, "userid", Null))
    ensures r.Ok? ==> r.value == TokenIn(reply.body)
    ensures reply.Failed? ==> r == Raised(TransportFailure)
    ensures reply.Reply? && r.Raised? ==>
      r.failure == AuthenticationFailed(Get(reply.body, "error", Str(UnknownAuthError)))
  {
    match reply
    case Failed => Raised(TransportFailure)
    case Reply(body) =>
      if Truthy(Get(body, "userid", Null)) then Ok(TokenIn(body))
      else Raised(AuthenticationFailed(Get(body, "error", Str(UnknownAuthError))))
  }

  /** `ensure_token`: keep a held token, otherwise log in with the given reply. */
  function Authorize(held: Option<string>, loginReply: Exchange): (r: Result<Option<string>>)
    ensures HasToken(held) ==> r == Ok(held)
    ensures r.Raised? ==> !HasToken(held) && (loginReply == Failed || (loginReply.Reply? && !Truthy(Get(loginReply.body, "userid", Null))))
    ensures !HasToken(held) && loginReply.Reply? && Truthy(Get(loginReply.body, "userid", Null)) ==> r == Ok(TokenIn(loginReply.body))
    ensures !HasToken(held) ==> r == LoginOutcome(loginReply)
  {
    if HasToken(held) then Ok(held) else LoginOutcome(loginReply)
  }

  /** The token after `ensure_token`: a failed login leaves it as it was. */
  function TokenAfter(held: Option<string>, auth: Result<Option<string>>): Option<string> {
    if auth.Ok? then auth.value else held
  }

  /** `data[:limit]` on a truthy `data`: a list is cut, a string is cut and iterates by character, anything else makes Python raise `TypeError`, which `get_invoices` catches. */
  function SliceData(data: Value, limit: int): (r: seq<Value>)
    ensures data.Arr? ==> r == Prefix(data.items, limit)
    ensures data.Str? ==> |r| == |Prefix(data.s, limit)|
    ensures data.Str? ==> forall i :: 0 <= i < |r| ==> r[i] == Str([Prefix(data.s, limit)[i]])
    ensures !data.Arr? && !data.Str? ==> r == []
  {
    match data
    case Arr(items) => Prefix(items, limit)
    case Str(s) =>
      var p := Prefix(s, limit);
      seq(|p|, i requires 0 <= i < |p| => Str([p[i]]))
    case _ => []
  }

  /** The records `get_invoices` returns for one reply to the listing command. */
  function InvoicesFrom(reply: Exchange, limit: int): (r: seq<Value>)
    ensures reply.Failed? ==> r == []
    ensures reply.Reply? && !Truthy(Get(reply.body, "data", Null)) ==> r == []
    ensures reply.Reply? && Get(reply.body, "data", Null).Arr? ==>
      r <= Get(reply.body, "data", Null).items
    ensures reply.Reply? && Truthy(Get(reply.body, "data", Null)) ==> r == SliceData(Get(reply.body, "data", Null), limit)
    ensures reply.Reply? && Get(reply.body, "data", Null).Arr? && Truthy(Get(reply.body, "data", Null)) ==>
      r == Prefix(Get(reply.body, "data", Null).items, limit)
    ensures limit >= 0 ==> |r| <= limit
  {
    match reply
    case Failed => []
    case Reply(body) =>
      var data := Get(body, "data", Null);
      if Truthy(data) then SliceData(data, limit) else []
  }

  /** `response["data"]` when the reply carries a truthy `data` field. */
  function DataOf(reply: Exchange): (r: Option<Value>)
    ensures r.Some? <==> reply.Reply? && Truthy(Get(reply.body, "data", Null))
    ensures r.Some? ==> r.value == reply.body["data"]
  {
    if reply.Reply? && Truthy(Get(reply.body, "data", Null)) then Some(reply.body["data"]) else None
  }

  /** The listing command for two date bounds; none when `strptime` rejects either bound. */
  function ListCall(token: Option<string>, callId: string, startDate: string, endDate: string): (r: Option<Request>)
    ensures r.Some? <==> ParseIsoDate(startDate).Some? && ParseIsoDate(endDate).Some?
    ensures r.Some? ==> r.value == ListRequest(token, callId, ReformatDate(startDate).value, ReformatDate(endDate).value)
  {
    var from, to := ReformatDate(startDate), ReformatDate(endDate);
    if from.Some? && to.Some? then Some(ListRequest(token, callId, from.value, to.value)) else None
  }

  /**
    `get_invoices` after `ensure_token`: a login failure or a malformed date
    raises; everything after the request degrades to an empty list.
   */
  function FetchInvoices(net: Request -> Exchange, auth: Result<Option<string>>, startDate: string, endDate: string, limit: int, callId: string): (r: Result<seq<Value>>)
    ensures r.Raised? <==> auth.Raised? || ParseIsoDate(startDate).None? || ParseIsoDate(endDate).None?
    ensures auth.Raised? ==> r == Raised(auth.failure)
    ensures r.Raised? && auth.Ok? ==> r.failure == InvalidDate(startDate) || r.failure == InvalidDate(endDate)
    ensures r.Ok? ==> r.value == InvoicesFrom(net(ListCall(auth.value, callId, startDate, endDate).value), limit)
    ensures r.Ok? && limit >= 0 ==> |r.value| <= limit
  {
    if auth.Raised? then Raised(auth.failure)
    else if ParseIsoDate(startDate).None? then Raised(InvalidDate(startDate))
    else if ParseIsoDate(endDate).None? then Raised(InvalidDate(endDate))
    else Ok(InvoicesFrom(net(ListCall(auth.value, callId, startDate, endDate).value), limit))
  }

  /** The request `get_invoices` sends after `ensure_token`, if it gets that far. */
  function ListTrace(auth: Result<Option<string>>, startDate: string, endDate: string, callId: string): seq<Request> {
    if auth.Ok? && ListCall(auth.value, callId, startDate, endDate).Some? then
      [ListCall(auth.value, callId, startDate, endDate).value]
    else []
  }

  /** The record tested by `find_invoice` is selected by the UUID or the number it is given. */
  predicate Matches(record: Value, invoiceNumber: Option<string>, invoiceUuid: Option<string>) {
    && record.Obj?
    && ((Given(invoiceUuid) && Get(record.fields, "ettn", Null) == Str(invoiceUuid.value))
        || (Given(invoiceNumber) && Get(record.fields, "belgeNumarasi", Null) == Str(invoiceNumber.value)))
  }

  /**
    The loop of `find_invoice`: per record, the UUID test and then the number
    test; `.get` on an element that is not an object raises.
   */
  function FirstMatch(records: seq<Value>, invoiceNumber: Option<string>, invoiceUuid: Option<string>): Result<Option<Value>>
  {
    if records == [] then Ok(None)
    else
      var record := records[0];
      if Given(invoiceUuid) && !record.Obj? then Raised(NotARecord)
      else if Given(invoiceUuid) && Get(record.fields, "ettn", Null) == Str(invoiceUuid.value) then Ok(Some(record))
      else if Given(invoiceNumber) && !record.Obj? then Raised(NotARecord)
      else if Given(invoiceNumber) && Get(record.fields, "belgeNumarasi", Null) == Str(invoiceNumber.value) then Ok(Some(record))
      else FirstMatch(records[1..], invoiceNumber, invoiceUuid)
  }

  /**
    What `find_invoice` finds: the first matching record in fetched order, or
    none when no record matches; with neither key given nothing is looked at.
   */
  lemma {:induction false} FirstMatchSpec(records: seq<Value>, invoiceNumber: Option<string>, invoiceUuid: Option<string>)
    ensures var r := FirstMatch(records, invoiceNumber, invoiceUuid);
      && (r.Ok? && r.value.Some? ==>
            exists i :: 0 <= i < |records| && records[i] == r.value.value && Matches(records[i], invoiceNumber, invoiceUuid)
                        && forall j :: 0 <= j < i ==> !Matches(records[j], invoiceNumber, invoiceUuid))
      && (r == Ok(None) ==> forall i :: 0 <= i < |records| ==> !Matches(records[i], invoiceNumber, invoiceUuid))
      && (r.Raised? ==> r.failure == NotARecord && exists i :: 0 <= i < |records| && !records[i].Obj?)
      && ((forall i :: 0 <= i < |records| ==> records[i].Obj?) ==> r.Ok?)
      && (!Given(invoiceNumber) && !Given(invoiceUuid) ==> r == Ok(None))
  {
    if records != [] {
      var rest := records[1..];
      var head := records[0];
      var r := FirstMatch(records, invoiceNumber, invoiceUuid);
      FirstMatchSpec(rest, invoiceNumber, invoiceUuid);
      assert forall i :: 0 <= i < |rest| ==> rest[i] == records[i + 1];
      if (Given(invoiceUuid) || Given(invoiceNumber)) && !head.Obj? {
        assert r == Raised(NotARecord);
      } else if Matches(head, invoiceNumber, invoiceUuid) {
        assert r == Ok(Some(head));
      } else {
        assert r == FirstMatch(rest, invoiceNumber, invoiceUuid);
        if r.Ok? && r.value.Some? {
          var i :| 0 <= i < |rest| && rest[i] == r.value.value && Matches(rest[i], invoiceNumber, invoiceUuid)
                   && forall j :: 0 <= j < i ==> !Matches(rest[j], invoiceNumber, invoiceUuid);
          assert records[i + 1] == rest[i];
          forall j | 0 <= j < i + 1 ensures !Matches(records[j], invoiceNumber, invoiceUuid) {
            if j > 0 { assert records[j] == rest[j - 1]; }
          }
        } else if r.Raised? {
          var i :| 0 <= i < |rest| && !rest[i].Obj?;
          assert records[i + 1] == rest[i];
        } else {
          forall i | 0 <= i < |records| ensures !Matches(records[i], invoiceNumber, invoiceUuid) {
            if i > 0 { assert records[i] == rest[i - 1]; }
          }
        }
      }
    }
  }

  /** The `for` loop of `find_invoice`, with its early returns. */
  method ScanInvoices(records: seq<Value>, invoiceNumber: Option<string>, invoiceUuid: Option<string>) returns (r: Result<Option<Value>>)
    ensures r == FirstMatch(records, invoiceNumber, invoiceUuid)
  {
    var i := 0;
    while i < |records|
      invariant 0 <= i <= |records|
      invariant FirstMatch(records[i..], invoiceNumber, invoiceUuid) == FirstMatch(records, invoiceNumber, invoiceUuid)
    {
      var invoice := records[i];
      assert records[i..][1..] == records[i + 1..];
      if Given(invoiceUuid) {
        if !invoice.Obj? { return Raised(NotARecord); }
        if Get(invoice.fields, "ettn", Null) == Str(invoiceUuid.value) { return Ok(Some(invoice)); }
      }
      if Given(invoiceNumber) {
        if !invoice.Obj? { return Raised(NotARecord); }
        if Get(invoice.fields, "belgeNumarasi", Null) == Str(invoiceNumber.value) { return Ok(Some(invoice)); }
      }
      i := i + 1;
    }
    r := Ok(None);
  }

  /** `find_invoice`: the listing's outcome, then the scan. */
  function FindOutcome(fetched: Result<seq<Value>>, invoiceNumber: Option<string>, invoiceUuid: Option<string>): (r: Result<Option<Value>>)
    ensures fetched.Raised? ==> r == Raised(fetched.failure)
    ensures fetched.Ok? ==> r == FirstMatch(fetched.value, invoiceNumber, invoiceUuid)
  {
    match fetched
    case Raised(f) => Raised(f)
    case Ok(records) => FirstMatch(records, invoiceNumber, invoiceUuid)
  }

  /** `get_invoice_html` after `ensure_token`: the `data` of the reply, none on failure. */
  function ViewOutcome(net: Request -> Exchange, auth: Result<Option<string>>, invoiceUuid: string, callId: string): (r: Result<Option<Value>>)
    ensures r.Raised? <==> auth.Raised?
    ensures r.Ok? ==> r.value == DataOf(net(ViewRequest(auth.value, callId, invoiceUuid)))
    ensures r.Ok? && r.value.Some? ==> Truthy(r.value.value)
  {
    if auth.Raised? then Raised(auth.failure) else Ok(DataOf(net(ViewRequest(auth.value, callId, invoiceUuid))))
  }

  /** `create_draft_invoice` after `ensure_token`: the new invoice's id, none on failure. */
  function CreateOutcome(net: Request -> Exchange, auth: Result<Option<string>>, invoiceData: map<string, Value>, callId: string): (r: Result<Option<Value>>)
    ensures r.Raised? <==> auth.Raised?
    ensures r.Ok? ==> r.value == DataOf(net(CreateDraftRequest(auth.value, callId, invoiceData)))
    ensures r.Ok? && r.value.Some? ==> Truthy(r.value.value)
  {
    if auth.Raised? then Raised(auth.failure) else Ok(DataOf(net(CreateDraftRequest(auth.value, callId, invoiceData))))
  }

  /** `sign_draft_invoice` after `ensure_token`: true exactly when the reply carries truthy `data`. */
  function SignOutcome(net: Request -> Exchange, auth: Result<Option<string>>, invoiceUuid: Value, callId: string): (r: Result<bool>)
    ensures r.Raised? <==> auth.Raised?
    ensures r.Ok? ==> (r.value <==> net(SignRequest(auth.value, callId, invoiceUuid)).Reply? && Truthy(Get(net(SignRequest(auth.value, callId, invoiceUuid)).body, "data", Null)))
  {
    if auth.Raised? then Raised(auth.failure) else Ok(DataOf(net(SignRequest(auth.value, callId, invoiceUuid))).Some?)
  }

  /** `cancel_draft_invoice` after `ensure_token`: true exactly when the reply carries truthy `data`. */
  function CancelOutcome(net: Request -> Exchange, auth: Result<Option<string>>, invoiceUuid: string, reason: string, callId: string): (r: Result<bool>)
    ensures r.Raised? <==> auth.Raised?
    ensures r.Ok? ==> (r.value <==> net(CancelRequest(auth.value, callId, invoiceUuid, reason)).Reply? && Truthy(Get(net(CancelRequest(auth.value, callId, invoiceUuid, reason)).body, "data", Null)))
  {
    if auth.Raised? then Raised(auth.failure) else Ok(DataOf(net(CancelRequest(auth.value, callId, invoiceUuid, reason))).Some?)
  }

  /** The download link for an invoice: a pure concatenation, no request involved. */
  function DownloadUrl(baseUrl: string, token: Option<string>, invoiceUuid: string): (url: string)
    ensures baseUrl + DownloadEndpoint + "?token=" + TokenText(token) <= url
    ensures |url| == |baseUrl + DownloadEndpoint + "?token=" + TokenText(token)| + 6 + |invoiceUuid| + |DownloadSuffix|
    ensures url[|url| - |DownloadSuffix| - |invoiceUuid| - 6..] == "&ettn=" + invoiceUuid + DownloadSuffix
  {
    var head := baseUrl + DownloadEndpoint + "?token=" + TokenText(token);
    var tail := "&ettn=" + invoiceUuid + DownloadSuffix;
    assert |tail| == 6 + |invoiceUuid| + |DownloadSuffix|;
    assert (head + tail)[|head|..] == tail;
    head + tail
  }

  /** Two invoices never share a download link under the same base and token. */
  lemma DownloadUrlInjective(baseUrl: string, token: Option<string>, u1: string, u2: string)
    requires DownloadUrl(baseUrl, token, u1) == DownloadUrl(baseUrl, token, u2)
    ensures u1 == u2
  {
    var head := baseUrl + DownloadEndpoint + "?token=" + TokenText(token) + "&ettn=";
    var a, b := DownloadUrl(baseUrl, token, u1), DownloadUrl(baseUrl, token, u2);
    assert a == head + u1 + DownloadSuffix;
    assert b == head + u2 + DownloadSuffix;
    assert |u1| == |u2|;
    assert u1 == a[|head|..|head| + |u1|];
    assert u2 == b[|head|..|head| + |u2|];
  }

  /** The portal client of `gib_earsiv_client.py`. */
  class GibEarsivClient {
    const username: string
    const password: string
    const environment: string
    const baseUrl: string
    /** The portal behind the session: its reply to a request, given every request sent before it. */
    const serve: (seq<Request>, Request) -> Exchange
    var token: Option<string>
    /** Every request this client has sent, oldest first. */
    var sent: seq<Request>

    constructor (username: string, password: string, environment: string, serve: (seq<Request>, Request) -> Exchange)
      ensures this.username == username && this.password == password && this.environment == environment
      ensures this.serve == serve && baseUrl == BaseUrlFor(environment)
      ensures token == None && sent == []
    {
      this.username := username;
      this.password := password;
      this.environment := environment;
      this.baseUrl := BaseUrlFor(environment);
      this.serve := serve;
      token := None;
      sent := [];
    }

    function Login(): Request {
      LoginRequest(username, password)
    }

    /** The transport as it stands after `history`. */
    function Net(history: seq<Request>): Request -> Exchange {
      request => serve(history, request)
    }

    /** `ensure_token` from the token `held` after `history`. */
    function Auth(held: Option<string>, history: seq<Request>): Result<Option<string>> {
      Authorize(held, serve(history, Login()))
    }

    /** The login request `ensure_token` sends for a given token: none when one is held. */
    function LoginTrace(held: Option<string>): seq<Request> {
      if HasToken(held) then [] else [Login()]
    }

    /** `get_token`: log in; only a reply with a truthy `userid` replaces the token. */
    method GetToken() returns (r: Result<Option<string>>)
      modifies this
      ensures r == LoginOutcome(serve(old(sent), Login()))
      ensures token == TokenAfter(old(token), r)
      ensures sent == old(sent) + [Login()]
    {
      var request := Login();
      var response := serve(sent, request);
      sent := sent + [request];
      match response
      case Failed =>
        r := Raised(TransportFailure);
      case Reply(body) =>
        if Truthy(Get(body, "userid", Null)) {
          token := TokenIn(body);
          r := Ok(token);
        } else {
          r := Raised(AuthenticationFailed(Get(body, "error", Str(UnknownAuthError))));
        }
    }

    /** `ensure_token`: log in only when no token is held. */
    method EnsureToken() returns (r: Result<Option<string>>)
      modifies this
      ensures r == Auth(old(token), old(sent))
      ensures token == TokenAfter(old(token), r)
      ensures sent == old(sent) + LoginTrace(old(token))
      ensures HasToken(old(token)) ==> token == old(token) && sent == old(sent)
    {
      if !HasToken(token) {
        r := GetToken();
      } else {
        r := Ok(token);
      }
    }

    method GetInvoices(startDate: string, endDate: string, limit: int, callId: string) returns (r: Result<seq<Value>>)
      modifies this
      ensures var auth, h := Auth(old(token), old(sent)), old(sent) + LoginTrace(old(token));
        && r == FetchInvoices(Net(h), auth, startDate, endDate, limit, callId)
        && token == TokenAfter(old(token), auth)
        && sent == h + ListTrace(auth, startDate, endDate, callId)
    {
      var auth := EnsureToken();
      if auth.Raised? {
        return Raised(auth.failure);
      }
      var from := ReformatDate(startDate);
      if from.None? {
        return Raised(InvalidDate(startDate));
      }
      var to := ReformatDate(endDate);
      if to.None? {
        return Raised(InvalidDate(endDate));
      }
      var request := ListRequest(token, callId, from.value, to.value);
      var response := serve(sent, request);
      sent := sent + [request];
      match response
      case Failed =>
        r := Ok([]);
      case Reply(body) =>
        var data := Get(body, "data", Null);
        if Truthy(data) {
          r := Ok(SliceData(data, limit));
        } else {
          r := Ok([]);
        }
    }

    method GetInvoiceHtml(invoiceUuid: string, callId: string) returns (r: Result<Option<Value>>)
      modifies this
      ensures var auth, h := Auth(old(token), old(sent)), old(sent) + LoginTrace(old(token));
        && r == ViewOutcome(Net(h), auth, invoiceUuid, callId)
        && token == TokenAfter(old(token), auth)
        && sent == h + (if auth.Ok? then [ViewRequest(auth.value, callId, invoiceUuid)] else [])
    {
      var auth := EnsureToken();
      if auth.Raised? {
        return Raised(auth.failure);
      }
      var request := ViewRequest(token, callId, invoiceUuid);
      var response := serve(sent, request);
      sent := sent + [request];
      if response.Reply? && Truthy(Get(response.body, "data", Null)) {
        r := Ok(Some(response.body["data"]));
      } else {
        r := Ok(None);
      }
    }

    /** `get_invoice_download_url` reads the token and sends nothing. */
    function GetInvoiceDownloadUrl(invoiceUuid: string): (url: string)
      reads this
      ensures url == DownloadUrl(baseUrl, token, invoiceUuid)
    {
      baseUrl + DownloadEndpoint + "?token=" + TokenText(token) + "&ettn=" + invoiceUuid + DownloadSuffix
    }

    /** `find_invoice`: fetch up to 1000 records of the one given day, then scan them. */
    method FindInvoice(date: string, invoiceNumber: Option<string>, invoiceUuid: Option<string>, callId: string) returns (r: Result<Option<Value>>)
      modifies this
      ensures var auth, h := Auth(old(token), old(sent)), old(sent) + LoginTrace(old(token));
        && r == FindOutcome(FetchInvoices(Net(h), auth, date, date, 1000, callId), invoiceNumber, invoiceUuid)
        && token == TokenAfter(old(token), auth)
        && sent == h + ListTrace(auth, date, date, callId)
    {
      var invoices := GetInvoices(date, date, 1000, callId);
      if invoices.Raised? {
        return Raised(invoices.failure);
      }
      r := ScanInvoices(invoices.value, invoiceNumber, invoiceUuid);
    }

    method CreateDraftInvoice(invoiceData: map<string, Value>, callId: string) returns (r: Result<Option<Value>>)
      modifies this
      ensures var auth, h := Auth(old(token), old(sent)), old(sent) + LoginTrace(old(token));
        && r == CreateOutcome(Net(h), auth, invoiceData, callId)
        && token == TokenAfter(old(token), auth)
        && sent == h + (if auth.Ok? then [CreateDraftRequest(auth.value, callId, invoiceData)] else [])
    {
      var auth := EnsureToken();
      if auth.Raised? {
        return Raised(auth.failure);
      }
      var request := CreateDraftRequest(token, callId, invoiceData);
      var response := serve(sent, request);
      sent := sent + [request];
      if response.Reply? && Truthy(Get(response.body, "data", Null)) {
        r := Ok(Some(response.body["data"]));
      } else {
        r := Ok(None);
      }
    }

    method SignDraftInvoice(invoiceUuid: Value, callId: string) returns (r: Result<bool>)
      modifies this
      ensures var auth, h := Auth(old(token), old(sent)), old(sent) + LoginTrace(old(token));
        && r == SignOutcome(Net(h), auth, invoiceUuid, callId)
        && token == TokenAfter(old(token), auth)
        && sent == h + (if auth.Ok? then [SignRequest(auth.value, callId, invoiceUuid)] else [])
    {
      var auth := EnsureToken();
      if auth.Raised? {
        return Raised(auth.failure);
      }
      var request := SignRequest(token, callId, invoiceUuid);
      var response := serve(sent, request);
      sent := sent + [request];
      r := Ok(response.Reply? && Truthy(Get(response.body, "data", Null)));
    }

    method CancelDraftInvoice(invoiceUuid: string, reason: string, callId: string) returns (r: Result<bool>)
      modifies this
      ensures var auth, h := Auth(old(token), old(sent)), old(sent) + LoginTrace(old(token));
        && r == CancelOutcome(Net(h), auth, invoiceUuid, reason, callId)
        && token == TokenAfter(old(token), auth)
        && sent == h + (if auth.Ok? then [CancelRequest(auth.value, callId, invoiceUuid, reason)] else [])
    {
      var auth := EnsureToken();
      if auth.Raised? {
        return Raised(auth.failure);
      }
      var request := CancelRequest(token, callId, invoiceUuid, reason);
      var response := serve(sent, request);
      sent := sent + [request];
      r := Ok(response.Reply? && Truthy(Get(response.body, "data", Null)));
    }
  }
}
