/**
  The demo backend: a fixed list of five invoices and a client with the
  portal client's interface that answers from that list, holds a constant
  token and persists nothing.
 */
module MockData {

  import opened Wire
  import opened Text
  import GibEarsiv

  /** One fixture invoice, with the portal's field names. */
  datatype MockInvoice = MockInvoice(
    ettn: string,
    belgeNumarasi: string,
    belgeTarihi: string,
    gonderenUnvan: string,
    aliciUnvan: string,
    toplamTutar: string,
    paraBirimi: string,
    onayDurumu: string)

  /** The fixture invoice as the dictionary the client hands out. */
  function AsRecord(m: MockInvoice): (v: Value)
    ensures v.Obj? && "ettn" in v.fields && v.fields["ettn"] == Str(m.ettn)
    ensures "belgeNumarasi" in v.fields && v.fields["belgeNumarasi"] == Str(m.belgeNumarasi)
  {
    Obj(map[
      "ettn" := Str(m.ettn),
      "belgeNumarasi" := Str(m.belgeNumarasi),
      "belgeTarihi" := Str(m.belgeTarihi),
      "gonderenUnvan" := Str(m.gonderenUnvan),
      "aliciUnvan" := Str(m.aliciUnvan),
      "toplamTutar" := Str(m.toplamTutar),
      "paraBirimi" := Str(m.paraBirimi),
      "onayDurumu" := Str(m.onayDurumu)])
  }

  const Supplier: string := "Demo Teknoloji A.Ş."

  /** `MOCK_INVOICES`. */
  const MockInvoices: seq<MockInvoice> := [
    MockInvoice("550e8400-e29b-41d4-a716-446655440001", "ABC2024000001", "01/12/2024", Supplier,
      "Örnek Müşteri Ltd. Şti.", "15000.00", "TRY", "Onaylandı"),
    MockInvoice("550e8400-e29b-41d4-a716-446655440002", "ABC2024000002", "02/12/2024", Supplier,
      "Test Şirketi A.Ş.", "8500.50", "TRY", "Onaylandı"),
    MockInvoice("550e8400-e29b-41d4-a716-446655440003", "ABC2024000003", "03/12/2024", Supplier,
      "Proje Danışmanlık Ltd.", "22000.00", "TRY", "Beklemede"),
    MockInvoice("550e8400-e29b-41d4-a716-446655440004", "ABC2024000004", "04/12/2024", Supplier,
      "Yazılım Geliştirme A.Ş.", "45000.00", "TRY", "Onaylandı"),
    MockInvoice("550e8400-e29b-41d4-a716-446655440005", "ABC2024000005", "05/12/2024", Supplier,
      "E-Ticaret Platformu Ltd.", "12500.75", "TRY", "Onaylandı")
  ]

  /** The fixture as the list of dictionaries the client returns. */
  function MockRecords(): (rs: seq<Value>)
    ensures |rs| == |MockInvoices|
    ensures forall i :: 0 <= i < |rs| ==> rs[i] == AsRecord(MockInvoices[i])
  {
    seq(|MockInvoices|, i requires 0 <= i < |MockInvoices| => AsRecord(MockInvoices[i]))
  }

  const MockToken: string := "mock_token_12345"

  /** The demo client: nothing in it changes after construction. */
  datatype MockGibEarsivClient = MockGibEarsivClient(username: string, password: string, environment: string)

  /** `MockGIBEarsivClient(environment=...)`, with the default demo credentials. */
  function DemoClient(environment: string): (c: MockGibEarsivClient)
    ensures c.environment == environment
  {
    MockGibEarsivClient("demo", "demo", environment)
  }

  /** `get_token`: the constant token, always one the portal client would count as held. */
  function GetToken(c: MockGibEarsivClient): (t: string)
    ensures t == MockToken
    ensures GibEarsiv.HasToken(Some(t))
  {
    MockToken
  }

  /** `ensure_token` does nothing: the client it leaves is the client it was given. */
  function EnsureToken(c: MockGibEarsivClient): (c': MockGibEarsivClient)
    ensures c' == c && GetToken(c') == GetToken(c)
  {
    c
  }

  /** `MOCK_INVOICES[:limit]`, whatever the dates. */
  function GetInvoices(c: MockGibEarsivClient, startDate: string, endDate: string, limit: int): (r: seq<Value>)
    ensures r <= MockRecords()
    ensures limit >= 0 ==> |r| == if limit < |MockInvoices| then limit else |MockInvoices|
  {
    Prefix(MockRecords(), limit)
  }

  /** The two fields a fixture record can be looked up by. */
  datatype Key = ByUuid | ByNumber

  function KeyOf(m: MockInvoice, key: Key): string {
    match key
    case ByUuid => m.ettn
    case ByNumber => m.belgeNumarasi
  }

  /** The position of the first invoice whose `key` field equals `value`; `|ms|` when none does. */
  function FirstIndex(ms: seq<MockInvoice>, key: Key, value: string): (k: nat)
    ensures k <= |ms|
    ensures forall j :: 0 <= j < k ==> KeyOf(ms[j], key) != value
    ensures k < |ms| ==> KeyOf(ms[k], key) == value
  {
    if ms == [] then 0
    else if KeyOf(ms[0], key) == value then 0
    else 1 + FirstIndex(ms[1..], key, value)
  }

  /** `next((inv for inv in MOCK_INVOICES if inv[field] == value), None)`. */
  function FirstWith(key: Key, value: string): (r: Option<MockInvoice>)
    ensures r.Some? <==> exists i :: 0 <= i < |MockInvoices| && KeyOf(MockInvoices[i], key) == value
    ensures r.Some? ==> r.value in MockInvoices && KeyOf(r.value, key) == value
  {
    var k := FirstIndex(MockInvoices, key, value);
    if k < |MockInvoices| then Some(MockInvoices[k]) else None
  }

  /**
    The invoice page for a fixture record: its number, date, seller, buyer,
    amount with currency, and status, in the template's order.
   */
  function MockHtml(m: MockInvoice): string {
    "<title>Fatura - " + m.belgeNumarasi + "</title>"
      + "<p>Fatura No: " + m.belgeNumarasi + "</p>"
      + "<p>Tarih: " + m.belgeTarihi + "</p>"
      + "<p>Satıcı: " + m.gonderenUnvan + "</p>"
      + "<p>Alıcı: " + m.aliciUnvan + "</p>"
      + "<p>Toplam Tutar: " + m.toplamTutar + " " + m.paraBirimi + "</p>"
      + "<p>Durum: " + m.onayDurumu + "</p>"
  }

  /** `get_invoice_html`: a page for a fixture UUID, none for any other. */
  function GetInvoiceHtml(c: MockGibEarsivClient, invoiceUuid: string): (r: Option<string>)
    ensures r.None? <==> forall i :: 0 <= i < |MockInvoices| ==> MockInvoices[i].ettn != invoiceUuid
    ensures r.Some? ==> r.value != ""
  {
    match FirstWith(ByUuid, invoiceUuid)
    case None => None
    case Some(m) => Some(MockHtml(m))
  }

  /**
    `get_invoice_download_url`: the portal's link shape, on the test host only
    for the environment `"test"`, embedding the literal token `mock_token`.
   */
  function GetInvoiceDownloadUrl(c: MockGibEarsivClient, invoiceUuid: string): (url: string)
    ensures url == GibEarsiv.DownloadUrl(
      if c.environment == "test" then GibEarsiv.TestBaseUrl else GibEarsiv.ProductionBaseUrl,
      Some("mock_token"), invoiceUuid)
  {
    var baseUrl := if c.environment == "test" then "https://earsivportaltest.efatura.gov.tr" else "https://earsivportal.efatura.gov.tr";
    var path := "/earsiv-services/download?token=mock_token&ettn=";
    var suffix := "&belgeTip=FATURA&onayDurumu=Onaylandı&cmd=EARSIV_PORTAL_BELGE_INDIR";
    assert path == GibEarsiv.DownloadEndpoint + "?token=" + "mock_token" + "&ettn=";
    assert suffix == GibEarsiv.DownloadSuffix;
    Regroup(baseUrl, GibEarsiv.DownloadEndpoint, "?token=", "mock_token", "&ettn=", invoiceUuid, suffix);
    baseUrl + path + invoiceUuid + suffix
  }

  /** Concatenation regrouped: the mock's literal link and the portal's template split differently. */
  lemma Regroup(a: string, b: string, c: string, d: string, e: string, f: string, g: string)
    ensures a + (b + c + d + e) + f + g == a + b + c + d + (e + f + g)
  {
  }

  function RecordOf(m: Option<MockInvoice>): Option<Value> {
    match m
    case None => None
    case Some(inv) => Some(AsRecord(inv))
  }

  /** `find_invoice`: by UUID over the whole list when one is given, else by number; the date is ignored. */
  function FindInvoice(c: MockGibEarsivClient, date: string, invoiceNumber: Option<string>, invoiceUuid: Option<string>): (r: Option<Value>)
    ensures Given(invoiceUuid) ==> r == RecordOf(FirstWith(ByUuid, invoiceUuid.value))
    ensures !Given(invoiceUuid) && Given(invoiceNumber) ==> r == RecordOf(FirstWith(ByNumber, invoiceNumber.value))
    ensures !Given(invoiceUuid) && !Given(invoiceNumber) ==> r == None
  {
    if Given(invoiceUuid) then RecordOf(FirstWith(ByUuid, invoiceUuid.value))
    else if Given(invoiceNumber) then RecordOf(FirstWith(ByNumber, invoiceNumber.value))
    else None
  }

  /** `create_draft_invoice`: the fresh id the caller supplies for `uuid4()`; nothing is stored. */
  function CreateDraftInvoice(c: MockGibEarsivClient, invoiceData: map<string, Value>, freshId: string): (r: Option<string>)
    ensures r == Some(freshId)
  {
    Some(freshId)
  }

  function SignDraftInvoice(c: MockGibEarsivClient, invoiceUuid: Value): (ok: bool)
    ensures ok
  {
    true
  }

  function CancelDraftInvoice(c: MockGibEarsivClient, invoiceUuid: string, reason: string): (ok: bool)
    ensures ok
  {
    true
  }

  /** Five records, pairwise distinct UUIDs and numbers, every one in TRY. */
  lemma FixtureFacts()
    ensures |MockInvoices| == 5
    ensures forall i, j :: 0 <= i < j < |MockInvoices| ==> MockInvoices[i].ettn != MockInvoices[j].ettn
    ensures forall i, j :: 0 <= i < j < |MockInvoices| ==> MockInvoices[i].belgeNumarasi != MockInvoices[j].belgeNumarasi
    ensures forall i :: 0 <= i < |MockInvoices| ==> MockInvoices[i].paraBirimi == "TRY" && MockInvoices[i].ettn != ""
  {
  }

  /** Looking up a fixture UUID yields that very record, whatever number is also given. */
  lemma FindFixtureUuid(c: MockGibEarsivClient, date: string, invoiceNumber: Option<string>, i: nat)
    requires i < |MockInvoices|
    ensures FindInvoice(c, date, invoiceNumber, Some(MockInvoices[i].ettn)) == Some(AsRecord(MockInvoices[i]))
  {
    FixtureFacts();
    var k := FirstIndex(MockInvoices, ByUuid, MockInvoices[i].ettn);
    assert k == i;
  }

  /** A created draft is not stored: an id outside the fixture is never found and has no page. */
  lemma CreatedDraftNotFound(c: MockGibEarsivClient, invoiceData: map<string, Value>, freshId: string, date: string, invoiceNumber: Option<string>)
    requires freshId != ""
    requires forall i :: 0 <= i < |MockInvoices| ==> MockInvoices[i].ettn != freshId
    ensures var id := CreateDraftInvoice(c, invoiceData, freshId).value;
      && FindInvoice(c, date, invoiceNumber, Some(id)) == None
      && GetInvoiceHtml(c, id) == None
  {
  }
}
