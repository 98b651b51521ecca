/**
  Where the demo client can stand in for the portal client, and where it
  cannot. The portal is taken to answer every command with the fixture as its
  `data`; the two clients then agree on listing valid dates and on lookups by
  a single key, and part ways on malformed dates, on lookups given both keys,
  and on the download link of an environment that is neither `"test"` nor
  `"production"`.
 */
module Substitution {

  import opened Wire
  import opened Dates
  import opened GibEarsiv
  import opened MockData

  /** A portal whose every reply carries the fixture records as `data`. */
  function FixturePortal(): Request -> Exchange {
    (request: Request) => Reply(map["data" := Arr(MockRecords())])
  }

  /** Exactly one lookup key is given, and it is `value` for the field `key`. */
  predicate OneKey(invoiceNumber: Option<string>, invoiceUuid: Option<string>, key: Key, value: string) {
    if key == ByUuid then Given(invoiceUuid) && invoiceUuid.value == value && !Given(invoiceNumber)
    else Given(invoiceNumber) && invoiceNumber.value == value && !Given(invoiceUuid)
  }

  /**
    Over records built from fixture-shaped invoices, the portal client's scan
    with a single key finds the record of the demo client's first index.
   */
  lemma {:induction false} ScanAgrees(records: seq<Value>, ms: seq<MockInvoice>, invoiceNumber: Option<string>, invoiceUuid: Option<string>, key: Key, value: string)
    requires |records| == |ms| && forall i :: 0 <= i < |ms| ==> records[i] == AsRecord(ms[i])
    requires OneKey(invoiceNumber, invoiceUuid, key, value)
    ensures var k := FirstIndex(ms, key, value);
      FirstMatch(records, invoiceNumber, invoiceUuid) == Ok(if k < |ms| then Some(records[k]) else None)
    decreases |ms|
  {
    if ms != [] {
      var record := records[0];
      assert record == AsRecord(ms[0]);
      if KeyOf(ms[0], key) != value {
        assert FirstMatch(records, invoiceNumber, invoiceUuid) == FirstMatch(records[1..], invoiceNumber, invoiceUuid);
        ScanAgrees(records[1..], ms[1..], invoiceNumber, invoiceUuid, key, value);
        var k := FirstIndex(ms[1..], key, value);
        if k < |ms[1..]| {
          assert records[1..][k] == records[1 + k];
        }
      }
    }
  }

  /** Against the fixture portal, the listing of valid dates is the demo client's listing. */
  lemma ListingAgrees(c: MockGibEarsivClient, token: Option<string>, startDate: string, endDate: string, limit: int, callId: string)
    requires ParseIsoDate(startDate).Some? && ParseIsoDate(endDate).Some?
    ensures FetchInvoices(FixturePortal(), Ok(token), startDate, endDate, limit, callId) == Ok(MockData.GetInvoices(c, startDate, endDate, limit))
  {
    FixtureFacts();
    assert MockRecords() != [];
  }

  /** A malformed date makes the portal client raise, while the demo client still lists the fixture. */
  lemma ListingDiffersOnBadDate(c: MockGibEarsivClient, token: Option<string>, startDate: string, endDate: string, limit: int, callId: string)
    requires ParseIsoDate(startDate).None?
    ensures FetchInvoices(FixturePortal(), Ok(token), startDate, endDate, limit, callId) == Raised(InvalidDate(startDate))
    ensures limit >= 5 ==> MockData.GetInvoices(c, startDate, endDate, limit) == MockRecords()
  {
    FixtureFacts();
  }

  /**
    With a single key and a valid day, `find_invoice` against the fixture
    portal returns what the demo client's `find_invoice` returns.
   */
  lemma FindAgrees(c: MockGibEarsivClient, token: Option<string>, date: string, invoiceNumber: Option<string>, invoiceUuid: Option<string>, key: Key, value: string, callId: string)
    requires ParseIsoDate(date).Some?
    requires OneKey(invoiceNumber, invoiceUuid, key, value)
    ensures FindOutcome(FetchInvoices(FixturePortal(), Ok(token), date, date, 1000, callId), invoiceNumber, invoiceUuid)
      == Ok(MockData.FindInvoice(c, date, invoiceNumber, invoiceUuid))
  {
    ListingAgrees(c, token, date, date, 1000, callId);
    FixtureFacts();
    var records := MockRecords();
    assert MockData.GetInvoices(c, date, date, 1000) == records;
    ScanAgrees(records, MockInvoices, invoiceNumber, invoiceUuid, key, value);
  }

  /** A first record that misses the UUID but matches the number is the one found. */
  lemma FirstMatchByNumber(records: seq<Value>, invoiceNumber: string, invoiceUuid: string)
    requires records != [] && records[0].Obj? && invoiceNumber != [] && invoiceUuid != []
    requires Get(records[0].fields, "ettn", Null) != Str(invoiceUuid)
    requires Get(records[0].fields, "belgeNumarasi", Null) == Str(invoiceNumber)
    ensures FirstMatch(records, Some(invoiceNumber), Some(invoiceUuid)) == Ok(Some(records[0]))
  {
  }

  /** Given the first fixture number and the third fixture UUID, the portal client returns the first record. */
  lemma PortalFindsFirst(c: MockGibEarsivClient, token: Option<string>, date: string, callId: string)
    requires ParseIsoDate(date).Some?
    ensures var n, u := Some(MockInvoices[0].belgeNumarasi), Some(MockInvoices[2].ettn);
      FindOutcome(FetchInvoices(FixturePortal(), Ok(token), date, date, 1000, callId), n, u) == Ok(Some(AsRecord(MockInvoices[0])))
  {
    ListingAgrees(c, token, date, date, 1000, callId);
    FixtureFacts();
    assert MockData.GetInvoices(c, date, date, 1000) == MockRecords();
    var record := MockRecords()[0];
    assert record == AsRecord(MockInvoices[0]);
    FirstMatchByNumber(MockRecords(), MockInvoices[0].belgeNumarasi, MockInvoices[2].ettn);
  }

  /**
    Given the UUID of the third fixture invoice and the number of the first,
    the portal client stops at the first record, which matches by number; the
    demo client looks at the UUID alone and returns the third.
   */
  lemma FindDiffersWithBothKeys(c: MockGibEarsivClient, token: Option<string>, date: string, callId: string)
    requires ParseIsoDate(date).Some?
    ensures var n, u := Some(MockInvoices[0].belgeNumarasi), Some(MockInvoices[2].ettn);
      && FindOutcome(FetchInvoices(FixturePortal(), Ok(token), date, date, 1000, callId), n, u) == Ok(Some(AsRecord(MockInvoices[0])))
      && MockData.FindInvoice(c, date, n, u) == Some(AsRecord(MockInvoices[2]))
  {
    PortalFindsFirst(c, token, date, callId);
    FindFixtureUuid(c, date, Some(MockInvoices[0].belgeNumarasi), 2);
  }

  /**
    For `"test"` and `"production"` both clients pick the same host, so the
    portal client holding the demo's link token builds the demo's link.
   */
  lemma HostsAgree(c: MockGibEarsivClient, invoiceUuid: string)
    requires c.environment == "test" || c.environment == "production"
    ensures DownloadUrl(BaseUrlFor(c.environment), Some("mock_token"), invoiceUuid) == MockData.GetInvoiceDownloadUrl(c, invoiceUuid)
  {
  }

  /**
    For any other environment the portal client falls back to the test host and
    the demo client to the production host, so their links differ even for the
    same token.
   */
  lemma DownloadLinksDiffer(c: MockGibEarsivClient, invoiceUuid: string)
    requires c.environment != "test" && c.environment != "production"
    ensures DownloadUrl(BaseUrlFor(c.environment), Some("mock_token"), invoiceUuid) != MockData.GetInvoiceDownloadUrl(c, invoiceUuid)
  {
    var portalLink := DownloadUrl(BaseUrlFor(c.environment), Some("mock_token"), invoiceUuid);
    var demoLink := MockData.GetInvoiceDownloadUrl(c, invoiceUuid);
    var portalHead := TestBaseUrl + DownloadEndpoint + "?token=" + TokenText(Some("mock_token"));
    var demoHead := ProductionBaseUrl + DownloadEndpoint + "?token=" + TokenText(Some("mock_token"));
    assert portalHead <= portalLink && demoHead <= demoLink;
    assert portalLink[20] == portalHead[20] == 't';
    assert demoLink[20] == demoHead[20] == '.';
  }

  /**
    The demo client signs and cancels unconditionally; the portal client only
    when the reply carries truthy `data`, so a portal answering with an empty
    body refuses both.
   */
  lemma SignDiffersOnEmptyReply(c: MockGibEarsivClient, token: Option<string>, invoiceUuid: string, reason: string, callId: string)
    ensures var empty := (request: Request) => Reply(map[]);
      && SignOutcome(empty, Ok(token), Str(invoiceUuid), callId) == Ok(false)
      && CancelOutcome(empty, Ok(token), invoiceUuid, reason, callId) == Ok(false)
      && MockData.SignDraftInvoice(c, Str(invoiceUuid)) && MockData.CancelDraftInvoice(c, invoiceUuid, reason)
  {
  }
}
