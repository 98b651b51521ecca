/**
  The e-Fatura facade the tool server calls: it picks the real portal client
  or the demo backend from the configured credentials, turns native portal
  records into `Invoice` values with per-field defaults, filters them for
  searches, creates and signs drafts, and classifies tax numbers.

  Clock readings (`datetime.now()`, `date.today()`), the correlation ids the
  portal client draws and the demo backend's `uuid4()` ids are parameters.
  `str.lower` is the parameter `lower`.
 */
module EFatura {

  import opened Wire
  import opened Text
  import opened GibEarsiv
  import MockData

  /** The settings read from the environment. */
  datatype Settings = Settings(username: string, password: string, environment: string)

  /** The `Invoice` model. */
  datatype Invoice = Invoice(
    invoiceId: string,
    invoiceNumber: string,
    issueDate: string,
    supplierName: string,
    customerName: string,
    totalAmount: real,
    currency: string,
    status: string)

  /** The `InvoiceCreateRequest` model. */
  datatype InvoiceCreateRequest = InvoiceCreateRequest(
    invoiceNumber: string,
    issueDate: string,
    supplierVkn: string,
    supplierName: string,
    customerVkn: string,
    customerName: string,
    items: seq<map<string, Value>>,
    totalAmount: real,
    currency: string)

  /** The `TaxNumberValidation` model. */
  datatype TaxNumberValidation = TaxNumberValidation(taxNumber: string, isValid: bool, companyName: Option<string>, status: string)

  const UsernamePlaceholder: string := "your_gib_username_here"
  const PasswordPlaceholder: string := "your_gib_password_here"

  /** `has_real_credentials` in `_initialize_client`. */
  predicate HasRealCredentials(username: string, password: string) {
    && username != "" && password != ""
    && Strip(username) != "" && Strip(password) != ""
    && username != UsernamePlaceholder && password != PasswordPlaceholder
  }

  /**
    The demo backend is chosen exactly when a credential is empty or only
    whitespace, or still holds its placeholder text.
   */
  lemma DemoSelectedIff(username: string, password: string)
    ensures !HasRealCredentials(username, password) <==>
      || IsBlank(username) || IsBlank(password)
      || username == UsernamePlaceholder || password == PasswordPlaceholder
  {
    StripEmptyIffBlank(username);
    StripEmptyIffBlank(password);
  }

  // ---------------------------------------------------------------- validate_tax_number

  /** `validate_tax_number`: a VKN has 10 digits, a TCKN 11; only the format is checked. */
  function ValidateTaxNumber(taxNumber: string): (v: TaxNumberValidation)
    ensures v.taxNumber == taxNumber && v.companyName == None
    ensures !IsDigits(taxNumber) ==> !v.isValid && v.status == "invalid_format"
    ensures IsDigits(taxNumber) && |taxNumber| == 10 ==> v.isValid && v.status == "valid_vkn_format"
    ensures IsDigits(taxNumber) && |taxNumber| == 11 ==> v.isValid && v.status == "valid_tckn_format"
    ensures IsDigits(taxNumber) && |taxNumber| != 10 && |taxNumber| != 11 ==> !v.isValid && v.status == "invalid_length"
    ensures v.isValid <==> v.status == "valid_vkn_format" || v.status == "valid_tckn_format"
    ensures v.isValid <==> IsDigits(taxNumber) && (|taxNumber| == 10 || |taxNumber| == 11)
  {
    if !IsDigits(taxNumber) then TaxNumberValidation(taxNumber, false, None, "invalid_format")
    else if |taxNumber| == 10 then TaxNumberValidation(taxNumber, true, None, "valid_vkn_format")
    else if |taxNumber| == 11 then TaxNumberValidation(taxNumber, true, None, "valid_tckn_format")
    else TaxNumberValidation(taxNumber, false, None, "invalid_length")
  }

  // ---------------------------------------------------------------- record normalisation

  /** A text field of `Invoice` taken from `raw.get(key, default)`; pydantic accepts only a string. */
  function TextField(fields: map<string, Value>, key: string, default: string): Option<string> {
    match Get(fields, key, Str(default))
    case Str(s) => Some(s)
    case _ => None
  }

  /** `float(raw.get("toplamTutar", 0))`: numbers and booleans convert, strings are parsed, anything else raises. */
  function AmountField(fields: map<string, Value>): (r: Option<real>)
    ensures "toplamTutar" !in fields ==> r == Some(0.0)
  {
    match Get(fields, "toplamTutar", Num(0.0))
    case Num(n) => Some(n)
    case Bool(b) => Some(if b then 1.0 else 0.0)
    case Str(s) => ParseFloat(s)
    case _ => None
  }

  /** The field `s` came from `key`: the record's string there, or the default when the key is missing. */
  predicate FieldFrom(fields: map<string, Value>, key: string, default: string, s: string) {
    (key in fields ==> fields[key] == Str(s)) && (key !in fields ==> s == default)
  }

  const TextKeys: seq<string> := ["ettn", "belgeNumarasi", "belgeTarihi", "gonderenUnvan", "aliciUnvan", "paraBirimi", "onayDurumu"]

  /** Every text field is a string or missing, and the amount converts. */
  predicate Convertible(raw: Value) {
    && raw.Obj?
    && (forall k :: k in TextKeys && k in raw.fields ==> raw.fields[k].Str?)
    && AmountField(raw.fields).Some?
  }

  /**
    One native record as an `Invoice`; `defaultId` stands in for a missing
    `ettn`. None where `.get`, `float` or the model's validation raises.
   */
  function NormalizeRecord(raw: Value, defaultId: string): (r: Option<Invoice>)
    ensures r.Some? <==> Convertible(raw)
    ensures r.Some? ==>
      && FieldFrom(raw.fields, "ettn", defaultId, r.value.invoiceId)
      && FieldFrom(raw.fields, "belgeNumarasi", "", r.value.invoiceNumber)
      && FieldFrom(raw.fields, "belgeTarihi", "", r.value.issueDate)
      && FieldFrom(raw.fields, "gonderenUnvan", "Supplier", r.value.supplierName)
      && FieldFrom(raw.fields, "aliciUnvan", "Customer", r.value.customerName)
      && FieldFrom(raw.fields, "paraBirimi", "TRY", r.value.currency)
      && FieldFrom(raw.fields, "onayDurumu", "unknown", r.value.status)
      && Some(r.value.totalAmount) == AmountField(raw.fields)
    ensures r.Some? && "toplamTutar" !in raw.fields ==> r.value.totalAmount == 0.0
  {
    if !raw.Obj? then None
    else
      var f := raw.fields;
      var id, number, date := TextField(f, "ettn", defaultId), TextField(f, "belgeNumarasi", ""), TextField(f, "belgeTarihi", "");
      var supplier, customer := TextField(f, "gonderenUnvan", "Supplier"), TextField(f, "aliciUnvan", "Customer");
      var amount := AmountField(f);
      var currency, status := TextField(f, "paraBirimi", "TRY"), TextField(f, "onayDurumu", "unknown");
      if id.Some? && number.Some? && date.Some? && supplier.Some? && customer.Some?
         && amount.Some? && currency.Some? && status.Some?
      then
        Some(Invoice(id.value, number.value, date.value, supplier.value, customer.value, amount.value, currency.value, status.value))
      else
        ConvertibleFields(raw, defaultId);
        None
  }

  /** `raw` is convertible exactly when each text field and the amount convert. */
  lemma ConvertibleFields(raw: Value, defaultId: string)
    requires raw.Obj?
    ensures Convertible(raw) <==>
      && TextField(raw.fields, "ettn", defaultId).Some? && TextField(raw.fields, "belgeNumarasi", "").Some?
      && TextField(raw.fields, "belgeTarihi", "").Some? && TextField(raw.fields, "gonderenUnvan", "Supplier").Some?
      && TextField(raw.fields, "aliciUnvan", "Customer").Some? && TextField(raw.fields, "paraBirimi", "TRY").Some?
      && TextField(raw.fields, "onayDurumu", "unknown").Some? && AmountField(raw.fields).Some?
  {
    assert TextKeys == ["ettn", "belgeNumarasi", "belgeTarihi", "gonderenUnvan", "aliciUnvan", "paraBirimi", "onayDurumu"];
  }

  /** The loop of `list_invoices`: one `Invoice` per record, in order; any failing record fails the whole list. */
  function NormalizeAll(raws: seq<Value>): (r: Option<seq<Invoice>>)
    ensures r.Some? ==> |r.value| == |raws| && forall i :: 0 <= i < |raws| ==> NormalizeRecord(raws[i], "") == Some(r.value[i])
    ensures r.None? ==> exists i :: 0 <= i < |raws| && NormalizeRecord(raws[i], "").None?
  {
    if raws == [] then Some([])
    else
      match (NormalizeRecord(raws[0], ""), NormalizeAll(raws[1..]))
      case (Some(inv), Some(rest)) =>
        assert forall i :: 1 <= i < |raws| ==> raws[i] == raws[1..][i - 1];
        Some([inv] + rest)
      case (None, _) => None
      case (_, None) =>
        var i :| 0 <= i < |raws[1..]| && NormalizeRecord(raws[1..][i], "").None?;
        assert raws[i + 1] == raws[1..][i];
        None
  }

  /** The `for` loop of `list_invoices` that appends one `Invoice` per record. */
  method NormalizeRecords(raws: seq<Value>) returns (r: Option<seq<Invoice>>)
    ensures r == NormalizeAll(raws)
  {
    var invoices: seq<Invoice> := [];
    for i := 0 to |raws|
      invariant |invoices| == i
      invariant forall j :: 0 <= j < i ==> NormalizeRecord(raws[j], "") == Some(invoices[j])
    {
      var invoice := NormalizeRecord(raws[i], "");
      if invoice.None? {
        assert NormalizeAll(raws).None?;
        return None;
      }
      invoices := invoices + [invoice.value];
    }
    var all := NormalizeAll(raws);
    assert all.Some? ==> all.value == invoices by {
      if all.Some? {
        assert forall j :: 0 <= j < |raws| ==> all.value[j] == invoices[j];
      }
    }
    r := Some(invoices);
  }

  /** What `list_invoices` returns for the backend's outcome: every exception becomes the empty list. */
  function Listed(fetched: Result<seq<Value>>): (r: seq<Invoice>)
    ensures fetched.Raised? ==> r == []
    ensures fetched.Ok? && NormalizeAll(fetched.value).Some? ==> r == NormalizeAll(fetched.value).value
    ensures fetched.Ok? && NormalizeAll(fetched.value).None? ==> r == []
  {
    match fetched
    case Raised(_) => []
    case Ok(raws) =>
      match NormalizeAll(raws)
      case None => []
      case Some(invoices) => invoices
  }

  /** The `Invoice` a fixture invoice becomes, with its amount parsed to `amount`. */
  function FixtureInvoice(m: MockData.MockInvoice, amount: real): Invoice {
    Invoice(m.ettn, m.belgeNumarasi, m.belgeTarihi, m.gonderenUnvan, m.aliciUnvan, amount, m.paraBirimi, m.onayDurumu)
  }

  /** A record whose fields convert normalises to the `Invoice` of those fields. */
  lemma NormalizeFields(f: map<string, Value>, inv: Invoice)
    requires TextField(f, "ettn", "") == Some(inv.invoiceId)
    requires TextField(f, "belgeNumarasi", "") == Some(inv.invoiceNumber)
    requires TextField(f, "belgeTarihi", "") == Some(inv.issueDate)
    requires TextField(f, "gonderenUnvan", "Supplier") == Some(inv.supplierName)
    requires TextField(f, "aliciUnvan", "Customer") == Some(inv.customerName)
    requires TextField(f, "paraBirimi", "TRY") == Some(inv.currency)
    requires TextField(f, "onayDurumu", "unknown") == Some(inv.status)
    requires AmountField(f) == Some(inv.totalAmount)
    ensures NormalizeRecord(Obj(f), "") == Some(inv)
  {
  }

  lemma FixtureTextFields(m: MockData.MockInvoice)
    ensures var f := MockData.AsRecord(m).fields;
      && TextField(f, "ettn", "") == Some(m.ettn)
      && TextField(f, "belgeNumarasi", "") == Some(m.belgeNumarasi)
      && TextField(f, "belgeTarihi", "") == Some(m.belgeTarihi)
      && TextField(f, "gonderenUnvan", "Supplier") == Some(m.gonderenUnvan)
      && TextField(f, "aliciUnvan", "Customer") == Some(m.aliciUnvan)
      && TextField(f, "paraBirimi", "TRY") == Some(m.paraBirimi)
      && TextField(f, "onayDurumu", "unknown") == Some(m.onayDurumu)
  {
  }

  lemma FixtureAmountField(m: MockData.MockInvoice, amount: real)
    requires ParseFloat(m.toplamTutar) == Some(amount)
    ensures AmountField(MockData.AsRecord(m).fields) == Some(amount)
  {
  }

  /** A fixture record normalises field by field to its `Invoice`. */
  lemma NormalizeFixture(m: MockData.MockInvoice, amount: real)
    requires ParseFloat(m.toplamTutar) == Some(amount)
    ensures NormalizeRecord(MockData.AsRecord(m), "") == Some(FixtureInvoice(m, amount))
  {
    FixtureTextFields(m);
    FixtureAmountField(m, amount);
    NormalizeFields(MockData.AsRecord(m).fields, FixtureInvoice(m, amount));
  }

  /** Amount text with five integer digits and two decimals. */
  lemma Amount52(t: string, a: char, b: char, c: char, d: char, e: char, f: char, g: char, x: real)
    requires IsDigit(a) && IsDigit(b) && IsDigit(c) && IsDigit(d) && IsDigit(e) && IsDigit(f) && IsDigit(g)
    requires t == [a, b, c, d, e, '.', f, g]
    requires x == Decimal(DigitValue(a) * 10000 + DigitValue(b) * 1000 + DigitValue(c) * 100 + DigitValue(d) * 10 + DigitValue(e),
                          DigitValue(f) * 10 + DigitValue(g), 2)
    ensures ParseFloat(t) == Some(x)
  {
    assert t == [a, b, c, d, e] + "." + [f, g];
    NumberOf5(a, b, c, d, e);
    NumberOf2(f, g);
    ParseFloatDecimal([a, b, c, d, e], [f, g], x);
  }

  /** Amount text with four integer digits and two decimals. */
  lemma Amount42(t: string, a: char, b: char, c: char, d: char, f: char, g: char, x: real)
    requires IsDigit(a) && IsDigit(b) && IsDigit(c) && IsDigit(d) && IsDigit(f) && IsDigit(g)
    requires t == [a, b, c, d, '.', f, g]
    requires x == Decimal(DigitValue(a) * 1000 + DigitValue(b) * 100 + DigitValue(c) * 10 + DigitValue(d),
                          DigitValue(f) * 10 + DigitValue(g), 2)
    ensures ParseFloat(t) == Some(x)
  {
    assert t == [a, b, c, d] + "." + [f, g];
    NumberOf4(a, b, c, d);
    NumberOf2(f, g);
    ParseFloatDecimal([a, b, c, d], [f, g], x);
  }

  /** The fixture's totals as numbers. */
  const FixtureTotals: seq<real> := [15000.0, 8500.5, 22000.0, 45000.0, 12500.75]

  /** The fixture's amount texts as `float` reads them. */
  lemma FixtureAmount(i: nat)
    requires i < 5
    ensures ParseFloat(MockData.MockInvoices[i].toplamTutar) == Some(FixtureTotals[i])
  {
    var t := MockData.MockInvoices[i].toplamTutar;
    if i == 0 {
      Amount52(t, '1', '5', '0', '0', '0', '0', '0', 15000.0);
    } else if i == 1 {
      Amount42(t, '8', '5', '0', '0', '5', '0', 8500.5);
    } else if i == 2 {
      Amount52(t, '2', '2', '0', '0', '0', '0', '0', 22000.0);
    } else if i == 3 {
      Amount52(t, '4', '5', '0', '0', '0', '0', '0', 45000.0);
    } else {
      Amount52(t, '1', '2', '5', '0', '0', '7', '5', 12500.75);
    }
  }

  /** The invoices the demo backend's listing becomes, in fixture order. */
  function DemoInvoices(): (invs: seq<Invoice>)
    ensures |invs| == 5
    ensures forall i :: 0 <= i < 5 ==> invs[i] == FixtureInvoice(MockData.MockInvoices[i], FixtureTotals[i])
  {
    seq(5, i requires 0 <= i < 5 => FixtureInvoice(MockData.MockInvoices[i], FixtureTotals[i]))
  }

  /** When every record converts, the list normalises. */
  lemma NormalizeAllSome(raws: seq<Value>)
    requires forall i :: 0 <= i < |raws| ==> NormalizeRecord(raws[i], "").Some?
    ensures NormalizeAll(raws).Some?
  {
  }

  /** Two lists of conversions of the same records are the same list. */
  lemma ConversionsAgree(raws: seq<Value>, invs: seq<Invoice>, others: seq<Invoice>)
    requires |raws| == |invs| == |others|
    requires forall i :: 0 <= i < |raws| ==> NormalizeRecord(raws[i], "") == Some(invs[i])
    requires forall i :: 0 <= i < |raws| ==> NormalizeRecord(raws[i], "") == Some(others[i])
    ensures invs == others
  {
    assert forall i :: 0 <= i < |raws| ==> invs[i] == others[i];
  }

  /** When every record converts, the list normalises to those conversions, in order. */
  lemma NormalizeAllConverts(raws: seq<Value>, invs: seq<Invoice>)
    requires |raws| == |invs|
    requires forall i :: 0 <= i < |raws| ==> NormalizeRecord(raws[i], "") == Some(invs[i])
    ensures NormalizeAll(raws) == Some(invs)
  {
    NormalizeAllSome(raws);
    ConversionsAgree(raws, invs, NormalizeAll(raws).value);
  }

  lemma NormalizeFixtureAt(i: nat)
    requires i < 5
    ensures NormalizeRecord(MockData.MockRecords()[i], "") == Some(DemoInvoices()[i])
  {
    FixtureAmount(i);
    NormalizeFixture(MockData.MockInvoices[i], FixtureTotals[i]);
  }

  /** Every fixture record converts, so the fixture normalises as a whole. */
  lemma NormalizeFixtureRecords()
    ensures NormalizeAll(MockData.MockRecords()) == Some(DemoInvoices())
  {
    forall i | 0 <= i < 5
      ensures NormalizeRecord(MockData.MockRecords()[i], "") == Some(DemoInvoices()[i])
    {
      NormalizeFixtureAt(i);
    }
    NormalizeAllConverts(MockData.MockRecords(), DemoInvoices());
  }

  /**
    `list_invoices(limit=10)` on the demo backend gives the five fixture
    invoices in order, each with its own UUID and number and the currency TRY.
   */
  lemma DemoListing(c: MockData.MockGibEarsivClient, startDate: string, endDate: string)
    ensures var r := Listed(Ok(MockData.GetInvoices(c, startDate, endDate, 10)));
      && r == DemoInvoices()
      && |r| == 5
      && forall i :: 0 <= i < 5 ==>
           r[i].invoiceId == MockData.MockInvoices[i].ettn && r[i].invoiceNumber == MockData.MockInvoices[i].belgeNumarasi
           && r[i].totalAmount == FixtureTotals[i] && r[i].currency == "TRY"
  {
    MockData.FixtureFacts();
    assert MockData.GetInvoices(c, startDate, endDate, 10) == MockData.MockRecords();
    NormalizeFixtureRecords();
    var r := DemoInvoices();
    assert forall i :: 0 <= i < 5 ==> r[i].currency == MockData.MockInvoices[i].paraBirimi;
  }

  /** `list_invoices` dates: a missing or empty start is 2024-01-01, a missing or empty end is today. */
  function StartOr(startDate: Option<string>): string {
    if Given(startDate) then startDate.value else "2024-01-01"
  }

  function EndOr(endDate: Option<string>, today: string): string {
    if Given(endDate) then endDate.value else today
  }

  /** `get_invoice_detail` after `find_invoice`: a falsy or failed lookup is none; a missing `ettn` falls back to the asked id. */
  function DetailFrom(found: Result<Option<Value>>, invoiceId: string): (r: Option<Invoice>)
    ensures r.Some? ==> found.Ok? && found.value.Some? && Truthy(found.value.value)
    ensures r.Some? ==> NormalizeRecord(found.value.value, invoiceId) == r
    ensures found.Ok? && found.value.Some? && Truthy(found.value.value) ==> r == NormalizeRecord(found.value.value, invoiceId)
  {
    match found
    case Raised(_) => None
    case Ok(None) => None
    case Ok(Some(raw)) => if Truthy(raw) then NormalizeRecord(raw, invoiceId) else None
  }

  // ---------------------------------------------------------------- search_invoices

  /** The optional filters of `search_invoices`. */
  datatype Query = Query(
    customerName: Option<string>,
    supplierName: Option<string>,
    minAmount: Option<real>,
    maxAmount: Option<real>,
    status: Option<string>)

  datatype Criterion =
    | CustomerLike(text: string)
    | SupplierLike(text: string)
    | AtLeast(bound: real)
    | AtMost(bound: real)
    | StatusIs(value: string)

  predicate Satisfies(inv: Invoice, c: Criterion, lower: string -> string) {
    match c
    case CustomerLike(t) => Contains(lower(inv.customerName), lower(t))
    case SupplierLike(t) => Contains(lower(inv.supplierName), lower(t))
    case AtLeast(x) => inv.totalAmount >= x
    case AtMost(x) => inv.totalAmount <= x
    case StatusIs(s) => inv.status == s
  }

  /** `[inv for inv in invs if <criterion>]`. */
  function Where(invs: seq<Invoice>, c: Criterion, lower: string -> string): seq<Invoice> {
    if invs == [] then []
    else (if Satisfies(invs[0], c, lower) then [invs[0]] else []) + Where(invs[1..], c, lower)
  }

  /** The chain of comprehensions in `search_invoices`, in its order. */
  function SearchFilter(invs: seq<Invoice>, q: Query, lower: string -> string): seq<Invoice> {
    var byCustomer := if Given(q.customerName) then Where(invs, CustomerLike(q.customerName.value), lower) else invs;
    var bySupplier := if Given(q.supplierName) then Where(byCustomer, SupplierLike(q.supplierName.value), lower) else byCustomer;
    var byMin := if q.minAmount.Some? then Where(bySupplier, AtLeast(q.minAmount.value), lower) else bySupplier;
    var byMax := if q.maxAmount.Some? then Where(byMin, AtMost(q.maxAmount.value), lower) else byMin;
    if Given(q.status) then Where(byMax, StatusIs(q.status.value), lower) else byMax
  }

  /** An invoice meets every active filter of a query. */
  predicate Conforms(inv: Invoice, q: Query, lower: string -> string) {
    && (Given(q.customerName) ==> Contains(lower(inv.customerName), lower(q.customerName.value)))
    && (Given(q.supplierName) ==> Contains(lower(inv.supplierName), lower(q.supplierName.value)))
    && (q.minAmount.Some? ==> inv.totalAmount >= q.minAmount.value)
    && (q.maxAmount.Some? ==> inv.totalAmount <= q.maxAmount.value)
    && (Given(q.status) ==> inv.status == q.status.value)
  }

  /** The single-pass reference: keep, in order, the invoices that conform. */
  function Select(invs: seq<Invoice>, q: Query, lower: string -> string): seq<Invoice> {
    if invs == [] then []
    else (if Conforms(invs[0], q, lower) then [invs[0]] else []) + Select(invs[1..], q, lower)
  }

  lemma {:induction false} WhereConcat(a: seq<Invoice>, b: seq<Invoice>, c: Criterion, lower: string -> string)
    ensures Where(a + b, c, lower) == Where(a, c, lower) + Where(b, c, lower)
  {
    if a != [] {
      var head := if Satisfies(a[0], c, lower) then [a[0]] else [];
      assert (a + b)[0] == a[0] && (a + b)[1..] == a[1..] + b;
      WhereConcat(a[1..], b, c, lower);
      assert Where(a + b, c, lower) == head + (Where(a[1..], c, lower) + Where(b, c, lower));
      assert head + (Where(a[1..], c, lower) + Where(b, c, lower)) == (head + Where(a[1..], c, lower)) + Where(b, c, lower);
    } else {
      assert a + b == b;
    }
  }

  lemma WhereOne(inv: Invoice, keep: bool, rest: seq<Invoice>, c: Criterion, lower: string -> string)
    ensures Where((if keep then [inv] else []) + rest, c, lower)
         == (if keep && Satisfies(inv, c, lower) then [inv] else []) + Where(rest, c, lower)
  {
    WhereConcat(if keep then [inv] else [], rest, c, lower);
    if keep {
      assert [inv][1..] == [];
    }
  }

  /** The chain of filters keeps exactly what the single conjunctive selection keeps. */
  lemma {:induction false} SearchIsSelect(invs: seq<Invoice>, q: Query, lower: string -> string)
    ensures SearchFilter(invs, q, lower) == Select(invs, q, lower)
  {
    if invs != [] {
      var x, rest := invs[0], invs[1..];
      assert invs == [x] + rest;
      SearchIsSelect(rest, q, lower);
      var k1 := Given(q.customerName) ==> Satisfies(x, CustomerLike(q.customerName.value), lower);
      var k2 := k1 && (Given(q.supplierName) ==> Satisfies(x, SupplierLike(q.supplierName.value), lower));
      var k3 := k2 && (q.minAmount.Some? ==> Satisfies(x, AtLeast(q.minAmount.value), lower));
      var k4 := k3 && (q.maxAmount.Some? ==> Satisfies(x, AtMost(q.maxAmount.value), lower));
      var f1 := if Given(q.customerName) then Where(invs, CustomerLike(q.customerName.value), lower) else invs;
      var g1 := if Given(q.customerName) then Where(rest, CustomerLike(q.customerName.value), lower) else rest;
      if Given(q.customerName) { WhereOne(x, true, rest, CustomerLike(q.customerName.value), lower); }
      assert f1 == (if k1 then [x] else []) + g1;
      var f2 := if Given(q.supplierName) then Where(f1, SupplierLike(q.supplierName.value), lower) else f1;
      var g2 := if Given(q.supplierName) then Where(g1, SupplierLike(q.supplierName.value), lower) else g1;
      if Given(q.supplierName) { WhereOne(x, k1, g1, SupplierLike(q.supplierName.value), lower); }
      assert f2 == (if k2 then [x] else []) + g2;
      var f3 := if q.minAmount.Some? then Where(f2, AtLeast(q.minAmount.value), lower) else f2;
      var g3 := if q.minAmount.Some? then Where(g2, AtLeast(q.minAmount.value), lower) else g2;
      if q.minAmount.Some? { WhereOne(x, k2, g2, AtLeast(q.minAmount.value), lower); }
      assert f3 == (if k3 then [x] else []) + g3;
      var f4 := if q.maxAmount.Some? then Where(f3, AtMost(q.maxAmount.value), lower) else f3;
      var g4 := if q.maxAmount.Some? then Where(g3, AtMost(q.maxAmount.value), lower) else g3;
      if q.maxAmount.Some? { WhereOne(x, k3, g3, AtMost(q.maxAmount.value), lower); }
      assert f4 == (if k4 then [x] else []) + g4;
      if Given(q.status) { WhereOne(x, k4, g4, StatusIs(q.status.value), lower); }
    }
  }

  /** The selection is an order-preserving subsequence of its input. */
  lemma {:induction false} SelectSubsequence(invs: seq<Invoice>, q: Query, lower: string -> string)
    ensures IsSubsequence(Select(invs, q, lower), invs)
  {
    if invs != [] {
      SelectSubsequence(invs[1..], q, lower);
      var s, rest := Select(invs, q, lower), Select(invs[1..], q, lower);
      if Conforms(invs[0], q, lower) {
        assert s == [invs[0]] + rest;
        assert s[0] == invs[0] && s[1..] == rest;
      } else {
        assert s == rest;
      }
    }
  }

  /** An invoice is selected exactly when it is in the input and meets every active filter. */
  lemma {:induction false} SelectMembers(invs: seq<Invoice>, q: Query, lower: string -> string, inv: Invoice)
    ensures inv in Select(invs, q, lower) <==> inv in invs && Conforms(inv, q, lower)
  {
    if invs != [] {
      SelectMembers(invs[1..], q, lower, inv);
      assert invs == [invs[0]] + invs[1..];
    }
  }

  /**
    `search_invoices` keeps, in order, exactly the listed invoices that meet
    every active filter.
   */
  lemma SearchSpec(invs: seq<Invoice>, q: Query, lower: string -> string)
    ensures IsSubsequence(SearchFilter(invs, q, lower), invs)
    ensures forall inv :: inv in SearchFilter(invs, q, lower) <==> inv in invs && Conforms(inv, q, lower)
  {
    SearchIsSelect(invs, q, lower);
    SelectSubsequence(invs, q, lower);
    forall inv ensures inv in Select(invs, q, lower) <==> inv in invs && Conforms(inv, q, lower) {
      SelectMembers(invs, q, lower, inv);
    }
  }

  /**
    A name or status filter given as the empty string is no filter at all,
    each one on its own and whatever the other filters are.
   */
  lemma EmptyTextFiltersInactive(invs: seq<Invoice>, q: Query, lower: string -> string)
    ensures SearchFilter(invs, q.(customerName := Some("")), lower) == SearchFilter(invs, q.(customerName := None), lower)
    ensures SearchFilter(invs, q.(supplierName := Some("")), lower) == SearchFilter(invs, q.(supplierName := None), lower)
    ensures SearchFilter(invs, q.(status := Some("")), lower) == SearchFilter(invs, q.(status := None), lower)
    ensures SearchFilter(invs, Query(Some(""), Some(""), None, None, Some("")), lower) == invs
  {
  }

  /** An amount bound of zero is still applied: a negative total is dropped by a minimum of 0. */
  lemma ZeroMinimumApplies(inv: Invoice, q: Query, lower: string -> string)
    requires q.minAmount == Some(0.0) && inv.totalAmount < 0.0
    ensures SearchFilter([inv], q, lower) == []
  {
    SearchIsSelect([inv], q, lower);
  }

  // ---------------------------------------------------------------- create_invoice

  /** The fields of the draft payload that `create_invoice` fills from the request and the clock. */
  const CopiedKeys: set<string> := {
    "belgeNumarasi", "faturaTarihi", "saat", "paraBirimi", "vknTckn", "aliciUnvan", "aliciAdi",
    "malHizmetTable", "matrah", "malhizmetToplamTutari", "vergilerDahilToplamTutar", "odenecekTutar"}

  /** The fields of the draft payload that are the same for every invoice. */
  const DraftConstants: map<string, Value> := map[
    "dovzTLkur" := Str("0"),
    "faturaTipi" := Str("SATIS"),
    "aliciSoyadi" := Str(""),
    "binaAdi" := Str(""),
    "binaNo" := Str(""),
    "kapiNo" := Str(""),
    "kasabaKoy" := Str(""),
    "vergiDairesi" := Str(""),
    "ulke" := Str("Türkiye"),
    "bulvarcaddesokak" := Str(""),
    "mahalleSemtIlce" := Str(""),
    "sehir" := Str(""),
    "postaKodu" := Str(""),
    "tel" := Str(""),
    "fax" := Str(""),
    "eposta" := Str(""),
    "websitesi" := Str(""),
    "iadeTable" := Arr([]),
    "ozelMatrahTutari" := Str("0"),
    "ozelMatrahOrani" := Num(0.0),
    "ozelMatrahVergiTutari" := Str("0"),
    "vergiCesidi" := Str(" "),
    "tip" := Str("İskonto"),
    "toplamIskonto" := Str("0"),
    "hesaplanankdv" := Str("0"),
    "vergilerToplami" := Str("0"),
    "not" := Str(""),
    "siparisNumarasi" := Str(""),
    "siparisTarihi" := Str(""),
    "irsaliyeNumarasi" := Str(""),
    "irsaliyeTarihi" := Str(""),
    "fisNo" := Str(""),
    "fisTarihi" := Str(""),
    "fisSaati" := Str(" "),
    "fisTipi" := Str(" "),
    "zRaporNo" := Str(""),
    "okcSeriNo" := Str("")
  ]

  /**
    The fields a draft copies from the request and the clock: the number,
    date, currency, customer and items, the `str(...)` rendering `repr` of the
    total in all four amount fields, and the `HH:MM:SS` reading `clockTime`.
   */
  function CopiedFields(req: InvoiceCreateRequest, clockTime: string, repr: real -> string): (m: map<string, Value>)
    ensures m.Keys == CopiedKeys
    ensures m["belgeNumarasi"] == Str(req.invoiceNumber) && m["faturaTarihi"] == Str(req.issueDate)
    ensures m["paraBirimi"] == Str(req.currency) && m["saat"] == Str(clockTime)
    ensures m["vknTckn"] == Str(req.customerVkn)
    ensures m["aliciUnvan"] == Str(req.customerName) && m["aliciAdi"] == Str(req.customerName)
    ensures m["matrah"] == m["malhizmetToplamTutari"] == m["vergilerDahilToplamTutar"] == m["odenecekTutar"] == Str(repr(req.totalAmount))
    ensures m["malHizmetTable"].Arr? && |m["malHizmetTable"].items| == |req.items|
    ensures forall i :: 0 <= i < |req.items| ==> m["malHizmetTable"].items[i] == Obj(req.items[i])
  {
    var amount := Str(repr(req.totalAmount));
    map[
      "belgeNumarasi" := Str(req.invoiceNumber),
      "faturaTarihi" := Str(req.issueDate),
      "saat" := Str(clockTime),
      "paraBirimi" := Str(req.currency),
      "vknTckn" := Str(req.customerVkn),
      "aliciUnvan" := Str(req.customerName),
      "aliciAdi" := Str(req.customerName),
      "malHizmetTable" := Arr(seq(|req.items|, i requires 0 <= i < |req.items| => Obj(req.items[i]))),
      "matrah" := amount,
      "malhizmetToplamTutari" := amount,
      "vergilerDahilToplamTutar" := amount,
      "odenecekTutar" := amount
    ]
  }

  /**
    The draft payload `create_invoice` builds: the copied fields, and the
    fixed values everywhere else.
   */
  function DraftPayload(req: InvoiceCreateRequest, clockTime: string, repr: real -> string): map<string, Value> {
    DraftConstants + CopiedFields(req, clockTime, repr)
  }

  /** Every draft field is either copied or fixed, and the copied ones take precedence. */
  lemma DraftPayloadFields(req: InvoiceCreateRequest, clockTime: string, repr: real -> string)
    ensures var p := DraftPayload(req, clockTime, repr);
      && (forall k :: k in p ==> k in DraftConstants || k in CopiedKeys)
      && (forall k :: k in CopiedKeys ==> k in p && p[k] == CopiedFields(req, clockTime, repr)[k])
      && (forall k :: k in DraftConstants && k !in CopiedKeys ==> k in p && p[k] == DraftConstants[k])
  {
  }

  /** The supplier's tax number and name never reach the draft payload. */
  lemma DraftIgnoresSupplier(req: InvoiceCreateRequest, supplierVkn: string, supplierName: string, clockTime: string, repr: real -> string)
    ensures DraftPayload(req.(supplierVkn := supplierVkn, supplierName := supplierName), clockTime, repr)
         == DraftPayload(req, clockTime, repr)
  {
  }

  /**
    The create-then-sign rule of `create_invoice`: a failure to create is
    raised, a missing id is raised as `NoDraftId`, and a created id is
    returned whether or not signing succeeded; an exception raised while
    signing propagates.
   */
  function CreateThenSign(created: Result<Option<Value>>, signed: Result<bool>): (r: Result<Value>)
    ensures created.Raised? ==> r == Raised(created.failure)
    ensures created.Ok? && (created.value.None? || !Truthy(created.value.value)) ==> r == Raised(NoDraftId)
    ensures r.Ok? ==> created == Ok(Some(r.value)) && Truthy(r.value) && signed.Ok?
    ensures created.Ok? && created.value.Some? && Truthy(created.value.value) && signed.Ok? ==> r == Ok(created.value.value)
    ensures created.Ok? && created.value.Some? && Truthy(created.value.value) && signed.Raised? ==> r == Raised(signed.failure)
  {
    match created
    case Raised(f) => Raised(f)
    case Ok(None) => Raised(NoDraftId)
    case Ok(Some(id)) =>
      if !Truthy(id) then Raised(NoDraftId)
      else if signed.Raised? then Raised(signed.failure)
      else Ok(id)
  }

  /** The outcome of the sign step: no sign request is made unless a draft id came back. */
  function SignStep(net: Request -> Exchange, created: Result<Option<Value>>, signAuth: Result<Option<string>>, signCallId: string): Result<bool> {
    if created.Ok? && created.value.Some? then SignOutcome(net, signAuth, created.value.value, signCallId) else Ok(false)
  }

  /** The portal session and result after `create_invoice` ran from the token `held` and the log `sentBefore`. */
  ghost predicate CreatedOnPortal(p: GibEarsivClient, held: Option<string>, sentBefore: seq<Request>, payload: map<string, Value>,
                                  createCallId: string, signCallId: string, r: Result<Value>)
    reads p
  {
    var auth, h1 := p.Auth(held, sentBefore), sentBefore + p.LoginTrace(held);
    var created := CreateOutcome(p.Net(h1), auth, payload, createCallId);
    var h2 := h1 + (if auth.Ok? then [CreateDraftRequest(auth.value, createCallId, payload)] else []);
    var afterCreate := TokenAfter(held, auth);
    var signAuth, h3 := p.Auth(afterCreate, h2), h2 + p.LoginTrace(afterCreate);
    var signing := created.Ok? && created.value.Some?;
    && r == CreateThenSign(created, SignStep(p.Net(h3), created, signAuth, signCallId))
    && p.token == (if signing then TokenAfter(afterCreate, signAuth) else afterCreate)
    && p.sent == (if signing then h3 + (if signAuth.Ok? then [SignRequest(signAuth.value, signCallId, created.value.value)] else []) else h2)
  }

  /**
    `create_invoice` against the portal client. The portal's `data` is truthy
    whenever present, so `if not invoice_uuid` reduces to a missing id.
   */
  method CreateOnPortal(p: GibEarsivClient, payload: map<string, Value>, createCallId: string, signCallId: string) returns (r: Result<Value>)
    modifies p
    ensures CreatedOnPortal(p, old(p.token), old(p.sent), payload, createCallId, signCallId, r)
    ensures r.Ok? ==> |p.sent| > 0 && p.sent[|p.sent| - 1] == SignRequest(p.token, signCallId, r.value)
  {
    var created := p.CreateDraftInvoice(payload, createCallId);
    if created.Raised? {
      return Raised(created.failure);
    }
    if created.value.None? {
      return Raised(NoDraftId);
    }
    var invoiceUuid := created.value.value;
    var signed := p.SignDraftInvoice(invoiceUuid, signCallId);
    if signed.Raised? {
      return Raised(signed.failure);
    }
    r := Ok(invoiceUuid);
  }

  /**
    `create_invoice` against the demo client: the fresh id is the draft, signing
    always succeeds, so only an empty id is refused.
   */
  function CreateOnDemo(mock: MockData.MockGibEarsivClient, payload: map<string, Value>, freshId: string): (r: Result<Value>)
    ensures freshId == "" ==> r == Raised(NoDraftId)
    ensures freshId != "" ==> r == Ok(Str(freshId))
  {
    var created := MockData.CreateDraftInvoice(mock, payload, freshId);
    var draftId := if created.None? then None else Some(Str(created.value));
    var signed := draftId.Some? && MockData.SignDraftInvoice(mock, draftId.value);
    CreateThenSign(Ok(draftId), Ok(signed))
  }

  // ---------------------------------------------------------------- get_invoice_xml

  const PreviewHeading: string := "Invoice HTML Preview:\n\n"
  const UrlHeading: string := "Download URL (ZIP with XML+HTML):\n"

  /** `html[:500]` for the text of a view; other JSON kinds are not text and make the f-string raise or differ. */
  function Preview(html: Value): (r: Option<string>)
    ensures r.Some? ==> html.Str? && r.value <= html.s && |r.value| <= 500
    ensures html.Str? ==> r == Some(Prefix(html.s, 500))
    ensures html.Str? && |html.s| <= 500 ==> r == Some(html.s)
  {
    match html
    case Str(s) => Some(Prefix(s, 500))
    case _ => None
  }

  /** `if html_content:` on what the view request returned. */
  predicate HasView(html: Option<Value>) {
    html.Some? && Truthy(html.value)
  }

  /**
    The text `get_invoice_xml` returns: a preview of the view and the link when
    a truthy view came back, only the link otherwise; none when there is neither.
   */
  function XmlText(html: Option<Value>, url: string): (r: Option<string>)
    ensures HasView(html) && html.value.Str? ==>
      r == Some(PreviewHeading + Prefix(html.value.s, 500) + "...\n\n" + UrlHeading + url)
    ensures !HasView(html) && url != "" ==> r == Some(UrlHeading + url)
    ensures !HasView(html) && url == "" ==> r == None
    ensures r.Some? ==> |r.value| >= |url| && r.value[|r.value| - |url|..] == url
  {
    if HasView(html) then
      match Preview(html.value)
      case None => None
      case Some(p) => Some(PreviewHeading + p + "...\n\n" + UrlHeading + url)
    else if url != "" then Some(UrlHeading + url)
    else None
  }

  /** `get_invoice_xml` after the view request: an exception gives none. */
  function XmlFrom(viewed: Result<Option<Value>>, url: string): (r: Option<string>)
    ensures viewed.Raised? ==> r == None
    ensures viewed.Ok? ==> r == XmlText(viewed.value, url)
  {
    match viewed
    case Raised(_) => None
    case Ok(html) => XmlText(html, url)
  }

  /** The demo page as the facade sees it: a page counts only when it is non-empty. */
  function DemoView(html: Option<string>): (r: Option<Value>)
    ensures r.Some? ==> Truthy(r.value)
    ensures html.Some? && html.value != "" ==> r == Some(Str(html.value))
    ensures html.None? || html.value == "" ==> r == None
  {
    if html.Some? && html.value != "" then Some(Str(html.value)) else None
  }

  // ---------------------------------------------------------------- the facade

  /** The backend `_initialize_client` installs. */
  datatype Backend = Real(portal: GibEarsivClient) | Demo(mock: MockData.MockGibEarsivClient)

  /** `EFaturaClient`. */
  class EFaturaClient {
    const settings: Settings
    const api: Backend

    /** `_initialize_client`: the portal client when real credentials are configured, the demo backend otherwise. */
    constructor (settings: Settings, serve: (seq<Request>, Request) -> Exchange)
      ensures this.settings == settings
      ensures api.Real? <==> HasRealCredentials(settings.username, settings.password)
      ensures api.Real? ==> (
        && fresh(api.portal)
        && api.portal.username == settings.username && api.portal.password == settings.password
        && api.portal.baseUrl == BaseUrlFor(settings.environment) && api.portal.serve == serve
        && api.portal.token == None && api.portal.sent == [])
      ensures api.Demo? ==> api.mock == MockData.DemoClient(settings.environment)
    {
      this.settings := settings;
      if HasRealCredentials(settings.username, settings.password) {
        var portal := new GibEarsivClient(settings.username, settings.password, settings.environment, serve);
        api := Real(portal);
      } else {
        api := Demo(MockData.DemoClient(settings.environment));
      }
    }

    /** The objects an operation may change: the portal client's session, if there is one. */
    function Portal(): set<object> {
      if api.Real? then {api.portal} else {}
    }

    /** What the backend's `get_invoices` yields now. */
    function Fetched(startDate: string, endDate: string, limit: int, callId: string): Result<seq<Value>>
      reads Portal()
    {
      match api
      case Real(p) => FetchInvoices(p.Net(p.sent + p.LoginTrace(p.token)), p.Auth(p.token, p.sent), startDate, endDate, limit, callId)
      case Demo(m) => Ok(MockData.GetInvoices(m, startDate, endDate, limit))
    }

    /** The portal session after one listing call made from the token `held`. */
    ghost predicate ListedSession(held: Option<string>, sentBefore: seq<Request>, startDate: string, endDate: string, callId: string)
      requires api.Real?
      reads api.portal
    {
      var p := api.portal;
      var auth := p.Auth(held, sentBefore);
      && p.token == TokenAfter(held, auth)
      && p.sent == sentBefore + p.LoginTrace(held) + ListTrace(auth, startDate, endDate, callId)
    }

    /** `list_invoices`. */
    method ListInvoices(startDate: Option<string>, endDate: Option<string>, limit: int, today: string, callId: string) returns (r: seq<Invoice>)
      modifies Portal()
      ensures r == Listed(old(Fetched(StartOr(startDate), EndOr(endDate, today), limit, callId)))
      ensures api.Real? ==> ListedSession(old(api.portal.token), old(api.portal.sent), StartOr(startDate), EndOr(endDate, today), callId)
    {
      var from, to := StartOr(startDate), EndOr(endDate, today);
      var raw: seq<Value>;
      match api {
        case Real(portal) =>
          var fetched := portal.GetInvoices(from, to, limit, callId);
          if fetched.Raised? {
            return [];
          }
          raw := fetched.value;
        case Demo(mock) =>
          raw := MockData.GetInvoices(mock, from, to, limit);
      }
      var invoices := NormalizeRecords(raw);
      r := if invoices.Some? then invoices.value else [];
    }

    /** What the backend's `find_invoice` by UUID yields now. */
    function Found(date: string, invoiceId: string, callId: string): Result<Option<Value>>
      reads Portal()
    {
      match api
      case Real(p) => FindOutcome(FetchInvoices(p.Net(p.sent + p.LoginTrace(p.token)), p.Auth(p.token, p.sent), date, date, 1000, callId), None, Some(invoiceId))
      case Demo(m) => Ok(MockData.FindInvoice(m, date, None, Some(invoiceId)))
    }

    /** `get_invoice_detail`; `yearAgo` is the `YYYY-MM-DD` text of the day 365 days before today. */
    method GetInvoiceDetail(invoiceId: string, yearAgo: string, callId: string) returns (r: Option<Invoice>)
      modifies Portal()
      ensures r == DetailFrom(old(Found(yearAgo, invoiceId, callId)), invoiceId)
      ensures api.Real? ==> ListedSession(old(api.portal.token), old(api.portal.sent), yearAgo, yearAgo, callId)
    {
      var found: Result<Option<Value>>;
      match api {
        case Real(portal) =>
          found := portal.FindInvoice(yearAgo, None, Some(invoiceId), callId);
        case Demo(mock) =>
          found := Ok(MockData.FindInvoice(mock, yearAgo, None, Some(invoiceId)));
      }
      if found.Raised? || found.value.None? || !Truthy(found.value.value) {
        return None;
      }
      r := NormalizeRecord(found.value.value, invoiceId);
    }

    /**
      `create_invoice`: create the draft, raise when no id comes back, sign
      exactly that id, and return it whatever signing answered.
     */
    method CreateInvoice(req: InvoiceCreateRequest, clockTime: string, repr: real -> string, createCallId: string, signCallId: string, freshId: string)
      returns (r: Result<Value>)
      modifies Portal()
      ensures api.Demo? ==> r == CreateOnDemo(api.mock, DraftPayload(req, clockTime, repr), freshId)
      ensures api.Real? ==> CreatedOnPortal(api.portal, old(api.portal.token), old(api.portal.sent),
        DraftPayload(req, clockTime, repr), createCallId, signCallId, r)
    {
      var payload := DraftPayload(req, clockTime, repr);
      match api {
        case Real(portal) =>
          r := CreateOnPortal(portal, payload, createCallId, signCallId);
        case Demo(mock) =>
          r := CreateOnDemo(mock, payload, freshId);
      }
    }

    /** `cancel_invoice`: the backend's answer, false when it raises. */
    method CancelInvoice(invoiceId: string, reason: string, callId: string) returns (r: bool)
      modifies Portal()
      ensures api.Demo? ==> r
      ensures api.Real? ==>
        var p := api.portal;
        var auth, h := p.Auth(old(p.token), old(p.sent)), old(p.sent) + p.LoginTrace(old(p.token));
        && (r <==> CancelOutcome(p.Net(h), auth, invoiceId, reason, callId) == Ok(true))
        && p.token == TokenAfter(old(p.token), auth)
        && p.sent == old(p.sent) + p.LoginTrace(old(p.token)) + (if auth.Ok? then [CancelRequest(auth.value, callId, invoiceId, reason)] else [])
    {
      match api {
        case Real(portal) =>
          var result := portal.CancelDraftInvoice(invoiceId, reason, callId);
          r := result.Ok? && result.value;
        case Demo(mock) =>
          r := MockData.CancelDraftInvoice(mock, invoiceId, reason);
      }
    }

    /** `search_invoices`: up to 100 listed invoices from 2024-01-01 to today, then the filters. */
    method SearchInvoices(q: Query, today: string, callId: string, lower: string -> string) returns (r: seq<Invoice>)
      modifies Portal()
      ensures r == SearchFilter(Listed(old(Fetched("2024-01-01", today, 100, callId))), q, lower)
      ensures api.Real? ==> ListedSession(old(api.portal.token), old(api.portal.sent), "2024-01-01", today, callId)
    {
      var all := ListInvoices(None, None, 100, today, callId);
      var filtered := all;
      if Given(q.customerName) {
        filtered := Where(filtered, CustomerLike(q.customerName.value), lower);
      }
      if Given(q.supplierName) {
        filtered := Where(filtered, SupplierLike(q.supplierName.value), lower);
      }
      if q.minAmount.Some? {
        filtered := Where(filtered, AtLeast(q.minAmount.value), lower);
      }
      if q.maxAmount.Some? {
        filtered := Where(filtered, AtMost(q.maxAmount.value), lower);
      }
      if Given(q.status) {
        filtered := Where(filtered, StatusIs(q.status.value), lower);
      }
      r := filtered;
    }

    /** What the backend's `get_invoice_html` yields now. */
    function Viewed(invoiceId: string, callId: string): Result<Option<Value>>
      reads Portal()
    {
      match api
      case Real(p) => ViewOutcome(p.Net(p.sent + p.LoginTrace(p.token)), p.Auth(p.token, p.sent), invoiceId, callId)
      case Demo(m) => Ok(DemoView(MockData.GetInvoiceHtml(m, invoiceId)))
    }

    /** The backend's download link, read after the view request. */
    function LinkFor(invoiceId: string): string
      reads Portal()
    {
      match api
      case Real(p) => p.GetInvoiceDownloadUrl(invoiceId)
      case Demo(m) => MockData.GetInvoiceDownloadUrl(m, invoiceId)
    }

    /** `get_invoice_xml`: view the invoice, then build the download link from the token held afterwards. */
    method GetInvoiceXml(invoiceId: string, callId: string) returns (r: Option<string>)
      modifies Portal()
      ensures r == XmlFrom(old(Viewed(invoiceId, callId)), LinkFor(invoiceId))
      ensures api.Real? ==>
        var p := api.portal;
        var auth := p.Auth(old(p.token), old(p.sent));
        && p.token == TokenAfter(old(p.token), auth)
        && p.sent == old(p.sent) + p.LoginTrace(old(p.token)) + (if auth.Ok? then [ViewRequest(auth.value, callId, invoiceId)] else [])
    {
      var html: Option<Value>;
      match api {
        case Real(portal) =>
          var viewed := portal.GetInvoiceHtml(invoiceId, callId);
          if viewed.Raised? {
            return None;
          }
          html := viewed.value;
        case Demo(mock) =>
          html := DemoView(MockData.GetInvoiceHtml(mock, invoiceId));
      }
      var url := LinkFor(invoiceId);
      if HasView(html) {
        match html.value {
          case Str(s) =>
            r := Some(PreviewHeading + Prefix(s, 500) + "...\n\n" + UrlHeading + url);
          case _ =>
            r := None;
        }
      } else if url != "" {
        r := Some(UrlHeading + url);
      } else {
        r := None;
      }
    }
  }
}
