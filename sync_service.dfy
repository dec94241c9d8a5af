/**
 * The sync service: fetches stock records from the configured API and
 * applies them, record by record, to the products found by SKU.
 */
module SyncService {
  import opened Wrappers
  import opened ProductStore
  import InventoryManager

  // ----- PHP string helpers -----

  /** The characters PHP's `trim` removes. */
  predicate IsTrimmable(c: char) {
    c == ' ' || c == '\t' || c == '\n' || c == '\r' || c == '\0' || c == '\U{000B}'
  }

  /** The first index at or after `i` holding a character `trim` keeps, or `|s|`. */
  function SkipLeading(s: string, i: nat): (j: nat)
    requires i <= |s|
    ensures i <= j <= |s|
    ensures forall k :: i <= k < j ==> IsTrimmable(s[k])
    ensures j == |s| || !IsTrimmable(s[j])
    decreases |s| - i
  {
    if i < |s| && IsTrimmable(s[i]) then SkipLeading(s, i + 1) else i
  }

  /** The last index at or before `j`, but not before `lo`, after which only characters `trim` removes follow up to `j`. */
  function SkipTrailing(s: string, lo: nat, j: nat): (k: nat)
    requires lo <= j <= |s|
    ensures lo <= k <= j
    ensures forall m :: k <= m < j ==> IsTrimmable(s[m])
    ensures k == lo || !IsTrimmable(s[k - 1])
    decreases j - lo
  {
    if lo < j && IsTrimmable(s[j - 1]) then SkipTrailing(s, lo, j - 1) else j
  }

  /** PHP `trim`: the slice of `s` left after dropping whitespace at both ends. */
  function Trim(s: string): (r: string)
    ensures var i := SkipLeading(s, 0);
      && i + |r| <= |s| && r == s[i..i + |r|]
      && (forall k :: 0 <= k < i ==> IsTrimmable(s[k]))
      && (forall k :: i + |r| <= k < |s| ==> IsTrimmable(s[k]))
    ensures r == [] || (!IsTrimmable(r[0]) && !IsTrimmable(r[|r| - 1]))
  {
    var i := SkipLeading(s, 0);
    var j := SkipTrailing(s, i, |s|);
    assert j > i ==> !IsTrimmable(s[i]) && !IsTrimmable(s[j - 1]);
    s[i..j]
  }

  /** A string with no whitespace at either end is its own trim. */
  lemma TrimKeepsUnpadded(s: string)
    requires s == [] || (!IsTrimmable(s[0]) && !IsTrimmable(s[|s| - 1]))
    ensures Trim(s) == s
  {
    if s != [] {
      assert SkipLeading(s, 0) == 0;
      assert SkipTrailing(s, 0, |s|) == |s|;
    }
  }

  /** An endpoint made only of whitespace trims to nothing. */
  lemma BlankTrimsToEmpty(s: string)
    requires forall k :: 0 <= k < |s| ==> IsTrimmable(s[k])
    ensures Trim(s) == ""
  {
  }

  predicate IsKeyChar(c: char) {
    ('a' <= c <= 'z') || ('0' <= c <= '9') || c == '_' || c == '-'
  }

  /** WordPress `sanitize_key`: lower-case, then keep only `[a-z0-9_-]`. */
  function SanitizeKey(s: string): (r: string)
    ensures |r| <= |s|
    ensures forall i :: 0 <= i < |r| ==> IsKeyChar(r[i])
  {
    if s == [] then []
    else
      var c := if 'A' <= s[0] <= 'Z' then (s[0] as int + 32) as char else s[0];
      (if IsKeyChar(c) then [c] else []) + SanitizeKey(s[1..])
  }

  /** A string that is already a key is left as it is. */
  lemma {:induction false} SanitizeKeyKeepsKeys(s: string)
    requires forall i :: 0 <= i < |s| ==> IsKeyChar(s[i])
    ensures SanitizeKey(s) == s
  {
    if s != [] {
      SanitizeKeyKeepsKeys(s[1..]);
    }
  }

  /** A character that is neither an ASCII letter nor a key character is dropped. */
  lemma SanitizeKeyDropsOthers(c: char, s: string)
    requires !('A' <= c <= 'Z') && !IsKeyChar(c)
    ensures SanitizeKey([c] + s) == SanitizeKey(s)
  {
    assert ([c] + s)[1..] == s;
  }

  /** Sanitising works character by character: a concatenation sanitises to the concatenation of the parts. */
  lemma {:induction false} SanitizeKeyAppend(a: string, b: string)
    ensures SanitizeKey(a + b) == SanitizeKey(a) + SanitizeKey(b)
    decreases |a|
  {
    if a == [] {
      assert a + b == b;
    } else {
      assert (a + b)[1..] == a[1..] + b;
      assert (a + b)[0] == a[0];
      SanitizeKeyAppend(a[1..], b);
    }
  }

  /** A stray character between two keys is dropped: "in stock" becomes `instock`, "in-stock!" stays `in-stock`. */
  lemma SanitizeKeyJoinsKeys(x: string, c: char, y: string)
    requires forall i :: 0 <= i < |x| ==> IsKeyChar(x[i])
    requires forall i :: 0 <= i < |y| ==> IsKeyChar(y[i])
    requires !('A' <= c <= 'Z') && !IsKeyChar(c)
    ensures SanitizeKey(x + [c] + y) == x + y
  {
    var t := [c] + y;
    assert x + [c] + y == x + t;
    calc {
      SanitizeKey(x + t);
      { SanitizeKeyAppend(x, t); }
      SanitizeKey(x) + SanitizeKey(t);
      { SanitizeKeyKeepsKeys(x); SanitizeKeyDropsOthers(c, y); }
      x + SanitizeKey(y);
      { SanitizeKeyKeepsKeys(y); }
      x + y;
    }
  }

  /** Sanitising a key twice gives the key once. */
  lemma SanitizeKeyIdempotent(s: string)
    ensures SanitizeKey(SanitizeKey(s)) == SanitizeKey(s)
  {
    SanitizeKeyKeepsKeys(SanitizeKey(s));
  }

  /** Upper-case ASCII letters are folded, one for one: "InStock" is read as `instock`. */
  lemma {:induction false} SanitizeKeyFoldsCase(s: string)
    requires forall i :: 0 <= i < |s| ==> 'A' <= s[i] <= 'Z' || IsKeyChar(s[i])
    ensures |SanitizeKey(s)| == |s|
    ensures forall i :: 0 <= i < |s| ==>
      SanitizeKey(s)[i] == if 'A' <= s[i] <= 'Z' then (s[i] as int + 32) as char else s[i]
  {
    if s != [] {
      SanitizeKeyFoldsCase(s[1..]);
    }
  }

  /** PHP `empty` on a string: the empty string and "0". */
  predicate PhpEmpty(s: string) {
    s == "" || s == "0"
  }

  /** Decimal digits of `n`, as PHP's `%d` prints them. */
  function Decimal(n: int): string
    decreases if n < 0 then 1 - n else n
  {
    if n < 0 then "-" + Decimal(-n)
    else if n < 10 then [['0', '1', '2', '3', '4', '5', '6', '7', '8', '9'][n]]
    else Decimal(n / 10) + Decimal(n % 10)
  }

  // ----- Errors -----

  /** A `WP_Error`: a machine-readable code and a message. */
  datatype WpError = WpError(code: string, message: string)

  const EndpointMissing := WpError("siti_stock_missing_endpoint", "Geen API-endpoint ingesteld.")
  const BadJsonError := WpError("siti_stock_bad_json", "Kan de API-respons niet parseren.")
  const MissingWcError := WpError("siti_stock_missing_wc", "WooCommerce is vereist voor de Siti Stock Plugin.")

  function BadResponseError(status: int): WpError {
    WpError("siti_stock_bad_response", "API gaf een onverwachte status terug (" + Decimal(status) + ").")
  }

  /** The error recorded for a SKU that no product has. */
  function NoProductMessage(sku: string): string {
    "Geen product gevonden met SKU " + sku + "."
  }

  // ----- Settings -----

  /** The settings the service is built from; None where a key is missing. */
  datatype RawSettings = RawSettings(
    apiEndpoint: Option<string>,
    apiKey: Option<string>,
    defaultStatus: Option<string>,
    enableAutoSync: Option<bool>)

  datatype Settings = Settings(apiEndpoint: string, apiKey: string, defaultStatus: string, enableAutoSync: bool)

  /** The constructor's defaults for missing keys. */
  function WithDefaults(raw: RawSettings): (s: Settings)
    ensures raw.apiEndpoint.None? ==> s.apiEndpoint == ""
    ensures raw.apiKey.None? ==> s.apiKey == ""
    ensures raw.defaultStatus.None? ==> s.defaultStatus == InStock
    ensures raw.enableAutoSync.None? ==> !s.enableAutoSync
    ensures raw.apiEndpoint.Some? ==> s.apiEndpoint == raw.apiEndpoint.value
    ensures raw.apiKey.Some? ==> s.apiKey == raw.apiKey.value
    ensures raw.defaultStatus.Some? ==> s.defaultStatus == raw.defaultStatus.value
    ensures raw.enableAutoSync.Some? ==> s.enableAutoSync == raw.enableAutoSync.value
  {
    Settings(raw.apiEndpoint.GetOr(""), raw.apiKey.GetOr(""), raw.defaultStatus.GetOr(InStock), raw.enableAutoSync.GetOr(false))
  }

  // ----- Fetching -----

  /** The GET request sent to the stock API. */
  datatype Request = Request(url: string, timeout: nat, headers: map<string, string>)

  /** A JSON body as decoded: not JSON at all, JSON but not an array, or an array of records. */
  datatype Payload = Unparseable | NotAnArray | Records(records: seq<StockRecord>)

  /** What `wp_remote_get` gives back: a transport error or an HTTP response. */
  datatype Response = Transport(error: WpError) | Http(status: int, body: Payload)

  const RequestTimeout := 15

  /** The request for the configured endpoint, or the missing-endpoint error. */
  function BuildRequest(settings: Settings): (r: Result<Request, WpError>)
    ensures r.Failure? <==> PhpEmpty(Trim(settings.apiEndpoint))
    ensures r.Failure? ==> r.error == EndpointMissing
    ensures r.Success? ==> r.value.url == Trim(settings.apiEndpoint) && r.value.timeout == 15
    ensures r.Success? ==> "Accept" in r.value.headers && r.value.headers["Accept"] == "application/json"
    ensures r.Success? ==> ("Authorization" in r.value.headers <==> !PhpEmpty(settings.apiKey))
    ensures r.Success? && !PhpEmpty(settings.apiKey) ==> r.value.headers["Authorization"] == "Bearer " + Trim(settings.apiKey)
    ensures r.Success? ==> r.value.headers.Keys <= {"Accept", "Authorization"}
  {
    var endpoint := Trim(settings.apiEndpoint);
    if PhpEmpty(endpoint) then Failure(EndpointMissing)
    else
      var headers := map["Accept" := "application/json"];
      var headers := if PhpEmpty(settings.apiKey) then headers
                     else headers["Authorization" := "Bearer " + Trim(settings.apiKey)];
      Success(Request(endpoint, RequestTimeout, headers))
  }

  /** The validation chain applied to the API's response. */
  function CheckResponse(response: Response): (r: Result<seq<StockRecord>, WpError>)
    ensures response.Transport? ==> r == Failure(response.error)
    ensures response.Http? && !(200 <= response.status < 300) ==> r == Failure(BadResponseError(response.status))
    ensures response.Http? && 200 <= response.status < 300 && !response.body.Records? ==> r == Failure(BadJsonError)
    ensures r.Success? <==> response.Http? && 200 <= response.status < 300 && response.body.Records?
    ensures r.Success? ==> r.value == response.body.records
  {
    match response
    case Transport(error) => Failure(error)
    case Http(status, body) =>
      if status < 200 || status >= 300 then Failure(BadResponseError(status))
      else if !body.Records? then Failure(BadJsonError)
      else Success(body.records)
  }

  /** `fetch_remote_stock`, with `send` standing for the HTTP round trip. */
  function FetchRemoteStock(settings: Settings, send: Request -> Response): (r: Result<seq<StockRecord>, WpError>)
    ensures PhpEmpty(Trim(settings.apiEndpoint)) ==> r == Failure(EndpointMissing)
    ensures !PhpEmpty(Trim(settings.apiEndpoint)) ==> r == CheckResponse(send(BuildRequest(settings).value))
  {
    match BuildRequest(settings)
    case Failure(e) => Failure(e)
    case Success(request) => CheckResponse(send(request))
  }

  /** Without an endpoint the fetch fails the same way whatever the network would answer: no request is made. */
  lemma MissingEndpointSendsNothing(settings: Settings, send1: Request -> Response, send2: Request -> Response)
    requires PhpEmpty(Trim(settings.apiEndpoint))
    ensures FetchRemoteStock(settings, send1) == FetchRemoteStock(settings, send2) == Failure(EndpointMissing)
  {
  }

  /** With an endpoint, exactly one request is sent and its answer decides the fetch. */
  lemma FetchUsesOneResponse(settings: Settings, send: Request -> Response)
    requires !PhpEmpty(Trim(settings.apiEndpoint))
    ensures BuildRequest(settings).Success?
    ensures FetchRemoteStock(settings, send) == CheckResponse(send(BuildRequest(settings).value))
  {
  }

  // ----- Records -----

  /** A JSON object field: missing, present as `null`, or present with a value. */
  datatype Json<T> = Absent | Null | Value(value: T) {
    /** PHP `isset`: present and not null. */
    predicate IsSet() { Value? }
    /** PHP `array_key_exists`: present, null or not. */
    predicate KeyExists() { !Absent? }
  }

  /** PHP `(int)` of a present field: `null` becomes 0. */
  function IntOf(field: Json<int>): int
    requires field.KeyExists()
  {
    if field.Null? then 0 else field.value
  }

  /** One entry of the stock feed. */
  datatype StockRecord = StockRecord(sku: Json<string>, stockQuantity: Json<int>, status: Json<string>, externalStock: Json<int>)

  /** The record's SKU, trimmed as `sanitize_text_field` does, or "" when it has none. */
  function RecordSku(record: StockRecord): string {
    if record.sku.IsSet() then Trim(record.sku.value) else ""
  }

  /** A SKU of blanks is read as no SKU and skipped without an error. */
  lemma BlankSkuSkippedSilently(record: StockRecord, skuIndex: map<string, int>, loadable: set<int>)
    requires record.sku.IsSet()
    requires forall k :: 0 <= k < |record.sku.value| ==> IsTrimmable(record.sku.value[k])
    ensures Classify(record, skuIndex, loadable) == SkippedSilently
  {
    BlankTrimsToEmpty(record.sku.value);
  }

  predicate IsKnownStatus(s: string) {
    s == InStock || s == OutOfStock || s == OnBackorder
  }

  /** The configured default status when it is `instock` or `outofstock`, else `instock`. */
  function EffectiveDefaultStatus(configured: string): (s: string)
    ensures s == InStock || s == OutOfStock
    ensures (configured == InStock || configured == OutOfStock) <==> s == configured
  {
    if configured == InStock || configured == OutOfStock then configured else InStock
  }

  /** The record's status when it is a known one, else the default. */
  function RecordStatus(record: StockRecord, defaultStatus: string): (s: string)
    ensures record.status.IsSet() && IsKnownStatus(SanitizeKey(record.status.value)) ==> s == SanitizeKey(record.status.value)
    ensures !(record.status.IsSet() && IsKnownStatus(SanitizeKey(record.status.value))) ==> s == defaultStatus
  {
    var status := if record.status.IsSet() then SanitizeKey(record.status.value) else defaultStatus;
    if IsKnownStatus(status) then status else defaultStatus
  }

  /** What happens to one record. */
  datatype Outcome = SkippedSilently | SkippedUnknownSku(sku: string) | Updated(id: int)

  /** `empty`, unknown SKU, product that does not load, or an update of the product found. */
  function Classify(record: StockRecord, skuIndex: map<string, int>, loadable: set<int>): (o: Outcome)
    ensures o.SkippedUnknownSku? <==> !PhpEmpty(RecordSku(record)) && ProductIdBySku(skuIndex, RecordSku(record)) == 0
    ensures o.SkippedUnknownSku? ==> o.sku == RecordSku(record)
    ensures o.Updated? <==>
      !PhpEmpty(RecordSku(record)) && ProductIdBySku(skuIndex, RecordSku(record)) != 0 && ProductIdBySku(skuIndex, RecordSku(record)) in loadable
    ensures o.Updated? ==> o.id == ProductIdBySku(skuIndex, RecordSku(record))
  {
    var sku := RecordSku(record);
    if PhpEmpty(sku) then SkippedSilently
    else
      var id := ProductIdBySku(skuIndex, sku);
      if id == 0 then SkippedUnknownSku(sku)
      else if id !in loadable then SkippedSilently
      else Updated(id)
  }

  /** Staged writes for one updated product: manage-stock and quantity, external meta, status. */
  function RecordWrites(record: StockRecord): nat {
    (if record.stockQuantity.IsSet() then 2 else 0) + (if record.externalStock.KeyExists() then 1 else 0) + 1
  }

  /** What one record does to the product it updates, including its one save. */
  function ApplyRecord(state: Snapshot, record: StockRecord, defaultStatus: string): (after: Snapshot)
    ensures record.stockQuantity.IsSet() ==>
      after.fields.managesStock && after.fields.local == record.stockQuantity.value
    ensures !record.stockQuantity.IsSet() ==>
      after.fields.managesStock == state.fields.managesStock && after.fields.local == state.fields.local
    ensures record.externalStock.KeyExists() ==>
      after.fields.externalMeta >= 0 && after.fields.externalMeta == InventoryManager.ExternalStock(IntOf(record.externalStock))
    ensures !record.externalStock.KeyExists() ==> after.fields.externalMeta == state.fields.externalMeta
    ensures after.fields.status == RecordStatus(record, defaultStatus)
    ensures after.saves == state.saves + 1 && after.writes == state.writes + RecordWrites(record)
  {
    var f := state.fields;
    var f := if record.stockQuantity.IsSet() then f.(managesStock := true, local := record.stockQuantity.value) else f;
    var f := if record.externalStock.KeyExists() then f.(externalMeta := InventoryManager.ExternalStock(IntOf(record.externalStock))) else f;
    var f := f.(status := RecordStatus(record, defaultStatus));
    Snapshot(f, state.writes + RecordWrites(record), state.saves + 1)
  }

  /** The result of a run: products updated, records skipped, and messages for unknown SKUs. */
  datatype Summary = Summary(updated: nat, skipped: nat, errors: seq<string>)

  function Tally(summary: Summary, outcome: Outcome): Summary {
    match outcome
    case SkippedSilently => summary.(skipped := summary.skipped + 1)
    case SkippedUnknownSku(sku) => summary.(skipped := summary.skipped + 1, errors := summary.errors + [NoProductMessage(sku)])
    case Updated(_) => summary.(updated := summary.updated + 1)
  }

  /** The summary after walking `records` in order. */
  function Summarize(records: seq<StockRecord>, skuIndex: map<string, int>, loadable: set<int>): (s: Summary)
    ensures s.updated + s.skipped == |records|
    ensures |s.errors| <= s.skipped
    decreases |records|
  {
    if records == [] then Summary(0, 0, [])
    else Tally(Summarize(records[..|records| - 1], skuIndex, loadable), Classify(records[|records| - 1], skuIndex, loadable))
  }

  /** Walking one more record tallies its outcome onto the summary so far. */
  lemma SummarizeLast(records: seq<StockRecord>, last: StockRecord, skuIndex: map<string, int>, loadable: set<int>)
    ensures Summarize(records + [last], skuIndex, loadable)
      == Tally(Summarize(records, skuIndex, loadable), Classify(last, skuIndex, loadable))
  {
    assert (records + [last])[..|records|] == records;
  }

  /** Walking one more record applies its step to the states so far. */
  lemma ApplyAllLast(records: seq<StockRecord>, last: StockRecord, defaultStatus: string, skuIndex: map<string, int>,
                     before: map<int, Snapshot>)
    ensures ApplyAll(records + [last], defaultStatus, skuIndex, before)
      == Step(ApplyAll(records, defaultStatus, skuIndex, before), last, defaultStatus, skuIndex)
  {
    assert (records + [last])[..|records|] == records;
  }

  /** The product states after walking `records` in order: each update lands on the state left by the ones before. */
  function ApplyAll(records: seq<StockRecord>, defaultStatus: string, skuIndex: map<string, int>, before: map<int, Snapshot>)
    : (after: map<int, Snapshot>)
    ensures after.Keys == before.Keys
    decreases |records|
  {
    if records == [] then before
    else
      var prev := ApplyAll(records[..|records| - 1], defaultStatus, skuIndex, before);
      var last := records[|records| - 1];
      Step(prev, last, defaultStatus, skuIndex)
  }

  /** One record applied to the product states; the loadable products are those with a state. */
  function Step(states: map<int, Snapshot>, record: StockRecord, defaultStatus: string, skuIndex: map<string, int>)
    : (after: map<int, Snapshot>)
    ensures after.Keys == states.Keys
  {
    match Classify(record, skuIndex, states.Keys)
    case Updated(id) => states[id := ApplyRecord(states[id], record, defaultStatus)]
    case _ => states
  }

  // ----- Reference definitions and what the applier promises -----

  /** No product is left with unsaved changes: a product whose state differs after the run was saved more. */
  lemma {:induction false} ChangesAreSaved(records: seq<StockRecord>, defaultStatus: string, skuIndex: map<string, int>,
                                           before: map<int, Snapshot>, id: int)
    requires id in before
    ensures var after := ApplyAll(records, defaultStatus, skuIndex, before);
      after[id].saves >= before[id].saves && (after[id] != before[id] ==> after[id].saves > before[id].saves)
    decreases |records|
  {
    if records != [] {
      ChangesAreSaved(records[..|records| - 1], defaultStatus, skuIndex, before, id);
    }
  }

  /** The SKUs, in record order, that are not empty and that no product has. */
  function UnknownSkus(records: seq<StockRecord>, skuIndex: map<string, int>): seq<string> {
    if records == [] then []
    else
      var sku := RecordSku(records[0]);
      (if !PhpEmpty(sku) && ProductIdBySku(skuIndex, sku) == 0 then [sku] else []) + UnknownSkus(records[1..], skuIndex)
  }

  lemma {:induction false} UnknownSkusAppend(records: seq<StockRecord>, record: StockRecord, skuIndex: map<string, int>)
    ensures UnknownSkus(records + [record], skuIndex) ==
      UnknownSkus(records, skuIndex) + UnknownSkus([record], skuIndex)
  {
    if records != [] {
      assert (records + [record])[1..] == records[1..] + [record];
      UnknownSkusAppend(records[1..], record, skuIndex);
    }
  }

  /** Errors are recorded exactly for the unknown SKUs, one message each, in record order. */
  lemma {:induction false} ErrorsNameUnknownSkus(records: seq<StockRecord>, skuIndex: map<string, int>, loadable: set<int>)
    ensures var errors := Summarize(records, skuIndex, loadable).errors;
      var skus := UnknownSkus(records, skuIndex);
      |errors| == |skus| && forall k :: 0 <= k < |skus| ==> errors[k] == NoProductMessage(skus[k])
    decreases |records|
  {
    if records != [] {
      var init, last := records[..|records| - 1], records[|records| - 1];
      assert records == init + [last];
      ErrorsNameUnknownSkus(init, skuIndex, loadable);
      UnknownSkusAppend(init, last, skuIndex);
      var before := Summarize(init, skuIndex, loadable).errors;
      var outcome := Classify(last, skuIndex, loadable);
      if outcome.SkippedUnknownSku? {
        assert UnknownSkus([last], skuIndex) == [outcome.sku];
        assert Summarize(records, skuIndex, loadable).errors == before + [NoProductMessage(outcome.sku)];
      } else {
        assert UnknownSkus([last], skuIndex) == [];
        assert Summarize(records, skuIndex, loadable).errors == before;
      }
    }
  }

  /** How many records update some product. */
  function Updates(records: seq<StockRecord>, skuIndex: map<string, int>, loadable: set<int>): nat {
    if records == [] then 0
    else (if Classify(records[0], skuIndex, loadable).Updated? then 1 else 0) + Updates(records[1..], skuIndex, loadable)
  }

  lemma {:induction false} UpdatesAppend(records: seq<StockRecord>, record: StockRecord, skuIndex: map<string, int>, loadable: set<int>)
    ensures Updates(records + [record], skuIndex, loadable) ==
      Updates(records, skuIndex, loadable) + (if Classify(record, skuIndex, loadable).Updated? then 1 else 0)
  {
    if records != [] {
      assert (records + [record])[1..] == records[1..] + [record];
      UpdatesAppend(records[1..], record, skuIndex, loadable);
    }
  }

  /** `updated` counts exactly the records that update a product; every other record is a skip. */
  lemma {:induction false} UpdatedCountsUpdates(records: seq<StockRecord>, skuIndex: map<string, int>, loadable: set<int>)
    ensures Summarize(records, skuIndex, loadable).updated == Updates(records, skuIndex, loadable)
    ensures Summarize(records, skuIndex, loadable).skipped == |records| - Updates(records, skuIndex, loadable)
    decreases |records|
  {
    if records != [] {
      var init, last := records[..|records| - 1], records[|records| - 1];
      assert records == init + [last];
      UpdatedCountsUpdates(init, skuIndex, loadable);
      UpdatesAppend(init, last, skuIndex, loadable);
    }
  }

  /** How many records update the product `id`. */
  function UpdatesOf(records: seq<StockRecord>, skuIndex: map<string, int>, loadable: set<int>, id: int): nat {
    if records == [] then 0
    else (if Classify(records[0], skuIndex, loadable) == Updated(id) then 1 else 0) + UpdatesOf(records[1..], skuIndex, loadable, id)
  }

  lemma {:induction false} UpdatesOfAppend(records: seq<StockRecord>, record: StockRecord, skuIndex: map<string, int>, loadable: set<int>, id: int)
    ensures UpdatesOf(records + [record], skuIndex, loadable, id) ==
      UpdatesOf(records, skuIndex, loadable, id) + (if Classify(record, skuIndex, loadable) == Updated(id) then 1 else 0)
  {
    if records != [] {
      assert (records + [record])[1..] == records[1..] + [record];
      UpdatesOfAppend(records[1..], record, skuIndex, loadable, id);
    }
  }

  /**
   * Every product is saved once per record that updates it and not otherwise;
   * a product no record updates keeps its state.
   */
  lemma {:induction false} OneSavePerUpdate(records: seq<StockRecord>, defaultStatus: string, skuIndex: map<string, int>,
                                            before: map<int, Snapshot>, id: int)
    requires id in before
    ensures ApplyAll(records, defaultStatus, skuIndex, before)[id].saves ==
      before[id].saves + UpdatesOf(records, skuIndex, before.Keys, id)
    ensures UpdatesOf(records, skuIndex, before.Keys, id) == 0 ==> ApplyAll(records, defaultStatus, skuIndex, before)[id] == before[id]
    decreases |records|
  {
    if records != [] {
      var init, last := records[..|records| - 1], records[|records| - 1];
      assert records == init + [last];
      OneSavePerUpdate(init, defaultStatus, skuIndex, before, id);
      UpdatesOfAppend(init, last, skuIndex, before.Keys, id);
    }
  }

  /** No run of the applier leaves a negative external stock behind where there was none. */
  lemma {:induction false} ExternalStockStaysNonNegative(records: seq<StockRecord>, defaultStatus: string, skuIndex: map<string, int>,
                                                         before: map<int, Snapshot>, id: int)
    requires id in before && before[id].fields.externalMeta >= 0
    ensures ApplyAll(records, defaultStatus, skuIndex, before)[id].fields.externalMeta >= 0
    decreases |records|
  {
    if records != [] {
      ExternalStockStaysNonNegative(records[..|records| - 1], defaultStatus, skuIndex, before, id);
    }
  }

  /** A record carrying local 3 and external 7 makes the product's combined stock 10. */
  lemma CombinedAfterRecord(state: Snapshot, defaultStatus: string)
    ensures var record := StockRecord(Value("A"), Value(3), Absent, Value(7));
      InventoryManager.CombinedStock(ApplyRecord(state, record, defaultStatus).fields) == 10
  {
  }

  /** How each record of the mixed batch below is classified. */
  lemma MixedBatchOutcomes()
    ensures Classify(StockRecord(Value("A"), Value(10), Value(InStock), Absent), map["A" := 1], {1}) == Updated(1)
    ensures Classify(StockRecord(Value(""), Absent, Absent, Absent), map["A" := 1], {1}) == SkippedSilently
    ensures Classify(StockRecord(Value("MISSING"), Absent, Absent, Absent), map["A" := 1], {1}) == SkippedUnknownSku("MISSING")
  {
    TrimKeepsUnpadded("A");
    TrimKeepsUnpadded("MISSING");
  }

  /** A run over a known SKU, an empty SKU and an unknown SKU. */
  lemma MixedBatchSummary()
    ensures var records := [StockRecord(Value("A"), Value(10), Value(InStock), Absent),
                            StockRecord(Value(""), Absent, Absent, Absent),
                            StockRecord(Value("MISSING"), Absent, Absent, Absent)];
      Summarize(records, map["A" := 1], {1}) == Summary(1, 2, [NoProductMessage("MISSING")])
  {
    var r0 := StockRecord(Value("A"), Value(10), Value(InStock), Absent);
    var r1 := StockRecord(Value(""), Absent, Absent, Absent);
    var r2 := StockRecord(Value("MISSING"), Absent, Absent, Absent);
    var index, loadable := map["A" := 1], {1};
    MixedBatchOutcomes();
    SummarizeLast([], r0, index, loadable);
    SummarizeLast([r0], r1, index, loadable);
    SummarizeLast([r0, r1], r2, index, loadable);
    assert [] + [r0] == [r0] && [r0] + [r1] == [r0, r1] && [r0, r1] + [r2] == [r0, r1, r2];
  }

  // ----- A whole run -----

  /** The result and the product states after applying `records`. */
  function ApplyOutcome(records: seq<StockRecord>, settings: Settings, catalog: Catalog, before: map<int, Snapshot>)
    : (Result<Summary, WpError>, map<int, Snapshot>)
  {
    if !catalog.wcActive then (Failure(MissingWcError), before)
    else
      (Success(Summarize(records, catalog.skuIndex, before.Keys)),
       ApplyAll(records, EffectiveDefaultStatus(settings.defaultStatus), catalog.skuIndex, before))
  }

  /** The result and the product states after a sync: a failed fetch changes nothing. */
  function SyncOutcome(settings: Settings, send: Request -> Response, catalog: Catalog, before: map<int, Snapshot>)
    : (Result<Summary, WpError>, map<int, Snapshot>)
  {
    match FetchRemoteStock(settings, send)
    case Failure(e) => (Failure(e), before)
    case Success(records) => ApplyOutcome(records, settings, catalog, before)
  }

  /** A failed fetch ends the run with its error before any record is applied. */
  lemma FetchFailureAppliesNothing(settings: Settings, send: Request -> Response, catalog: Catalog, before: map<int, Snapshot>)
    requires FetchRemoteStock(settings, send).Failure?
    ensures SyncOutcome(settings, send, catalog, before) == (Failure(FetchRemoteStock(settings, send).error), before)
  {
  }

  /** Without WooCommerce the applier refuses before touching any record. */
  lemma MissingWooCommerceAppliesNothing(records: seq<StockRecord>, settings: Settings, catalog: Catalog, before: map<int, Snapshot>)
    requires !catalog.wcActive
    ensures ApplyOutcome(records, settings, catalog, before) == (Failure(MissingWcError), before)
  {
  }

  class SyncService {
    const settings: Settings

    constructor (raw: RawSettings)
      ensures settings == WithDefaults(raw)
    {
      settings := WithDefaults(raw);
    }

    /** `sync`: fetch, then apply; a fetch error is returned as it is. */
    method Sync(send: Request -> Response, catalog: Catalog) returns (r: Result<Summary, WpError>)
      requires catalog.Valid()
      modifies catalog.products.Values
      ensures (r, States(catalog)) == SyncOutcome(settings, send, catalog, old(States(catalog)))
    {
      var data := FetchRemoteStock(settings, send);
      if data.Failure? {
        return Failure(data.error);
      }
      r := ApplyStockUpdates(data.value, catalog);
    }

    /** The body of the loop for a product found: stage the record's fields, then save once. */
    method UpdateProduct(product: Product, record: StockRecord, defaultStatus: string)
      modifies product
      ensures product.State() == ApplyRecord(old(product.State()), record, defaultStatus)
    {
      var status := RecordStatus(record, defaultStatus);
      if record.stockQuantity.IsSet() {
        product.SetManageStock(true);
        product.SetStockQuantity(record.stockQuantity.value);
      }
      if record.externalStock.KeyExists() {
        product.UpdateExternalMeta(InventoryManager.ExternalStock(IntOf(record.externalStock)));
      }
      product.SetStockStatus(status);
      product.Save();
    }

    /** Update the product loaded for `productId`; no other product changes. */
    method UpdateLoaded(productId: int, record: StockRecord, catalog: Catalog, defaultStatus: string)
      requires catalog.Valid() && productId in catalog.products
      modifies catalog.products[productId]
      ensures States(catalog) == old(States(catalog))[productId := ApplyRecord(old(States(catalog))[productId], record, defaultStatus)]
    {
      var product := catalog.products[productId];
      ghost var prev := States(catalog);
      UpdateProduct(product, record, defaultStatus);
      forall j | j in catalog.products
        ensures States(catalog)[j] == prev[productId := product.State()][j]
      {
        if j != productId {
          assert catalog.products[j] != product;
        }
      }
    }

    /** The lookup in `apply_stock_updates`: the record's SKU, its product id, and whether that id loads. */
    method LookUp(record: StockRecord, catalog: Catalog) returns (o: Outcome)
      ensures o == Classify(record, catalog.skuIndex, catalog.products.Keys)
    {
      var sku := RecordSku(record);
      if PhpEmpty(sku) {
        return SkippedSilently;
      }
      var productId := ProductIdBySku(catalog.skuIndex, sku);
      if productId == 0 {
        return SkippedUnknownSku(sku);
      }
      if productId !in catalog.products {
        return SkippedSilently;
      }
      return Updated(productId);
    }

    /** One pass of the loop in `apply_stock_updates`: look the record up, then update and save the product found. */
    method ApplyRecordTo(record: StockRecord, catalog: Catalog, defaultStatus: string, summary: Summary) returns (next: Summary)
      requires catalog.Valid()
      modifies catalog.products.Values
      ensures next == Tally(summary, Classify(record, catalog.skuIndex, catalog.products.Keys))
      ensures States(catalog) == Step(old(States(catalog)), record, defaultStatus, catalog.skuIndex)
    {
      var outcome := LookUp(record, catalog);
      ghost var prev := States(catalog);
      assert outcome == Classify(record, catalog.skuIndex, prev.Keys);
      match outcome
      case SkippedSilently =>
        assert Step(prev, record, defaultStatus, catalog.skuIndex) == prev;
        next := summary.(skipped := summary.skipped + 1);
      case SkippedUnknownSku(sku) =>
        assert Step(prev, record, defaultStatus, catalog.skuIndex) == prev;
        next := summary.(skipped := summary.skipped + 1, errors := summary.errors + [NoProductMessage(sku)]);
      case Updated(productId) =>
        UpdateLoaded(productId, record, catalog, defaultStatus);
        next := summary.(updated := summary.updated + 1);
    }

    /** `apply_stock_updates`: walk the records in order, updating and saving each product found. */
    method ApplyStockUpdates(records: seq<StockRecord>, catalog: Catalog) returns (r: Result<Summary, WpError>)
      requires catalog.Valid()
      modifies catalog.products.Values
      ensures (r, States(catalog)) == ApplyOutcome(records, settings, catalog, old(States(catalog)))
    {
      if !catalog.wcActive {
        return Failure(MissingWcError);
      }
      ghost var before := States(catalog);
      assert before.Keys == catalog.products.Keys;
      var defaultStatus := EffectiveDefaultStatus(settings.defaultStatus);
      var summary := Summary(0, 0, []);
      for i := 0 to |records|
        invariant summary == Summarize(records[..i], catalog.skuIndex, before.Keys)
        invariant States(catalog) == ApplyAll(records[..i], defaultStatus, catalog.skuIndex, before)
      {
        assert records[..i + 1] == records[..i] + [records[i]];
        SummarizeLast(records[..i], records[i], catalog.skuIndex, before.Keys);
        ApplyAllLast(records[..i], records[i], defaultStatus, catalog.skuIndex, before);
        summary := ApplyRecordTo(records[i], catalog, defaultStatus, summary);
      }
      assert records[..|records|] == records;
      return Success(summary);
    }
  }
}
