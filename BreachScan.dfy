/** The breach-scan endpoint of the backend (backend-simple/index.js): `POST /api/v1/scan`
    validates the e-mail address in the request body, normalises it, asks the breach
    provider about it once, turns the provider's failures into outcomes, and shapes the
    breach list into the response; `GET /api/v1/demo` answers a fixed sample. The provider
    call is a parameter that maps the normalised address to the provider's reply. */
module BreachScan {
  import opened Wrappers
  import opened Strings

  // ---------------------------------------------------------------------------
  // Provider replies
  // ---------------------------------------------------------------------------

  /** One breach as the provider lists it. */
  datatype ProviderBreach = ProviderBreach(name: string, title: string, breachDate: string,
                                           description: string, pwnCount: nat,
                                           dataClasses: seq<string>, isVerified: bool)

  /** How the provider call ends: a reply whose body is a breach list or empty
      (`null`), or a failure with the HTTP status of the error reply when there was one
      and the error's message. */
  datatype ProviderReply =
    | Replied(data: Option<seq<ProviderBreach>>)
    | Failed(status: Option<nat>, message: string)

  const NOT_FOUND: nat := 404
  const TOO_MANY_REQUESTS: nat := 429

  /** The request's outcome after the provider call's `.catch`: a breach list (possibly
      empty) or an error that reaches the handler's `catch` with its message. */
  datatype Lookup = Breaches(list: seq<ProviderBreach>) | LookupError(message: string)

  const RATE_LIMITED := "RATE_LIMITED"

  /** The `.catch` mapping and `breachRes.data || []`: 404 means no breaches, 429 becomes the
      rate-limit error, any other failure keeps its own message. */
  function ClassifyReply(reply: ProviderReply): (r: Lookup)
    ensures reply.Replied? ==> r == Breaches(reply.data.GetOr([]))
    ensures reply.Failed? && reply.status == Some(NOT_FOUND) ==> r == Breaches([])
    ensures reply.Failed? && reply.status == Some(TOO_MANY_REQUESTS) ==> r == LookupError(RATE_LIMITED)
    ensures reply.Failed? && reply.status !in {Some(NOT_FOUND), Some(TOO_MANY_REQUESTS)} ==>
              r == LookupError(reply.message)
  {
    match reply
    case Replied(data) => Breaches(data.GetOr([]))
    case Failed(status, message) =>
      if status == Some(NOT_FOUND) then Breaches([])
      else if status == Some(TOO_MANY_REQUESTS) then LookupError(RATE_LIMITED)
      else LookupError(message)
  }

  // ---------------------------------------------------------------------------
  // Request validation and normalisation
  // ---------------------------------------------------------------------------

  /** The guard `!email || !email.includes('@')`, negated: a non-empty string with an `@`. */
  predicate AcceptsEmail(email: Option<string>) {
    email.Some? && email.value != "" && Contains(email.value, "@")
  }

  /** `email.trim().toLowerCase()`. */
  function NormalizeEmail(email: string): (r: string)
    ensures |r| == |Trim(email)| <= |email|
    ensures forall i :: 0 <= i < |r| ==> r[i] == LowerChar(Trim(email)[i])
    ensures IsTrimmed(r)
    ensures forall i :: 0 <= i < |r| ==> !IsAsciiUpper(r[i])
  {
    ToLowerKeepsTrimmed(Trim(email));
    ToLower(Trim(email))
  }

  /** Normalising an already normalised address changes nothing. */
  lemma NormalizeEmailIdempotent(email: string)
    ensures NormalizeEmail(NormalizeEmail(email)) == NormalizeEmail(email)
  {
    var n := NormalizeEmail(email);
    TrimOfTrimmed(n);
    ToLowerOfLower(n);
  }

  /** The `@` the guard demanded survives normalisation, since trimming removes only white
      space and lower-casing keeps every non-letter. */
  lemma NormalizeEmailKeepsAt(email: string)
    requires Contains(email, "@")
    ensures '@' in NormalizeEmail(email)
  {
    ContainsChar(email, '@');
    var k :| 0 <= k < |email| && email[k] == '@';
    TrimKeepsChar(email, k);
    var t := Trim(email);
    var j :| 0 <= j < |t| && t[j] == '@';
    ToLowerChars(t);
    assert NormalizeEmail(email)[j] == '@';
  }

  /** A character of `s` that is not white space is still in `trim(s)`. */
  lemma TrimKeepsChar(s: string, k: nat)
    requires k < |s| && !IsWhiteSpace(s[k])
    ensures s[k] in Trim(s)
  {
    TrimIsSlice(s);
    var a, b :| 0 <= a <= b <= |s| && Trim(s) == s[a..b]
                && WhiteSpaceBetween(s, 0, a) && WhiteSpaceBetween(s, b, |s|);
    assert a <= k < b;
    assert Trim(s)[k - a] == s[k];
  }

  // ---------------------------------------------------------------------------
  // Responses
  // ---------------------------------------------------------------------------

  /** One breach as the response lists it; `pwnCount` is the raw count. */
  datatype BreachSummary = BreachSummary(name: string, title: string, date: string,
                                         description: string, pwnCount: nat,
                                         dataClasses: seq<string>, verified: bool)

  datatype ScanData = ScanData(email: string, isCompromised: bool, breachCount: nat,
                               breaches: seq<BreachSummary>, scannedAt: string)

  /** A JSON response: its HTTP status and either `{ success: true, data }` or
      `{ success: false, error }`. */
  datatype Response =
    | Success(status: nat, data: ScanData)
    | Failure(status: nat, error: string)

  const BAD_REQUEST: nat := 400
  const OK: nat := 200
  const SERVER_ERROR: nat := 500
  const INVALID_EMAIL := "Valid email required"

  function Summarize(b: ProviderBreach): (s: BreachSummary)
    ensures s.name == b.name && s.title == b.title && s.date == b.breachDate
    ensures s.description == b.description && s.pwnCount == b.pwnCount
    ensures s.dataClasses == b.dataClasses && s.verified == b.isVerified
  {
    BreachSummary(b.name, b.title, b.breachDate, b.description, b.pwnCount,
                  b.dataClasses, b.isVerified)
  }

  /** `breaches.map(...)`: one summary per breach, in order. */
  function SummarizeAll(list: seq<ProviderBreach>): (r: seq<BreachSummary>)
    ensures |r| == |list|
    ensures forall i :: 0 <= i < |list| ==> r[i] == Summarize(list[i])
  {
    seq(|list|, i requires 0 <= i < |list| => Summarize(list[i]))
  }

  function ScanResult(email: string, list: seq<ProviderBreach>, scannedAt: string): (d: ScanData)
    ensures d.breachCount == |d.breaches| == |list|
    ensures d.isCompromised <==> d.breachCount > 0
    ensures d.email == email && d.scannedAt == scannedAt
  {
    ScanData(email, |list| > 0, |list|, SummarizeAll(list), scannedAt)
  }

  /** The scan handler: the response, and the addresses the provider was asked about
      (none, or the normalised one). */
  function HandleScan(email: Option<string>, provider: string -> ProviderReply, scannedAt: string)
    : (res: (Response, seq<string>))
    ensures !AcceptsEmail(email) ==> res == (Failure(BAD_REQUEST, INVALID_EMAIL), [])
    ensures AcceptsEmail(email) ==> res.1 == [NormalizeEmail(email.value)]
  {
    if !AcceptsEmail(email) then (Failure(BAD_REQUEST, INVALID_EMAIL), [])
    else
      var normalized := NormalizeEmail(email.value);
      var response :=
        match ClassifyReply(provider(normalized))
        case Breaches(list) => Success(OK, ScanResult(normalized, list, scannedAt))
        case LookupError(message) => Failure(SERVER_ERROR, message);
      (response, [normalized])
  }

  /** A request without a usable address is refused before the provider is asked. */
  lemma InvalidEmailNoLookup(email: Option<string>, provider: string -> ProviderReply, at: string)
    requires email.None? || !Contains(email.value, "@")
    ensures HandleScan(email, provider, at).0 == Failure(BAD_REQUEST, INVALID_EMAIL)
    ensures HandleScan(email, provider, at).1 == []
  {
  }

  /** A successful scan reports the normalised address, counts its breaches, is
      compromised exactly when there is one, and lists each breach once in the provider's
      order. */
  lemma ScanReportsBreaches(email: string, provider: string -> ProviderReply, at: string)
    requires AcceptsEmail(Some(email))
    ensures var res := HandleScan(Some(email), provider, at).0;
            var reply := provider(NormalizeEmail(email));
            res.Success? <==> reply.Replied? || reply.status == Some(NOT_FOUND)
    ensures var res := HandleScan(Some(email), provider, at).0;
            res.Success? ==>
              && res.status == OK
              && res.data.email == NormalizeEmail(email)
              && res.data.breachCount == |res.data.breaches|
              && (res.data.isCompromised <==> res.data.breachCount > 0)
              && '@' in res.data.email
  {
    NormalizeEmailKeepsAt(email);
  }

  /** The provider's list reaches the response one-to-one; a 404 reads as a clean
      address. */
  lemma ScanBreachList(email: string, provider: string -> ProviderReply, at: string)
    requires AcceptsEmail(Some(email))
    ensures var res := HandleScan(Some(email), provider, at).0;
            var reply := provider(NormalizeEmail(email));
            && (reply.Replied? ==>
                  var list := reply.data.GetOr([]);
                  && res.Success? && |res.data.breaches| == |list|
                  && forall i :: 0 <= i < |list| ==> res.data.breaches[i] == Summarize(list[i]))
            && (reply.Failed? && reply.status == Some(NOT_FOUND) ==>
                  res.Success? && res.data.breaches == [] && !res.data.isCompromised)
  {
  }

  /** Provider failures other than 404 become a 500: the rate-limit error for 429, the
      failure's own message otherwise. */
  lemma ScanProviderErrors(email: string, provider: string -> ProviderReply, at: string)
    requires AcceptsEmail(Some(email))
    ensures var res := HandleScan(Some(email), provider, at).0;
            var reply := provider(NormalizeEmail(email));
            && (reply.Failed? && reply.status == Some(TOO_MANY_REQUESTS) ==>
                  res == Failure(SERVER_ERROR, RATE_LIMITED))
            && (reply.Failed? && reply.status != Some(NOT_FOUND) && reply.status != Some(TOO_MANY_REQUESTS) ==>
                  res == Failure(SERVER_ERROR, reply.message))
  {
  }

  // ---------------------------------------------------------------------------
  // Demo endpoint
  // ---------------------------------------------------------------------------

  /** A breach of the demo answer; its count is already formatted text. */
  datatype DemoBreach = DemoBreach(name: string, title: string, date: string,
                                   description: string, pwnCount: string)

  datatype DemoData = DemoData(email: string, breaches: seq<DemoBreach>, isCompromised: bool)

  /** `GET /api/v1/demo`: always the same single LinkedIn breach for the demo address. */
  function DemoResponse(): (d: DemoData)
    ensures |d.breaches| == 1 && d.breaches[0].name == "LinkedIn"
    ensures d.isCompromised <==> |d.breaches| > 0
    ensures d.email == "demo@fk94security.com"
  {
    DemoData("demo@fk94security.com",
             [DemoBreach("LinkedIn", "LinkedIn", "2012-06-06",
                         "164 million accounts compromised", "164,611,595")],
             true)
  }
}
