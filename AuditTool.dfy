/** The security-audit wizard of audit-tool/app.js: its saved progress (which checklist
    items are ticked, the last DNS check, when the audit started), the section it shows,
    the progress and completion figures it derives, the domain input it accepts, how it
    classifies DNS answers, and the recommendations and checklist listing of its report.
    The page (which check items each section holds) and the DNS resolver are inputs. */
module AuditTool {
  import opened Wrappers
  import opened Strings

  // ===========================================================================
  // Fixed tables
  // ===========================================================================

  datatype Section = Section(id: string, name: string, icon: string)

  /** The six wizard sections, in navigation order. */
  const SECTIONS: seq<Section> := [
    Section("osint", "OSINT & Exposure", "1"),
    Section("dns", "DNS Security", "2"),
    Section("risk", "Risk Assessment", "3"),
    Section("accounts", "Account Hardening", "4"),
    Section("devices", "Device Security", "5"),
    Section("sim", "SIM Protection", "6")
  ]

  // ===========================================================================
  // Saved progress
  // ===========================================================================

  datatype DnsStatus = Checking | Found | NotFound | Error

  /** The outcome for one TXT-based record (SPF or DMARC). */
  datatype TxtResult = TxtResult(status: DnsStatus, record: Option<string>)

  datatype MxResult = MxResult(status: DnsStatus, records: seq<string>)

  datatype DnsResults = DnsResults(spf: TxtResult, dmarc: TxtResult, mx: MxResult)

  /** What the wizard keeps of the last DNS check: the domain, its results and when. */
  datatype DnsRecord = DnsRecord(domain: string, results: DnsResults, checkedAt: string)

  /** The progress object kept in browser storage. `hibpBreachCount` is the length of
      `hibpResults.breaches`, 0 when absent: nothing in the wizard writes it, but saved
      progress may carry it and the report reads it. */
  datatype AuditData = AuditData(
    checks: map<string, bool>,
    dnsResults: Option<DnsRecord>,
    hibpBreachCount: nat,
    startedAt: Option<string>,
    completedAt: Option<string>)

  /** The progress the page starts with before anything is loaded. */
  const INITIAL_AUDIT: AuditData := AuditData(map[], None, 0, None, None)

  /** What storage hands back: nothing (or an empty string), text that does not parse,
      or a parsed progress object. */
  datatype SavedProgress = NothingSaved | Unparsable | Parsed(data: AuditData)

  /** `auditData.checks[id]` is truthy; an id never ticked counts as unticked. */
  predicate IsChecked(checks: map<string, bool>, id: string) {
    id in checks && checks[id]
  }

  /** `auditData.startedAt` is truthy. */
  predicate HasStarted(d: AuditData) {
    d.startedAt.Some? && d.startedAt.value != ""
  }

  /** The progress in use after `JSON.parse` of what storage returned: a parsed object
      replaces it, otherwise (nothing saved, or a parse error) it stays as it was. */
  function LoadedProgress(current: AuditData, saved: SavedProgress): (d: AuditData)
    ensures saved.Parsed? ==> d == saved.data
    ensures !saved.Parsed? ==> d == current
  {
    match saved
    case Parsed(data) => data
    case _ => current
  }

  // ===========================================================================
  // The page: which check items each section holds
  // ===========================================================================

  /** A `.check-item[data-check]` element: its `data-check` id ("" when the attribute is
      empty) and the text of its `.check-title` ("" when it has none). */
  datatype CheckItem = CheckItem(id: string, title: string)

  /** Slot i: the check items of the element `[data-section=SECTIONS[i].id]`, in document
      order, or None when the page has no such element. */
  type Page = seq<Option<seq<CheckItem>>>

  /** `getSectionChecks`: the non-empty check ids of one section, in order; none when the
      section element is absent. An id is listed exactly when it is non-empty and some
      item of the section carries it. */
  function SectionCheckIds(slot: Option<seq<CheckItem>>): (ids: seq<string>)
    ensures forall i :: 0 <= i < |ids| ==> ids[i] != ""
    ensures slot.None? ==> ids == []
    ensures slot.Some? ==> |ids| <= |slot.value|
    ensures slot.Some? ==> forall id :: id in ids <==>
              id != "" && exists it :: it in slot.value && it.id == id
  {
    match slot
    case None => []
    case Some(items) => NonEmptyIds(items)
  }

  function NonEmptyIds(items: seq<CheckItem>): (ids: seq<string>)
    ensures forall i :: 0 <= i < |ids| ==> ids[i] != ""
    ensures |ids| <= |items|
    ensures forall id :: id in ids <==> id != "" && exists it :: it in items && it.id == id
  {
    if items == [] then []
    else (if items[0].id != "" then [items[0].id] else []) + NonEmptyIds(items[1..])
  }

  /** The number of check items on the page (`.check-item[data-check]`). */
  function TotalChecks(page: Page): nat
  {
    if page == [] then 0
    else TotalChecks(page[..|page| - 1]) + SlotSize(page[|page| - 1])
  }

  function SlotSize(slot: Option<seq<CheckItem>>): nat {
    match slot
    case None => 0
    case Some(items) => |items|
  }

  // ===========================================================================
  // Derived figures (updateUI, updateProgress)
  // ===========================================================================

  /** `ids.every(c => auditData.checks[c])`. */
  predicate AllChecked(checks: map<string, bool>, ids: seq<string>)
    ensures AllChecked(checks, ids) <==> forall i :: 0 <= i < |ids| ==> IsChecked(checks, ids[i])
  {
    ids == [] || (IsChecked(checks, ids[0]) && AllChecked(checks, ids[1..]))
  }

  /** A section is shown as completed when it has at least one check and all are ticked:
      a section without checks is never completed. */
  predicate SectionCompleted(checks: map<string, bool>, ids: seq<string>)
    ensures SectionCompleted(checks, ids) <==>
              ids != [] && forall i :: 0 <= i < |ids| ==> IsChecked(checks, ids[i])
  {
    |ids| > 0 && AllChecked(checks, ids)
  }

  /** Unticking one of a section's checks leaves that section not completed. */
  lemma UntickBreaksCompletion(checks: map<string, bool>, ids: seq<string>, id: string)
    requires id in ids
    ensures !SectionCompleted(checks[id := false], ids)
  {
    var i :| 0 <= i < |ids| && ids[i] == id;
    assert !IsChecked(checks[id := false], ids[i]);
  }

  /** `Object.values(auditData.checks).filter(Boolean).length`. */
  function CompletedCount(checks: map<string, bool>): nat {
    |TickedIds(checks)|
  }

  function TickedIds(checks: map<string, bool>): set<string> {
    set id | id in checks && checks[id]
  }

  /** Setting one check moves the completed count by at most one, in the direction of the
      change: +1 when an unticked id becomes ticked, -1 when a ticked one is unticked. */
  lemma SetCheckCount(checks: map<string, bool>, id: string, value: bool)
    ensures CompletedCount(checks[id := value]) ==
              CompletedCount(checks) - (if IsChecked(checks, id) then 1 else 0) + (if value then 1 else 0)
  {
    var before := TickedIds(checks);
    var after := TickedIds(checks[id := value]);
    var others := before - {id};
    assert after == if value then others + {id} else others;
    if IsChecked(checks, id) {
      assert before == others + {id};
    } else {
      assert before == others;
    }
  }

  /** `total > 0 ? Math.round(completed / total * 100) : 0`, with the rounding done exactly
      (ties upwards, as `Math.round` does for positive numbers). */
  function ProgressPercent(completed: nat, total: nat): (p: nat)
    ensures total == 0 ==> p == 0
    ensures total > 0 ==> 2 * total * p <= 200 * completed + total < 2 * total * (p + 1)
    ensures completed <= total ==> p <= 100
  {
    if total == 0 then 0
    else
      var p := (200 * completed + total) / (2 * total);
      PercentBound(completed, total, p);
      p
  }

  lemma PercentBound(completed: nat, total: nat, p: nat)
    requires total > 0 && p == (200 * completed + total) / (2 * total)
    ensures 2 * total * p <= 200 * completed + total < 2 * total * (p + 1)
    ensures completed <= total ==> p <= 100
  {
    var n, d := 200 * completed + total, 2 * total;
    var rm := n % d;
    assert n == d * p + rm && 0 <= rm < d;
    assert d * (p + 1) == d * p + d;
    if completed <= total {
      assert n < d * 101;
      assert d * p < d * 101;
      MulLessCancel(d, p, 101);
    }
  }

  lemma MulLessCancel(d: nat, a: nat, b: nat)
    requires d > 0 && d * a < d * b
    ensures a < b
  {
  }

  /** The percentage printed in the report (generateReport line 487): the same rounding,
      but without the guard against an empty page, so JavaScript prints `NaN` for 0/0 and
      `Infinity` for a positive count over 0. */
  datatype ReportPercent = Whole(value: nat) | NaN | Infinity

  function ReportProgress(completed: nat, total: nat): (r: ReportPercent)
    ensures total > 0 ==> r == Whole(ProgressPercent(completed, total))
    ensures total == 0 ==> (r == NaN <==> completed == 0) && (r == Infinity <==> completed > 0)
  {
    if total > 0 then Whole(ProgressPercent(completed, total))
    else if completed == 0 then NaN
    else Infinity
  }

  /** The status mark of a navigation item: a tick when its section is completed, an
      arrow when it is the current one, nothing otherwise. */
  function NavItemStatus(completed: bool, isCurrent: bool): (mark: string)
    ensures mark == "\U{2713}" <==> completed
    ensures mark == "\U{2192}" <==> !completed && isCurrent
    ensures mark == "" <==> !completed && !isCurrent
  {
    if completed then "\U{2713}" else if isCurrent then "\U{2192}" else ""
  }

  predicate PrevDisabled(current: nat) {
    current == 0
  }

  predicate OnLastSection(current: nat) {
    current == |SECTIONS| - 1
  }

  /** The label of the next button: "Complete" on the last section, "Next" elsewhere. */
  function NextLabel(current: nat): (caption: string)
    ensures caption == "Complete" <==> OnLastSection(current)
    ensures caption == "Next" <==> !OnLastSection(current)
  {
    if OnLastSection(current) then "Complete" else "Next"
  }

  /** `updateProgress` on a page: the saved ticks against the page's check items. The
      percentage is 0 when nothing is ticked and 100 when the ticks match the items one
      for one. */
  function PagePercent(page: Page, checks: map<string, bool>): (p: nat)
    ensures p == ProgressPercent(CompletedCount(checks), TotalChecks(page))
    ensures TotalChecks(page) == 0 || CompletedCount(checks) == 0 ==> p == 0
    ensures CompletedCount(checks) == TotalChecks(page) > 0 ==> p == 100
    ensures CompletedCount(checks) <= TotalChecks(page) ==> p <= 100
  {
    var total := TotalChecks(page);
    if total == 0 then 0
    else
      PercentExtremes(total);
      ProgressPercent(CompletedCount(checks), total)
  }

  /** With checks on the page, none ticked gives 0 and all ticked gives 100. */
  lemma PercentExtremes(total: nat)
    requires total > 0
    ensures ProgressPercent(0, total) == 0
    ensures ProgressPercent(total, total) == 100
  {
    var q := ProgressPercent(total, total);
    assert total * 201 < total * (2 * q + 2);
    MulLessCancel(total, 201, 2 * q + 2);
  }

  /** The status mark `updateUI` gives the navigation item of section `i`, from the ticks
      and the section's check ids on the page. */
  function NavMark(page: Page, checks: map<string, bool>, current: nat, i: nat): (mark: string)
    requires i < |page|
    ensures mark == "\U{2713}" <==> SectionCompleted(checks, SectionCheckIds(page[i]))
    ensures mark == "\U{2192}" <==> !SectionCompleted(checks, SectionCheckIds(page[i])) && i == current
    ensures mark == "" <==> !SectionCompleted(checks, SectionCheckIds(page[i])) && i != current
  {
    NavItemStatus(SectionCompleted(checks, SectionCheckIds(page[i])), i == current)
  }

  /** A section whose items carry at least one id, each of them ticked, is marked with a
      tick. */
  lemma NavMarkAllTicked(page: Page, checks: map<string, bool>, current: nat, i: nat, j: nat)
    requires i < |page| && page[i].Some? && j < |page[i].value| && page[i].value[j].id != ""
    requires forall it :: it in page[i].value && it.id != "" ==> IsChecked(checks, it.id)
    ensures NavMark(page, checks, current, i) == "\U{2713}"
  {
    var items := page[i].value;
    var ids := SectionCheckIds(page[i]);
    assert items[j] in items;
    assert items[j].id in ids;
    forall k | 0 <= k < |ids|
      ensures IsChecked(checks, ids[k])
    {
      assert ids[k] in ids;
      var it :| it in items && it.id == ids[k];
    }
  }

  // ===========================================================================
  // Domain input (initDNS line 251, isValidDomain)
  // ===========================================================================

  /** `.replace(/^https?:\/\//, '')`. */
  function StripScheme(s: string): (r: string)
    ensures |r| <= |s| && r == s[|s| - |r|..]
  {
    if StartsWith(s, "https://") then s[8..]
    else if StartsWith(s, "http://") then s[7..]
    else s
  }

  /** No line terminator in `s` at or after index `i`. */
  predicate NoLineTerminatorFrom(s: string, i: int) {
    forall k :: i <= k < |s| && 0 <= k ==> !IsLineTerminator(s[k])
  }

  /** The first index at or after `i` holding a '/' from which `.*` reaches the end of the
      input, or `|s|` when there is none. */
  function PathStart(s: string, i: nat): (p: nat)
    requires i <= |s|
    ensures i <= p <= |s|
    ensures p < |s| ==> s[p] == '/' && NoLineTerminatorFrom(s, p + 1)
    ensures forall q :: i <= q < p && s[q] == '/' ==> !NoLineTerminatorFrom(s, q + 1)
    decreases |s| - i
  {
    if i == |s| then i
    else if s[i] == '/' && NoLineTerminatorFrom(s, i + 1) then i
    else PathStart(s, i + 1)
  }

  /** `.replace(/\/.*$/, '')`: cut `s` at the first '/' from which `.*` reaches the end of
      the input. In JavaScript `.` does not match a line terminator and `$` (without the
      `m` flag) is the end of the input, so a '/' followed by a line terminator is skipped. */
  function CutPath(s: string): (r: string)
    ensures |r| <= |s| && r == s[..|r|]
  {
    s[..PathStart(s, 0)]
  }

  /** The cut is at a '/' from which no line terminator follows, and every earlier '/' is
      followed, somewhere, by a line terminator. */
  lemma CutPathAt(s: string)
    ensures var r := CutPath(s);
            |r| < |s| ==> s[|r|] == '/' && NoLineTerminatorFrom(s, |r| + 1)
    ensures var r := CutPath(s);
            forall q :: 0 <= q < |r| && r[q] == '/' ==> !NoLineTerminatorFrom(s, q + 1)
  {
  }

  /** What the scheme replacement removes is "", "http://" or "https://": a leading
      "https://" or "http://" is removed, and nothing is removed from a string that
      starts with neither. */
  lemma StripSchemeRemoves(s: string)
    ensures var r := StripScheme(s);
            s[..|s| - |r|] in {"", "http://", "https://"}
    ensures StartsWith(s, "https://") ==> StripScheme(s) == s[8..]
    ensures StartsWith(s, "http://") ==> StripScheme(s) == s[7..]
    ensures !StartsWith(s, "http://") && !StartsWith(s, "https://") ==> StripScheme(s) == s
  {
    if StartsWith(s, "http://") {
      assert s[4] == s[..7][4] == ':';
      assert !StartsWith(s, "https://") by {
        assert |s| >= 8 ==> s[..8][4] == s[4];
      }
    }
  }

  /** Cutting a string without '/' leaves it unchanged. */
  lemma CutPathNoSlash(s: string)
    requires '/' !in s
    ensures CutPath(s) == s
  {
    assert PathStart(s, 0) == |s|;
    assert s[..|s|] == s;
  }

  /** The domain the DNS check works on:
      `value.trim().toLowerCase().replace(/^https?:\/\//, '').replace(/\/.*$/, '')`.
      No upper-case ASCII letter is left in it. */
  function NormalizeDomain(input: string): (r: string)
    ensures NoAsciiUpper(r)
  {
    var lowered := ToLower(Trim(input));
    var stripped := StripScheme(lowered);
    assert NoAsciiUpper(stripped);
    CutPath(stripped)
  }

  predicate NoAsciiUpper(s: string) {
    forall i :: 0 <= i < |s| ==> !IsAsciiUpper(s[i])
  }

  /** For an input without line terminators the normalised domain holds no '/': the path,
      if any, is cut at its first '/'. */
  lemma NormalizeDomainNoSlash(input: string)
    requires NoLineTerminator(input)
    ensures '/' !in NormalizeDomain(input)
  {
    var lowered := ToLower(Trim(input));
    var stripped := StripScheme(lowered);
    var r := CutPath(stripped);
    CutPathAt(stripped);
    TrimKeepsNoLineTerminator(input);
    assert NoLineTerminator(stripped) by {
      assert forall i :: 0 <= i < |stripped| ==> stripped[i] == lowered[|lowered| - |stripped| + i];
    }
    forall p | 0 <= p < |r|
      ensures r[p] != '/'
    {
      assert NoLineTerminatorFrom(stripped, p + 1);
    }
  }

  lemma TrimKeepsNoLineTerminator(s: string)
    requires NoLineTerminator(s)
    ensures NoLineTerminator(ToLower(Trim(s)))
  {
    var t := Trim(s);
    var a := SkipWhiteSpace(s, 0);
    forall i | 0 <= i < |t|
      ensures !IsLineTerminator(ToLower(t)[i])
    {
      assert t[i] == s[a + i];
    }
  }

  /** On an input without line terminators, normalising twice gives what normalising once
      gives whenever the first result has no white space at either end. */
  lemma NormalizeDomainIdempotent(input: string)
    requires NoLineTerminator(input)
    requires IsTrimmed(NormalizeDomain(input))
    ensures NormalizeDomain(NormalizeDomain(input)) == NormalizeDomain(input)
  {
    var y := NormalizeDomain(input);
    NormalizeDomainNoSlash(input);
    TrimOfTrimmed(y);
    ToLowerOfLower(y);
    StripSchemeNoSlash(y);
    CutPathNoSlash(y);
  }

  /** Without a '/' there is no scheme to strip. */
  lemma StripSchemeNoSlash(s: string)
    requires '/' !in s
    ensures StripScheme(s) == s
  {
    assert |s| >= 7 ==> s[..7][5] == s[5] != '/';
    assert |s| >= 8 ==> s[..8][6] == s[6] != '/';
  }

  /** The white-space condition cannot be dropped: for any lower-case letter `c`, the
      space of `c /` survives the first normalisation (trim runs before the path is cut)
      and is removed by the second. */
  lemma NormalizeDomainNotIdempotent(c: char)
    requires IsAsciiLower(c)
    ensures NormalizeDomain([c, ' ', '/']) == [c, ' ']
    ensures NormalizeDomain([c, ' ']) == [c]
  {
    NormalizeSpaceBeforePath(c);
    NormalizeTrailingSpace(c);
  }

  lemma NormalizeSpaceBeforePath(c: char)
    requires IsAsciiLower(c)
    ensures NormalizeDomain([c, ' ', '/']) == [c, ' ']
  {
    var s := [c, ' ', '/'];
    NormalizeDomainSteps(s);
    TrimOfTrimmed(s);
    ToLowerOfLower(s);
    ShortHasNoScheme(s);
    CutSpaceBeforePath(c);
  }

  lemma CutSpaceBeforePath(c: char)
    requires c != '/'
    ensures CutPath([c, ' ', '/']) == [c, ' ']
  {
    var s := [c, ' ', '/'];
    assert PathStart(s, 2) == 2;
    assert PathStart(s, 0) == 2;
    assert s[..2] == [c, ' '];
  }

  lemma NormalizeTrailingSpace(c: char)
    requires IsAsciiLower(c)
    ensures NormalizeDomain([c, ' ']) == [c]
  {
    TrimTrailingSpace(c);
    NormalizeShortPlain([c, ' ']);
  }

  /** A short input whose trimmed form has no upper-case letter and no '/' normalises to
      that trimmed form. */
  lemma NormalizeShortPlain(input: string)
    requires NoAsciiUpper(Trim(input)) && |Trim(input)| < 7 && '/' !in Trim(input)
    ensures NormalizeDomain(input) == Trim(input)
  {
    var t := Trim(input);
    NormalizeDomainSteps(input);
    ToLowerOfLower(t);
    ShortHasNoScheme(t);
    CutPathNoSlash(t);
  }

  /** The four steps of the normalisation, in order. */
  lemma NormalizeDomainSteps(input: string)
    ensures NormalizeDomain(input) == CutPath(StripScheme(ToLower(Trim(input))))
  {
  }

  /** A URL normalises to its host in lower case: the scheme is removed and the path is
      cut at its first '/', whatever follows it on the line. */
  lemma NormalizeDomainOfUrl(scheme: string, host: string, path: string)
    requires scheme == "http://" || scheme == "https://"
    requires host != [] && !IsWhiteSpace(host[|host| - 1]) && '/' !in host
    requires path == [] || (path[0] == '/' && NoLineTerminator(path))
    ensures NormalizeDomain(scheme + host + path) == ToLower(host)
  {
    var front := scheme + host;
    assert front[0] == 'h' && front[|front| - 1] == host[|host| - 1];
    var p := TrimLowerFront(front, path);
    LowerAfterScheme(scheme, host);
    var rest := ToLower(host) + ToLower(p);
    assert ToLower(Trim(scheme + host + path)) == scheme + rest;
    StripKnownScheme(scheme, rest);
    LowerKeepsPathShape(host, p);
    CutHostPath(ToLower(host), ToLower(p));
  }

  /** Trimming and lower-casing a front part with no white space at either end, followed
      by a path, lower-cases the front and leaves a prefix `p` of the path. */
  lemma TrimLowerFront(front: string, path: string) returns (p: string)
    requires front != [] && !IsWhiteSpace(front[0]) && !IsWhiteSpace(front[|front| - 1])
    requires path == [] || (path[0] == '/' && NoLineTerminator(path))
    ensures p == [] || (p[0] == '/' && NoLineTerminator(p))
    ensures ToLower(Trim(front + path)) == ToLower(front) + ToLower(p)
  {
    var s := front + path;
    var b := TrimKeepsFront(s, |front|);
    p := path[..b - |front|];
    assert s[..b] == front + p;
    ToLowerAppend(front, p);
  }

  lemma LowerAfterScheme(scheme: string, host: string)
    requires scheme == "http://" || scheme == "https://"
    ensures ToLower(scheme + host) == scheme + ToLower(host)
  {
    ToLowerAppend(scheme, host);
    ToLowerOfLower(scheme);
  }

  /** A leading "http://" or "https://" is what the scheme replacement removes. */
  lemma StripKnownScheme(scheme: string, rest: string)
    requires scheme == "http://" || scheme == "https://"
    ensures StripScheme(scheme + rest) == rest
  {
    var s := scheme + rest;
    assert s[..|scheme|] == scheme;
    StripSchemeRemoves(s);
    assert s[|scheme|..] == rest;
  }

  /** Lower-casing adds no '/' to a host and keeps a path a path. */
  lemma LowerKeepsPathShape(host: string, p: string)
    requires '/' !in host
    requires p == [] || (p[0] == '/' && NoLineTerminator(p))
    ensures '/' !in ToLower(host)
    ensures ToLower(p) == [] || (ToLower(p)[0] == '/' && NoLineTerminator(ToLower(p)))
  {
    ToLowerChars(host);
    ToLowerChars(p);
  }

  /** A host without '/' followed by a path of one line is cut back to the host. */
  lemma CutHostPath(h: string, q: string)
    requires '/' !in h
    requires q == [] || (q[0] == '/' && NoLineTerminator(q))
    ensures CutPath(h + q) == h
  {
    var s := h + q;
    PathStartAt(s, 0, |h|);
    assert s[..|h|] == h;
  }

  /** The path cut starts at index `m` when no '/' lies between `i` and `m` and the
      character at `m`, if any, is a '/' with no line terminator after it. */
  lemma PathStartAt(s: string, i: nat, m: nat)
    requires i <= m <= |s|
    requires forall q :: i <= q < m ==> s[q] != '/'
    requires m == |s| || (s[m] == '/' && NoLineTerminatorFrom(s, m + 1))
    ensures PathStart(s, i) == m
    decreases m - i
  {
    if i < m {
      PathStartAt(s, i + 1, m);
    }
  }

  lemma TrimTrailingSpace(c: char)
    requires !IsWhiteSpace(c)
    ensures Trim([c, ' ']) == [c]
  {
    var s := [c, ' '];
    assert SkipWhiteSpace(s, 0) == 0;
    assert SkipWhiteSpaceBack(s, 0, 1) == 1;
    assert SkipWhiteSpaceBack(s, 0, 2) == 1;
    assert s[0..1] == [c];
  }

  /** A string shorter than "http://" has no scheme to strip. */
  lemma ShortHasNoScheme(s: string)
    requires |s| < 7
    ensures StripScheme(s) == s
  {
  }

  predicate IsLabelChar(c: char) {
    IsAsciiAlnum(c) || c == '-'
  }

  /** `[a-zA-Z0-9][a-zA-Z0-9-]{0,61}[a-zA-Z0-9]`: 2 to 63 characters, alphanumeric at both
      ends, alphanumeric or '-' inside. */
  predicate IsFirstLabel(l: string) {
    && 2 <= |l| <= 63
    && IsAsciiAlnum(l[0]) && IsAsciiAlnum(l[|l| - 1])
    && forall i :: 0 < i < |l| - 1 ==> IsLabelChar(l[i])
  }

  predicate AllLetters(s: string) {
    forall i :: 0 <= i < |s| ==> IsAsciiLetter(s[i])
  }

  /** The number of ASCII letters `s` starts with. */
  function LetterRun(s: string): (n: nat)
    ensures n <= |s| && AllLetters(s[..n])
    ensures n < |s| ==> !IsAsciiLetter(s[n])
  {
    if s == [] || !IsAsciiLetter(s[0]) then 0
    else
      var k := LetterRun(s[1..]);
      assert s[..k + 1] == [s[0]] + s[1..][..k];
      k + 1
  }

  /** `(?:\.[a-zA-Z]{2,})+` up to the end of `t`, checked group by group: a dot, the
      longest run of letters after it, at least two of them, then the end or another group. */
  predicate IsLetterGroups(t: string)
    decreases |t|
  {
    && |t| > 0 && t[0] == '.'
    && var n := LetterRun(t[1..]);
       && n >= 2
       && (n + 1 == |t| || IsLetterGroups(t[n + 1..]))
  }

  /** `isValidDomain`: the first label runs up to the first '.', and what follows it is one
      or more dot-and-letters groups. */
  predicate IsValidDomain(s: string) {
    var k := IndexOf(s, '.');
    IsFirstLabel(s[..k]) && IsLetterGroups(s[k..])
  }

  /** `(?:\.[a-zA-Z]{2,})+$` read as the regular expression states it: some group
      `\.[a-zA-Z]{2,}` ends at some position j, followed by the end or by more groups. */
  ghost predicate MatchesLetterGroups(t: string)
    decreases |t|
  {
    exists j :: 3 <= j <= |t| && t[0] == '.' && AllLetters(t[1..j])
                && (j == |t| || MatchesLetterGroups(t[j..]))
  }

  /** The whole regular expression of `isValidDomain`, anchored at both ends: a split of
      `s` into a first label and the letter groups. */
  ghost predicate MatchesDomainRegex(s: string) {
    exists k :: 0 <= k <= |s| && IsFirstLabel(s[..k]) && MatchesLetterGroups(s[k..])
  }

  lemma {:induction false} LetterGroupsSound(t: string)
    requires IsLetterGroups(t)
    ensures MatchesLetterGroups(t)
    decreases |t|
  {
    var n := LetterRun(t[1..]);
    var j := n + 1;
    assert t[1..j] == t[1..][..n];
    if j < |t| {
      LetterGroupsSound(t[j..]);
    }
  }

  lemma {:induction false} LetterGroupsComplete(t: string)
    requires MatchesLetterGroups(t)
    ensures IsLetterGroups(t)
    decreases |t|
  {
    var j :| 3 <= j <= |t| && t[0] == '.' && AllLetters(t[1..j])
             && (j == |t| || MatchesLetterGroups(t[j..]));
    var u := t[1..];
    assert AllLetters(u[..j - 1]) by { assert u[..j - 1] == t[1..j]; }
    if j < |t| {
      assert t[j..][0] == '.';
      assert !IsAsciiLetter(u[j - 1]);
    }
    LetterRunExact(u, j - 1);
    if j < |t| {
      LetterGroupsComplete(t[j..]);
    }
  }

  /** A letter run that ends at the end or at a non-letter is the one `LetterRun` finds. */
  lemma LetterRunExact(u: string, m: nat)
    requires m <= |u| && AllLetters(u[..m])
    requires m < |u| ==> !IsAsciiLetter(u[m])
    ensures LetterRun(u) == m
  {
    var n := LetterRun(u);
    assert forall i :: 0 <= i < m ==> IsAsciiLetter(u[i]) by {
      forall i | 0 <= i < m ensures IsAsciiLetter(u[i]) { assert u[..m][i] == u[i]; }
    }
    assert forall i :: 0 <= i < n ==> IsAsciiLetter(u[i]) by {
      forall i | 0 <= i < n ensures IsAsciiLetter(u[i]) { assert u[..n][i] == u[i]; }
    }
  }

  /** `isValidDomain` accepts exactly the strings its regular expression matches. */
  lemma IsValidDomainMatchesRegex(s: string)
    ensures IsValidDomain(s) <==> MatchesDomainRegex(s)
  {
    var k := IndexOf(s, '.');
    if IsValidDomain(s) {
      LetterGroupsSound(s[k..]);
    }
    if MatchesDomainRegex(s) {
      var k' :| 0 <= k' <= |s| && IsFirstLabel(s[..k']) && MatchesLetterGroups(s[k'..]);
      assert s[k'..][0] == '.';
      FirstDotAfterLabel(s, k');
      LetterGroupsComplete(s[k..]);
    }
  }

  /** A first label holds no '.', so a '.' right after it is the first '.' of `s`. */
  lemma FirstDotAfterLabel(s: string, k: nat)
    requires k < |s| && s[k] == '.' && IsFirstLabel(s[..k])
    ensures IndexOf(s, '.') == k
  {
    var r := IndexOf(s, '.');
    assert forall i :: 0 <= i < k ==> s[..k][i] == s[i];
  }

  /** A one-character first label is refused. */
  lemma ShortFirstLabelRefused()
    ensures !IsValidDomain("a.com")
  {
    assert IndexOf("a.com", '.') == 1;
  }

  /** A top-level label holding a digit is refused. */
  lemma DigitInLetterGroupRefused()
    ensures !IsValidDomain("ab.c1")
  {
    var s := "ab.c1";
    assert IndexOf(s, '.') == 2;
    assert s[2..][1..] == "c1";
    assert LetterRun("c1") == 1;
  }

  /** A two-label domain is accepted. */
  lemma TwoLabelDomainAccepted()
    ensures IsValidDomain("ab.cd")
  {
    var s := "ab.cd";
    assert IndexOf(s, '.') == 2;
    assert s[2..][1..] == "cd";
    LetterRunExact("cd", 2);
  }

  /** A three-label domain is accepted. */
  lemma ThreeLabelDomainAccepted()
    ensures IsValidDomain("ab.cd.ef")
  {
    var t := "ab.cd.ef";
    assert IndexOf(t, '.') == 2;
    assert t[2..] == ".cd.ef";
    TwoLetterGroups();
  }

  lemma TwoLetterGroups()
    ensures IsLetterGroups(".cd.ef")
  {
    var g := ".cd.ef";
    assert g[1..] == "cd.ef";
    LetterRunExact("cd.ef", 2);
    assert g[3..] == ".ef";
    OneLetterGroup();
  }

  lemma OneLetterGroup()
    ensures IsLetterGroups(".ef")
  {
    assert ".ef"[1..] == "ef";
    LetterRunExact("ef", 2);
  }

  // ===========================================================================
  // DNS answers (checkDNSSecurity)
  // ===========================================================================

  datatype RecordType = TXT | MX

  /** A DNS-over-HTTPS request: `?name=<name>&type=<type>`. */
  datatype Query = Query(name: string, rtype: RecordType)

  /** What one request yields: the fetch or JSON parsing failed, or a response whose
      `Answer` holds the `data` of each answer entry (None when it has no `Answer`). An
      entry without `data` is the empty string. */
  datatype DnsLookup = LookupFailed | Answered(answer: Option<seq<string>>)

  const SPF_MARKER: string := "v=spf1"
  const DMARC_MARKER: string := "v=DMARC1"

  /** The three requests of one check, in the order they are made. */
  function DnsQueries(domain: string): (qs: seq<Query>)
    ensures |qs| == 3
    ensures qs[0] == Query(domain, TXT) && qs[2] == Query(domain, MX)
    ensures qs[1] == Query("_dmarc." + domain, TXT)
  {
    [Query(domain, TXT), Query("_dmarc." + domain, TXT), Query(domain, MX)]
  }

  /** The response has an `Answer` and some entry's data contains `marker`. */
  predicate AnswerMentions(lookup: DnsLookup, marker: string) {
    && lookup.Answered? && lookup.answer.Some?
    && exists i :: 0 <= i < |lookup.answer.value| && Contains(lookup.answer.value[i], marker)
  }

  /** Entry i is the first that contains `marker`: the one `Answer.find` returns. */
  predicate IsFirstMention(entries: seq<string>, marker: string, i: int) {
    && 0 <= i < |entries| && Contains(entries[i], marker)
    && forall j :: 0 <= j < i ==> !Contains(entries[j], marker)
  }

  function FirstMention(entries: seq<string>, marker: string): (i: nat)
    ensures i <= |entries|
    ensures i < |entries| ==> IsFirstMention(entries, marker, i)
    ensures i == |entries| ==> forall j :: 0 <= j < |entries| ==> !Contains(entries[j], marker)
  {
    if entries == [] then 0
    else if Contains(entries[0], marker) then 0
    else 1 + FirstMention(entries[1..], marker)
  }

  /** The SPF or DMARC outcome of one TXT lookup: `error` when the request failed, `found`
      exactly when some answer entry contains the marker, with the first such entry, its
      double quotes removed, as the record; `not_found` otherwise, without a record. */
  function ClassifyTxt(lookup: DnsLookup, marker: string): (r: TxtResult)
    ensures r.status != Checking
    ensures r.status == Error <==> lookup.LookupFailed?
    ensures r.status == Found <==> AnswerMentions(lookup, marker)
    ensures r.record.Some? <==> r.status == Found
    ensures r.status == Found ==>
              exists i :: IsFirstMention(lookup.answer.value, marker, i)
                          && r.record == Some(RemoveAll(lookup.answer.value[i], '"'))
  {
    match lookup
    case LookupFailed => TxtResult(Error, None)
    case Answered(None) => TxtResult(NotFound, None)
    case Answered(Some(entries)) =>
      var i := FirstMention(entries, marker);
      if i < |entries| then TxtResult(Found, Some(RemoveAll(entries[i], '"')))
      else TxtResult(NotFound, None)
  }

  /** The MX outcome: `error` when the request failed, `found` with every answer entry's
      data in order whenever the response has an `Answer` (even an empty one), and
      `not_found` with no records otherwise. */
  function ClassifyMx(lookup: DnsLookup): (r: MxResult)
    ensures r.status != Checking
    ensures r.status == Error <==> lookup.LookupFailed?
    ensures r.status == Found <==> lookup.Answered? && lookup.answer.Some?
    ensures r.status == Found ==> r.records == lookup.answer.value
    ensures r.status != Found ==> r.records == []
  {
    match lookup
    case LookupFailed => MxResult(Error, [])
    case Answered(None) => MxResult(NotFound, [])
    case Answered(Some(entries)) => MxResult(Found, entries)
  }

  /** `checkDNSSecurity(domain)` with the resolver given: SPF from the TXT records of the
      domain, DMARC from the TXT records of `_dmarc.<domain>`, MX from its MX records. No
      result is left in the `checking` state. */
  function CheckDnsSecurity(domain: string, resolve: Query -> DnsLookup): (r: DnsResults)
    ensures r.spf.status != Checking && r.dmarc.status != Checking && r.mx.status != Checking
    ensures r.spf.status == Found <==> AnswerMentions(resolve(Query(domain, TXT)), SPF_MARKER)
    ensures r.dmarc.status == Found <==>
              AnswerMentions(resolve(Query("_dmarc." + domain, TXT)), DMARC_MARKER)
    ensures r.mx.status == Found <==> resolve(Query(domain, MX)).Answered?
                                      && resolve(Query(domain, MX)).answer.Some?
    ensures r.spf.status == Error <==> resolve(Query(domain, TXT)).LookupFailed?
    ensures r.dmarc.status == Error <==> resolve(Query("_dmarc." + domain, TXT)).LookupFailed?
    ensures r.mx.status == Error <==> resolve(Query(domain, MX)).LookupFailed?
    ensures r.spf == ClassifyTxt(resolve(Query(domain, TXT)), SPF_MARKER)
    ensures r.dmarc == ClassifyTxt(resolve(Query("_dmarc." + domain, TXT)), DMARC_MARKER)
    ensures r.mx == ClassifyMx(resolve(Query(domain, MX)))
  {
    var qs := DnsQueries(domain);
    DnsResults(ClassifyTxt(resolve(qs[0]), SPF_MARKER),
               ClassifyTxt(resolve(qs[1]), DMARC_MARKER),
               ClassifyMx(resolve(qs[2])))
  }

  /** What the DNS button leads to: the "Invalid domain" warning, or the results shown. */
  datatype DnsCheckOutcome = InvalidDomain | Checked(results: DnsResults)

  // ===========================================================================
  // Result presentation (getStatusIcon, getRecommendation, showResult)
  // ===========================================================================

  datatype Icon = Icon(cssClass: string, glyph: string)

  /** `getStatusIcon`: a distinct icon for each status. */
  function StatusIcon(status: DnsStatus): (icon: Icon)
    ensures status == Found <==> icon == Icon("success", "\U{2713}")
    ensures status == NotFound <==> icon == Icon("danger", "\U{2717}")
    ensures status == Error <==> icon == Icon("warning", "?")
    ensures status == Checking <==> icon == Icon("info", "...")
  {
    match status
    case Found => Icon("success", "\U{2713}")
    case NotFound => Icon("danger", "\U{2717}")
    case Error => Icon("warning", "?")
    case Checking => Icon("info", "...")
  }

  /** Two different statuses never share an icon. */
  lemma StatusIconInjective(a: DnsStatus, b: DnsStatus)
    requires StatusIcon(a) == StatusIcon(b)
    ensures a == b
  {
  }

  datatype RecordKind = SpfKind | DmarcKind | MxKind

  const SPF_ADVICE: string := "Ask your hosting provider or IT team to configure the SPF record. It's a technical configuration they'll know how to do."
  const DMARC_ADVICE: string := "Ask your hosting provider or IT team to configure DMARC. It's additional protection against fake emails."

  /** `getRecommendation` (its advice text): SPF and DMARC advice when that record was not
      found, nothing when it was, and never any for MX. */
  function FixAdvice(kind: RecordKind, status: DnsStatus): (advice: string)
    ensures advice == "" <==> status == Found || kind == MxKind
    ensures advice == SPF_ADVICE <==> kind == SpfKind && status != Found
    ensures advice == DMARC_ADVICE <==> kind == DmarcKind && status != Found
  {
    if status == Found then ""
    else match kind
      case SpfKind => SPF_ADVICE
      case DmarcKind => DMARC_ADVICE
      case MxKind => ""
  }

  /** The icon `showResult` puts before a message of the given type; any type other than
      success, warning and info shows the cross. */
  function ResultIcon(kind: string): (glyph: string)
    ensures glyph == "\U{2713}" <==> kind == "success"
    ensures glyph == "!" <==> kind == "warning"
    ensures glyph == "i" <==> kind == "info"
    ensures glyph == "\U{2717}" <==> kind !in {"success", "warning", "info"}
  {
    if kind == "success" then "\U{2713}"
    else if kind == "warning" then "!"
    else if kind == "info" then "i"
    else "\U{2717}"
  }

  // ===========================================================================
  // Report: recommendations (generateReport lines 555-595)
  // ===========================================================================

  datatype Rule =
    | ChangeBreachedPasswords | ConfigureSpf | ConfigureDmarc | CheckHibp
    | UsePasswordManager | EnableEmailMfa | EnableDiskEncryption | AddCarrierPin

  /** The rules in the order the report tries them. */
  const RULES: seq<Rule> := [
    ChangeBreachedPasswords, ConfigureSpf, ConfigureDmarc, CheckHibp,
    UsePasswordManager, EnableEmailMfa, EnableDiskEncryption, AddCarrierPin
  ]

  function RuleText(rule: Rule): string {
    match rule
    case ChangeBreachedPasswords => "CRITICAL: Change passwords for accounts associated with breached email"
    case ConfigureSpf => "Configure SPF record to prevent email spoofing"
    case ConfigureDmarc => "Configure DMARC record for email authentication"
    case CheckHibp => "Check your email on Have I Been Pwned for breach exposure"
    case UsePasswordManager => "Set up a password manager (1Password or Bitwarden recommended)"
    case EnableEmailMfa => "Enable MFA on primary email account"
    case EnableDiskEncryption => "Enable full-disk encryption (FileVault or BitLocker)"
    case AddCarrierPin => "Contact carrier to add PIN protection to account"
  }

  /** The saved DNS results say the SPF (resp. DMARC) record was found. */
  predicate SpfFound(d: AuditData) {
    d.dnsResults.Some? && d.dnsResults.value.results.spf.status == Found
  }

  predicate DmarcFound(d: AuditData) {
    d.dnsResults.Some? && d.dnsResults.value.results.dmarc.status == Found
  }

  /** The condition under which each rule adds its recommendation. */
  predicate Fires(rule: Rule, d: AuditData) {
    match rule
    case ChangeBreachedPasswords => d.hibpBreachCount > 0
    case ConfigureSpf => !SpfFound(d)
    case ConfigureDmarc => !DmarcFound(d)
    case CheckHibp => !IsChecked(d.checks, "osint-hibp")
    case UsePasswordManager => !IsChecked(d.checks, "acc-pwmanager")
    case EnableEmailMfa => !IsChecked(d.checks, "mfa-email")
    case EnableDiskEncryption =>
      !IsChecked(d.checks, "mac-filevault") && !IsChecked(d.checks, "win-bitlocker")
    case AddCarrierPin => !IsChecked(d.checks, "sim-pin")
  }

  /** The rules of `rules` that fire, in the order of `rules`. */
  function Recommend(rules: seq<Rule>, d: AuditData): seq<Rule> {
    if rules == [] then []
    else
      var n := |rules| - 1;
      Recommend(rules[..n], d) + (if Fires(rules[n], d) then [rules[n]] else [])
  }

  /** The recommendations of the report, each standing for its text `RuleText`. */
  function Recommendations(d: AuditData): seq<Rule> {
    Recommend(RULES, d)
  }

  lemma {:induction false} RecommendMembership(rules: seq<Rule>, d: AuditData, rule: Rule)
    ensures rule in Recommend(rules, d) <==> rule in rules && Fires(rule, d)
  {
    if rules != [] {
      var n := |rules| - 1;
      RecommendMembership(rules[..n], d, rule);
      assert rules == rules[..n] + [rules[n]];
    }
  }

  lemma {:induction false} RecommendLength(rules: seq<Rule>, d: AuditData)
    ensures |Recommend(rules, d)| <= |rules|
  {
    if rules != [] {
      RecommendLength(rules[..|rules| - 1], d);
    }
  }

  /** A rule fired at most once: no recommendation appears twice when no rule does. */
  lemma {:induction false} RecommendNoRepeats(rules: seq<Rule>, d: AuditData)
    requires forall i, j :: 0 <= i < j < |rules| ==> rules[i] != rules[j]
    ensures var recs := Recommend(rules, d);
            forall i, j :: 0 <= i < j < |recs| ==> recs[i] != recs[j]
  {
    if rules != [] {
      var n := |rules| - 1;
      RecommendNoRepeats(rules[..n], d);
      RecommendMembership(rules[..n], d, rules[n]);
    }
  }

  /** Each rule's recommendation is in the list exactly when its condition holds. */
  lemma RecommendedIff(d: AuditData, rule: Rule)
    ensures rule in Recommendations(d) <==> Fires(rule, d)
  {
    RecommendMembership(RULES, d, rule);
    assert rule in RULES by {
      match rule
      case ChangeBreachedPasswords => assert RULES[0] == rule;
      case ConfigureSpf => assert RULES[1] == rule;
      case ConfigureDmarc => assert RULES[2] == rule;
      case CheckHibp => assert RULES[3] == rule;
      case UsePasswordManager => assert RULES[4] == rule;
      case EnableEmailMfa => assert RULES[5] == rule;
      case EnableDiskEncryption => assert RULES[6] == rule;
      case AddCarrierPin => assert RULES[7] == rule;
    }
  }

  /** There are never more than eight recommendations, and none is given twice. */
  lemma RecommendationsAtMostEight(d: AuditData)
    ensures |Recommendations(d)| <= 8
    ensures forall i, j :: 0 <= i < j < |Recommendations(d)| ==>
              Recommendations(d)[i] != Recommendations(d)[j]
  {
    RecommendLength(RULES, d);
    RecommendNoRepeats(RULES, d);
  }

  /** Disk encryption is recommended exactly when neither FileVault nor BitLocker is ticked. */
  lemma DiskEncryptionRecommended(d: AuditData)
    ensures EnableDiskEncryption in Recommendations(d) <==>
              !IsChecked(d.checks, "mac-filevault") && !IsChecked(d.checks, "win-bitlocker")
  {
    RecommendedIff(d, EnableDiskEncryption);
  }

  /** Before any DNS check both the SPF and the DMARC recommendations are given. */
  lemma NoDnsCheckRecommendsSpfAndDmarc(d: AuditData)
    requires d.dnsResults.None?
    ensures ConfigureSpf in Recommendations(d)
    ensures ConfigureDmarc in Recommendations(d)
  {
    RecommendedIff(d, ConfigureSpf);
    RecommendedIff(d, ConfigureDmarc);
  }

  /** Trying rule k after the first k rules extends their recommendations by rule k's
      exactly when it fires. */
  lemma RecommendStep(d: AuditData, k: nat, before: seq<Rule>, after: seq<Rule>)
    requires k < |RULES|
    requires before == Recommend(RULES[..k], d)
    requires after == before + (if Fires(RULES[k], d) then [RULES[k]] else [])
    ensures after == Recommend(RULES[..k + 1], d)
  {
    RecommendPrefixStep(RULES, k, d);
  }

  lemma RecommendPrefixStep(rules: seq<Rule>, k: nat, d: AuditData)
    requires k < |rules|
    ensures Recommend(rules[..k + 1], d) ==
              Recommend(rules[..k], d) + (if Fires(rules[k], d) then [rules[k]] else [])
  {
    assert rules[..k + 1][..k] == rules[..k];
  }

  /** `recommendations.push(...)` rule after rule, as the report builds the list. */
  method CollectRecommendations(d: AuditData) returns (recs: seq<Rule>)
    ensures recs == Recommendations(d)
  {
    recs := PushFindingRecommendations(d);
    recs := PushAccountRecommendations(d, recs);
    recs := PushDeviceRecommendations(d, recs);
    assert RULES[..8] == RULES;
  }

  /** The first three pushes, driven by the breach count and the saved DNS results. */
  method PushFindingRecommendations(d: AuditData) returns (recs: seq<Rule>)
    ensures recs == Recommend(RULES[..3], d)
  {
    recs := [];
    var before: seq<Rule>;
    before := recs;
    if d.hibpBreachCount > 0 {
      recs := recs + [ChangeBreachedPasswords];
    }
    RecommendStep(d, 0, before, recs);
    before := recs;
    if !SpfFound(d) {
      recs := recs + [ConfigureSpf];
    }
    RecommendStep(d, 1, before, recs);
    before := recs;
    if !DmarcFound(d) {
      recs := recs + [ConfigureDmarc];
    }
    RecommendStep(d, 2, before, recs);
  }

  /** The next three pushes, driven by the HIBP, password-manager and e-mail MFA checks. */
  method PushAccountRecommendations(d: AuditData, first: seq<Rule>) returns (recs: seq<Rule>)
    requires first == Recommend(RULES[..3], d)
    ensures recs == Recommend(RULES[..6], d)
  {
    recs := first;
    var before: seq<Rule>;
    before := recs;
    if !IsChecked(d.checks, "osint-hibp") {
      recs := recs + [CheckHibp];
    }
    RecommendStep(d, 3, before, recs);
    before := recs;
    if !IsChecked(d.checks, "acc-pwmanager") {
      recs := recs + [UsePasswordManager];
    }
    RecommendStep(d, 4, before, recs);
    before := recs;
    if !IsChecked(d.checks, "mfa-email") {
      recs := recs + [EnableEmailMfa];
    }
    RecommendStep(d, 5, before, recs);
  }

  /** The last two pushes, driven by the disk-encryption and carrier-PIN checks. */
  method PushDeviceRecommendations(d: AuditData, first: seq<Rule>) returns (recs: seq<Rule>)
    requires first == Recommend(RULES[..6], d)
    ensures recs == Recommend(RULES[..8], d)
  {
    recs := first;
    var before: seq<Rule>;
    before := recs;
    if !IsChecked(d.checks, "mac-filevault") && !IsChecked(d.checks, "win-bitlocker") {
      recs := recs + [EnableDiskEncryption];
    }
    RecommendStep(d, 6, before, recs);
    before := recs;
    if !IsChecked(d.checks, "sim-pin") {
      recs := recs + [AddCarrierPin];
    }
    RecommendStep(d, 7, before, recs);
  }

  // Joined from two literals, whose characters the verifier can look at one by one.
  const ALL_CLEAR: string := "All critical items have been addressed." + " Continue monitoring for new threats."

  /** One numbered recommendation line, `${i + 1}. ${rec}`. */
  function NumberedLine(n: nat, rec: string): string {
    NatToString(n) + ". " + rec
  }

  /** The number in front of a numbered line reads back as that number, and such a line
      never reads as the all-clear line. */
  lemma NumberedLineNumber(n: nat, rec: string)
    ensures var line := NumberedLine(n, rec);
            var k := IndexOf(line, '.');
            k == |NatToString(n)| && AllDigits(line[..k]) && DigitsValue(line[..k]) == n
    ensures NumberedLine(n, rec) != ALL_CLEAR
  {
    var digits := NatToString(n);
    var line := NumberedLine(n, rec);
    assert line[..|digits|] == digits;
    assert line[|digits|] == '.';
    assert '.' !in digits;
    LetterVsDigit(line, ALL_CLEAR);
    NatToStringValue(n);
  }

  lemma LetterVsDigit(line: string, other: string)
    requires line != [] && IsAsciiDigit(line[0])
    requires other != [] && other[0] == 'A'
    ensures line != other
  {
  }

  /** The texts of the recommendations, in order. */
  function RecommendationTexts(recs: seq<Rule>): (texts: seq<string>)
    ensures |texts| == |recs|
    ensures forall i :: 0 <= i < |recs| ==> texts[i] == RuleText(recs[i])
  {
    seq(|recs|, i requires 0 <= i < |recs| => RuleText(recs[i]))
  }

  /** The recommendations block of the report: the recommendation texts numbered from 1,
      each on its own line, or the single all-clear line when there are none. */
  method RecommendationLines(texts: seq<string>) returns (lines: seq<string>)
    ensures texts == [] ==> lines == [ALL_CLEAR]
    ensures texts != [] ==> |lines| == |texts|
    ensures texts != [] ==> forall i :: 0 <= i < |texts| ==> lines[i] == NumberedLine(i + 1, texts[i])
    ensures ALL_CLEAR in lines <==> texts == []
  {
    if |texts| > 0 {
      lines := [];
      for i := 0 to |texts|
        invariant |lines| == i
        invariant forall j :: 0 <= j < i ==> lines[j] == NumberedLine(j + 1, texts[j])
      {
        lines := lines + [NumberedLine(i + 1, texts[i])];
      }
      forall j | 0 <= j < |lines| ensures lines[j] != ALL_CLEAR {
        NumberedLineNumber(j + 1, texts[j]);
      }
    } else {
      lines := [ALL_CLEAR];
    }
  }

  // ===========================================================================
  // Report: checklist listing (generateReport lines 529-546)
  // ===========================================================================

  /** The title printed for an item: its `.check-title` text, or its id when that is empty. */
  function ItemTitle(item: CheckItem): string {
    if item.title == "" then item.id else item.title
  }

  function ItemLine(item: CheckItem, checks: map<string, bool>): string {
    (if IsChecked(checks, item.id) then "[\U{2713}]" else "[ ]") + " " + ItemTitle(item)
  }

  /** A listed item shows `[✓]` exactly when its check is ticked and `[ ]` otherwise,
      then a space and its title, which falls back to the id when the item has none. */
  lemma ItemLineParts(item: CheckItem, checks: map<string, bool>)
    ensures var line := ItemLine(item, checks);
            && |line| >= 4 && line[0] == '[' && line[2] == ']' && line[3] == ' '
            && (line[1] == '\U{2713}' <==> IsChecked(checks, item.id))
            && (line[1] == ' ' <==> !IsChecked(checks, item.id))
            && line[4..] == ItemTitle(item)
    ensures item.title != "" ==> ItemTitle(item) == item.title
    ensures item.title == "" ==> ItemTitle(item) == item.id
  {
  }

  /** The counts in a section header are shortest numerals that read back as the number
      of ticked items and the number of items. */
  lemma SectionHeaderCounts(section: Section, items: seq<CheckItem>, checks: map<string, bool>)
    ensures exists done: string, total: string ::
              && IsNumeral(done) && IsNumeral(total)
              && DigitsValue(done) == TickedItemCount(items, checks)
              && DigitsValue(total) == |items|
              && SectionHeader(section, items, checks) ==
                   "--- " + ToUpper(section.name) + " (" + done + "/" + total + ") ---"
  {
    var done := NatToString(TickedItemCount(items, checks));
    var total := NatToString(|items|);
    NatToStringValue(TickedItemCount(items, checks));
    NatToStringValue(|items|);
    assert SectionHeader(section, items, checks) ==
             "--- " + ToUpper(section.name) + " (" + done + "/" + total + ") ---";
  }

  /** The number of a section's items whose check is ticked. */
  function TickedItemCount(items: seq<CheckItem>, checks: map<string, bool>): (n: nat)
    ensures n <= |items|
    ensures n == |items| <==> forall i :: 0 <= i < |items| ==> IsChecked(checks, items[i].id)
  {
    if items == [] then 0
    else TickedItemCount(items[..|items| - 1], checks) + (if IsChecked(checks, items[|items| - 1].id) then 1 else 0)
  }

  function SectionHeader(section: Section, items: seq<CheckItem>, checks: map<string, bool>): string {
    "--- " + ToUpper(section.name) + " ("
      + NatToString(TickedItemCount(items, checks)) + "/" + NatToString(|items|) + ") ---"
  }

  function ItemLines(items: seq<CheckItem>, checks: map<string, bool>): (lines: seq<string>)
    ensures |lines| == |items|
    ensures forall i :: 0 <= i < |items| ==> lines[i] == ItemLine(items[i], checks)
  {
    if items == [] then []
    else ItemLines(items[..|items| - 1], checks) + [ItemLine(items[|items| - 1], checks)]
  }

  /** The lines one section contributes: none when its element is absent, otherwise an
      empty line (the template opens with a newline), a header with its ticked and total
      counts, and one line per item. */
  function SectionListing(section: Section, slot: Option<seq<CheckItem>>, checks: map<string, bool>): seq<string> {
    match slot
    case None => []
    case Some(items) => ["", SectionHeader(section, items, checks)] + ItemLines(items, checks)
  }

  function Listing(sections: seq<Section>, page: Page, checks: map<string, bool>): seq<string>
    requires |sections| == |page|
  {
    if sections == [] then []
    else
      var n := |sections| - 1;
      Listing(sections[..n], page[..n], checks) + SectionListing(sections[n], page[n], checks)
  }

  function PresentSections(page: Page): nat {
    if page == [] then 0
    else PresentSections(page[..|page| - 1]) + (if page[|page| - 1].Some? then 1 else 0)
  }

  /** The checklist block has an empty line and a header per section present on the page
      and one line per check item. */
  lemma {:induction false} ListingLength(sections: seq<Section>, page: Page, checks: map<string, bool>)
    requires |sections| == |page|
    ensures |Listing(sections, page, checks)| == 2 * PresentSections(page) + TotalChecks(page)
  {
    if sections != [] {
      var n := |sections| - 1;
      ListingLength(sections[..n], page[..n], checks);
    }
  }

  /** `checks.forEach(...)` for one section: an empty line and its header, then one line
      per item. */
  method SectionLines(section: Section, items: seq<CheckItem>, checks: map<string, bool>)
    returns (out: seq<string>)
    ensures out == SectionListing(section, Some(items), checks)
  {
    var lines := [];
    for j := 0 to |items|
      invariant lines == ItemLines(items[..j], checks)
    {
      ItemLinesStep(items, j, checks);
      lines := lines + [ItemLine(items[j], checks)];
    }
    assert items[..|items|] == items;
    out := ["", SectionHeader(section, items, checks)] + lines;
  }

  lemma ItemLinesStep(items: seq<CheckItem>, j: nat, checks: map<string, bool>)
    requires j < |items|
    ensures ItemLines(items[..j + 1], checks) == ItemLines(items[..j], checks) + [ItemLine(items[j], checks)]
  {
    assert items[..j + 1][..j] == items[..j];
  }

  /** `SECTIONS.forEach(...)`: the listing of every section present on the page. */
  method ChecklistLines(page: Page, checks: map<string, bool>) returns (lines: seq<string>)
    requires |page| == |SECTIONS|
    ensures lines == Listing(SECTIONS, page, checks)
  {
    lines := [];
    for s := 0 to |SECTIONS|
      invariant lines == Listing(SECTIONS[..s], page[..s], checks)
    {
      ListingStep(SECTIONS, page, s, checks);
      if page[s].Some? {
        var sectionLines := SectionLines(SECTIONS[s], page[s].value, checks);
        lines := lines + sectionLines;
      }
    }
    ListingWhole(SECTIONS, page, checks);
  }

  lemma ListingStep(sections: seq<Section>, page: Page, s: nat, checks: map<string, bool>)
    requires |sections| == |page| && s < |sections|
    ensures Listing(sections[..s + 1], page[..s + 1], checks) ==
              Listing(sections[..s], page[..s], checks) + SectionListing(sections[s], page[s], checks)
  {
    assert sections[..s + 1][..s] == sections[..s];
    assert page[..s + 1][..s] == page[..s];
  }

  lemma ListingWhole(sections: seq<Section>, page: Page, checks: map<string, bool>)
    requires |sections| == |page|
    ensures Listing(sections[..|sections|], page[..|page|], checks) == Listing(sections, page, checks)
  {
    assert sections[..|sections|] == sections;
    assert page[..|page|] == page;
  }

  // ===========================================================================
  // The wizard
  // ===========================================================================

  /** The page's global state: `auditData` and `currentSection`. */
  class AuditWizard {
    var data: AuditData
    var currentSection: nat

    ghost predicate Valid()
      reads this
    {
      currentSection < |SECTIONS|
    }

    /** The state before `loadProgress` runs. */
    constructor ()
      ensures Valid()
      ensures data == INITIAL_AUDIT && currentSection == 0
    {
      data := INITIAL_AUDIT;
      currentSection := 0;
    }

    /** `loadProgress`: take the saved progress when it parses, then stamp the start time
        if the progress has none; a start time already present is kept. */
    method LoadProgress(saved: SavedProgress, now: string)
      requires Valid()
      modifies this
      ensures Valid() && currentSection == old(currentSection)
      ensures var loaded := LoadedProgress(old(data), saved);
              if HasStarted(loaded) then data == loaded
              else data == loaded.(startedAt := Some(now))
      ensures now != "" ==> HasStarted(data)
    {
      data := LoadedProgress(data, saved);
      if !HasStarted(data) {
        data := data.(startedAt := Some(now));
      }
    }

    /** `goToSection(index)` from a navigation item. */
    method GoToSection(index: nat)
      requires Valid() && index < |SECTIONS|
      modifies this
      ensures Valid() && currentSection == index && data == old(data)
    {
      currentSection := index;
    }

    /** The previous button: moves back one section unless on the first. */
    method Prev()
      requires Valid()
      modifies this
      ensures Valid() && data == old(data)
      ensures currentSection ==
                if old(currentSection) > 0 then old(currentSection) - 1 else old(currentSection)
      ensures currentSection == old(currentSection) <==> PrevDisabled(old(currentSection))
    {
      if currentSection > 0 {
        GoToSection(currentSection - 1);
      }
    }

    /** The next button: moves on one section unless on the last. */
    method Next()
      requires Valid()
      modifies this
      ensures Valid() && data == old(data)
      ensures currentSection ==
                if old(currentSection) < |SECTIONS| - 1 then old(currentSection) + 1 else old(currentSection)
      ensures currentSection == old(currentSection) <==> OnLastSection(old(currentSection))
    {
      if currentSection < |SECTIONS| - 1 {
        GoToSection(currentSection + 1);
      }
    }

    /** A checkbox change: record its value under its id; no other check changes. */
    method SetCheck(id: string, checked: bool)
      requires Valid()
      modifies this
      ensures Valid() && currentSection == old(currentSection)
      ensures data == old(data).(checks := old(data).checks[id := checked])
      ensures id in data.checks && data.checks[id] == checked
      ensures forall other :: other != id ==>
                (other in data.checks <==> other in old(data).checks)
                && (other in data.checks ==> data.checks[other] == old(data).checks[other])
    {
      data := data.(checks := data.checks[id := checked]);
    }

    /** The DNS button: normalise the input; refuse it (no lookup, nothing stored) unless
        it is a valid domain; otherwise run the three lookups and store the results. */
    method CheckDomain(input: string, resolve: Query -> DnsLookup, checkedAt: string)
      returns (outcome: DnsCheckOutcome, queries: seq<Query>)
      requires Valid()
      modifies this
      ensures Valid() && currentSection == old(currentSection)
      ensures var domain := NormalizeDomain(input);
              if domain == "" || !IsValidDomain(domain) then
                outcome == InvalidDomain && queries == [] && data == old(data)
              else
                && outcome == Checked(CheckDnsSecurity(domain, resolve))
                && queries == DnsQueries(domain)
                && data == old(data).(dnsResults := Some(DnsRecord(domain, outcome.results, checkedAt)))
    {
      var domain := NormalizeDomain(input);
      if domain == "" || !IsValidDomain(domain) {
        outcome, queries := InvalidDomain, [];
        return;
      }
      var results := CheckDnsSecurity(domain, resolve);
      queries := DnsQueries(domain);
      data := data.(dnsResults := Some(DnsRecord(domain, results, checkedAt)));
      outcome := Checked(results);
    }

    /** The reset button, once confirmed: fresh progress started now, back to section 0. */
    method Reset(now: string)
      requires Valid()
      modifies this
      ensures Valid()
      ensures data == AuditData(map[], None, 0, Some(now), None)
      ensures currentSection == 0
      ensures CompletedCount(data.checks) == 0
    {
      data := AuditData(map[], None, 0, Some(now), None);
      GoToSection(0);
    }
  }
}
