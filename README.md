# FK94 Security: audit wizard, monitor dashboard and breach-scan handler in Dafny

This project models the statable logic of three parts of the FK94 Security site and
proves properties of it:

- **The security-audit wizard** (`audit-tool/app.js`, module `AuditTool`). It keeps saved
  progress: which checklist items are ticked, the last DNS check, and the start time. It
  shows one of six fixed sections, with prev/next navigation and a reset. It derives
  section completion and the progress percentage. It normalises and validates the domain
  typed into the DNS check. It classifies the DNS-over-HTTPS answers for SPF, DMARC and MX
  into `found` / `not_found` / `error`. For the report it builds the rule-driven
  recommendations and the checklist listing. The wizard's globals `auditData` and
  `currentSection` form the class `AuditWizard`. The page is an input: it says which
  check items each section element holds. So is the DNS resolver, a function from a
  query to its outcome.
- **The monitor dashboard** (`saas-mvp/app.js`, module `Monitor`). Its state record is
  `{user, plan, assets, alerts}`. It is restored from storage by merging the saved keys
  over the defaults. The login, logout, add-asset, plan and settings buttons change it
  and save it. It is rendered as panel figures and a line-by-line monthly report. The
  global `state`, the view on screen and the storage slot form the class `Dashboard`.
  Its invariant says the dashboard is only shown to a logged-in user. Every handler that
  saves leaves storage holding what a reload restores.
- **The breach-scan endpoint** (`backend-simple/index.js`, module `BreachScan`). It
  checks the request's e-mail, normalises it, asks the breach provider once, maps the
  provider's 404/429/other failures, and shapes the response. The fixed demo answer is
  modelled too. The provider is an input function from the normalised address to its
  reply. The handler also returns the list of addresses it asked about, so "no call
  before validation" can be stated.

`Strings` writes out the JavaScript string built-ins the programs use, on `seq<char>`:
`trim` with the full ECMAScript white-space set, ASCII `toLowerCase`/`toUpperCase`,
`includes`, `replace(/"/g, '')` and decimal rendering. `Wrappers` holds `Option`.

Some of the behaviour this model captures, as the code is written:

- `isValidDomain`'s regular expression is encoded as a hand-written predicate. A lemma
  proves it equal to a direct reading of the expression.
- In `/\/.*$/` the `.` does not match a line terminator. So the path cut only takes a
  `/` with no line terminator after it.
- An MX response with an empty `Answer` array counts as `found`, because the empty array
  is truthy.
- The report's percentage has no guard against an empty page. It prints `NaN` or
  `Infinity` there, which `ReportProgress` models.
- `hibpResults` is read by the report's first rule but never written by the wizard. It
  is kept as a saved breach count.
- The settings button stores the trimmed name and e-mail without the login button's
  demo fallback.
- Each section of the report's checklist opens with an empty line before its header,
  because the header template starts with a newline.

## Model

| member | source | states |
|---|---|---|
| `AuditTool.LoadedProgress` | audit-tool/app.js:40-48 | A saved object that parses replaces the progress. Nothing saved, or text that does not parse, keeps the progress as it was. |
| `AuditTool.SectionCheckIds` | audit-tool/app.js:152-158 | An id is a section's check id iff it is non-empty and some item of the section carries it. There is no id for an absent section element, and no more ids than items. |
| `AuditTool.NonEmptyIds` | audit-tool/app.js:155-157 | `map(...).filter(Boolean)` keeps no empty id and at most one id per item. An id is kept iff it is non-empty and some item carries it. |
| `AuditTool.AllChecked` | audit-tool/app.js:107 | `every(c => checks[c])` holds iff every id is ticked, where an id never set counts as unticked. |
| `AuditTool.IsChecked` | audit-tool/app.js:107 | An id counts as ticked only when the saved checks map it to true. An id never set counts as unticked. Its contract is stated by `AllChecked` and `SetCheckCount`. |
| `AuditTool.SectionCompleted` | audit-tool/app.js:107 | A section is completed iff it has at least one check and all of them are ticked. An empty section never is. |
| `AuditTool.UntickBreaksCompletion` | audit-tool/app.js:107 | After one of a section's checks is unticked, the section is not completed. |
| `AuditTool.CompletedCount` | audit-tool/app.js:163 | The number of ids ticked in the saved checks, on the page or not. Its contract is stated by `SetCheckCount`. |
| `AuditTool.TotalChecks` | audit-tool/app.js:161 | The number of check items on the page. `ListingLength` states that the checklist listing has one line per check item besides its section lines. |
| `AuditTool.SetCheckCount` | audit-tool/app.js:163 | Setting one check changes the ticked count by -1, 0 or +1, according to its old and new value. |
| `AuditTool.ProgressPercent` | audit-tool/app.js:160-164 | 0 with no checks on the page. Otherwise `completed/total*100` rounded to nearest with ties up. At most 100 when `completed <= total`. |
| `AuditTool.PercentBound` | audit-tool/app.js:164 | The rounding bracket of the percentage, and its bound of 100. |
| `AuditTool.ReportProgress` | audit-tool/app.js:487 | The report's percentage is the rounded value when the page has checks. With none it is `NaN` for 0/0 and `Infinity` for a positive count. |
| `AuditTool.NavItemStatus` | audit-tool/app.js:110-117 | A tick iff the section is completed. An arrow iff it is not completed and is the current one. Otherwise empty. |
| `AuditTool.PagePercent` | audit-tool/app.js:159-164 | The progress figure is `ProgressPercent` of the saved tick count over the page's check items. It is 0 with no checks on the page or nothing ticked, 100 when the tick count equals the item count, and at most 100 when it does not exceed it. |
| `AuditTool.PercentExtremes` | audit-tool/app.js:164 | With checks on the page, 0 ticked rounds to 0 and all ticked to 100. |
| `AuditTool.NavMark` | audit-tool/app.js:101-117 | Item i's mark is a tick iff section i's check ids on the page are all ticked (and there is one). It is an arrow iff the section is not completed and is the current one. Otherwise it is empty. |
| `AuditTool.NavMarkAllTicked` | audit-tool/app.js:101-117 | A section with at least one item id, every one of them ticked, is marked with a tick. |
| `AuditTool.NextLabel` | audit-tool/app.js:122-137 | The next button reads "Complete" iff on the last section, and "Next" otherwise. |
| `AuditTool.PrevDisabled` | audit-tool/app.js:121 | The previous button is disabled iff on section 0. Its contract is stated by `AuditWizard.Prev`, which stays put iff this holds. |
| `AuditTool.OnLastSection` | audit-tool/app.js:123 | On the last of the six sections. Its contract is stated by `NextLabel` ("Complete" iff this holds) and by `AuditWizard.Next`. |
| `AuditTool.StripScheme` | audit-tool/app.js:251 | The scheme replacement keeps a suffix of its input. |
| `AuditTool.StripSchemeRemoves` | audit-tool/app.js:251 | A leading "https://" is removed, leaving `s[8..]`. A leading "http://" is removed, leaving `s[7..]`. A string with neither prefix is unchanged. What is removed is always "", "http://" or "https://". |
| `AuditTool.CutPath` | audit-tool/app.js:251 | The path replacement keeps a prefix of its input. |
| `AuditTool.CutPathAt` | audit-tool/app.js:251 | The cut is at a '/' with no line terminator after it. Every '/' kept has a line terminator somewhere after it. |
| `AuditTool.CutPathNoSlash` | audit-tool/app.js:251 | A string without '/' is not cut. |
| `AuditTool.NormalizeDomain` | audit-tool/app.js:251 | The normalised domain has no upper-case ASCII letter. |
| `AuditTool.NormalizeDomainOfUrl` | audit-tool/app.js:251 | A URL `http://` or `https://`, then a host, then a path normalises to the host in lower case. The host has no '/' and does not end in white space. The path is empty, or a '/' followed by anything but a line terminator. |
| `AuditTool.NormalizeDomainNoSlash` | audit-tool/app.js:251 | For input without line terminators, the normalised domain contains no '/'. |
| `AuditTool.NormalizeDomainIdempotent` | audit-tool/app.js:251 | Normalising twice equals normalising once, for input without line terminators whose result is trimmed. |
| `AuditTool.NormalizeDomainNotIdempotent` | audit-tool/app.js:251 | The trimmed-result condition is needed: `c /` normalises to `c ` and then to `c`. |
| `AuditTool.IsValidDomain` | audit-tool/app.js:649-651 | The group-by-group reading of the regular expression. `IsValidDomainMatchesRegex` states that it holds iff the expression matches. |
| `AuditTool.LetterGroupsSound` | audit-tool/app.js:649-651 | The group-by-group check of `(?:\.[a-zA-Z]{2,})+$` implies that the expression matches. |
| `AuditTool.LetterGroupsComplete` | audit-tool/app.js:649-651 | A match of `(?:\.[a-zA-Z]{2,})+$` passes the group-by-group check. |
| `AuditTool.IsValidDomainMatchesRegex` | audit-tool/app.js:649-651 | `IsValidDomain` holds iff the whole anchored regular expression matches: a first label of 2-63 characters, alphanumeric at both ends and alphanumeric or '-' inside, followed by one or more dot-and-letters groups of at least two letters. |
| `AuditTool.ShortFirstLabelRefused` | audit-tool/app.js:649-651 | `a.com` is refused. |
| `AuditTool.DigitInLetterGroupRefused` | audit-tool/app.js:649-651 | `ab.c1` is refused. |
| `AuditTool.TwoLabelDomainAccepted` | audit-tool/app.js:649-651 | `ab.cd` is accepted. |
| `AuditTool.ThreeLabelDomainAccepted` | audit-tool/app.js:649-651 | `ab.cd.ef` is accepted. |
| `AuditTool.DnsQueries` | audit-tool/app.js:294-334 | One check makes three requests in this order: TXT of the domain, TXT of `_dmarc.<domain>`, MX of the domain. |
| `AuditTool.FirstMention` | audit-tool/app.js:298 | `Answer.find`: the index of the first entry containing the marker, or the length when none does. |
| `AuditTool.ClassifyTxt` | audit-tool/app.js:292-330 | `error` iff the request failed. `found` iff an `Answer` exists and some entry contains the marker. The record is present iff found, and it is the first such entry with its double quotes removed. Otherwise `not_found`. |
| `AuditTool.ClassifyMx` | audit-tool/app.js:332-345 | `error` iff the request failed. `found` iff an `Answer` exists, even an empty one, with the records equal to its data in order. Otherwise `not_found` with no records. |
| `AuditTool.CheckDnsSecurity` | audit-tool/app.js:282-348 | The SPF result is `ClassifyTxt` of the domain's TXT answer with `v=spf1`. The DMARC result is `ClassifyTxt` of `_dmarc.<domain>`'s TXT answer with `v=DMARC1`. The MX result is `ClassifyMx` of the domain's MX answer. So each status is `error` iff its own request failed, and no result stays `checking`. |
| `AuditTool.StatusIcon` | audit-tool/app.js:351-358 | Each status has its own icon class and glyph. |
| `AuditTool.StatusIconInjective` | audit-tool/app.js:351-358 | Two different statuses never share an icon. |
| `AuditTool.FixAdvice` | audit-tool/app.js:360-370 | No advice when the record was found, or ever for MX. The SPF or DMARC advice otherwise. |
| `AuditTool.ResultIcon` | audit-tool/app.js:653-660 | ✓ iff success, ! iff warning, i iff info, ✗ for any other type. |
| `AuditTool.Fires` | audit-tool/app.js:557-587 | The condition of each of the eight `if`s. `RecommendedIff` states that a rule's recommendation is given iff it fires. |
| `AuditTool.SpfFound` | audit-tool/app.js:561 | The saved DNS results hold an SPF status of "found". Its contract is stated by `Fires`, `RecommendedIff` and `NoDnsCheckRecommendsSpfAndDmarc`. |
| `AuditTool.DmarcFound` | audit-tool/app.js:565 | The saved DNS results hold a DMARC status of "found". Its contract is stated by `Fires`, `RecommendedIff` and `NoDnsCheckRecommendsSpfAndDmarc`. |
| `AuditTool.Recommend` | audit-tool/app.js:555-587 | The rules that fire, in the order tried. Its contract is stated by `RecommendMembership`, `RecommendLength` and `RecommendNoRepeats`. |
| `AuditTool.Recommendations` | audit-tool/app.js:555-587 | The report's recommendations. Its contract is stated by `RecommendedIff` and `RecommendationsAtMostEight`. |
| `AuditTool.RecommendMembership` | audit-tool/app.js:555-587 | A rule is recommended iff it is among the rules tried and its condition holds. |
| `AuditTool.RecommendLength` | audit-tool/app.js:555-587 | There are no more recommendations than rules tried. |
| `AuditTool.RecommendNoRepeats` | audit-tool/app.js:555-587 | When no rule is tried twice, no recommendation appears twice. |
| `AuditTool.RecommendedIff` | audit-tool/app.js:555-587 | Each of the eight recommendations is in the report iff its condition holds. |
| `AuditTool.RecommendationsAtMostEight` | audit-tool/app.js:555-587 | At most eight recommendations, with no repeats. |
| `AuditTool.DiskEncryptionRecommended` | audit-tool/app.js:581-583 | Disk encryption is recommended iff neither `mac-filevault` nor `win-bitlocker` is ticked. |
| `AuditTool.NoDnsCheckRecommendsSpfAndDmarc` | audit-tool/app.js:561-567 | With no DNS results saved, both the SPF and the DMARC recommendations are given. |
| `AuditTool.RecommendStep` | audit-tool/app.js:555-587 | Trying the next rule extends the list by that rule exactly when its condition holds. |
| `AuditTool.CollectRecommendations` | audit-tool/app.js:555-587 | The pushes, in source order, build exactly the list the rules define. |
| `AuditTool.PushFindingRecommendations` | audit-tool/app.js:557-567 | The first three pushes give the recommendations of the first three rules. |
| `AuditTool.PushAccountRecommendations` | audit-tool/app.js:569-579 | The next three pushes give those of the first six rules. |
| `AuditTool.PushDeviceRecommendations` | audit-tool/app.js:581-587 | The last two pushes give those of all eight rules. |
| `AuditTool.NumberedLineNumber` | audit-tool/app.js:589-595 | The number before the first '.' of a numbered line reads back as that number. A numbered line is never the all-clear line. |
| `AuditTool.RecommendationTexts` | audit-tool/app.js:558-586 | One text per recommendation, in order. |
| `AuditTool.RuleText` | audit-tool/app.js:558-586 | The eight texts the report pushes, one per rule. Its contract is stated by `RecommendationTexts`, whose text i is the text of recommendation i. |
| `AuditTool.NumberedLine` | audit-tool/app.js:591 | The line `i. text` for recommendation i, counted from 1. Its contract is stated by `NumberedLineNumber`. |
| `AuditTool.RecommendationLines` | audit-tool/app.js:589-595 | Recommendation i is printed as line `i+1. text`. The all-clear line appears iff there are no recommendations, and then alone. |
| `AuditTool.ItemLine` | audit-tool/app.js:541-544 | One item's line. Its contract is stated by `ItemLineParts`. |
| `AuditTool.ItemTitle` | audit-tool/app.js:542 | The item's title, or its id when the title is missing or empty. Its contract is stated by `ItemLineParts`. |
| `AuditTool.ItemLineParts` | audit-tool/app.js:541-544 | The line opens with `[✓]` iff the item is ticked and with `[ ]` otherwise, then a space and the title. The title falls back to the id when the item has none. |
| `AuditTool.SectionHeader` | audit-tool/app.js:538 | One section's header. Its contract is stated by `SectionHeaderCounts`. |
| `AuditTool.SectionHeaderCounts` | audit-tool/app.js:535-538 | The header is `--- NAME (done/total) ---`, the name in upper case. `done` and `total` are shortest numerals, with no leading zero, that read back as the ticked item count and the item count. |
| `AuditTool.TickedItemCount` | audit-tool/app.js:535 | The ticked count is at most the item count, and equals it iff every item is ticked. |
| `AuditTool.ItemLines` | audit-tool/app.js:540-545 | One status-and-title line per item, in order. |
| `AuditTool.ListingLength` | audit-tool/app.js:529-546 | The listing has an empty line and a header per section present on the page, and one line per check item. |
| `AuditTool.SectionListing` | audit-tool/app.js:531-545 | One present section's lines: an empty line, its header, then its item lines. Its contract is stated by `SectionLines` and `ListingLength`. |
| `AuditTool.Listing` | audit-tool/app.js:530-546 | The lines of every section present on the page, in section order. Its contract is stated by `ListingLength` and `ChecklistLines`. |
| `AuditTool.SectionLines` | audit-tool/app.js:534-545 | The loop over one section's items gives an empty line and its header, then its item lines in order. |
| `AuditTool.ChecklistLines` | audit-tool/app.js:530-546 | The loop over the six sections gives the listing of every section present, in order. |
| `AuditTool.AuditWizard.constructor` | audit-tool/app.js:16-22 | Before loading: no checks, no DNS results, no start time, section 0. |
| `AuditTool.HasStarted` | audit-tool/app.js:49 | The start time is present and non-empty. `AuditWizard.LoadProgress` states that the start time is set to now only when this fails. |
| `AuditTool.AuditWizard.LoadProgress` | audit-tool/app.js:40-53 | The saved progress is taken when it parses. The start time is set to now only when it is absent. |
| `AuditTool.AuditWizard.GoToSection` | audit-tool/app.js:90-93 | The current section becomes the chosen index. Progress is unchanged. |
| `AuditTool.AuditWizard.Prev` | audit-tool/app.js:81-83 | Moves back one section iff not on the first. The section stays in range. |
| `AuditTool.AuditWizard.Next` | audit-tool/app.js:85-87 | Moves on one section iff not on the last. The section stays in range. |
| `AuditTool.AuditWizard.SetCheck` | audit-tool/app.js:187-188 | The check takes the checkbox value. Every other check and the section are unchanged. |
| `AuditTool.AuditWizard.CheckDomain` | audit-tool/app.js:250-273 | An empty or invalid normalised domain is refused with no request and nothing stored. Otherwise the three requests are made and the results are stored with the domain and time. |
| `AuditTool.AuditWizard.Reset` | audit-tool/app.js:610-640 | Empty checks, no DNS results, started now, back to section 0. |
| `Monitor.Merge` | saas-mvp/app.js:21 | Object spread: every key the saved object carries overrides the base, and every key it lacks keeps the base value. |
| `Monitor.LoadState` | saas-mvp/app.js:17-25 | The defaults, or the saved keys over the defaults. Its contract is stated by `LoadWithoutSavedObject`, `LoadSavedKeysOverride`, `LoadMissingKeysKeepDefault` and `LoadSnapshot`. |
| `Monitor.LoadWithoutSavedObject` | saas-mvp/app.js:17-25 | Nothing saved, or text that does not parse, gives exactly the defaults. |
| `Monitor.LoadSavedKeysOverride` | saas-mvp/app.js:21 | Every key the saved object carries overrides the default. |
| `Monitor.LoadMissingKeysKeepDefault` | saas-mvp/app.js:21 | Every default key the saved object lacks is kept. |
| `Monitor.LoadSnapshot` | saas-mvp/app.js:17-29 | What `saveState` writes, `loadState` restores unchanged. |
| `Monitor.Snapshot` | saas-mvp/app.js:27-29 | The object `saveState` writes: all four keys of the state. Its contract is stated by `LoadSnapshot` and `Dashboard.Save`. |
| `Monitor.OrElse` | saas-mvp/app.js:113-114 | `text \|\| fallback` replaces only the empty string. |
| `Monitor.LoginUser` | saas-mvp/app.js:113-116 | The user's name and email are the trimmed inputs. A blank one becomes `Demo User` or `demo@fk94security.com`. |
| `Monitor.LoginUserFilled` | saas-mvp/app.js:113-116 | A logged-in user's name and email are never blank and are trimmed. |
| `Monitor.NewAsset` | saas-mvp/app.js:132-133 | The new asset has status `Monitored`. Its type is `email` iff the value contains '@', and `domain` otherwise. |
| `Monitor.NewAssetWellFormed` | saas-mvp/app.js:128-133 | An added asset is an email or a domain asset, with a non-blank, trimmed name and value. |
| `Monitor.PlanLabel` | saas-mvp/app.js:48-50 | `Business Monitor` iff the plan is `business`, `Personal Monitor` otherwise. |
| `Monitor.ScoreValue` | saas-mvp/app.js:52-54 | The score is 82 iff the plan is `business`, 72 otherwise, and at most 100. |
| `Monitor.SeverityClass` | saas-mvp/app.js:85-89 | `danger` iff High, `warning` iff Medium, empty otherwise. |
| `Monitor.Hydrate` | saas-mvp/app.js:47-58 | The panel shows the plan label, the plan, and the score of the plan, with one row per asset and one per alert. |
| `Monitor.HydrateRows` | saas-mvp/app.js:65-98 | Asset rows are the assets in order. Alert row i carries alert i's fields and its severity class. |
| `Monitor.RenderAlert` | saas-mvp/app.js:85-95 | One alert's table row: type, severity class, severity, summary and date. Its contract is stated by `HydrateRows`. |
| `Monitor.HydrateCounts` | saas-mvp/app.js:55-56 | The panel counters are shortest numerals, with no leading zero, that read back as the numbers of alerts and assets. |
| `Monitor.AlertLine` | saas-mvp/app.js:151 | Every alert line opens with `- [`. |
| `Monitor.AlertLineFields` | saas-mvp/app.js:151 | An alert's severity, type and summary sit in its line in the `- [severity] type: summary` layout. |
| `Monitor.AlertLines` | saas-mvp/app.js:151 | One line per alert. |
| `Monitor.ReportHead` | saas-mvp/app.js:143-150 | Eight lines precede the alerts. |
| `Monitor.MonthlyReport` | saas-mvp/app.js:142-157 | The report has 13 lines plus one per alert. |
| `Monitor.ReportAlertBlock` | saas-mvp/app.js:150-152 | Line 8+i is alert i's line. The block opens with `Alerts:` and closes with a blank line. |
| `Monitor.HeadHasNoAlertLine` | saas-mvp/app.js:143-150 | No line above the alerts opens like an alert line. |
| `Monitor.TailHasNoAlertLine` | saas-mvp/app.js:152-156 | No line below the alerts opens like an alert line. |
| `Monitor.ReportAlertLinesExactly` | saas-mvp/app.js:142-157 | A line opens like an alert line iff it lies in the alert block. So there is exactly one such line per alert, in alert order. |
| `Monitor.ReportCounts` | saas-mvp/app.js:147-148 | The asset and alert counts in the report are shortest numerals, with no leading zero, that read back as the list lengths. |
| `Monitor.ReportPlanMatchesPanel` | saas-mvp/app.js:146 | The report names the plan with the panel's label. |
| `Monitor.Dashboard.constructor` | saas-mvp/app.js:31 | The state is `loadState()` of the storage slot. The dashboard is shown iff a user is stored. |
| `Monitor.Dashboard.Save` | saas-mvp/app.js:27-29 | Storage holds the whole state, so a reload restores it. Nothing else changes. |
| `Monitor.Dashboard.Login` | saas-mvp/app.js:112-120 | Stores the defaulted user and the chosen plan, saves, and shows the dashboard. Assets and alerts are unchanged. |
| `Monitor.Dashboard.Logout` | saas-mvp/app.js:122-126 | The user becomes null and the login form shows. Plan, assets and alerts are unchanged, and the state is saved. |
| `Monitor.Dashboard.AddAsset` | saas-mvp/app.js:128-138 | Adds iff the trimmed name and value are both non-empty. Then it appends exactly one asset at the end, keeps the earlier ones and saves. Otherwise nothing changes. |
| `Monitor.Dashboard.UpdatePlan` | saas-mvp/app.js:161-165 | The plan becomes the selected one and is saved. Everything else is unchanged. |
| `Monitor.Dashboard.SaveSettings` | saas-mvp/app.js:167-172 | The user becomes the trimmed name and email, with no fallback, and is saved. Everything else is unchanged. |
| `Monitor.Dashboard.GenerateReport` | saas-mvp/app.js:140-158 | The report is the current state's monthly report, 13 lines plus one per alert. |
| `BreachScan.ClassifyReply` | backend-simple/index.js:51-58 | A reply's data, or `[]` when null. A 404 gives no breaches. A 429 gives `RATE_LIMITED`. Any other failure keeps its message. |
| `BreachScan.AcceptsEmail` | backend-simple/index.js:34 | The negated guard: a non-empty address holding '@'. `HandleScan` and `InvalidEmailNoLookup` state that a refused address gets a 400 with no provider call. |
| `BreachScan.NormalizeEmail` | backend-simple/index.js:48 | The normalised address is the trimmed input lower-cased character by character: the same length as `trim(email)`, with each character its `LowerChar`. It is trimmed and has no upper-case letter. |
| `BreachScan.NormalizeEmailIdempotent` | backend-simple/index.js:48 | Normalising a normalised address changes nothing. |
| `BreachScan.NormalizeEmailKeepsAt` | backend-simple/index.js:34-48 | The '@' the guard required is still in the normalised address. |
| `BreachScan.Summarize` | backend-simple/index.js:66-74 | Each response field is the matching provider field. |
| `BreachScan.SummarizeAll` | backend-simple/index.js:66-74 | One summary per breach, in order. |
| `BreachScan.ScanResult` | backend-simple/index.js:62-76 | `breachCount` is the number of breaches listed. `isCompromised` holds iff the count is positive. |
| `BreachScan.HandleScan` | backend-simple/index.js:31-82 | An invalid email gets 400 `Valid email required` with no provider call. A valid one brings exactly one call, with the normalised address. |
| `BreachScan.InvalidEmailNoLookup` | backend-simple/index.js:34-36 | A missing email, or one without '@', is refused before any provider call. |
| `BreachScan.ScanReportsBreaches` | backend-simple/index.js:51-77 | Success iff the provider replied or answered 404. Then the status is 200 and the email is the normalised input, still holding '@'. The count matches the list, and the address is compromised iff the count is positive. |
| `BreachScan.ScanBreachList` | backend-simple/index.js:51-74 | The provider's list is mapped one-to-one and in order. A 404 gives an empty, uncompromised result. |
| `BreachScan.ScanProviderErrors` | backend-simple/index.js:51-81 | A 429 becomes a 500 `RATE_LIMITED`. Any other failure becomes a 500 with its own message. |
| `BreachScan.DemoResponse` | backend-simple/index.js:85-100 | The demo answer is the demo address with the single LinkedIn breach, and it is compromised. |
| `Strings.Trim` | backend-simple/index.js:48 | `trim` leaves no white space at either end and never lengthens its input. |
| `Strings.TrimIsSlice` | backend-simple/index.js:48 | What `trim` keeps is one slice of its input, and all it cuts off on either side is white space. |
| `Strings.ToLower` | backend-simple/index.js:48 | `toLowerCase` keeps the length and leaves no upper-case letter. |
| `Strings.ToLowerChars` | backend-simple/index.js:48 | Each upper-case letter becomes its lower-case partner, and every other character is kept. |
| `Strings.ToUpper` | audit-tool/app.js:538 | `toUpperCase` on ASCII: the same length, and no lower-case letter is left. |
| `Strings.ToUpperChars` | audit-tool/app.js:538 | Each lower-case letter becomes its upper-case partner, and every other character is kept. |
| `Strings.Contains` | backend-simple/index.js:34 | `includes` on strings. Its contract is stated by `ContainsOccurs`. |
| `Strings.ContainsOccurs` | saas-mvp/app.js:132 | `s.includes(sub)` holds iff `sub` occurs in `s` at some offset. |
| `Strings.RemoveAll` | audit-tool/app.js:301 | `replace(/"/g, '')` leaves no double quote and keeps every other character, each as often as before. A string without one is unchanged. |
| `Strings.RemoveAllAppend` | audit-tool/app.js:301 | Removing from a concatenation concatenates the two removals, so the kept characters stay in their order. |
| `Strings.RemoveAllSingle` | audit-tool/app.js:301 | On a single character the quote itself is removed and any other character is kept. With `RemoveAllAppend` this fixes the result on every string. |
| `Strings.NatToStringValue` | audit-tool/app.js:538 | The decimal numeral of a count reads back as that count. |
| `Strings.NatToString` | audit-tool/app.js:538 | `${n}` for a count: at least one digit, only digits, and no leading zero unless the numeral is `0`. `NatToStringValue` reads it back as `n`. |

## Left out

- The DOM is not modelled. This covers `innerHTML` templates, `classList` toggles, the
  checkbox state restored on screen, the modal, tabs, clipboard and Blob download. The
  model keeps the values the page shows (icons, labels, counters, report lines), not the
  markup around them.
- Browser storage and JSON are not modelled. Storage holds the abstract state:
  `NothingSaved`, `Unparsable` or a parsed object of the right shape. A parsed value of
  another shape, and keys other than the known ones, are not modelled.
- The audit wizard's `saveProgress` calls are not modelled. None of its methods models
  the storage write.
- The network is left out. The dns.google fetches and the provider's HTTP call are
  parameters: a resolver and a provider function. Timeouts and retries are left out.
  URL-encoding of the address in the provider path is left out too: the provider
  function takes the normalised address.
- Clocks and locale formatting are parameters or left out. This covers `toISOString` and
  `toLocaleString`, including `pwnCount.toLocaleString()`: the response keeps the raw
  count.
- Case mapping covers ASCII only. The model of `toLowerCase`/`toUpperCase` leaves other
  letters unchanged.
- AuditTool.ProgressPercent: `Math.round((completed / total) * 100)` is modelled as exact
  rational rounding, ties upwards, and so is the percentage of `ReportProgress`. Floating
  point can round below an exact tie: `(23 / 40) * 100` is 57.49999999999999 in doubles,
  so the page shows 57 where the model gives 58. 29 of 200 gives 14 against 15 in the
  same way.
- The header, scan-summary and footer text of the audit report are left out. These are
  the box-drawing banners, the dates, the breach and DNS summary lines, and the final
  `trim`. So is the joining of the monitor report's lines with newlines. Those blocks
  are fixed text around values the model already has. The recommendations and checklist
  blocks are modelled line by line.
- The recommendations are held as the rules that fired (`Rule`), with each one's text
  given by `RuleText`. The three `Push…` methods split the source's eight pushes in
  three for proof size.
- The HIBP panel of the audit tool (`initHIBP`) and the tab handling are left out.
  Neither is part of this model, and `auditData.hibpResults` is a saved breach count.
- Check items outside any section element are left out. They count towards the page
  total, but the model's page only lists items by section.
- The section elements are looked up with `querySelector('[data-section=…]')`
  (audit-tool/app.js:153 and 531). Line 70 also puts `data-section` on each navigation
  button, so the lookup can find the button before the section element. The items of a
  section are given as an input, so that ambiguity is left out.
- `loadState` returns a shallow copy of the defaults, so `assets.push` also grows the
  default list. Nothing reads the defaults again after the first load, so the model
  copies values and leaves that aliasing out.
- A request body whose `email` is not a string (an array, a number) is left out. The
  model takes the email as an optional string.
- `script.js` is left out: timers, scroll and intersection observers, and the counter
  animation. So are the Express, helmet and cors setup, the health endpoint and the 404
  fallback route.
- AuditTool.NormalizeDomainIdempotent: proved only for input without line terminators
  whose normalised form is trimmed. Without these conditions it is false, as
  `NormalizeDomainNotIdempotent` shows.
- AuditTool.NormalizeDomainNoSlash: proved only for input without line terminators. A
  '/' followed later by a line terminator is not cut, because `.` does not match a line
  terminator.
- Monitor.ReportAlertLinesExactly: stated on the list of lines. An alert whose summary
  holds a newline would add lines to the joined text.
