/** The FK94 Monitor dashboard (saas-mvp/app.js): a state record of user, plan, monitored
    assets and alerts, restored from browser storage over built-in defaults, changed by the
    login, logout, add-asset, plan and settings buttons, and rendered as panel figures and a
    line-by-line monthly report. Storage holds the abstract state; the page's text inputs
    and the clock are parameters. */
module Monitor {
  import opened Wrappers
  import opened Strings

  // ---------------------------------------------------------------------------
  // State
  // ---------------------------------------------------------------------------

  datatype User = User(name: string, email: string)

  /** A monitored asset; `kind` is the `type` field, "email" or "domain" for assets the
      dashboard adds itself, whatever storage held for restored ones. */
  datatype Asset = Asset(name: string, kind: string, value: string, status: string)

  datatype Alert = Alert(kind: string, severity: string, summary: string, date: string)

  datatype MonitorState = MonitorState(user: Option<User>, plan: string,
                                       assets: seq<Asset>, alerts: seq<Alert>)

  const MONITORED := "Monitored"
  const BUSINESS := "business"

  /** The built-in state: nobody logged in, the personal plan, three assets, two alerts. */
  const DEFAULT_STATE := MonitorState(
    None,
    "personal",
    [ Asset("Primary Email", "email", "founder@fk94security.com", MONITORED),
      Asset("Main Domain", "domain", "fk94security.com", MONITORED),
      Asset("Support Email", "email", "info@fk94security.com", MONITORED) ],
    [ Alert("Breach", "High", "New breach detected for 2 accounts", "Today"),
      Alert("DNS", "Medium", "DMARC missing on fk94security.com", "Today") ])

  // ---------------------------------------------------------------------------
  // Storage: loadState / saveState
  // ---------------------------------------------------------------------------

  /** The keys a parsed saved object carries; `None` is a key that is absent. For `user`,
      `Some(None)` is a saved `null`. */
  datatype StatePatch = StatePatch(user: Option<Option<User>>, plan: Option<string>,
                                   assets: Option<seq<Asset>>, alerts: Option<seq<Alert>>)

  /** What the storage slot holds: nothing (or an empty string), text that does not parse,
      or a parsed object. */
  datatype Saved = NothingSaved | Unparsable | Parsed(patch: StatePatch)

  /** Object spread `{ ...base, ...patch }`: every key present in the patch wins. */
  function Merge(base: MonitorState, patch: StatePatch): (st: MonitorState)
    ensures && (patch.user.Some? ==> st.user == patch.user.value)
            && (patch.plan.Some? ==> st.plan == patch.plan.value)
            && (patch.assets.Some? ==> st.assets == patch.assets.value)
            && (patch.alerts.Some? ==> st.alerts == patch.alerts.value)
    ensures && (patch.user.None? ==> st.user == base.user)
            && (patch.plan.None? ==> st.plan == base.plan)
            && (patch.assets.None? ==> st.assets == base.assets)
            && (patch.alerts.None? ==> st.alerts == base.alerts)
  {
    MonitorState(patch.user.GetOr(base.user), patch.plan.GetOr(base.plan),
                 patch.assets.GetOr(base.assets), patch.alerts.GetOr(base.alerts))
  }

  /** `loadState`: the defaults unless a saved object parses, then the saved keys over the
      defaults. */
  function LoadState(saved: Saved): (st: MonitorState)
  {
    match saved
    case Parsed(patch) => Merge(DEFAULT_STATE, patch)
    case _ => DEFAULT_STATE
  }

  /** `saveState`: the whole state, every key present. */
  function Snapshot(st: MonitorState): (patch: StatePatch)
  {
    StatePatch(Some(st.user), Some(st.plan), Some(st.assets), Some(st.alerts))
  }

  /** Nothing saved, or saved text that does not parse, gives exactly the defaults. */
  lemma LoadWithoutSavedObject(saved: Saved)
    requires !saved.Parsed?
    ensures LoadState(saved) == DEFAULT_STATE
  {
  }

  /** Each key the saved object carries overrides the default. */
  lemma LoadSavedKeysOverride(patch: StatePatch)
    ensures var st := LoadState(Parsed(patch));
            && (patch.user.Some? ==> st.user == patch.user.value)
            && (patch.plan.Some? ==> st.plan == patch.plan.value)
            && (patch.assets.Some? ==> st.assets == patch.assets.value)
            && (patch.alerts.Some? ==> st.alerts == patch.alerts.value)
  {
  }

  /** Each default key the saved object lacks is kept. */
  lemma LoadMissingKeysKeepDefault(patch: StatePatch)
    ensures var st := LoadState(Parsed(patch));
            && (patch.user.None? ==> st.user == DEFAULT_STATE.user)
            && (patch.plan.None? ==> st.plan == DEFAULT_STATE.plan)
            && (patch.assets.None? ==> st.assets == DEFAULT_STATE.assets)
            && (patch.alerts.None? ==> st.alerts == DEFAULT_STATE.alerts)
  {
  }

  /** What `saveState` writes, `loadState` reads back unchanged. */
  lemma LoadSnapshot(st: MonitorState)
    ensures LoadState(Parsed(Snapshot(st))) == st
  {
  }

  // ---------------------------------------------------------------------------
  // Handler inputs
  // ---------------------------------------------------------------------------

  /** JavaScript `text || fallback` on a string: the fallback replaces only the empty
      string. */
  function OrElse(text: string, fallback: string): (r: string)
    ensures text != "" ==> r == text
    ensures text == "" ==> r == fallback
  {
    if text == "" then fallback else text
  }

  const DEMO_NAME := "Demo User"
  const DEMO_EMAIL := "demo@fk94security.com"

  /** The user the login button stores: the trimmed inputs, each blank one replaced by the
      demo identity. */
  function LoginUser(nameInput: string, emailInput: string): (u: User)
    ensures Trim(nameInput) != "" ==> u.name == Trim(nameInput)
    ensures Trim(nameInput) == "" ==> u.name == DEMO_NAME
    ensures Trim(emailInput) != "" ==> u.email == Trim(emailInput)
    ensures Trim(emailInput) == "" ==> u.email == DEMO_EMAIL
  {
    User(OrElse(Trim(nameInput), DEMO_NAME), OrElse(Trim(emailInput), DEMO_EMAIL))
  }

  /** A logged-in user never has a blank name or email, and neither has white space at
      either end. */
  lemma LoginUserFilled(nameInput: string, emailInput: string)
    ensures var u := LoginUser(nameInput, emailInput);
            u.name != "" && u.email != "" && IsTrimmed(u.name) && IsTrimmed(u.email)
  {
    var u := LoginUser(nameInput, emailInput);
    assert DEMO_NAME[0] == 'D' && DEMO_NAME[|DEMO_NAME| - 1] == 'r';
    assert DEMO_EMAIL[0] == 'd' && DEMO_EMAIL[|DEMO_EMAIL| - 1] == 'm';
  }

  /** The asset the add-asset button appends for a trimmed name and value: an email
      asset when the value contains `@`, a domain asset otherwise, always monitored. */
  function NewAsset(name: string, value: string): (a: Asset)
    ensures a.name == name && a.value == value && a.status == MONITORED
    ensures a.kind == "email" <==> '@' in value
    ensures a.kind == "domain" <==> '@' !in value
  {
    ContainsChar(value, '@');
    Asset(name, if Contains(value, "@") then "email" else "domain", value, MONITORED)
  }

  // ---------------------------------------------------------------------------
  // Panel figures (hydrateUI, renderAlerts)
  // ---------------------------------------------------------------------------

  /** The plan's display name. */
  function PlanLabel(plan: string): (caption: string)
    ensures caption == "Business Monitor" <==> plan == BUSINESS
    ensures plan != BUSINESS ==> caption == "Personal Monitor"
  {
    if plan == BUSINESS then "Business Monitor" else "Personal Monitor"
  }

  /** The security score shown out of 100: higher on the business plan. */
  function ScoreValue(plan: string): (score: nat)
    ensures score <= 100
    ensures score == 82 <==> plan == BUSINESS
    ensures plan != BUSINESS ==> score == 72
  {
    if plan == BUSINESS then 82 else 72
  }

  /** The CSS class of an alert's severity tag. */
  function SeverityClass(severity: string): (cls: string)
    ensures cls == "danger" <==> severity == "High"
    ensures cls == "warning" <==> severity == "Medium"
    ensures cls == "" <==> severity != "High" && severity != "Medium"
  {
    if severity == "High" then "danger" else if severity == "Medium" then "warning" else ""
  }

  /** One row of the alerts table. */
  datatype AlertRow = AlertRow(kind: string, severityClass: string, severity: string,
                               summary: string, date: string)

  function RenderAlert(a: Alert): AlertRow {
    AlertRow(a.kind, SeverityClass(a.severity), a.severity, a.summary, a.date)
  }

  /** What `hydrateUI` writes into the dashboard: plan label, plan selector, score, the
      two counters (their numerals), the asset rows and the alert rows. */
  datatype Panel = Panel(planLabel: string, planSelect: string, score: nat,
                         alertCount: string, assetCount: string,
                         assetRows: seq<Asset>, alertRows: seq<AlertRow>)

  function Hydrate(st: MonitorState): (p: Panel)
    ensures |p.assetRows| == |st.assets| && |p.alertRows| == |st.alerts|
    ensures p.planLabel == PlanLabel(st.plan) && p.planSelect == st.plan
    ensures p.score == ScoreValue(st.plan)
  {
    Panel(PlanLabel(st.plan), st.plan, ScoreValue(st.plan),
          NatToString(|st.alerts|), NatToString(|st.assets|),
          st.assets, seq(|st.alerts|, i requires 0 <= i < |st.alerts| => RenderAlert(st.alerts[i])))
  }

  /** Every asset and every alert gets exactly one row, in list order, and the alert row
      carries the alert's fields with its severity class. */
  lemma HydrateRows(st: MonitorState)
    ensures Hydrate(st).assetRows == st.assets
    ensures forall i :: 0 <= i < |st.alerts| ==>
              var row := Hydrate(st).alertRows[i];
              && row.kind == st.alerts[i].kind && row.severity == st.alerts[i].severity
              && row.summary == st.alerts[i].summary && row.date == st.alerts[i].date
              && row.severityClass == SeverityClass(st.alerts[i].severity)
  {
  }

  /** The counters are shortest decimal numerals that read back as the list lengths. */
  lemma HydrateCounts(st: MonitorState)
    ensures IsNumeral(Hydrate(st).alertCount) && DigitsValue(Hydrate(st).alertCount) == |st.alerts|
    ensures IsNumeral(Hydrate(st).assetCount) && DigitsValue(Hydrate(st).assetCount) == |st.assets|
  {
    NatToStringValue(|st.alerts|);
    NatToStringValue(|st.assets|);
  }

  // ---------------------------------------------------------------------------
  // Monthly report
  // ---------------------------------------------------------------------------

  const ASSETS_PREFIX := "Assets monitored: "
  const ALERTS_PREFIX := "Active alerts: "

  /** `- [severity] type: summary` */
  function AlertLine(a: Alert): (line: string)
    ensures IsAlertLine(line)
  {
    "- [" + a.severity + "] " + a.kind + ": " + a.summary
  }

  /** A report line opens like an alert line: a dash, a space and an opening bracket. */
  predicate IsAlertLine(line: string) {
    |line| >= 3 && line[0] == '-' && line[1] == ' ' && line[2] == '['
  }

  /** The alert's severity, type and summary can be read off its line. */
  lemma AlertLineFields(a: Alert)
    ensures var line := AlertLine(a);
            var k := 3 + |a.severity|;
            && k + 2 + |a.kind| + 2 <= |line|
            && line[3..k] == a.severity && line[k..k + 2] == "] "
            && line[k + 2..k + 2 + |a.kind|] == a.kind
            && line[k + 2 + |a.kind|..k + 4 + |a.kind|] == ": "
            && line[k + 4 + |a.kind|..] == a.summary
  {
    var line := AlertLine(a);
    var k := 3 + |a.severity|;
    assert line == "- [" + a.severity + "] " + a.kind + ": " + a.summary;
  }

  function AlertLines(alerts: seq<Alert>): (lines: seq<string>)
    ensures |lines| == |alerts|
  {
    seq(|alerts|, i requires 0 <= i < |alerts| => AlertLine(alerts[i]))
  }

  /** The report lines above the alerts. */
  function ReportHead(st: MonitorState, now: string): (lines: seq<string>)
    ensures |lines| == 8
  {
    [ "FK94 Monitor - Monthly Report",
      "Date: " + now,
      "",
      "Plan: " + PlanLabel(st.plan),
      ASSETS_PREFIX + NatToString(|st.assets|),
      ALERTS_PREFIX + NatToString(|st.alerts|),
      "",
      "Alerts:" ]
  }

  /** The report lines below the alerts: a blank line and the three next steps. The longer
      lines are joined from short literals, whose characters the verifier can look at one
      by one. */
  const REPORT_TAIL: seq<string> := [
    "",
    "Next steps:",
    "- Review breach alerts " + "and rotate exposed passwords.",
    "- Fix DMARC to prevent spoofing.",
    "- Re-run OSINT watchlist " + "next month." ]

  /** The generate-report button's lines, before they are joined with newlines. */
  function MonthlyReport(st: MonitorState, now: string): (lines: seq<string>)
    ensures |lines| == 13 + |st.alerts|
  {
    ReportHead(st, now) + AlertLines(st.alerts) + REPORT_TAIL
  }

  /** The alert block: line 8 + i is alert i's line, opened by `Alerts:` and closed by a
      blank line. */
  lemma ReportAlertBlock(st: MonitorState, now: string)
    ensures var lines := MonthlyReport(st, now);
            && lines[7] == "Alerts:"
            && (forall i :: 0 <= i < |st.alerts| ==> lines[8 + i] == AlertLine(st.alerts[i]))
            && lines[8 + |st.alerts|] == ""
  {
    var lines := MonthlyReport(st, now);
    var n := |st.alerts|;
    assert lines[8 + n] == REPORT_TAIL[0];
    forall i | 0 <= i < n
      ensures lines[8 + i] == AlertLine(st.alerts[i])
    {
      assert lines[8 + i] == AlertLines(st.alerts)[i];
    }
  }

  /** No head line opens like an alert line. */
  lemma HeadHasNoAlertLine(st: MonitorState, now: string)
    ensures forall j :: 0 <= j < 8 ==> !IsAlertLine(ReportHead(st, now)[j])
  {
    var h := ReportHead(st, now);
    assert h[0][0] == 'F';
    assert h[1][0] == 'D';
    assert h[3][0] == 'P';
    assert h[4][0] == 'A';
    assert h[5][0] == 'A';
    assert h[7][0] == 'A';
  }

  /** No tail line opens like an alert line. */
  lemma TailHasNoAlertLine()
    ensures forall j :: 0 <= j < 5 ==> !IsAlertLine(REPORT_TAIL[j])
  {
    assert REPORT_TAIL[1][0] == 'N';
    assert REPORT_TAIL[2][2] == 'R';
    assert REPORT_TAIL[3][2] == 'F';
    assert REPORT_TAIL[4][2] == 'R';
  }

  /** Exactly the alert block opens like alert lines: one such line per alert and no
      other. */
  lemma {:induction false} ReportAlertLinesExactly(st: MonitorState, now: string)
    ensures var lines := MonthlyReport(st, now);
            forall j :: 0 <= j < |lines| ==> (IsAlertLine(lines[j]) <==> 8 <= j < 8 + |st.alerts|)
  {
    var lines := MonthlyReport(st, now);
    var n := |st.alerts|;
    HeadHasNoAlertLine(st, now);
    TailHasNoAlertLine();
    forall j | 0 <= j < |lines|
      ensures IsAlertLine(lines[j]) <==> 8 <= j < 8 + n
    {
      if j < 8 {
        assert lines[j] == ReportHead(st, now)[j];
      } else if j < 8 + n {
        assert lines[j] == AlertLines(st.alerts)[j - 8];
      } else {
        assert lines[j] == REPORT_TAIL[j - 8 - n];
      }
    }
  }

  /** The report's two counters, read back as decimal numbers, are the list lengths. */
  lemma ReportCounts(st: MonitorState, now: string)
    ensures var lines := MonthlyReport(st, now);
            && StartsWith(lines[4], ASSETS_PREFIX)
            && IsNumeral(lines[4][|ASSETS_PREFIX|..])
            && DigitsValue(lines[4][|ASSETS_PREFIX|..]) == |st.assets|
            && StartsWith(lines[5], ALERTS_PREFIX)
            && IsNumeral(lines[5][|ALERTS_PREFIX|..])
            && DigitsValue(lines[5][|ALERTS_PREFIX|..]) == |st.alerts|
  {
    var lines := MonthlyReport(st, now);
    assert lines[4] == ASSETS_PREFIX + NatToString(|st.assets|);
    assert lines[5] == ALERTS_PREFIX + NatToString(|st.alerts|);
    assert lines[4][|ASSETS_PREFIX|..] == NatToString(|st.assets|);
    assert lines[5][|ALERTS_PREFIX|..] == NatToString(|st.alerts|);
    NatToStringValue(|st.assets|);
    NatToStringValue(|st.alerts|);
  }

  /** The report names the same plan as the dashboard label. */
  lemma ReportPlanMatchesPanel(st: MonitorState, now: string)
    ensures MonthlyReport(st, now)[3] == "Plan: " + Hydrate(st).planLabel
  {
  }

  // ---------------------------------------------------------------------------
  // The dashboard
  // ---------------------------------------------------------------------------

  datatype View = LoginView | AppView

  /** The page's global `state`, the view on screen and the storage slot. */
  class Dashboard {
    var user: Option<User>
    var plan: string
    var assets: seq<Asset>
    var alerts: seq<Alert>
    var view: View
    var stored: Saved

    function State(): MonitorState
      reads this
    {
      MonitorState(user, plan, assets, alerts)
    }

    /** The dashboard is only on screen for a logged-in user. */
    ghost predicate Valid()
      reads this
    {
      view == AppView ==> user.Some?
    }

    /** Reloading the page now would restore the current state. */
    ghost predicate Persisted()
      reads this
    {
      LoadState(stored) == State()
    }

    /** Page load: restore the state from storage, then show the dashboard when a user
        is stored and the login form otherwise. */
    constructor (saved: Saved)
      ensures Valid() && Persisted()
      ensures State() == LoadState(saved) && stored == saved
      ensures view == AppView <==> user.Some?
    {
      var st := LoadState(saved);
      user, plan, assets, alerts := st.user, st.plan, st.assets, st.alerts;
      stored := saved;
      view := if st.user.Some? then AppView else LoginView;
    }

    /** `saveState(state)`. */
    method Save()
      modifies this
      ensures State() == old(State()) && view == old(view)
      ensures stored == Parsed(Snapshot(State()))
      ensures Persisted()
    {
      stored := Parsed(Snapshot(State()));
      LoadSnapshot(State());
    }

    /** The login button: store the (defaulted) user and the chosen plan, save, show the
        dashboard. */
    method Login(nameInput: string, emailInput: string, planInput: string)
      requires Valid()
      modifies this
      ensures Valid() && Persisted() && view == AppView
      ensures user == Some(LoginUser(nameInput, emailInput)) && plan == planInput
      ensures assets == old(assets) && alerts == old(alerts)
    {
      user := Some(LoginUser(nameInput, emailInput));
      plan := planInput;
      Save();
      view := AppView;
    }

    /** The logout button: forget the user, save, show the login form. */
    method Logout()
      requires Valid()
      modifies this
      ensures Valid() && Persisted() && view == LoginView
      ensures user == None
      ensures plan == old(plan) && assets == old(assets) && alerts == old(alerts)
    {
      user := None;
      Save();
      view := LoginView;
    }

    /** The add-asset button: with a blank trimmed name or value nothing happens; otherwise
        one asset is appended and the state saved. */
    method AddAsset(nameInput: string, valueInput: string) returns (added: bool)
      requires Valid()
      modifies this
      ensures Valid()
      ensures added <==> Trim(nameInput) != "" && Trim(valueInput) != ""
      ensures !added ==> State() == old(State()) && stored == old(stored) && view == old(view)
      ensures added ==> && assets == old(assets) + [NewAsset(Trim(nameInput), Trim(valueInput))]
                        && user == old(user) && plan == old(plan) && alerts == old(alerts)
                        && Persisted() && view == old(view)
    {
      var name := Trim(nameInput);
      var value := Trim(valueInput);
      if name == "" || value == "" {
        return false;
      }
      assets := assets + [NewAsset(name, value)];
      Save();
      added := true;
    }

    /** The update-plan button: take the selected plan and save. */
    method UpdatePlan(selected: string)
      requires Valid()
      modifies this
      ensures Valid() && Persisted() && view == old(view)
      ensures plan == selected
      ensures user == old(user) && assets == old(assets) && alerts == old(alerts)
    {
      plan := selected;
      Save();
    }

    /** The save-settings button: store the trimmed name and email as they are (no demo
        fallback here) and save. */
    method SaveSettings(nameInput: string, emailInput: string)
      requires Valid()
      modifies this
      ensures Valid() && Persisted() && view == old(view)
      ensures user == Some(User(Trim(nameInput), Trim(emailInput)))
      ensures plan == old(plan) && assets == old(assets) && alerts == old(alerts)
    {
      user := Some(User(Trim(nameInput), Trim(emailInput)));
      Save();
    }

    /** The generate-report button: the report for the current state; nothing changes. */
    method GenerateReport(now: string) returns (lines: seq<string>)
      ensures lines == MonthlyReport(State(), now)
      ensures |lines| == 13 + |alerts|
    {
      lines := MonthlyReport(State(), now);
    }
  }

  /** Whatever the inputs, an asset that the dashboard adds is an email or a domain asset
      and its name and value are neither blank nor padded. */
  lemma NewAssetWellFormed(nameInput: string, valueInput: string)
    requires Trim(nameInput) != "" && Trim(valueInput) != ""
    ensures var a := NewAsset(Trim(nameInput), Trim(valueInput));
            && (a.kind == "email" || a.kind == "domain")
            && a.name != "" && a.value != "" && IsTrimmed(a.name) && IsTrimmed(a.value)
  {
  }
}
