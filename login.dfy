/**
 * One account's login (`login_to_ozon`), as a run over what the browser and
 * the mailbox show. The run reaches the home page (retrying the navigation
 * once), types the formatted phone number, waits for the one-time-code field,
 * reads the code from the mailbox, submits it and then looks for evidence of
 * a logged-in page. Only on that success branch are the session cookies
 * written into the account's `Cookies` cell and the sheet saved; every way
 * of failing ends with one screenshot whose name tells the failure and the
 * account.
 */
module Login {
  import opened Options
  import opened Text
  import Otp
  import Phone
  import Proxy

  /** A `Cookies` cell of the sheet: empty (`NaN` or `None`) or a text. */
  datatype Cell = Blank | Written(text: string)

  /** The batch skips a row whose cell holds a non-empty text. */
  predicate Done(c: Cell) {
    c.Written? && c.text != ""
  }

  /** A row of the accounts sheet: phone, linked mailbox and its password, and the saved cookies. */
  datatype Account = Account(phone: string, email: string, password: string, cookies: Cell)

  /**
   * The accounts table held in memory (`df`) and the contents of the file it
   * is saved to (`acc_ozon_updated.xlsx`).
   */
  class Sheet {
    var rows: seq<Account>
    var saved: seq<Account>

    /** The table as loaded, and saved once as the working copy. */
    constructor(initial: seq<Account>)
      ensures rows == initial && saved == initial
    {
      rows := initial;
      saved := initial;
    }
  }

  /** The arguments the extractor is called with. */
  const MaxRetries: int := 8
  const RetryInterval: int := 5

  /** The XPaths whose presence, in this order, shows a logged-in page. */
  const SuccessIndicators: seq<string> := [
    "//div[contains(@class, 'profile') or contains(@class, 'account')]",
    "//button[contains(., '\U{41f}\U{440}\U{43e}\U{444}\U{438}\U{43b}\U{44c}') or contains(., 'Profile')]",
    "//a[contains(@href, 'profile') or contains(@href, 'account')]"
  ]

  datatype Control = LoginButton | ContinueButton | ConfirmButton
  datatype Field = PhoneField | OtpField

  /** What the run does to the browser and the mailbox, in order; sleeps are recorded, not waited. */
  datatype Action =
    | Visit(url: string)
    | Sleep(seconds: nat)
    | Click(control: Control)
    | Clear(field: Field)
    | Type(field: Field, text: string)
    | PressReturn(field: Field)
    | ReadMail(attempts: nat, sleeps: seq<int>)
    | Probe(xpath: string)
    | Screenshot(file: string)

  /** The ways a run can fail, each with its own screenshot. */
  datatype Failure =
    | NavigationFailed   // the home page was not reached twice
    | OtpMissing         // the mailbox gave no code
    | LoginRejected      // no sign of a logged-in page
    | ProcessFailed      // an exception between the phone field and the save
    | GeneralFailure     // an exception while navigating

  datatype Outcome = LoggedIn | Failed(failure: Failure)

  function ScreenshotPrefix(f: Failure): string {
    match f
    case NavigationFailed => "error_navigation_"
    case OtpMissing => "error_otp_retrieval_"
    case LoginRejected => "login_failed_"
    case ProcessFailed => "error_login_process_"
    case GeneralFailure => "error_general_"
  }

  /** The screenshot file of failure `f` for the account at row `index`. */
  function ScreenshotFile(f: Failure, index: nat): string {
    ScreenshotPrefix(f) + Decimal(index) + ".png"
  }

  /**
   * What the browser and the mailbox show during one run. A `None` location
   * or cookie list stands for the read raising.
   */
  datatype LoginWorld = LoginWorld(
    landing: Option<string>,           // the location after the first visit to the home page
    retryLanding: Option<string>,      // the location after the second visit
    loginButton: bool,                 // the sign-in button becomes clickable
    phoneField: bool,                  // the phone input appears and takes the number
    continueButton: bool,              // the continue button becomes clickable
    otpField: bool,                    // the code input appears
    mailbox: nat -> Otp.Attempt,       // the mailbox at each attempt of the extractor
    confirmButton: bool,               // the confirmation button becomes clickable
    present: string -> bool,           // which XPaths are present after the confirmation
    finalUrl: Option<string>,          // the location at the end
    cookies: Option<seq<string>>,      // the browser's cookies, each rendered as Python shows a dict
    saves: bool)                       // saving the sheet succeeds

  /** The home-page check: the lower-cased location contains "ozon". */
  predicate OnSite(url: string) {
    Contains(Lower(url), "ozon")
  }

  /** `str(cookies)` of a list whose items render as `cookies[k]`. */
  function CookieCell(cookies: seq<string>): (r: string)
    ensures |r| >= 2 && r[0] == '[' && r[|r| - 1] == ']'
  {
    "[" + (if cookies == [] then "" else JoinWith(cookies, ", ")) + "]"
  }

  /** `sep.join(items)` for a non-empty list and a text separator. */
  function JoinWith(items: seq<string>, sep: string): string
    requires |items| >= 1
  {
    if |items| == 1 then items[0] else items[0] + sep + JoinWith(items[1..], sep)
  }

  // ---------------------------------------------------------------------
  // The success indicators
  // ---------------------------------------------------------------------

  /** The index of the first indicator from `k` on that is present, or the number of indicators. */
  function FirstPresent(present: string -> bool, k: nat): (r: nat)
    requires k <= |SuccessIndicators|
    ensures k <= r <= |SuccessIndicators|
    ensures forall j :: k <= j < r ==> !present(SuccessIndicators[j])
    ensures r < |SuccessIndicators| ==> present(SuccessIndicators[r])
    decreases |SuccessIndicators| - k
  {
    if k == |SuccessIndicators| then k
    else if present(SuccessIndicators[k]) then k
    else FirstPresent(present, k + 1)
  }

  predicate IndicatorFound(present: string -> bool) {
    FirstPresent(present, 0) < |SuccessIndicators|
  }

  /** The indicators waited for: all of them up to and including the first present one. */
  function Probed(present: string -> bool): seq<string> {
    var n := FirstPresent(present, 0);
    SuccessIndicators[..if n < |SuccessIndicators| then n + 1 else n]
  }

  /** Some indicator is found exactly when one of them is present; the probing stops at the first. */
  lemma IndicatorFacts(present: string -> bool)
    ensures IndicatorFound(present) <==> exists k :: 0 <= k < |SuccessIndicators| && present(SuccessIndicators[k])
    ensures var p := Probed(present);
      && 1 <= |p| <= |SuccessIndicators|
      && p == SuccessIndicators[..|p|]
      && (forall j :: 0 <= j < |p| - 1 ==> !present(p[j]))
      && (IndicatorFound(present) <==> present(p[|p| - 1]))
  {
    var n := FirstPresent(present, 0);
    if !IndicatorFound(present) {
      assert forall k :: 0 <= k < |SuccessIndicators| ==> !present(SuccessIndicators[k]);
    }
  }

  /**
   * The loop over `success_indicators`: each is waited for in turn, and the
   * loop stops at the first one present.
   */
  method ProbeIndicators(present: string -> bool) returns (found: bool, probes: seq<string>)
    ensures found == IndicatorFound(present)
    ensures probes == Probed(present)
  {
    found, probes := false, [];
    var k := 0;
    while k < |SuccessIndicators|
      invariant 0 <= k <= |SuccessIndicators|
      invariant probes == SuccessIndicators[..k]
      invariant FirstPresent(present, 0) == FirstPresent(present, k)
    {
      probes := probes + [SuccessIndicators[k]];
      if present(SuccessIndicators[k]) {
        found := true;
        return;
      }
      k := k + 1;
    }
  }

  function ProbeActions(xpaths: seq<string>): (r: seq<Action>)
    ensures |r| == |xpaths|
    ensures forall k :: 0 <= k < |r| ==> r[k] == Probe(xpaths[k])
  {
    if xpaths == [] then [] else [Probe(xpaths[0])] + ProbeActions(xpaths[1..])
  }

  // ---------------------------------------------------------------------
  // The run, stage by stage
  // ---------------------------------------------------------------------

  /**
   * A run's record: its actions, its outcome, the text written into the
   * account's `Cookies` cell (if any) and whether the sheet was saved.
   */
  datatype LoginRun = LoginRun(actions: seq<Action>, outcome: Outcome, written: Option<string>, saved: bool)

  /** A failure: the screenshot of `f` ends the actions. */
  function Fail(trace: seq<Action>, f: Failure, index: nat): LoginRun {
    LoginRun(trace + [Screenshot(ScreenshotFile(f, index))], Failed(f), None, false)
  }

  /** `login_to_ozon` for the account at row `index` whose phone cell reads `phone`. */
  function Login(w: LoginWorld, phone: string, index: nat): LoginRun {
    var nav := [Visit(Proxy.HomePage), Sleep(10)];
    match w.landing
    case None => Fail(nav, GeneralFailure, index)
    case Some(url) =>
      if OnSite(url) then AtHomePage(w, phone, index, nav)
      else
        var nav2 := nav + [Visit(Proxy.HomePage), Sleep(10)];
        match w.retryLanding
        case None => Fail(nav2, GeneralFailure, index)
        case Some(url2) =>
          if OnSite(url2) then AtHomePage(w, phone, index, nav2)
          else Fail(nav2, NavigationFailed, index)
  }

  /** From the home page to the code field: the sign-in button is optional, the phone field is not. */
  function AtHomePage(w: LoginWorld, phone: string, index: nat, trace: seq<Action>): LoginRun {
    var t := trace + (if w.loginButton then [Click(LoginButton), Sleep(5)] else []);
    if !w.phoneField then Fail(t, ProcessFailed, index)
    else
      var t := t + [Clear(PhoneField), Type(PhoneField, Phone.FormatPhone(phone)), Sleep(2)]
        + (if w.continueButton then [Click(ContinueButton)] else [PressReturn(PhoneField)])
        + [Sleep(5)];
      if !w.otpField then Fail(t, ProcessFailed, index)
      else AtOtpField(w, index, t)
  }

  /** With the code field shown: the code is read from the mailbox and submitted. */
  function AtOtpField(w: LoginWorld, index: nat, trace: seq<Action>): LoginRun {
    var got := Otp.Acquire(w.mailbox, Otp.ScriptEncoding, MaxRetries, RetryInterval);
    var t := trace + [ReadMail(got.attempts, got.sleeps)];
    if got.otp.None? || got.otp.value == "" then Fail(t, OtpMissing, index)
    else
      var t := t + [Clear(OtpField), Type(OtpField, got.otp.value), Sleep(2)]
        + (if w.confirmButton then [Click(ConfirmButton)] else [PressReturn(OtpField)])
        + [Sleep(15)] + ProbeActions(Probed(w.present));
      Verdict(w, index, t)
  }

  /** The page after submitting the code: logged in when an indicator is found or the location is on ozon.ru. */
  function Verdict(w: LoginWorld, index: nat, trace: seq<Action>): LoginRun {
    if IndicatorFound(w.present) then Succeed(w, index, trace)
    else match w.finalUrl
      case None => Fail(trace, ProcessFailed, index)
      case Some(url) =>
        if Contains(Lower(url), "ozon.ru") then Succeed(w, index, trace)
        else Fail(trace, LoginRejected, index)
  }

  /** The success branch: the cookies are written into the cell, then the sheet is saved. */
  function Succeed(w: LoginWorld, index: nat, trace: seq<Action>): LoginRun {
    match w.cookies
    case None => Fail(trace, ProcessFailed, index)
    case Some(cs) =>
      if w.saves then LoginRun(trace, LoggedIn, Some(CookieCell(cs)), true)
      else LoginRun(trace + [Screenshot(ScreenshotFile(ProcessFailed, index))], Failed(ProcessFailed), Some(CookieCell(cs)), false)
  }

  // ---------------------------------------------------------------------
  // The run on the sheet
  // ---------------------------------------------------------------------

  /**
   * What the batch relies on in a run's record: a written cell is filled,
   * a login has written it, and the file is saved exactly on a login.
   */
  predicate Recorded(r: LoginRun) {
    && (r.written.Some? ==> Done(Written(r.written.value)))
    && (r.outcome == LoggedIn ==> r.written.Some?)
    && (r.saved <==> r.outcome == LoggedIn)
  }

  /** The table after run `r` on row `index`: the row's cell takes what the run wrote. */
  function AfterRun(rows: seq<Account>, index: nat, r: LoginRun): seq<Account>
    requires index < |rows|
  {
    if r.written.Some? then rows[index := rows[index].(cookies := Written(r.written.value))] else rows
  }

  /**
   * `login_to_ozon(browser, phone, ..., index, df)`: performs the run `Login`
   * describes, writes the cell and saves the sheet as the run says, and
   * returns whether it logged in.
   */
  method LoginToOzon(w: LoginWorld, phone: string, index: nat, sheet: Sheet) returns (success: bool, actions: seq<Action>)
    requires index < |sheet.rows|
    modifies sheet
    ensures var r := Login(w, phone, index);
      && success == (r.outcome == LoggedIn)
      && actions == r.actions
      && sheet.rows == AfterRun(old(sheet.rows), index, r)
      && sheet.saved == (if r.saved then sheet.rows else old(sheet.saved))
  {
    actions := [Visit(Proxy.HomePage), Sleep(10)];
    if w.landing.None? {
      return false, actions + [Screenshot(ScreenshotFile(GeneralFailure, index))];
    }
    if !OnSite(w.landing.value) {
      // One more try before giving up.
      actions := actions + [Visit(Proxy.HomePage), Sleep(10)];
      if w.retryLanding.None? {
        return false, actions + [Screenshot(ScreenshotFile(GeneralFailure, index))];
      }
      if !OnSite(w.retryLanding.value) {
        return false, actions + [Screenshot(ScreenshotFile(NavigationFailed, index))];
      }
    }
    success, actions := EnterPhone(w, phone, index, sheet, actions);
  }

  /** From the home page on: the phone number, then the code field. */
  method EnterPhone(w: LoginWorld, phone: string, index: nat, sheet: Sheet, trace: seq<Action>)
    returns (success: bool, actions: seq<Action>)
    requires index < |sheet.rows|
    modifies sheet
    ensures var r := AtHomePage(w, phone, index, trace);
      && success == (r.outcome == LoggedIn)
      && actions == r.actions
      && sheet.rows == AfterRun(old(sheet.rows), index, r)
      && sheet.saved == (if r.saved then sheet.rows else old(sheet.saved))
  {
    actions := trace;
    // A missing sign-in button is tolerated: the page may already be the login form.
    if w.loginButton {
      actions := actions + [Click(LoginButton), Sleep(5)];
    }
    assert actions == trace + (if w.loginButton then [Click(LoginButton), Sleep(5)] else []);
    if !w.phoneField {
      return false, actions + [Screenshot(ScreenshotFile(ProcessFailed, index))];
    }
    actions := actions + [Clear(PhoneField), Type(PhoneField, Phone.FormatPhone(phone)), Sleep(2)];
    if w.continueButton {
      actions := actions + [Click(ContinueButton)];
    } else {
      actions := actions + [PressReturn(PhoneField)];
    }
    actions := actions + [Sleep(5)];
    if !w.otpField {
      return false, actions + [Screenshot(ScreenshotFile(ProcessFailed, index))];
    }
    success, actions := EnterCode(w, index, sheet, actions);
  }

  /** With the code field shown: the code is read from the mailbox, submitted and the page judged. */
  method EnterCode(w: LoginWorld, index: nat, sheet: Sheet, trace: seq<Action>)
    returns (success: bool, actions: seq<Action>)
    requires index < |sheet.rows|
    modifies sheet
    ensures var r := AtOtpField(w, index, trace);
      && success == (r.outcome == LoggedIn)
      && actions == r.actions
      && sheet.rows == AfterRun(old(sheet.rows), index, r)
      && sheet.saved == (if r.saved then sheet.rows else old(sheet.saved))
  {
    var otp, attempts, sleeps := Otp.ExtractOtp(w.mailbox, Otp.ScriptEncoding, MaxRetries, RetryInterval);
    actions := trace + [ReadMail(attempts, sleeps)];
    if otp.None? || otp.value == "" {
      return false, actions + [Screenshot(ScreenshotFile(OtpMissing, index))];
    }
    actions := actions + [Clear(OtpField), Type(OtpField, otp.value), Sleep(2)];
    if w.confirmButton {
      actions := actions + [Click(ConfirmButton)];
    } else {
      actions := actions + [PressReturn(OtpField)];
    }
    actions := actions + [Sleep(15)];
    var found, probes := ProbeIndicators(w.present);
    actions := actions + ProbeActions(probes);
    success, actions := Conclude(w, index, sheet, actions, found);
  }

  /** The verdict on the page, and on success the cookie cell and the save. */
  method Conclude(w: LoginWorld, index: nat, sheet: Sheet, trace: seq<Action>, found: bool)
    returns (success: bool, actions: seq<Action>)
    requires index < |sheet.rows|
    requires found == IndicatorFound(w.present)
    modifies sheet
    ensures var r := Verdict(w, index, trace);
      && success == (r.outcome == LoggedIn)
      && actions == r.actions
      && sheet.rows == AfterRun(old(sheet.rows), index, r)
      && sheet.saved == (if r.saved then sheet.rows else old(sheet.saved))
  {
    actions := trace;
    if !found {
      if w.finalUrl.None? {
        return false, actions + [Screenshot(ScreenshotFile(ProcessFailed, index))];
      }
      if !Contains(Lower(w.finalUrl.value), "ozon.ru") {
        return false, actions + [Screenshot(ScreenshotFile(LoginRejected, index))];
      }
    }
    if w.cookies.None? {
      return false, actions + [Screenshot(ScreenshotFile(ProcessFailed, index))];
    }
    sheet.rows := sheet.rows[index := sheet.rows[index].(cookies := Written(CookieCell(w.cookies.value)))];
    if !w.saves {
      // The cell stays written in memory; the file keeps its earlier contents.
      return false, actions + [Screenshot(ScreenshotFile(ProcessFailed, index))];
    }
    sheet.saved := sheet.rows;
    success := true;
  }

  // ---------------------------------------------------------------------
  // Which branch a run takes
  // ---------------------------------------------------------------------

  /** The home page is reached, on the first visit or on the one retry. */
  predicate Reached(w: LoginWorld) {
    w.landing.Some? &&
    (OnSite(w.landing.value) || (w.retryLanding.Some? && OnSite(w.retryLanding.value)))
  }

  /** The code field appears. */
  predicate AtCodeField(w: LoginWorld) {
    Reached(w) && w.phoneField && w.otpField
  }

  /** The mailbox yields a code. */
  predicate CodeRead(w: LoginWorld) {
    Otp.Acquire(w.mailbox, Otp.ScriptEncoding, MaxRetries, RetryInterval).otp.Some?
  }

  /** The page after the code confirms the login: an indicator is found, or the location is on ozon.ru. */
  predicate Confirms(w: LoginWorld) {
    IndicatorFound(w.present) || (w.finalUrl.Some? && Contains(Lower(w.finalUrl.value), "ozon.ru"))
  }

  /** The run gets to the success branch. */
  predicate SuccessBranch(w: LoginWorld) {
    AtCodeField(w) && CodeRead(w) && Confirms(w)
  }

  /** The outcome of a run, read off the world one stage after another. */
  function ExpectedOutcome(w: LoginWorld): Outcome {
    if w.landing.None? || (!OnSite(w.landing.value) && w.retryLanding.None?) then Failed(GeneralFailure)
    else if !Reached(w) then Failed(NavigationFailed)
    else if !w.phoneField || !w.otpField then Failed(ProcessFailed)
    else if !CodeRead(w) then Failed(OtpMissing)
    else if !Confirms(w) then (if w.finalUrl.None? then Failed(ProcessFailed) else Failed(LoginRejected))
    else if w.cookies.Some? && w.saves then LoggedIn
    else Failed(ProcessFailed)
  }

  /** The text a run writes into the `Cookies` cell: the cookies' rendering, on the success branch only. */
  function ExpectedCell(w: LoginWorld): Option<string> {
    if SuccessBranch(w) && w.cookies.Some? then Some(CookieCell(w.cookies.value)) else None
  }

  /** A run records the expected outcome and cell, and is saved exactly when it logs in. */
  predicate AsExpected(w: LoginWorld, r: LoginRun) {
    r.outcome == ExpectedOutcome(w) && r.written == ExpectedCell(w) && r.saved == (r.outcome == LoggedIn)
  }

  lemma SucceedRecord(w: LoginWorld, index: nat, trace: seq<Action>)
    requires SuccessBranch(w)
    ensures AsExpected(w, Succeed(w, index, trace))
  {
  }

  lemma VerdictRecord(w: LoginWorld, index: nat, trace: seq<Action>)
    requires AtCodeField(w) && CodeRead(w)
    ensures AsExpected(w, Verdict(w, index, trace))
  {
    if Confirms(w) {
      SucceedRecord(w, index, trace);
    }
  }

  lemma AtOtpFieldRecord(w: LoginWorld, index: nat, trace: seq<Action>)
    requires AtCodeField(w)
    ensures AsExpected(w, AtOtpField(w, index, trace))
  {
    AcquiredCodeNotEmpty(w);
    var got := Otp.Acquire(w.mailbox, Otp.ScriptEncoding, MaxRetries, RetryInterval);
    if CodeRead(w) {
      var t := trace + [ReadMail(got.attempts, got.sleeps)]
        + [Clear(OtpField), Type(OtpField, got.otp.value), Sleep(2)]
        + (if w.confirmButton then [Click(ConfirmButton)] else [PressReturn(OtpField)])
        + [Sleep(15)] + ProbeActions(Probed(w.present));
      VerdictRecord(w, index, t);
    }
  }

  lemma AtHomePageRecord(w: LoginWorld, phone: string, index: nat, trace: seq<Action>)
    requires Reached(w)
    ensures AsExpected(w, AtHomePage(w, phone, index, trace))
  {
    if w.phoneField && w.otpField {
      var t0 := trace + (if w.loginButton then [Click(LoginButton), Sleep(5)] else []);
      var t := t0 + [Clear(PhoneField), Type(PhoneField, Phone.FormatPhone(phone)), Sleep(2)]
        + (if w.continueButton then [Click(ContinueButton)] else [PressReturn(PhoneField)])
        + [Sleep(5)];
      AtOtpFieldRecord(w, index, t);
    }
  }

  /** Every run records what `ExpectedOutcome` and `ExpectedCell` say, whatever its actions. */
  lemma LoginRecord(w: LoginWorld, phone: string, index: nat)
    ensures AsExpected(w, Login(w, phone, index))
  {
    var nav := [Visit(Proxy.HomePage), Sleep(10)];
    if Reached(w) {
      if OnSite(w.landing.value) {
        AtHomePageRecord(w, phone, index, nav);
      } else {
        AtHomePageRecord(w, phone, index, nav + [Visit(Proxy.HomePage), Sleep(10)]);
      }
    }
  }

  /** No code the extractor returns is empty, so the `not otp_code` test only sees `None`. */
  lemma AcquiredCodeNotEmpty(w: LoginWorld)
    ensures var got := Otp.Acquire(w.mailbox, Otp.ScriptEncoding, MaxRetries, RetryInterval);
      got.otp.Some? ==> got.otp.value != ""
  {
    Otp.AcquiredCodeIsDigits(w.mailbox, Otp.ScriptEncoding, MaxRetries, RetryInterval);
  }

  /**
   * The cookie cell is written exactly on the success branch when the
   * browser gives its cookies, and holds their rendering; the sheet is saved
   * exactly when the run logs in, and a run logs in exactly when, besides,
   * the save succeeds.
   */
  lemma CookieWrittenOnlyOnSuccess(w: LoginWorld, phone: string, index: nat)
    ensures var r := Login(w, phone, index);
      && (r.written.Some? <==> SuccessBranch(w) && w.cookies.Some?)
      && (r.written.Some? ==> r.written.value == CookieCell(w.cookies.value) && Done(Written(r.written.value)))
      && (r.outcome == LoggedIn <==> SuccessBranch(w) && w.cookies.Some? && w.saves)
      && (r.saved <==> r.outcome == LoggedIn)
  {
    LoginRecord(w, phone, index);
  }

  /**
   * Every failure leaves the cell untouched, except the one failure in which
   * the cell was written and saving the sheet then raised.
   */
  lemma FailureLeavesCell(w: LoginWorld, phone: string, index: nat)
    ensures var r := Login(w, phone, index);
      r.outcome.Failed? ==> !r.saved && (r.written.None? || (r.outcome.failure == ProcessFailed && !w.saves))
  {
    LoginRecord(w, phone, index);
  }

  /** How each failure comes about. */
  lemma FailureCauses(w: LoginWorld, phone: string, index: nat)
    ensures var r := Login(w, phone, index);
      && (r.outcome == Failed(GeneralFailure) <==>
            w.landing.None? || (!OnSite(w.landing.value) && w.retryLanding.None?))
      && (r.outcome == Failed(NavigationFailed) <==>
            w.landing.Some? && !OnSite(w.landing.value) && w.retryLanding.Some? && !OnSite(w.retryLanding.value))
      && (r.outcome == Failed(OtpMissing) <==> AtCodeField(w) && !CodeRead(w))
      && (r.outcome == Failed(LoginRejected) <==>
            AtCodeField(w) && CodeRead(w) && !IndicatorFound(w.present) &&
            w.finalUrl.Some? && !Contains(Lower(w.finalUrl.value), "ozon.ru"))
      && (r.outcome == Failed(ProcessFailed) <==>
            Reached(w) && (!w.phoneField || !w.otpField ||
              (CodeRead(w) && !IndicatorFound(w.present) && w.finalUrl.None?) ||
              (SuccessBranch(w) && (w.cookies.None? || !w.saves))))
  {
    LoginRecord(w, phone, index);
  }

  // ---------------------------------------------------------------------
  // What a run leaves behind in its actions
  // ---------------------------------------------------------------------

  /** The pages a trace visits, in order. */
  function Visited(s: seq<Action>): seq<string> {
    if s == [] then []
    else Visited(s[..|s| - 1]) + (if s[|s| - 1].Visit? then [s[|s| - 1].url] else [])
  }

  /** The screenshots a trace takes, in order. */
  function Screenshots(s: seq<Action>): seq<string> {
    if s == [] then []
    else Screenshots(s[..|s| - 1]) + (if s[|s| - 1].Screenshot? then [s[|s| - 1].file] else [])
  }

  /** A trace with no visit and no screenshot in it. */
  predicate Quiet(s: seq<Action>) {
    forall k :: 0 <= k < |s| ==> !s[k].Visit? && !s[k].Screenshot?
  }

  lemma Snoc(t: seq<Action>, a: Action)
    ensures Visited(t + [a]) == Visited(t) + (if a.Visit? then [a.url] else [])
    ensures Screenshots(t + [a]) == Screenshots(t) + (if a.Screenshot? then [a.file] else [])
  {
    assert (t + [a])[..|t|] == t;
  }

  /** Appending a quiet trace adds no visit and no screenshot. */
  lemma {:induction false} QuietTail(t: seq<Action>, u: seq<Action>)
    requires Quiet(u)
    ensures Visited(t + u) == Visited(t) && Screenshots(t + u) == Screenshots(t)
  {
    if u == [] {
      assert t + u == t;
    } else {
      var v := u[..|u| - 1];
      QuietTail(t, v);
      assert t + u == (t + v) + [u[|u| - 1]];
      Snoc(t + v, u[|u| - 1]);
    }
  }

  /** The screenshots a run with outcome `o` adds: one, named after the failure, or none. */
  function Shots(o: Outcome, index: nat): seq<string> {
    if o.Failed? then [ScreenshotFile(o.failure, index)] else []
  }

  /** Run `r`, which continues trace `t`, visits nothing more and takes the screenshot of its outcome. */
  predicate Traced(r: LoginRun, t: seq<Action>, index: nat) {
    Visited(r.actions) == Visited(t) && Screenshots(r.actions) == Screenshots(t) + Shots(r.outcome, index)
  }

  lemma FailTraced(t: seq<Action>, f: Failure, index: nat)
    ensures Traced(Fail(t, f, index), t, index)
  {
    Snoc(t, Screenshot(ScreenshotFile(f, index)));
  }

  lemma SucceedTraced(w: LoginWorld, index: nat, t: seq<Action>)
    ensures Traced(Succeed(w, index, t), t, index)
  {
    Snoc(t, Screenshot(ScreenshotFile(ProcessFailed, index)));
  }

  lemma VerdictTraced(w: LoginWorld, index: nat, t: seq<Action>)
    ensures Traced(Verdict(w, index, t), t, index)
  {
    SucceedTraced(w, index, t);
    FailTraced(t, ProcessFailed, index);
    FailTraced(t, LoginRejected, index);
  }

  /** Typing and submitting the code, then probing the indicators, visits nothing and takes no screenshot. */
  lemma CodeEntryQuiet(w: LoginWorld, t1: seq<Action>, code: string)
    ensures var t2 := t1 + [Clear(OtpField), Type(OtpField, code), Sleep(2)]
        + (if w.confirmButton then [Click(ConfirmButton)] else [PressReturn(OtpField)])
        + [Sleep(15)] + ProbeActions(Probed(w.present));
      Visited(t2) == Visited(t1) && Screenshots(t2) == Screenshots(t1)
  {
    var a := [Clear(OtpField), Type(OtpField, code), Sleep(2)];
    var b := if w.confirmButton then [Click(ConfirmButton)] else [PressReturn(OtpField)];
    var c := ProbeActions(Probed(w.present));
    QuietTail(t1, a);
    QuietTail(t1 + a, b);
    QuietTail(t1 + a + b, [Sleep(15)]);
    QuietTail(t1 + a + b + [Sleep(15)], c);
  }

  /** Typing and submitting the phone number visits nothing and takes no screenshot. */
  lemma PhoneEntryQuiet(w: LoginWorld, t1: seq<Action>, phone: string)
    ensures var t2 := t1 + [Clear(PhoneField), Type(PhoneField, Phone.FormatPhone(phone)), Sleep(2)]
        + (if w.continueButton then [Click(ContinueButton)] else [PressReturn(PhoneField)])
        + [Sleep(5)];
      Visited(t2) == Visited(t1) && Screenshots(t2) == Screenshots(t1)
  {
    var a := [Clear(PhoneField), Type(PhoneField, Phone.FormatPhone(phone)), Sleep(2)];
    var b := if w.continueButton then [Click(ContinueButton)] else [PressReturn(PhoneField)];
    QuietTail(t1, a);
    QuietTail(t1 + a, b);
    QuietTail(t1 + a + b, [Sleep(5)]);
  }

  lemma AtOtpFieldTraced(w: LoginWorld, index: nat, t: seq<Action>)
    ensures Traced(AtOtpField(w, index, t), t, index)
  {
    var got := Otp.Acquire(w.mailbox, Otp.ScriptEncoding, MaxRetries, RetryInterval);
    var t1 := t + [ReadMail(got.attempts, got.sleeps)];
    QuietTail(t, [ReadMail(got.attempts, got.sleeps)]);
    if got.otp.None? || got.otp.value == "" {
      FailTraced(t1, OtpMissing, index);
    } else {
      CodeEntryQuiet(w, t1, got.otp.value);
      VerdictTraced(w, index, t1 + [Clear(OtpField), Type(OtpField, got.otp.value), Sleep(2)]
        + (if w.confirmButton then [Click(ConfirmButton)] else [PressReturn(OtpField)])
        + [Sleep(15)] + ProbeActions(Probed(w.present)));
    }
  }

  lemma AtHomePageTraced(w: LoginWorld, phone: string, index: nat, t: seq<Action>)
    ensures Traced(AtHomePage(w, phone, index, t), t, index)
  {
    var t1 := t + (if w.loginButton then [Click(LoginButton), Sleep(5)] else []);
    QuietTail(t, if w.loginButton then [Click(LoginButton), Sleep(5)] else []);
    if !w.phoneField {
      FailTraced(t1, ProcessFailed, index);
    } else {
      PhoneEntryQuiet(w, t1, phone);
      var t2 := t1 + [Clear(PhoneField), Type(PhoneField, Phone.FormatPhone(phone)), Sleep(2)]
        + (if w.continueButton then [Click(ContinueButton)] else [PressReturn(PhoneField)])
        + [Sleep(5)];
      if !w.otpField {
        FailTraced(t2, ProcessFailed, index);
      } else {
        AtOtpFieldTraced(w, index, t2);
      }
    }
  }

  /** The navigation traces: one visit to the home page, or two. */
  lemma NavigationVisits()
    ensures Visited([Visit(Proxy.HomePage), Sleep(10)]) == [Proxy.HomePage]
    ensures Screenshots([Visit(Proxy.HomePage), Sleep(10)]) == []
    ensures Visited([Visit(Proxy.HomePage), Sleep(10)] + [Visit(Proxy.HomePage), Sleep(10)]) == [Proxy.HomePage, Proxy.HomePage]
    ensures Screenshots([Visit(Proxy.HomePage), Sleep(10)] + [Visit(Proxy.HomePage), Sleep(10)]) == []
  {
    var nav := [Visit(Proxy.HomePage), Sleep(10)];
    Snoc([], Visit(Proxy.HomePage));
    assert nav == [Visit(Proxy.HomePage)] + [Sleep(10)];
    Snoc([Visit(Proxy.HomePage)], Sleep(10));
    var nav2 := nav + [Visit(Proxy.HomePage), Sleep(10)];
    Snoc(nav, Visit(Proxy.HomePage));
    assert nav2 == (nav + [Visit(Proxy.HomePage)]) + [Sleep(10)];
    Snoc(nav + [Visit(Proxy.HomePage)], Sleep(10));
  }

  /** A run continues one of the two navigation traces. */
  lemma LoginTraced(w: LoginWorld, phone: string, index: nat)
    ensures var nav := [Visit(Proxy.HomePage), Sleep(10)];
      Traced(Login(w, phone, index), if w.landing.Some? && !OnSite(w.landing.value) then nav + nav else nav, index)
  {
    var nav := [Visit(Proxy.HomePage), Sleep(10)];
    var nav2 := nav + [Visit(Proxy.HomePage), Sleep(10)];
    assert nav2 == nav + nav;
    FailTraced(nav, GeneralFailure, index);
    FailTraced(nav2, GeneralFailure, index);
    FailTraced(nav2, NavigationFailed, index);
    AtHomePageTraced(w, phone, index, nav);
    AtHomePageTraced(w, phone, index, nav2);
  }

  /**
   * The navigation is retried exactly once: the home page is visited a
   * second time only when the first visit did not land on the site, and no
   * other page is ever visited. Every failure takes exactly one screenshot,
   * named after the failure and the row, and a login takes none.
   */
  lemma NavigationRetriedOnce(w: LoginWorld, phone: string, index: nat)
    ensures var r := Login(w, phone, index);
      && Visited(r.actions) ==
           (if w.landing.Some? && !OnSite(w.landing.value) then [Proxy.HomePage, Proxy.HomePage] else [Proxy.HomePage])
      && Screenshots(r.actions) ==
           (if r.outcome.Failed? then [ScreenshotFile(r.outcome.failure, index)] else [])
  {
    NavigationVisits();
    LoginTraced(w, phone, index);
  }

  // ---------------------------------------------------------------------
  // Screenshot names
  // ---------------------------------------------------------------------

  /** The prefixes hold no digit and end with '_'. */
  lemma PrefixShape(f: Failure)
    ensures var p := ScreenshotPrefix(f); |p| >= 1 && p[|p| - 1] == '_' && forall k :: 0 <= k < |p| ==> !IsDigit(p[k])
  {
  }

  /** A non-digit prefix followed by digits can be split in one way only. */
  lemma {:induction false} DigitsSplit(p: string, d: string, q: string, e: string)
    requires |p| >= 1 && !IsDigit(p[|p| - 1]) && |q| >= 1 && !IsDigit(q[|q| - 1])
    requires IsDigits(d) && IsDigits(e) && p + d == q + e
    ensures p == q && d == e
  {
    var x := p + d;
    assert x[|p| - 1] == p[|p| - 1] && x[|q| - 1] == (q + e)[|q| - 1];
    assert forall k :: |p| <= k < |x| ==> x[k] == d[k - |p|];
    assert forall k :: |q| <= k < |x| ==> x[k] == (q + e)[k] == e[k - |q|];
    assert |p| == |q|;
    assert p == (p + d)[..|p|] && q == (q + e)[..|q|];
    assert d == (p + d)[|p|..] && e == (q + e)[|q|..];
  }

  /** Different failures or different rows never share a screenshot file. */
  lemma ScreenshotNamesDistinct(f: Failure, i: nat, g: Failure, j: nat)
    requires ScreenshotFile(f, i) == ScreenshotFile(g, j)
    ensures f == g && i == j
  {
    var p, q := ScreenshotPrefix(f), ScreenshotPrefix(g);
    var x, y := p + Decimal(i), q + Decimal(j);
    assert x == ScreenshotFile(f, i)[..|x|];
    assert y == ScreenshotFile(g, j)[..|y|];
    assert |x| == |y|;
    PrefixShape(f);
    PrefixShape(g);
    DigitsSplit(p, Decimal(i), q, Decimal(j));
    DecimalInjective(i, j);
  }
}
