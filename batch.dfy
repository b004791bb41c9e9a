/**
 * The batch over the accounts sheet (`main`): rows whose `Cookies` cell is
 * already filled are skipped; for every other row the previous browser is
 * quit and its proxy plugin file removed, a new browser is set up behind the
 * proxy, the proxy is checked, and the login is run. At the end the last
 * browser is quit and its plugin removed.
 *
 * The browsers and plugin files alive on the host are tracked as sets of
 * identities, so that "at most one of each at a time" can be stated.
 */
module Batch {
  import opened Options
  import opened Text
  import Proxy
  import Login

  /** The live browsers and existing plugin files; `next` is the identity the next setup gives out. */
  datatype Host = Host(browsers: set<nat>, plugins: set<nat>, next: nat)

  /** The host with the script's `browser` and `plugin_path` variables. */
  datatype Machine = Machine(host: Host, browser: Option<nat>, plugin: Option<nat>)

  /** How `setup_browser_with_proxy` goes: which step, if any, raises. */
  datatype SetupWorld =
    | Ready            // the plugin is written, the browser started and hardened
    | PluginFails      // writing the plugin raises
    | LaunchFails      // starting the browser raises
    | HardeningFails   // the anti-fingerprint command raises after the browser started

  /**
   * `setup_browser_with_proxy` as written. On every failure the plugin file
   * is removed and `None` is returned for the browser, but when the failure
   * comes after the browser started, that browser is left running with no
   * variable referring to it.
   */
  function SetupAsWritten(h: Host, s: SetupWorld): (m: Machine)
    ensures m.host.next == h.next + 1
  {
    var id := h.next;
    var h1 := h.(next := h.next + 1);
    match s
    case PluginFails => Machine(h1, None, None)
    case LaunchFails => Machine(h1, None, Some(id))
    case HardeningFails => Machine(h1.(browsers := h1.browsers + {id}), None, Some(id))
    case Ready => Machine(h1.(browsers := h1.browsers + {id}, plugins := h1.plugins + {id}), Some(id), Some(id))
  }

  /** The setup as intended: a browser that cannot be returned is quit before the failure is reported. */
  function Setup(h: Host, s: SetupWorld): (m: Machine)
    ensures m.host.next == h.next + 1
  {
    var id := h.next;
    var h1 := h.(next := h.next + 1);
    match s
    case PluginFails => Machine(h1, None, None)
    case LaunchFails => Machine(h1, None, Some(id))
    case HardeningFails => Machine(h1, None, Some(id))
    case Ready => Machine(h1.(browsers := h1.browsers + {id}, plugins := h1.plugins + {id}), Some(id), Some(id))
  }

  /** `browser.quit()` on the browser the variable refers to, if any. */
  function Quit(h: Host, b: Option<nat>): Host {
    if b.Some? then h.(browsers := h.browsers - {b.value}) else h
  }

  /** `os.remove(plugin_path)` when the variable is set and the file exists. */
  function Remove(h: Host, p: Option<nat>): Host {
    if p.Some? && p.value in h.plugins then h.(plugins := h.plugins - {p.value}) else h
  }

  /** What one row of the batch meets: the setup, the proxy check and the login. */
  datatype AccountWorld = AccountWorld(setup: SetupWorld, proxy: Proxy.ProxyWorld, login: Login.LoginWorld)

  datatype AccountResult = AlreadyDone | NoBrowser | ProxyRejected | LoginSucceeded | LoginFailed

  /**
   * The state of the batch: the machine, the table in memory, the saved
   * file, the result of each row so far, and the host after each setup and
   * after each row.
   */
  datatype BatchState = BatchState(
    machine: Machine,
    rows: seq<Login.Account>,
    saved: seq<Login.Account>,
    results: seq<AccountResult>,
    history: seq<Host>)

  /** The table and file after login run `r` on row `i`. */
  function Apply(st: BatchState, i: nat, r: Login.LoginRun): (t: BatchState)
    requires i < |st.rows|
    ensures |t.rows| == |st.rows| && t.saved == (if r.saved then t.rows else st.saved)
  {
    var rows := Login.AfterRun(st.rows, i, r);
    st.(rows := rows, saved := if r.saved then rows else st.saved)
  }

  /**
   * The three calls the loop body makes: `setup_browser_with_proxy`,
   * `verify_proxy_working` with its address test, and `login_to_ozon`.
   */
  datatype Script = Script(
    setup: (Host, SetupWorld) -> Machine,
    test: Proxy.AddressTest,
    login: (Login.LoginWorld, string, nat) -> Login.LoginRun)

  /** The script as written: the leaking setup and the substring test. */
  const AsWritten := Script(SetupAsWritten, Proxy.Substring, Login.Login)

  /** The script as intended: the setup that quits what it cannot return, and the range test. */
  const Intended := Script(Setup, Proxy.Range, Login.Login)

  /** One iteration of the loop over the rows. */
  function Step(s: Script, st: BatchState, i: nat, w: AccountWorld): (t: BatchState)
    requires i < |st.rows|
    ensures |t.rows| == |st.rows|
  {
    var row := st.rows[i];
    if Login.Done(row.cookies) then st.(results := st.results + [AlreadyDone])
    else
      var m := st.machine;
      var m1 := s.setup(Remove(Quit(m.host, m.browser), m.plugin), w.setup);
      if m1.browser.None? then
        st.(machine := m1, results := st.results + [NoBrowser], history := st.history + [m1.host])
      else if !Proxy.Confirmed(s.test, w.proxy) then
        var m2 := m1.(host := Quit(m1.host, m1.browser));
        st.(machine := m2, results := st.results + [ProxyRejected], history := st.history + [m1.host, m2.host])
      else
        var r := s.login(w.login, Strip(row.phone), i);
        var t := Apply(st, i, r);
        t.(machine := m1,
           results := st.results + [if r.outcome == Login.LoggedIn then LoginSucceeded else LoginFailed],
           history := st.history + [m1.host])
  }


  /** The cleanup after the loop: the last browser is quit and its plugin removed. */
  function Finish(m: Machine): Host {
    Remove(Quit(m.host, m.browser), m.plugin)
  }

  /** The state before the loop: no browser, no plugin, the file holding the table as loaded. */
  function Start(initial: seq<Login.Account>): BatchState {
    BatchState(Machine(Host({}, {}, 0), None, None), initial, initial, [], [])
  }

  /** The state after the loop has handled rows `0..i` of `initial`. */
  function RunTo(s: Script, initial: seq<Login.Account>, world: nat -> AccountWorld, i: nat): (t: BatchState)
    requires i <= |initial|
    ensures |t.rows| == |initial|
  {
    if i == 0 then Start(initial) else Step(s, RunTo(s, initial, world, i - 1), i - 1, world(i - 1))
  }

  /** The whole batch: the state after the loop, and the host after the final cleanup. */
  datatype BatchRun = BatchRun(last: BatchState, final: Host)

  function RunBatchWith(s: Script, initial: seq<Login.Account>, world: nat -> AccountWorld): BatchRun {
    var st := RunTo(s, initial, world, |initial|);
    BatchRun(st, Finish(st.machine))
  }

  // ---------------------------------------------------------------------
  // What the loop does to the rows
  // ---------------------------------------------------------------------

  /** Two rows for the same account: only the cookie cell may differ. */
  predicate SameAccount(a: Login.Account, b: Login.Account) {
    a.phone == b.phone && a.email == b.email && a.password == b.password
  }

  /** What holds of the rows after the loop has handled rows `0..i` of `initial`. */
  predicate RowFacts(initial: seq<Login.Account>, st: BatchState, i: nat) {
    && |st.rows| == |initial| && |st.saved| == |initial| && |st.results| == i <= |initial|
    && (forall j :: 0 <= j < |initial| ==> SameAccount(st.rows[j], initial[j]) && SameAccount(st.saved[j], initial[j]))
    && (forall j :: i <= j < |initial| ==> st.rows[j] == initial[j] && st.saved[j] == initial[j])
    && (forall j :: 0 <= j < i ==> (st.results[j] == AlreadyDone <==> Login.Done(initial[j].cookies)))
    && (forall j :: 0 <= j < i && Login.Done(initial[j].cookies) ==> st.rows[j] == initial[j] && st.saved[j] == initial[j])
    && (forall j :: 0 <= j < i && st.results[j] == LoginSucceeded ==>
          Login.Done(st.rows[j].cookies) && Login.Done(st.saved[j].cookies))
    && (forall j :: 0 <= j < i && st.rows[j] != initial[j] ==>
          st.results[j] == LoginSucceeded || st.results[j] == LoginFailed)
  }

  /**
   * What one step does to the table: it records one result; a row found
   * filled is left alone; otherwise its cell is at most overwritten with a
   * filled text, and only by a login run; a login saves the table.
   */
  predicate Effect(st: BatchState, t: BatchState, i: nat, done: bool) {
    && |t.results| == |st.results| + 1 && t.results[..|st.results|] == st.results
    && var res := t.results[|st.results|];
    && (res == AlreadyDone <==> done)
    && (t.rows == st.rows || (
          && (res == LoginSucceeded || res == LoginFailed)
          && i < |st.rows| && |t.rows| == |st.rows|
          && t.rows == st.rows[i := t.rows[i]]
          && SameAccount(t.rows[i], st.rows[i]) && Login.Done(t.rows[i].cookies)))
    && (t.saved == st.saved || t.saved == t.rows)
    && (done ==> t.rows == st.rows && t.saved == st.saved)
    && (res == LoginSucceeded ==> t.saved == t.rows && t.rows != st.rows)
  }

  /**
   * The login calls of `s` write a filled cell if any, and save the sheet
   * exactly when they log in, which they only do after writing the cell.
   */
  ghost predicate KeepsSheet(s: Script) {
    forall w, phone, i :: Login.Recorded(s.login(w, phone, i))
  }

  /** Both scripts call `login_to_ozon`, which keeps the sheet so. */
  lemma ScriptsKeepSheet()
    ensures KeepsSheet(AsWritten) && KeepsSheet(Intended)
  {
    forall w, phone, i
      ensures Login.Recorded(Login.Login(w, phone, i))
    {
      Login.CookieWrittenOnlyOnSuccess(w, phone, i);
    }
  }

  /** A login run that keeps the sheet, on a row still to be done, has the effect of a step. */
  lemma ApplyEffect(st: BatchState, i: nat, r: Login.LoginRun, t: BatchState)
    requires i < |st.rows| && !Login.Done(st.rows[i].cookies) && Login.Recorded(r)
    requires t == Apply(st, i, r).(results := st.results + [if r.outcome == Login.LoggedIn then LoginSucceeded else LoginFailed])
    ensures Effect(st, t, i, false)
  {
    assert t.results[..|st.results|] == st.results;
    if r.written.Some? {
      assert t.rows == st.rows[i := t.rows[i]];
      assert t.rows[i] != st.rows[i];
    }
  }

  lemma StepEffect(s: Script, st: BatchState, i: nat, w: AccountWorld)
    requires i < |st.rows| && KeepsSheet(s)
    ensures Effect(st, Step(s, st, i, w), i, Login.Done(st.rows[i].cookies))
  {
    var row := st.rows[i];
    var t := Step(s, st, i, w);
    if Login.Done(row.cookies) {
      assert t == st.(results := st.results + [AlreadyDone]);
      assert t.results[..|st.results|] == st.results;
    } else {
      var m := st.machine;
      var m1 := s.setup(Remove(Quit(m.host, m.browser), m.plugin), w.setup);
      if m1.browser.None? {
        assert t.rows == st.rows && t.saved == st.saved && t.results == st.results + [NoBrowser];
        assert t.results[..|st.results|] == st.results;
      } else if !Proxy.Confirmed(s.test, w.proxy) {
        assert t.rows == st.rows && t.saved == st.saved && t.results == st.results + [ProxyRejected];
        assert t.results[..|st.results|] == st.results;
      } else {
        var r := s.login(w.login, Strip(row.phone), i);
        assert Login.Recorded(r);
        ApplyEffect(st, i, r, t.(machine := st.machine, history := st.history));
      }
    }
  }

  /** A step with that effect keeps the row facts. */
  lemma EffectRowFacts(initial: seq<Login.Account>, st: BatchState, t: BatchState, i: nat)
    requires i < |initial| && RowFacts(initial, st, i)
    requires Effect(st, t, i, Login.Done(initial[i].cookies))
    ensures RowFacts(initial, t, i + 1)
  {
    forall j | 0 <= j < i
      ensures t.results[j] == st.results[j]
    {
      assert t.results[..i][j] == st.results[j];
    }
    if t.rows != st.rows {
      forall j | 0 <= j < |initial| && j != i
        ensures t.rows[j] == st.rows[j]
      {
      }
    }
  }

  /** One step keeps the row facts, whatever the setup does. */
  lemma StepRowFacts(s: Script, initial: seq<Login.Account>, st: BatchState, i: nat, w: AccountWorld)
    requires i < |initial| && RowFacts(initial, st, i) && KeepsSheet(s)
    ensures RowFacts(initial, Step(s, st, i, w), i + 1)
  {
    StepEffect(s, st, i, w);
    assert st.rows[i] == initial[i];
    EffectRowFacts(initial, st, Step(s, st, i, w), i);
  }

  /**
   * Induction over the loop: a property of the state after `k` rows that
   * holds before the loop and that every step carries from `k` to `k + 1`
   * holds after any number of rows.
   */
  lemma {:induction false} RunToInduction(s: Script, initial: seq<Login.Account>, world: nat -> AccountWorld, i: nat,
                                          inv: (BatchState, nat) -> bool)
    requires i <= |initial| && inv(Start(initial), 0)
    requires forall st: BatchState, k: nat :: k < |st.rows| && inv(st, k) ==> inv(Step(s, st, k, world(k)), k + 1)
    ensures inv(RunTo(s, initial, world, i), i)
  {
    if i > 0 {
      RunToInduction(s, initial, world, i - 1, inv);
      var st := RunTo(s, initial, world, i - 1);
      assert RunTo(s, initial, world, i) == Step(s, st, i - 1, world(i - 1));
    }
  }

  lemma RunToRowFacts(s: Script, initial: seq<Login.Account>, world: nat -> AccountWorld, i: nat)
    requires i <= |initial| && KeepsSheet(s)
    ensures RowFacts(initial, RunTo(s, initial, world, i), i)
  {
    var inv := (st: BatchState, k: nat) => RowFacts(initial, st, k);
    forall st: BatchState, k: nat | k < |st.rows| && inv(st, k)
      ensures inv(Step(s, st, k, world(k)), k + 1)
    {
      StepRowFacts(s, initial, st, k, world(k));
    }
    RunToInduction(s, initial, world, i, inv);
  }

  /**
   * The rows after the batch. A row whose cell was already filled is skipped,
   * before any browser is set up for it, and stays as it was in the table and
   * in the file; every other row is tried. A row only changes when its login
   * was run, and only in its cookie cell; a row that logged in has its cell
   * filled in the table and in the file.
   */
  lemma BatchRows(s: Script, initial: seq<Login.Account>, world: nat -> AccountWorld)
    requires KeepsSheet(s)
    ensures var st := RunBatchWith(s, initial, world).last;
      && |st.rows| == |initial| && |st.saved| == |initial| && |st.results| == |initial|
      && (forall j :: 0 <= j < |initial| ==> SameAccount(st.rows[j], initial[j]) && SameAccount(st.saved[j], initial[j]))
      && (forall j :: 0 <= j < |initial| ==> (st.results[j] == AlreadyDone <==> Login.Done(initial[j].cookies)))
      && (forall j :: 0 <= j < |initial| && Login.Done(initial[j].cookies) ==> st.rows[j] == initial[j] && st.saved[j] == initial[j])
      && (forall j :: 0 <= j < |initial| && st.results[j] == LoginSucceeded ==>
            Login.Done(st.rows[j].cookies) && Login.Done(st.saved[j].cookies))
      && (forall j :: 0 <= j < |initial| && st.rows[j] != initial[j] ==>
            st.results[j] == LoginSucceeded || st.results[j] == LoginFailed)
  {
    RunToRowFacts(s, initial, world, |initial|);
  }

  /**
   * Running the batch again on the saved file skips every row that logged in
   * the first time.
   */
  lemma RerunSkipsLoggedIn(s: Script, initial: seq<Login.Account>, first: nat -> AccountWorld, second: nat -> AccountWorld)
    requires KeepsSheet(s)
    ensures var r1 := RunBatchWith(s, initial, first).last;
      var r2 := RunBatchWith(s, r1.saved, second).last;
      |r1.results| == |initial| && |r2.results| == |initial| &&
      forall j :: 0 <= j < |initial| && r1.results[j] == LoginSucceeded ==> r2.results[j] == AlreadyDone
  {
    BatchRows(s, initial, first);
    var r1 := RunBatchWith(s, initial, first).last;
    BatchRows(s, r1.saved, second);
  }

  // ---------------------------------------------------------------------
  // Browsers and plugin files
  // ---------------------------------------------------------------------

  /** Every live browser and every plugin file is the one the script's variables refer to. */
  predicate Tracked(m: Machine) {
    && (forall b :: b in m.host.browsers ==> m.browser == Some(b))
    && (forall p :: p in m.host.plugins ==> m.plugin == Some(p))
  }

  predicate AtMostOne(h: Host) {
    |h.browsers| <= 1 && |h.plugins| <= 1
  }

  predicate Calm(history: seq<Host>) {
    forall k :: 0 <= k < |history| ==> AtMostOne(history[k])
  }

  lemma TrackedAtMostOne(m: Machine)
    requires Tracked(m)
    ensures AtMostOne(m.host)
  {
    if m.browser.Some? {
      assert m.host.browsers <= {m.browser.value};
      assert m.host.browsers == {} || m.host.browsers == {m.browser.value};
    } else {
      assert m.host.browsers == {};
    }
    if m.plugin.Some? {
      assert m.host.plugins <= {m.plugin.value};
      assert m.host.plugins == {} || m.host.plugins == {m.plugin.value};
    } else {
      assert m.host.plugins == {};
    }
  }

  /** Quitting the tracked browser and removing the tracked plugin leaves nothing alive. */
  lemma CleanupEmpties(m: Machine)
    requires Tracked(m)
    ensures var h := Remove(Quit(m.host, m.browser), m.plugin); h.browsers == {} && h.plugins == {} && h.next == m.host.next
  {
  }

  /** The intended setup on a host with nothing alive keeps everything it starts tracked. */
  lemma SetupTracked(h: Host, s: SetupWorld)
    requires h.browsers == {} && h.plugins == {}
    ensures Tracked(Setup(h, s))
  {
  }

  /** One step keeps everything tracked and records only hosts with at most one browser and plugin. */
  lemma StepTracked(s: Script, st: BatchState, i: nat, w: AccountWorld)
    requires s.setup == Setup && i < |st.rows| && Tracked(st.machine) && Calm(st.history)
    ensures var t := Step(s, st, i, w); Tracked(t.machine) && Calm(t.history)
  {
    if !Login.Done(st.rows[i].cookies) {
      var m := st.machine;
      CleanupEmpties(m);
      var h := Remove(Quit(m.host, m.browser), m.plugin);
      SetupTracked(h, w.setup);
      var m1 := Setup(h, w.setup);
      TrackedAtMostOne(m1);
      var m2 := m1.(host := Quit(m1.host, m1.browser));
      assert Tracked(m2);
      TrackedAtMostOne(m2);
    }
  }

  lemma RunToTracked(s: Script, initial: seq<Login.Account>, world: nat -> AccountWorld, i: nat)
    requires s.setup == Setup && i <= |initial|
    ensures var t := RunTo(s, initial, world, i); Tracked(t.machine) && Calm(t.history)
  {
    var inv := (st: BatchState, k: nat) => Tracked(st.machine) && Calm(st.history);
    forall st: BatchState, k: nat | k < |st.rows| && inv(st, k)
      ensures inv(Step(s, st, k, world(k)), k + 1)
    {
      StepTracked(s, st, k, world(k));
    }
    RunToInduction(s, initial, world, i, inv);
  }

  /**
   * At most one browser and one plugin file are alive after every setup and
   * after every row, and none is left after the final cleanup.
   */
  lemma OneBrowserAtATime(initial: seq<Login.Account>, world: nat -> AccountWorld)
    ensures var r := RunBatchWith(Intended, initial, world);
      Calm(r.last.history) && r.final.browsers == {} && r.final.plugins == {}
  {
    RunToTracked(Intended, initial, world, |initial|);
    CleanupEmpties(RunTo(Intended, initial, world, |initial|).machine);
  }

  /** Every plugin file on the host is the one the script's `plugin_path` refers to. */
  predicate PluginTracked(m: Machine) {
    forall p :: p in m.host.plugins ==> m.plugin == Some(p)
  }

  lemma PluginTrackedAtMostOne(m: Machine)
    requires PluginTracked(m)
    ensures |m.host.plugins| <= 1
  {
    if m.plugin.Some? {
      assert m.host.plugins <= {m.plugin.value};
      assert m.host.plugins == {} || m.host.plugins == {m.plugin.value};
    } else {
      assert m.host.plugins == {};
    }
  }

  /** At most one plugin file after every setup and every row. */
  predicate PluginCalm(history: seq<Host>) {
    forall k :: 0 <= k < |history| ==> |history[k].plugins| <= 1
  }

  /** Either setup, on a host with no plugin file, leaves at most its own plugin file, referred to by `plugin_path`. */
  lemma SetupTracksPlugin(s: Script, h: Host, sw: SetupWorld)
    requires s.setup == SetupAsWritten || s.setup == Setup
    requires h.plugins == {}
    ensures PluginTracked(s.setup(h, sw))
  {
    if s.setup == SetupAsWritten {
      assert s.setup(h, sw) == SetupAsWritten(h, sw);
    } else {
      assert s.setup(h, sw) == Setup(h, sw);
    }
  }

  /** One step, with either setup, keeps every plugin file tracked and records hosts with at most one. */
  lemma StepPluginTracked(s: Script, st: BatchState, i: nat, w: AccountWorld)
    requires s.setup == SetupAsWritten || s.setup == Setup
    requires i < |st.rows| && PluginTracked(st.machine) && PluginCalm(st.history)
    ensures var t := Step(s, st, i, w); PluginTracked(t.machine) && PluginCalm(t.history)
  {
    if !Login.Done(st.rows[i].cookies) {
      var m := st.machine;
      var h := Remove(Quit(m.host, m.browser), m.plugin);
      assert h.plugins == {};
      SetupTracksPlugin(s, h, w.setup);
      var m1 := s.setup(h, w.setup);
      PluginTrackedAtMostOne(m1);
      var m2 := m1.(host := Quit(m1.host, m1.browser));
      assert m2.host.plugins == m1.host.plugins;
      PluginTrackedAtMostOne(m2);
    }
  }

  lemma RunToPluginTracked(s: Script, initial: seq<Login.Account>, world: nat -> AccountWorld, i: nat)
    requires s.setup == SetupAsWritten || s.setup == Setup
    requires i <= |initial|
    ensures var t := RunTo(s, initial, world, i); PluginTracked(t.machine) && PluginCalm(t.history)
  {
    var inv := (st: BatchState, k: nat) => PluginTracked(st.machine) && PluginCalm(st.history);
    forall st: BatchState, k: nat | k < |st.rows| && inv(st, k)
      ensures inv(Step(s, st, k, world(k)), k + 1)
    {
      StepPluginTracked(s, st, k, world(k));
    }
    RunToInduction(s, initial, world, i, inv);
  }

  /**
   * With either setup, the script as written included, at most one plugin
   * file exists after every setup and every row, and none is left after the
   * final cleanup.
   */
  lemma OnePluginAtATime(s: Script, initial: seq<Login.Account>, world: nat -> AccountWorld)
    requires s.setup == SetupAsWritten || s.setup == Setup
    ensures var r := RunBatchWith(s, initial, world);
      PluginCalm(r.last.history) && r.final.plugins == {}
  {
    RunToPluginTracked(s, initial, world, |initial|);
  }

  /** The number of rows whose cell is not yet filled. */
  function Pending(rows: seq<Login.Account>): nat {
    if rows == [] then 0
    else Pending(rows[..|rows| - 1]) + (if Login.Done(rows[|rows| - 1].cookies) then 0 else 1)
  }

  /** Every setup of `s` hands out one new identity. */
  ghost predicate CountsSetups(s: Script) {
    forall h, sw :: s.setup(h, sw).host.next == h.next + 1
  }

  /** Both setups hand out one identity per call. */
  lemma ScriptsCountSetups()
    ensures CountsSetups(AsWritten) && CountsSetups(Intended)
  {
    forall h, sw
      ensures SetupAsWritten(h, sw).host.next == h.next + 1 && Setup(h, sw).host.next == h.next + 1
    {
    }
  }

  /** A step sets up one browser, or none when its row is skipped. */
  lemma StepLaunches(s: Script, st: BatchState, i: nat, w: AccountWorld)
    requires CountsSetups(s) && i < |st.rows|
    ensures Step(s, st, i, w).machine.host.next == st.machine.host.next + (if Login.Done(st.rows[i].cookies) then 0 else 1)
  {
    if !Login.Done(st.rows[i].cookies) {
      var m := st.machine;
      var h := Remove(Quit(m.host, m.browser), m.plugin);
      assert h.next == m.host.next;
      var m1 := s.setup(h, w.setup);
      assert m1.host.next == h.next + 1;
      assert Quit(m1.host, m1.browser).next == m1.host.next;
    }
  }

  lemma RunToLaunches(s: Script, initial: seq<Login.Account>, world: nat -> AccountWorld, i: nat)
    requires CountsSetups(s) && KeepsSheet(s) && i <= |initial|
    ensures RunTo(s, initial, world, i).machine.host.next == Pending(initial[..i])
  {
    var inv := (st: BatchState, k: nat) => RowFacts(initial, st, k) && st.machine.host.next == Pending(initial[..k]);
    forall st: BatchState, k: nat | k < |st.rows| && inv(st, k)
      ensures inv(Step(s, st, k, world(k)), k + 1)
    {
      StepRowFacts(s, initial, st, k, world(k));
      assert st.rows[k] == initial[k];
      StepLaunches(s, st, k, world(k));
      assert initial[..k + 1][..k] == initial[..k];
      assert Pending(initial[..k + 1]) == Pending(initial[..k]) + (if Login.Done(initial[k].cookies) then 0 else 1);
    }
    assert initial[..0] == [] && Pending([]) == 0;
    assert inv(Start(initial), 0);
    RunToInduction(s, initial, world, i, inv);
  }

  /** One browser setup per row whose cell was not yet filled, and none for the rows skipped. */
  lemma SetupsPerPendingRow(s: Script, initial: seq<Login.Account>, world: nat -> AccountWorld)
    requires CountsSetups(s) && KeepsSheet(s)
    ensures RunBatchWith(s, initial, world).final.next == Pending(initial)
  {
    RunToLaunches(s, initial, world, |initial|);
    assert initial[..|initial|] == initial;
  }

  /**
   * With the setup as written, a row whose browser hardening fails leaves
   * that browser running with no variable referring to it: when the next row
   * sets up its own, two browsers are alive at once, and the script never
   * quits the first, not even in the final cleanup.
   */
  lemma SetupAsWrittenLeaks(initial: seq<Login.Account>, world: nat -> AccountWorld)
    requires |initial| == 2 && !Login.Done(initial[0].cookies) && !Login.Done(initial[1].cookies)
    requires world(0).setup == HardeningFails && world(1).setup == Ready
    ensures var r := RunBatchWith(AsWritten, initial, world);
      |r.last.history| >= 2 && r.last.history[1].browsers == {0, 1} && 0 in r.final.browsers
  {
    assert RunTo(AsWritten, initial, world, 0) == Start(initial);
    var st1 := RunTo(AsWritten, initial, world, 1);
    FirstRowLeaks(initial, world(0));
    assert st1 == Step(AsWritten, Start(initial), 0, world(0));
    assert st1.rows == initial;
    SecondRowDoubles(st1, world(1));
    assert RunTo(AsWritten, initial, world, 2) == Step(AsWritten, st1, 1, world(1));
  }

  /** The first row: the hardening fails, and its browser stays alive with no variable referring to it. */
  lemma FirstRowLeaks(initial: seq<Login.Account>, w: AccountWorld)
    requires |initial| == 2 && !Login.Done(initial[0].cookies) && w.setup == HardeningFails
    ensures var t := Step(AsWritten, Start(initial), 0, w);
      t.machine == Machine(Host({0}, {}, 1), None, Some(0)) && t.history == [Host({0}, {}, 1)] && t.rows == initial
  {
    var m1 := SetupAsWritten(Host({}, {}, 0), HardeningFails);
    assert m1 == Machine(Host({0}, {}, 1), None, Some(0));
  }

  /** The second row: a good setup starts a second browser beside the leaked one. */
  lemma SecondRowDoubles(st: BatchState, w: AccountWorld)
    requires st.machine == Machine(Host({0}, {}, 1), None, Some(0)) && st.history == [Host({0}, {}, 1)]
    requires |st.rows| == 2 && !Login.Done(st.rows[1].cookies) && w.setup == Ready
    ensures var t := Step(AsWritten, st, 1, w);
      |t.history| >= 2 && t.history[1].browsers == {0, 1} && 0 in Finish(t.machine).browsers
  {
    var h := Remove(Quit(st.machine.host, st.machine.browser), st.machine.plugin);
    assert h == Host({0}, {}, 1);
    var m1 := SetupAsWritten(h, Ready);
    assert m1 == Machine(Host({0, 1}, {1}, 2), Some(1), Some(1));
    var t := Step(AsWritten, st, 1, w);
    if Proxy.Confirmed(Proxy.Substring, w.proxy) {
      assert t.machine == m1 && t.history == st.history + [m1.host];
    } else {
      var m2 := m1.(host := Quit(m1.host, m1.browser));
      assert m2.host.browsers == {0};
      assert t.machine == m2 && t.history == st.history + [m1.host, m2.host];
    }
  }

  // ---------------------------------------------------------------------
  // The loop itself
  // ---------------------------------------------------------------------

  /**
   * `main` after the table is loaded, running script `s`: the sheet starts
   * as `initial`, saved as the working copy; the rows are handled in order as
   * `RunBatchWith` describes, and the last browser and plugin are cleaned up.
   * Returns the sheet, each row's result, the host after each setup and each
   * row, and the host at the end.
   */
  method RunBatch(s: Script, initial: seq<Login.Account>, world: nat -> AccountWorld)
    returns (sheet: Login.Sheet, results: seq<AccountResult>, history: seq<Host>, host: Host)
    requires s.login == Login.Login
    ensures fresh(sheet)
    ensures var r := RunBatchWith(s, initial, world);
      && sheet.rows == r.last.rows && sheet.saved == r.last.saved
      && results == r.last.results && history == r.last.history && host == r.final
  {
    sheet := new Login.Sheet(initial);
    host := Host({}, {}, 0);
    var browser: Option<nat> := None;
    var plugin: Option<nat> := None;
    results, history := [], [];
    var i := 0;
    while i < |initial|
      invariant 0 <= i <= |initial|
      invariant BatchState(Machine(host, browser, plugin), sheet.rows, sheet.saved, results, history) == RunTo(s, initial, world, i)
    {
      var m;
      m, results, history := HandleRow(s, Machine(host, browser, plugin), sheet, results, history, i, world(i));
      host, browser, plugin := m.host, m.browser, m.plugin;
      i := i + 1;
    }
    host := Remove(Quit(host, browser), plugin);
  }

  /** One pass of the loop body of `main`, on row `i`, running script `s`. */
  method HandleRow(s: Script, m: Machine, sheet: Login.Sheet, results: seq<AccountResult>, history: seq<Host>, i: nat, w: AccountWorld)
    returns (m': Machine, results': seq<AccountResult>, history': seq<Host>)
    requires s.login == Login.Login && i < |sheet.rows|
    modifies sheet
    ensures BatchState(m', sheet.rows, sheet.saved, results', history') ==
      Step(s, BatchState(m, old(sheet.rows), old(sheet.saved), results, history), i, w)
  {
    var row := sheet.rows[i];
    if Login.Done(row.cookies) {
      // A row with cookies is skipped before any browser is touched.
      return m, results + [AlreadyDone], history;
    }
    // A new browser for each account: the previous one is quit and its plugin removed.
    var host := Remove(Quit(m.host, m.browser), m.plugin);
    m' := s.setup(host, w.setup);
    history' := history + [m'.host];
    if m'.browser.None? {
      return m', results + [NoBrowser], history';
    }
    var confirmed, _ := Proxy.VerifyProxyWorking(s.test, w.proxy);
    if !confirmed {
      m' := m'.(host := Quit(m'.host, m'.browser));
      return m', results + [ProxyRejected], history' + [m'.host];
    }
    var success, _ := Login.LoginToOzon(w.login, Strip(row.phone), i, sheet);
    results' := results + [if success then LoginSucceeded else LoginFailed];
  }
}
