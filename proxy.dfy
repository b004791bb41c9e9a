/**
 * The check that a new browser session egresses through the proxy
 * (`verify_proxy_working`): IP echo services are visited in order until one
 * shows an address in the proxy's range; failing that, loading the retail
 * site and landing on its domain is taken as confirmation.
 */
module Proxy {
  import opened Options
  import opened Text

  const IpServices: seq<string> := ["https://api.ipify.org", "https://ifconfig.me/ip", "https://ipinfo.io/ip"]
  const HomePage: string := "https://www.ozon.ru"
  /** The address of the proxy the batch uses. */
  const ProxyHost: string := "85.142.131.100"
  /** The text the source looks for in the echoed address. */
  const ProxyPrefix: string := "85.142"

  /** A group of the address pattern: `\d{1,3}`. */
  predicate IsGroup(g: string) {
    1 <= |g| <= 3 && IsDigits(g)
  }

  /** `re.match(r"^\d{1,3}\.\d{1,3}\.\d{1,3}\.\d{1,3}$", ip)` on a stripped text. */
  predicate IsDottedQuad(ip: string) {
    var f := Split(ip, '.');
    |f| == 4 && forall k :: 0 <= k < 4 ==> IsGroup(f[k])
  }

  /** Four groups joined by dots. */
  function Dotted(a: string, b: string, c: string, d: string): string {
    a + "." + b + "." + c + "." + d
  }

  lemma JoinFour(a: string, b: string, c: string, d: string)
    ensures Join([a, b, c, d], '.') == Dotted(a, b, c, d)
  {
    var g := [a, b, c, d];
    assert g[1..] == [b, c, d] && g[1..][1..] == [c, d] && g[1..][1..][1..] == [d];
    assert Join([c, d], '.') == c + "." + d;
    assert Join([b, c, d], '.') == b + "." + (c + "." + d);
    assert Join(g, '.') == a + "." + (b + "." + (c + "." + d));
  }

  /** Four digit groups joined by dots pass the shape test, and splitting gives the groups back. */
  lemma DottedQuadShape(a: string, b: string, c: string, d: string)
    requires IsGroup(a) && IsGroup(b) && IsGroup(c) && IsGroup(d)
    ensures IsDottedQuad(Dotted(a, b, c, d)) && Split(Dotted(a, b, c, d), '.') == [a, b, c, d]
  {
    var g := [a, b, c, d];
    JoinFour(a, b, c, d);
    forall k | 0 <= k < 4 ensures '.' !in g[k] {
      assert IsDigits(g[k]);
    }
    SplitJoin(g, '.');
  }

  /** Conversely, a text that passes the shape test is its four groups joined by dots. */
  lemma DottedQuadGroups(ip: string)
    requires IsDottedQuad(ip)
    ensures var f := Split(ip, '.'); ip == Dotted(f[0], f[1], f[2], f[3])
  {
    var f := Split(ip, '.');
    JoinSplit(ip, '.');
    assert f == [f[0], f[1], f[2], f[3]];
    JoinFour(f[0], f[1], f[2], f[3]);
  }

  /** A text with no surrounding whitespace is its own stripped form. */
  lemma StripKeeps(s: string)
    requires s != [] && !IsSpace(s[0]) && !IsSpace(s[|s| - 1])
    ensures Strip(s) == s
  {
    assert TrimStart(s) == s;
    assert TrimEnd(s) == s;
  }

  /** The address test as written: the text "85.142" occurs anywhere in the stripped body text. */
  predicate AcceptsAsWritten(text: string) {
    var ip := Strip(text);
    ip != "" && IsDottedQuad(ip) && Contains(ip, ProxyPrefix)
  }

  /** The address test as intended: the address lies in 85.142.0.0/16, its first two groups being 85 and 142. */
  predicate InProxyRange(ip: string) {
    IsDottedQuad(ip) && Split(ip, '.')[0] == "85" && Split(ip, '.')[1] == "142"
  }

  predicate Accepts(text: string) {
    var ip := Strip(text);
    ip != "" && InProxyRange(ip)
  }

  /** Which address test the check applies: the substring test as written, or the range test as intended. */
  datatype AddressTest = Substring | Range

  predicate AcceptsBy(t: AddressTest, text: string) {
    match t
    case Substring => AcceptsAsWritten(text)
    case Range => Accepts(text)
  }

  /** Address test `t` as a function on the body text. */
  function Test(t: AddressTest): string -> bool {
    text => AcceptsBy(t, text)
  }

  /** "185.142.0.1" has no surrounding whitespace. */
  lemma ForeignStrip(ip: string)
    requires ip == "185.142.0.1"
    ensures Strip(ip) == ip
  {
    StripKeeps(ip);
  }

  /** "185.142.0.1" is a dotted quad whose first group is 185. */
  lemma ForeignGroups(ip: string)
    requires ip == "185.142.0.1"
    ensures IsDottedQuad(ip) && Split(ip, '.')[0] == "185"
  {
    DottedQuadShape("185", "142", "0", "1");
    assert Dotted("185", "142", "0", "1") == ip;
  }

  /** "185.142.0.1" contains "85.142" at index 1. */
  lemma ForeignContainsPrefix(ip: string)
    requires ip == "185.142.0.1"
    ensures Contains(ip, ProxyPrefix)
  {
    assert OccursAt(ip, ProxyPrefix, 1);
  }

  /** An address from another network that merely contains "85.142" passes the test as written. */
  lemma AsWrittenAcceptsForeignAddress(ip: string)
    requires ip == "185.142.0.1"
    ensures AcceptsAsWritten(ip)
    ensures !Accepts(ip)
  {
    ForeignStrip(ip);
    ForeignGroups(ip);
    ForeignContainsPrefix(ip);
  }

  /** Every text the intended test accepts strips to an address 85.142.c.d. */
  lemma AcceptedIsInRange(text: string)
    requires Accepts(text)
    ensures exists c, d :: IsGroup(c) && IsGroup(d) && Strip(text) == Dotted("85", "142", c, d)
  {
    var ip := Strip(text);
    DottedQuadGroups(ip);
    var f := Split(ip, '.');
    assert IsGroup(f[2]) && IsGroup(f[3]);
  }

  /** An address 85.142.c.d starts with "85.142". */
  lemma RangeStartsWithPrefix(c: string, d: string)
    ensures OccursAt(Dotted("85", "142", c, d), ProxyPrefix, 0)
  {
    var ip := Dotted("85", "142", c, d);
    assert ip[..6] == ProxyPrefix;
  }

  /** The first two groups of the proxy's range are digit groups. */
  lemma RangeGroups()
    ensures IsGroup("85") && IsGroup("142")
  {
  }

  /** An address 85.142.c.d is a non-empty dotted quad in the proxy's range. */
  lemma RangeShape(ip: string, c: string, d: string)
    requires IsGroup(c) && IsGroup(d)
    requires ip == Dotted("85", "142", c, d)
    ensures ip != "" && InProxyRange(ip)
  {
    RangeGroups();
    DottedQuadShape("85", "142", c, d);
    assert |ip| > 0;
    assert Split(ip, '.')[0] == "85" && Split(ip, '.')[1] == "142";
  }

  /** Every address 85.142.c.d, however it is padded with whitespace, is accepted. */
  lemma RangeIsAccepted(text: string, c: string, d: string)
    requires IsGroup(c) && IsGroup(d)
    requires Strip(text) == Dotted("85", "142", c, d)
    ensures Accepts(text)
  {
    RangeShape(Strip(text), c, d);
  }

  /** The test as written accepts exactly the texts that strip to four digit groups joined by dots containing "85.142". */
  lemma SubstringMeaning(text: string)
    ensures AcceptsAsWritten(text) <==>
      exists a, b, c, d :: IsGroup(a) && IsGroup(b) && IsGroup(c) && IsGroup(d) &&
        Strip(text) == Dotted(a, b, c, d) && Contains(Dotted(a, b, c, d), ProxyPrefix)
  {
    var ip := Strip(text);
    if AcceptsAsWritten(text) {
      DottedQuadGroups(ip);
      var f := Split(ip, '.');
      assert IsGroup(f[0]) && IsGroup(f[1]) && IsGroup(f[2]) && IsGroup(f[3]);
    }
    if exists a, b, c, d :: IsGroup(a) && IsGroup(b) && IsGroup(c) && IsGroup(d) &&
        ip == Dotted(a, b, c, d) && Contains(Dotted(a, b, c, d), ProxyPrefix) {
      var a, b, c, d :| IsGroup(a) && IsGroup(b) && IsGroup(c) && IsGroup(d) &&
        ip == Dotted(a, b, c, d) && Contains(Dotted(a, b, c, d), ProxyPrefix);
      DottedQuadShape(a, b, c, d);
      assert |ip| > 0;
    }
  }

  /** The intended test accepts exactly the texts that strip to an address 85.142.c.d. */
  lemma RangeMeaning(text: string)
    ensures Accepts(text) <==> exists c, d :: IsGroup(c) && IsGroup(d) && Strip(text) == Dotted("85", "142", c, d)
  {
    if Accepts(text) {
      AcceptedIsInRange(text);
    }
    if exists c, d :: IsGroup(c) && IsGroup(d) && Strip(text) == Dotted("85", "142", c, d) {
      var c, d :| IsGroup(c) && IsGroup(d) && Strip(text) == Dotted("85", "142", c, d);
      RangeIsAccepted(text, c, d);
    }
  }

  /** Whatever the intended test accepts, the test as written accepts too. */
  lemma AcceptsRefinesAsWritten(text: string)
    requires Accepts(text)
    ensures AcceptsAsWritten(text)
  {
    var ip := Strip(text);
    AcceptedIsInRange(text);
    var c, d :| IsGroup(c) && IsGroup(d) && ip == Dotted("85", "142", c, d);
    RangeStartsWithPrefix(c, d);
  }

  /** The proxy's address is the four groups 85, 142, 131 and 100. */
  lemma HostGroups()
    ensures ProxyHost == Dotted("85", "142", "131", "100")
  {
  }

  /** The proxy's address has no surrounding whitespace. */
  lemma HostStrip(ip: string)
    requires ip == Dotted("85", "142", "131", "100")
    ensures Strip(ip) == ip
  {
    assert ip[0] == '8' && ip[|ip| - 1] == '0';
    StripKeeps(ip);
  }

  /** The last two groups of the proxy's address are digit groups. */
  lemma HostLastGroups()
    ensures IsGroup("131") && IsGroup("100")
  {
  }

  /** The proxy's own address is accepted. */
  lemma ProxyHostAccepted(ip: string)
    requires ip == ProxyHost
    ensures Accepts(ip)
  {
    HostGroups();
    HostStrip(ip);
    HostLastGroups();
    RangeIsAccepted(ip, "131", "100");
  }

  /**
   * What the browser shows during the check: the body text each echo service
   * displays, and the location after loading the home page; `None` when
   * loading or reading raises.
   */
  datatype ProxyWorld = ProxyWorld(echo: string -> Option<string>, homeUrl: Option<string>)

  /**
   * Whether the check confirms the proxy, from service `i` on: a service whose
   * page cannot be read ends the check with failure, an accepted address with
   * success, and a rejected one passes on to the next service; after the last
   * service the home page decides.
   */
  function ConfirmFrom(accepts: string -> bool, w: ProxyWorld, i: nat): bool
    decreases |IpServices| - i
  {
    if i >= |IpServices| then w.homeUrl.Some? && Contains(Lower(w.homeUrl.value), "ozon")
    else match w.echo(IpServices[i])
      case None => false
      case Some(text) => accepts(text) || ConfirmFrom(accepts, w, i + 1)
  }

  /** Whether the check with address test `t` confirms the proxy. */
  function Confirmed(t: AddressTest, w: ProxyWorld): bool {
    ConfirmFrom(Test(t), w, 0)
  }

  /** Whenever the check with the range test confirms the proxy, the check as written confirms it too, from any service on. */
  lemma {:induction false} ConfirmRefines(w: ProxyWorld, i: nat)
    requires ConfirmFrom(Test(Range), w, i)
    ensures ConfirmFrom(Test(Substring), w, i)
    decreases |IpServices| - i
  {
    if i < |IpServices| {
      var shown := w.echo(IpServices[i]);
      StepFrom(Test(Range), w, i);
      StepFrom(Test(Substring), w, i);
      if Accepts(shown.value) {
        AcceptsRefinesAsWritten(shown.value);
      } else {
        ConfirmRefines(w, i + 1);
      }
    }
  }

  /** Every echo service shows `ip` and the home page cannot be loaded. */
  function EchoWorld(ip: string): ProxyWorld {
    ProxyWorld(_ => Some(ip), None)
  }

  /**
   * When every service shows "185.142.0.1", the check as written confirms the
   * proxy after one service, while the range test rejects all three and the
   * check fails on the home page.
   */
  lemma ForeignWorldConfirmedAsWritten(ip: string)
    requires ip == "185.142.0.1"
    ensures Confirmed(Substring, EchoWorld(ip)) && Visits(Substring, EchoWorld(ip)) == [IpServices[0]]
    ensures !Confirmed(Range, EchoWorld(ip)) && Visits(Range, EchoWorld(ip)) == IpServices + [HomePage]
  {
    AsWrittenAcceptsForeignAddress(ip);
    AcceptedFirst(Test(Substring), EchoWorld(ip), ip);
    RejectedThroughout(Test(Range), EchoWorld(ip), ip);
  }

  /** When every service shows an accepted address, the check stops at the first service with success. */
  lemma AcceptedFirst(accepts: string -> bool, w: ProxyWorld, ip: string)
    requires w == EchoWorld(ip) && accepts(ip)
    ensures ConfirmFrom(accepts, w, 0) && VisitsFrom(accepts, w, 0) == [IpServices[0]]
  {
    StepFrom(accepts, w, 0);
  }

  /** When every service shows a rejected address and the home page cannot be loaded, the check visits everything and fails. */
  lemma RejectedThroughout(accepts: string -> bool, w: ProxyWorld, ip: string)
    requires w == EchoWorld(ip) && !accepts(ip)
    ensures !ConfirmFrom(accepts, w, 0) && VisitsFrom(accepts, w, 0) == IpServices + [HomePage]
  {
    StepFrom(accepts, w, 2);
    StepFrom(accepts, w, 1);
    StepFrom(accepts, w, 0);
    EndFrom(accepts, w);
    assert IpServices == [IpServices[0], IpServices[1], IpServices[2]];
  }

  /** The pages the check loads, from service `i` on. */
  function VisitsFrom(accepts: string -> bool, w: ProxyWorld, i: nat): seq<string>
    decreases |IpServices| - i
  {
    if i >= |IpServices| then [HomePage]
    else match w.echo(IpServices[i])
      case None => [IpServices[i]]
      case Some(text) => if accepts(text) then [IpServices[i]] else [IpServices[i]] + VisitsFrom(accepts, w, i + 1)
  }

  /** The pages the check with address test `t` loads. */
  function Visits(t: AddressTest, w: ProxyWorld): seq<string> {
    VisitsFrom(Test(t), w, 0)
  }

  /** One service of the check: what `ConfirmFrom` and `VisitsFrom` are at service `i`, in terms of service `i + 1`. */
  lemma StepFrom(accepts: string -> bool, w: ProxyWorld, i: nat)
    requires i < |IpServices|
    ensures var shown := w.echo(IpServices[i]);
      && ConfirmFrom(accepts, w, i) == (shown.Some? && (accepts(shown.value) || ConfirmFrom(accepts, w, i + 1)))
      && VisitsFrom(accepts, w, i) == if shown.None? || accepts(shown.value) then [IpServices[i]] else [IpServices[i]] + VisitsFrom(accepts, w, i + 1)
  {
  }

  /** A slice is its first element followed by the rest of the slice. */
  lemma SliceFront<T>(s: seq<T>, i: nat, j: nat)
    requires i < j <= |s|
    ensures s[i..j] == [s[i]] + s[i + 1..j]
  {
  }

  /** The pages visited from service `i` on are the remaining services in order, up to the one the check stops at, or all of them and then the home page. */
  lemma {:induction false} VisitsShape(accepts: string -> bool, w: ProxyWorld, i: nat)
    requires i <= |IpServices|
    ensures ShapedFrom(i, VisitsFrom(accepts, w, i))
    decreases |IpServices| - i
  {
    if i < |IpServices| {
      var shown := w.echo(IpServices[i]);
      StepFrom(accepts, w, i);
      if shown.Some? && !accepts(shown.value) {
        VisitsShape(accepts, w, i + 1);
        PrependShape(i, VisitsFrom(accepts, w, i + 1));
      }
    }
  }

  /** The shape `VisitsShape` describes, for the pages loaded from service `i` on. */
  predicate ShapedFrom(i: nat, v: seq<string>)
    requires i <= |IpServices|
  {
    && 1 <= |v| <= |IpServices| - i + 1
    && (if |v| <= |IpServices| - i then v == IpServices[i..i + |v|] else v == IpServices[i..] + [HomePage])
  }

  /** Loading service `i` before pages shaped from `i + 1` gives pages shaped from `i`. */
  lemma PrependShape(i: nat, rest: seq<string>)
    requires i < |IpServices| && ShapedFrom(i + 1, rest)
    ensures ShapedFrom(i, [IpServices[i]] + rest)
  {
    if |rest| <= |IpServices| - (i + 1) {
      SliceFront(IpServices, i, i + 1 + |rest|);
    } else {
      SliceFront(IpServices, i, |IpServices|);
    }
  }

  /** Every service visited from `i` on before the last one showed an address that was rejected. */
  lemma {:induction false} RejectedBefore(accepts: string -> bool, w: ProxyWorld, i: nat)
    requires i <= |IpServices|
    ensures forall j :: i <= j < i + |VisitsFrom(accepts, w, i)| - 1 && j < |IpServices| ==>
      w.echo(IpServices[j]).Some? && !accepts(w.echo(IpServices[j]).value)
    decreases |IpServices| - i
  {
    if i < |IpServices| {
      var shown := w.echo(IpServices[i]);
      StepFrom(accepts, w, i);
      if shown.Some? && !accepts(shown.value) {
        RejectedBefore(accepts, w, i + 1);
        forall j | i <= j < i + |VisitsFrom(accepts, w, i)| - 1 && j < |IpServices|
          ensures w.echo(IpServices[j]).Some? && !accepts(w.echo(IpServices[j]).value)
        {
          if j > i {
            assert i + 1 <= j < i + 1 + |VisitsFrom(accepts, w, i + 1)| - 1;
          }
        }
      }
    }
  }

  /**
   * When the check stops at a service, it succeeds exactly when that service
   * showed an accepted address and fails exactly when its page could not be
   * read; after all services, the home page alone decides.
   */
  lemma {:induction false} StopDecides(accepts: string -> bool, w: ProxyWorld, i: nat)
    requires i <= |IpServices|
    ensures var v := VisitsFrom(accepts, w, i);
      && (|v| <= |IpServices| - i ==>
            var shown := w.echo(IpServices[i + |v| - 1]);
            (ConfirmFrom(accepts, w, i) ==> shown.Some? && accepts(shown.value)) && (!ConfirmFrom(accepts, w, i) ==> shown.None?))
      && (|v| > |IpServices| - i ==>
            (ConfirmFrom(accepts, w, i) <==> w.homeUrl.Some? && Contains(Lower(w.homeUrl.value), "ozon")))
    decreases |IpServices| - i
  {
    if i < |IpServices| {
      var shown := w.echo(IpServices[i]);
      StepFrom(accepts, w, i);
      if shown.Some? && !accepts(shown.value) {
        StopDecides(accepts, w, i + 1);
        assert i + |VisitsFrom(accepts, w, i)| - 1 == i + 1 + |VisitsFrom(accepts, w, i + 1)| - 1;
      }
    }
  }

  /** The same facts for the whole check, as `verify_proxy_working` behaves. */
  lemma ProxyCheck(accepts: string -> bool, w: ProxyWorld)
    ensures var v := VisitsFrom(accepts, w, 0);
      && 1 <= |v| <= |IpServices| + 1
      && (if |v| <= |IpServices| then v == IpServices[..|v|] else v == IpServices + [HomePage])
      && (forall j :: 0 <= j < |v| - 1 && j < |IpServices| ==>
            w.echo(IpServices[j]).Some? && !accepts(w.echo(IpServices[j]).value))
      && (|v| <= |IpServices| ==>
            var shown := w.echo(IpServices[|v| - 1]);
            (ConfirmFrom(accepts, w, 0) ==> shown.Some? && accepts(shown.value)) && (!ConfirmFrom(accepts, w, 0) ==> shown.None?))
      && (|v| > |IpServices| ==>
            (ConfirmFrom(accepts, w, 0) <==> w.homeUrl.Some? && Contains(Lower(w.homeUrl.value), "ozon")))
  {
    VisitsShape(accepts, w, 0);
    RejectedBefore(accepts, w, 0);
    StopDecides(accepts, w, 0);
    assert IpServices[0..] == IpServices;
  }

  /**
   * The test on one service's body text: stripped, shaped like an address,
   * and then the address test `t`. As written, the text is accepted exactly
   * when it strips to four digit groups joined by dots in which "85.142"
   * occurs; as intended, exactly when it strips to an address 85.142.c.d.
   */
  method CheckEcho(t: AddressTest, text: string) returns (accepted: bool)
    ensures accepted == AcceptsBy(t, text)
    ensures t == Substring ==> (accepted <==>
      exists a, b, c, d :: IsGroup(a) && IsGroup(b) && IsGroup(c) && IsGroup(d) &&
        Strip(text) == Dotted(a, b, c, d) && Contains(Dotted(a, b, c, d), ProxyPrefix))
    ensures t == Range ==> (accepted <==>
      exists c, d :: IsGroup(c) && IsGroup(d) && Strip(text) == Dotted("85", "142", c, d))
  {
    SubstringMeaning(text);
    RangeMeaning(text);
    var ip := Strip(text);
    accepted := false;
    if ip != "" && IsDottedQuad(ip) {
      match t
      case Substring => accepted := Contains(ip, ProxyPrefix);
      case Range => accepted := InProxyRange(ip);
    }
  }

  /**
   * `verify_proxy_working`: returns whether the proxy is confirmed and the
   * pages loaded, as `Confirmed` and `Visits` describe them (see `ProxyCheck`).
   */
  method VerifyProxyWorking(t: AddressTest, w: ProxyWorld) returns (ok: bool, visited: seq<string>)
    ensures ok == Confirmed(t, w)
    ensures visited == Visits(t, w)
  {
    ghost var accepts := Test(t);
    visited := [];
    var i := 0;
    while i < |IpServices|
      invariant 0 <= i <= |IpServices|
      invariant Confirmed(t, w) == ConfirmFrom(accepts, w, i)
      invariant visited == IpServices[..i]
      invariant Visits(t, w) == visited + VisitsFrom(accepts, w, i)
    {
      var verdict := TryService(t, w, i);
      visited := IpServices[..i + 1];
      if verdict.Some? {
        ShiftOne(Visits(t, w), IpServices, i, VisitsFrom(accepts, w, i), VisitsFrom(accepts, w, i + 1), true);
        return verdict.value, visited;
      }
      ShiftOne(Visits(t, w), IpServices, i, VisitsFrom(accepts, w, i), VisitsFrom(accepts, w, i + 1), false);
      i := i + 1;
    }
    EndFrom(accepts, w);
    visited := visited + [HomePage];
    if w.homeUrl.None? {
      return false, visited;
    }
    ok := Contains(Lower(w.homeUrl.value), "ozon");
  }

  /** Moving element `i` of `s` from what is still to come to what has been seen. */
  lemma ShiftOne<T>(all: seq<T>, s: seq<T>, i: nat, rest: seq<T>, after: seq<T>, last: bool)
    requires i < |s| && all == s[..i] + rest
    requires last ==> rest == [s[i]]
    requires !last ==> rest == [s[i]] + after
    ensures last ==> all == s[..i + 1]
    ensures !last ==> all == s[..i + 1] + after
  {
    assert s[..i + 1] == s[..i] + [s[i]];
  }

  /**
   * One pass of the loop over the services: load service `i` and test what it
   * shows. `Some(verdict)` ends the check with that verdict; `None` passes on
   * to the next service.
   */
  method TryService(t: AddressTest, w: ProxyWorld, i: nat) returns (verdict: Option<bool>)
    requires i < |IpServices|
    ensures verdict.Some? ==> VisitsFrom(Test(t), w, i) == [IpServices[i]] && ConfirmFrom(Test(t), w, i) == verdict.value
    ensures verdict.None? ==> VisitsFrom(Test(t), w, i) == [IpServices[i]] + VisitsFrom(Test(t), w, i + 1) && ConfirmFrom(Test(t), w, i) == ConfirmFrom(Test(t), w, i + 1)
  {
    var shown := w.echo(IpServices[i]);
    StepFrom(Test(t), w, i);
    if shown.None? {
      // The exception handler around the whole check reports failure.
      return Some(false);
    }
    var accepted := CheckEcho(t, shown.value);
    if accepted {
      return Some(true);
    }
    // An address outside the expected range, or no address: the next service is tried.
    verdict := None;
  }

  /** After the last service only the home page is loaded, and its location decides. */
  lemma EndFrom(accepts: string -> bool, w: ProxyWorld)
    ensures VisitsFrom(accepts, w, |IpServices|) == [HomePage]
    ensures ConfirmFrom(accepts, w, |IpServices|) == (w.homeUrl.Some? && Contains(Lower(w.homeUrl.value), "ozon"))
  {
  }
}
