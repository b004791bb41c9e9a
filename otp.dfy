/**
 * OTP acquisition from the account's mailbox (`extract_otp_from_email`).
 *
 * A message body yields a code through four patterns tried in order: a run
 * of six digits, a run of four digits, the digits after the Cyrillic keyword
 * "код", the digits after "code". One attempt opens a mailbox session,
 * searches with broadening criteria, fetches the latest candidate and walks
 * its parts; the retry loop makes at most `maxRetries` attempts and sleeps
 * between failed ones. The mailbox is a given function from attempt number to
 * what the server does during that attempt.
 */
module Otp {
  import opened Options
  import opened Text

  // ---------------------------------------------------------------------------
  // The pattern tiers applied to one body
  // ---------------------------------------------------------------------------

  /** `n` digits start at index `i` of `s`. */
  predicate RunAt(s: string, i: int, n: nat) {
    0 <= i && i + n <= |s| && forall k :: i <= k < i + n ==> IsDigit(s[k])
  }

  /** `re.search(r'(\d{n})', s)` over the starts at or after `from`: the leftmost start of `n` digits. */
  function FindRun(s: string, n: nat, from: nat): (r: Option<nat>)
    ensures r.Some? ==> from <= r.value && RunAt(s, r.value, n)
    ensures forall j :: from <= j && (r.None? || j < r.value) ==> !RunAt(s, j, n)
    decreases |s| - from
  {
    if from + n > |s| then None
    else if RunAt(s, from, n) then Some(from)
    else FindRun(s, n, from + 1)
  }

  /** The keyword `kw`, written in small letters, matches at `i` under `re.IGNORECASE`. */
  predicate KeywordAt(s: string, kw: string, i: nat) {
    i + |kw| <= |s| && forall k :: 0 <= k < |kw| ==> Fold(s[i + k]) == kw[k]
  }

  /**
   * The pattern `kw\D*(\d+)` matches at `i`: `\D*` can only stop at the first
   * digit after the keyword, so a match needs the keyword and some later digit.
   */
  predicate KeywordMatchAt(s: string, kw: string, i: nat) {
    KeywordAt(s, kw, i) && FindRun(s, 1, i + |kw|).Some?
  }

  /** The end of the longest run of digits that starts at `k`. */
  function RunEnd(s: string, k: nat): (e: nat)
    requires k <= |s|
    ensures k <= e <= |s|
    ensures forall j :: k <= j < e ==> IsDigit(s[j])
    ensures e == |s| || !IsDigit(s[e])
    decreases |s| - k
  {
    if k < |s| && IsDigit(s[k]) then RunEnd(s, k + 1) else k
  }

  /** Group 1 of `kw\D*(\d+)` matched at `i`: the greedy `\d+` at the first digit after the keyword. */
  function Captured(s: string, kw: string, i: nat): string
    requires KeywordMatchAt(s, kw, i)
  {
    var k := FindRun(s, 1, i + |kw|).value;
    s[k..RunEnd(s, k)]
  }

  /** `re.search(kw + r'\D*(\d+)', s, re.IGNORECASE)` over the starts at or after `from`. */
  function FindKeyword(s: string, kw: string, from: nat): (r: Option<nat>)
    ensures r.Some? ==> from <= r.value && KeywordMatchAt(s, kw, r.value)
    ensures forall j: nat :: from <= j && (r.None? || j < r.value) ==> !KeywordMatchAt(s, kw, j)
    decreases |s| - from
  {
    if from + |kw| > |s| then None
    else if KeywordMatchAt(s, kw, from) then Some(from)
    else FindKeyword(s, kw, from + 1)
  }

  /** The Russian keyword of the third pattern, "код". */
  const KodKeyword: string := "\U{43a}\U{43e}\U{434}"
  /** The English keyword of the fourth pattern. */
  const CodeKeyword: string := "code"

  /** The code one body yields: the first of the four patterns that matches. */
  function BodyCode(body: string): Option<string> {
    match FindRun(body, 6, 0)
    case Some(i) => Some(body[i..i + 6])
    case None =>
      match FindRun(body, 4, 0)
      case Some(i) => Some(body[i..i + 4])
      case None =>
        match FindKeyword(body, KodKeyword, 0)
        case Some(i) => Some(Captured(body, KodKeyword, i))
        case None =>
          match FindKeyword(body, CodeKeyword, 0)
          case Some(i) => Some(Captured(body, CodeKeyword, i))
          case None => None
  }

  /** A run of six digits is also a run of four. */
  lemma SixHoldsFour(s: string, i: int)
    requires RunAt(s, i, 6)
    ensures RunAt(s, i, 4)
  {
  }

  /** Without four consecutive digits anywhere, a captured keyword code has one to three digits. */
  lemma {:induction false} CapturedIsShort(s: string, kw: string, i: nat)
    requires KeywordMatchAt(s, kw, i)
    requires forall j :: !RunAt(s, j, 4)
    ensures 1 <= |Captured(s, kw, i)| <= 3 && IsDigits(Captured(s, kw, i))
  {
    var k := FindRun(s, 1, i + |kw|).value;
    var e := RunEnd(s, k);
    assert RunAt(s, k, 1);
    assert IsDigit(s[k]);
    if e - k >= 4 {
      assert RunAt(s, k, 4);
    }
  }

  /**
   * The length of the code tells which tier produced it: six digits exactly
   * when the body holds a run of six, four exactly when it holds a run of four
   * but none of six, and one to three only when no four digits stand together.
   * The keyword tiers are therefore never reached while a digit-run tier matches.
   */
  lemma {:induction false} TierOrder(body: string)
    ensures var r := BodyCode(body);
      && ((exists i :: RunAt(body, i, 6)) ==> r.Some? && |r.value| == 6)
      && ((!exists i :: RunAt(body, i, 6)) && (exists i :: RunAt(body, i, 4)) ==> r.Some? && |r.value| == 4)
      && ((!exists i :: RunAt(body, i, 4)) && r.Some? ==> 1 <= |r.value| <= 3)
  {
    var r := BodyCode(body);
    if exists i :: RunAt(body, i, 6) {
      var i :| RunAt(body, i, 6);
      SixHoldsFour(body, i);
      assert FindRun(body, 6, 0).Some?;
    } else if exists i :: RunAt(body, i, 4) {
      var i :| RunAt(body, i, 4);
      assert FindRun(body, 4, 0).Some?;
    } else {
      assert FindRun(body, 6, 0).None?;
      assert FindRun(body, 4, 0).None?;
      match FindKeyword(body, KodKeyword, 0)
      case Some(i) => CapturedIsShort(body, KodKeyword, i);
      case None =>
        match FindKeyword(body, CodeKeyword, 0)
        case Some(i) => CapturedIsShort(body, CodeKeyword, i);
        case None =>
    }
  }

  /** When a run of six digits exists, the code is the leftmost such run. */
  lemma LeftmostSix(body: string, i: nat)
    requires RunAt(body, i, 6)
    requires forall j :: 0 <= j < i ==> !RunAt(body, j, 6)
    ensures BodyCode(body) == Some(body[i..i + 6])
  {
    assert FindRun(body, 6, 0) == Some(i);
  }

  /** With no run of six, the leftmost run of four is the code. */
  lemma LeftmostFour(body: string, i: nat)
    requires forall j :: !RunAt(body, j, 6)
    requires RunAt(body, i, 4)
    requires forall j :: 0 <= j < i ==> !RunAt(body, j, 4)
    ensures BodyCode(body) == Some(body[i..i + 4])
  {
    assert FindRun(body, 6, 0).None?;
    assert FindRun(body, 4, 0) == Some(i);
  }

  /**
   * With no four digits standing together, the keyword tiers decide: the
   * leftmost match of "код" gives the code; with none, the leftmost match of
   * "code" gives it; with neither keyword matching, the body yields no code.
   */
  lemma LeftmostKeyword(body: string, i: nat)
    requires forall j :: !RunAt(body, j, 4)
    ensures KeywordMatchAt(body, KodKeyword, i) && (forall j: nat :: j < i ==> !KeywordMatchAt(body, KodKeyword, j)) ==>
      BodyCode(body) == Some(Captured(body, KodKeyword, i))
    ensures (forall j: nat :: !KeywordMatchAt(body, KodKeyword, j)) && KeywordMatchAt(body, CodeKeyword, i) &&
            (forall j: nat :: j < i ==> !KeywordMatchAt(body, CodeKeyword, j)) ==>
      BodyCode(body) == Some(Captured(body, CodeKeyword, i))
    ensures (forall j: nat :: !KeywordMatchAt(body, KodKeyword, j) && !KeywordMatchAt(body, CodeKeyword, j)) ==>
      BodyCode(body) == None
  {
    if FindRun(body, 6, 0).Some? {
      SixHoldsFour(body, FindRun(body, 6, 0).value);
    }
    assert FindRun(body, 4, 0).None?;
  }

  /** Every code is a non-empty string of digits taken from the body. */
  lemma {:induction false} BodyCodeIsDigits(body: string)
    ensures var r := BodyCode(body);
      r.Some? ==> |r.value| >= 1 && IsDigits(r.value) && Contains(body, r.value)
  {
    match FindRun(body, 6, 0)
    case Some(i) => assert OccursAt(body, body[i..i + 6], i);
    case None =>
      match FindRun(body, 4, 0)
      case Some(i) => assert OccursAt(body, body[i..i + 4], i);
      case None =>
        match FindKeyword(body, KodKeyword, 0)
        case Some(i) => CapturedFacts(body, KodKeyword, i);
        case None =>
          match FindKeyword(body, CodeKeyword, 0)
          case Some(i) => CapturedFacts(body, CodeKeyword, i);
          case None =>
  }

  lemma CapturedFacts(s: string, kw: string, i: nat)
    requires KeywordMatchAt(s, kw, i)
    ensures var c := Captured(s, kw, i); |c| >= 1 && IsDigits(c) && Contains(s, c)
  {
    var k := FindRun(s, 1, i + |kw|).value;
    assert RunAt(s, k, 1);
    assert OccursAt(s, s[k..RunEnd(s, k)], k);
  }

  // ---------------------------------------------------------------------------
  // The parts of one message
  // ---------------------------------------------------------------------------

  /** One part of `email_message.walk()`: its content type and its decoded payload, if it has one. */
  datatype Part = Part(contentType: string, payload: Option<string>)

  predicate IsText(p: Part) {
    p.contentType == "text/plain" || p.contentType == "text/html"
  }

  /** What one part yields: only text parts with a payload are searched. */
  function PartCode(p: Part): Option<string> {
    if IsText(p) && p.payload.Some? then BodyCode(p.payload.value) else None
  }

  /** The code of a message: that of the first part that yields one, in walk order. */
  function MessageCode(parts: seq<Part>): (r: Option<string>)
    ensures r.Some? ==> exists i :: 0 <= i < |parts| && PartCode(parts[i]) == r &&
                                    forall j :: 0 <= j < i ==> PartCode(parts[j]).None?
    ensures r.None? ==> forall i :: 0 <= i < |parts| ==> PartCode(parts[i]).None?
  {
    if parts == [] then None
    else if PartCode(parts[0]).Some? then PartCode(parts[0])
    else
      var r := MessageCode(parts[1..]);
      assert forall i :: 1 <= i < |parts| ==> parts[i] == parts[1..][i - 1];
      r
  }

  // ---------------------------------------------------------------------------
  // One attempt against the mailbox
  // ---------------------------------------------------------------------------

  /** An IMAP message sequence number. */
  type MailId = nat

  /** The three search criteria, in the order they are tried. */
  datatype Query = UnseenFromSender | AnyFromSender | SubjectKeywords

  /** The criteria strings sent to the server. */
  function Criteria(q: Query): string {
    match q
    case UnseenFromSender => "(FROM \"ozon.ru\" UNSEEN)"
    case AnyFromSender => "(FROM \"ozon.ru\")"
    case SubjectKeywords => "(SUBJECT \"" + KodKeyword + "\" OR SUBJECT \"code\" OR SUBJECT \"ozon\")"
  }

  const SearchOrder: seq<Query> := [UnseenFromSender, AnyFromSender, SubjectKeywords]

  /** The server's answer to a search: the matching ids in ascending order, or an error. */
  datatype Reply = Ids(ids: seq<MailId>) | Rejected

  /**
   * What the server does in one session that logged in: its answer to each
   * search, the messages a fetch can return (a missing id makes the fetch
   * fail), and whether closing and logging out succeed.
   */
  datatype Session = Session(unseen: Reply, fromSender: Reply, bySubject: Reply,
                             messages: map<MailId, seq<Part>>, closes: bool)

  function Answer(s: Session, q: Query): Reply {
    match q
    case UnseenFromSender => s.unseen
    case AnyFromSender => s.fromSender
    case SubjectKeywords => s.bySubject
  }

  /** One attempt: connecting, logging in or selecting the inbox fails, or a session opens. */
  datatype Attempt = Unreachable | Opened(session: Session)

  /** How an attempt ends: with a code, without one, or with a mailbox error. */
  datatype Status = Code(otp: string) | NoCode | MailError

  /**
   * How `imaplib` turns the arguments of a command into bytes: as ASCII, its
   * default, which the script never changes, or as UTF-8, once
   * `enable("UTF8=ACCEPT")` has been called.
   */
  datatype Encoding = Ascii | Utf8

  /** The script's own setting: it never enables UTF-8. */
  const ScriptEncoding: Encoding := Ascii

  /** Whether a command argument can be sent: under ASCII, a character above 127 raises `UnicodeEncodeError`. */
  predicate Sendable(enc: Encoding, arg: string) {
    enc == Utf8 || forall i :: 0 <= i < |arg| ==> arg[i] as int < 128
  }

  /** The search as sent: it raises before reaching the server when its criteria cannot be encoded. */
  function Search(s: Session, enc: Encoding, q: Query): Reply {
    if Sendable(enc, Criteria(q)) then Answer(s, q) else Rejected
  }

  /** The reply that ends the search: the first that is not an empty list of ids. */
  function Candidates(s: Session, enc: Encoding): Reply {
    if Search(s, enc, UnseenFromSender) != Ids([]) then Search(s, enc, UnseenFromSender)
    else if Search(s, enc, AnyFromSender) != Ids([]) then Search(s, enc, AnyFromSender)
    else Search(s, enc, SubjectKeywords)
  }

  /** The outcome of one attempt. */
  function AttemptStatus(a: Attempt, enc: Encoding): Status {
    match a
    case Unreachable => MailError
    case Opened(s) =>
      match Candidates(s, enc)
      case Rejected => MailError
      case Ids(ids) => ReadStatus(s, ids)
  }

  /** How an attempt ends once the search settled on `ids`: the latest message is fetched and walked. */
  function ReadStatus(s: Session, ids: seq<MailId>): Status {
    if !s.closes then MailError
    else if ids == [] then NoCode
    else if ids[|ids| - 1] !in s.messages then MailError
    else match MessageCode(s.messages[ids[|ids| - 1]])
      case Some(c) => Code(c)
      case None => NoCode
  }

  /** The first two criteria are plain ASCII; the third holds the Cyrillic keyword, which ASCII cannot encode. */
  lemma CriteriaEncoding()
    ensures Sendable(Ascii, Criteria(UnseenFromSender)) && Sendable(Ascii, Criteria(AnyFromSender))
    ensures !Sendable(Ascii, Criteria(SubjectKeywords))
    ensures forall q :: Sendable(Utf8, Criteria(q))
  {
    var c := Criteria(SubjectKeywords);
    assert c[10] == '\U{43a}';
  }

  /**
   * As written, the third search never reaches the server: once the first
   * two come back empty, the attempt ends in an error whatever the mailbox
   * holds, so no code is ever read from a message found by subject.
   */
  lemma SubjectSearchRaises(s: Session)
    requires s.unseen == Ids([]) && s.fromSender == Ids([])
    ensures AttemptStatus(Opened(s), ScriptEncoding) == MailError
  {
    CriteriaEncoding();
  }

  /**
   * With UTF-8 enabled the subject search is sent, as intended: its last id is
   * fetched and the attempt yields that message's code.
   */
  lemma SubjectSearchAnswered(s: Session)
    requires s.unseen == Ids([]) && s.fromSender == Ids([]) && s.closes
    requires s.bySubject.Ids? && s.bySubject.ids != [] && s.bySubject.ids[|s.bySubject.ids| - 1] in s.messages
    ensures var code := MessageCode(s.messages[s.bySubject.ids[|s.bySubject.ids| - 1]]);
      AttemptStatus(Opened(s), Utf8) == if code.Some? then Code(code.value) else NoCode
  {
    assert Candidates(s, Utf8) == s.bySubject;
  }

  /**
   * One pass of the body of the retry loop, with command arguments encoded
   * as `enc`. `issued` lists the searches that reached the server, `fetched`
   * the id fetched.
   */
  method RunAttempt(a: Attempt, enc: Encoding) returns (issued: seq<Query>, fetched: Option<MailId>, status: Status)
    ensures status == AttemptStatus(a, enc)
    ensures a.Unreachable? ==> issued == [] && fetched == None
    ensures a.Opened? ==> 1 <= |issued| <= 3 && issued == SearchOrder[..|issued|]
    ensures a.Opened? ==> forall k :: 0 <= k < |issued| - 1 ==> Answer(a.session, issued[k]) == Ids([])
    ensures a.Opened? && |issued| < 3 && Answer(a.session, issued[|issued| - 1]) == Ids([]) ==>
      |issued| == 2 && enc == Ascii && status == MailError
    ensures a.Opened? && |issued| == 3 ==> enc == Utf8
    ensures fetched.Some? <==>
      a.Opened? && Answer(a.session, issued[|issued| - 1]).Ids? && Answer(a.session, issued[|issued| - 1]).ids != []
    ensures fetched.Some? ==> var ids := Answer(a.session, issued[|issued| - 1]).ids; fetched.value == ids[|ids| - 1]
  {
    if a.Unreachable? {
      return [], None, MailError;
    }
    var reply;
    issued, reply := SearchMail(a.session, enc);
    if reply.Rejected? {
      return issued, None, MailError;
    }
    fetched, status := ReadLatest(a.session, reply.ids);
  }

  /**
   * The three searches of an attempt: each broader one is sent only when the
   * one before came back empty. `issued` lists the searches that reached the
   * server; `reply` is the answer the attempt goes on with, `Rejected` when a
   * search raised.
   */
  method SearchMail(s: Session, enc: Encoding) returns (issued: seq<Query>, reply: Reply)
    ensures reply == Candidates(s, enc)
    ensures 1 <= |issued| <= 3 && issued == SearchOrder[..|issued|]
    ensures forall k :: 0 <= k < |issued| - 1 ==> Answer(s, issued[k]) == Ids([])
    ensures |issued| < 3 && Answer(s, issued[|issued| - 1]) == Ids([]) ==> |issued| == 2 && enc == Ascii && reply == Rejected
    ensures |issued| == 3 ==> enc == Utf8
    ensures reply.Ids? ==> reply == Answer(s, issued[|issued| - 1])
    ensures reply.Rejected? ==> Answer(s, issued[|issued| - 1]) in {Rejected, Ids([])}
  {
    CriteriaEncoding();
    reply := Answer(s, UnseenFromSender);
    issued := [UnseenFromSender];
    if reply.Rejected? {
      return;
    }
    if reply.ids == [] {
      reply := Answer(s, AnyFromSender);
      issued := issued + [AnyFromSender];
      if reply.Rejected? {
        return;
      }
      if reply.ids == [] {
        if !Sendable(enc, Criteria(SubjectKeywords)) {
          // Encoding the criteria raises before anything is sent; the attempt's handler catches it.
          return issued, Rejected;
        }
        reply := Answer(s, SubjectKeywords);
        issued := issued + [SubjectKeywords];
      }
    }
  }

  /**
   * The rest of an attempt once the search settled on `ids`: the latest id is
   * fetched, the message's parts are walked in order, and the session is
   * closed.
   */
  method ReadLatest(s: Session, ids: seq<MailId>) returns (fetched: Option<MailId>, status: Status)
    ensures status == ReadStatus(s, ids)
    ensures fetched == if ids == [] then None else Some(ids[|ids| - 1])
  {
    fetched := None;
    if ids != [] {
      var latest := ids[|ids| - 1];
      fetched := Some(latest);
      if latest !in s.messages {
        return fetched, MailError;
      }
      var parts := s.messages[latest];
      var i := 0;
      while i < |parts|
        invariant 0 <= i <= |parts|
        invariant s.closes ==> MessageCode(parts) == MessageCode(parts[i..])
      {
        var part := parts[i];
        if IsText(part) && part.payload.Some? {
          var code := BodyCode(part.payload.value);
          if code.Some? {
            if s.closes {
              return fetched, Code(code.value);
            }
            // Closing raised inside the part's handler, which swallows it; the walk goes on.
          }
        }
        assert parts[i..][1..] == parts[i + 1..];
        i := i + 1;
      }
    }
    // The close after the walk raises when the session cannot be closed.
    status := if s.closes then NoCode else MailError;
  }

  // ---------------------------------------------------------------------------
  // The retry loop
  // ---------------------------------------------------------------------------

  /** The result of the retry loop: the code, how many attempts were made, the sleeps between them. */
  datatype Acquisition = Acquisition(otp: Option<string>, attempts: nat, sleeps: seq<int>)

  /** The retry loop from attempt `k` on; a sleep follows every failed attempt but the last allowed one. */
  function AcquireFrom(status: nat -> Status, maxRetries: int, interval: int, k: nat): Acquisition
    decreases maxRetries - k
  {
    if k >= maxRetries then Acquisition(None, k, [])
    else match status(k)
      case Code(c) => Acquisition(Some(c), k + 1, [])
      case _ =>
        var rest := AcquireFrom(status, maxRetries, interval, k + 1);
        Acquisition(rest.otp, rest.attempts, (if k < maxRetries - 1 then [interval] else []) + rest.sleeps)
  }

  /** The retry loop over the statuses its attempts end with. */
  function Retry(status: nat -> Status, maxRetries: int, interval: int): Acquisition {
    AcquireFrom(status, maxRetries, interval, 0)
  }

  /** The status of each attempt on a mailbox, numbered from 0. */
  function StatusOf(mailbox: nat -> Attempt, enc: Encoding): nat -> Status {
    (k: nat) => AttemptStatus(mailbox(k), enc)
  }

  /** `extract_otp_from_email` on a mailbox: the retry loop over its attempts. */
  function Acquire(mailbox: nat -> Attempt, enc: Encoding, maxRetries: int, interval: int): Acquisition {
    Retry(StatusOf(mailbox, enc), maxRetries, interval)
  }

  predicate Failed(status: nat -> Status, k: nat) {
    !status(k).Code?
  }

  /** How many attempts the loop makes from attempt `k` on, and where a returned code comes from. */
  lemma {:induction false} AcquireFromBounds(status: nat -> Status, maxRetries: int, interval: int, k: nat)
    requires k <= maxRetries
    ensures var r := AcquireFrom(status, maxRetries, interval, k);
      && k <= r.attempts <= maxRetries
      && (r.otp.Some? ==> r.attempts > k && status(r.attempts - 1) == Code(r.otp.value))
      && (r.otp.None? ==> r.attempts == maxRetries)
    decreases maxRetries - k
  {
    if k < maxRetries && Failed(status, k) {
      AcquireFromBounds(status, maxRetries, interval, k + 1);
      var r := AcquireFrom(status, maxRetries, interval, k);
      var rest := AcquireFrom(status, maxRetries, interval, k + 1);
      assert r.otp == rest.otp && r.attempts == rest.attempts;
    }
  }

  /** Every attempt from `k` on before the last one made failed. */
  lemma {:induction false} AcquireFromFailures(status: nat -> Status, maxRetries: int, interval: int, k: nat)
    requires k <= maxRetries
    ensures var r := AcquireFrom(status, maxRetries, interval, k);
      && (forall j :: k <= j < r.attempts - 1 ==> Failed(status, j))
      && (r.otp.None? ==> forall j :: k <= j < r.attempts ==> Failed(status, j))
    decreases maxRetries - k
  {
    if k < maxRetries && Failed(status, k) {
      AcquireFromFailures(status, maxRetries, interval, k + 1);
      var r := AcquireFrom(status, maxRetries, interval, k);
      var rest := AcquireFrom(status, maxRetries, interval, k + 1);
      assert r.otp == rest.otp && r.attempts == rest.attempts;
    }
  }

  lemma AcquireFromFacts(status: nat -> Status, maxRetries: int, interval: int, k: nat)
    requires k <= maxRetries
    ensures var r := AcquireFrom(status, maxRetries, interval, k);
      && k <= r.attempts <= maxRetries
      && (forall j :: k <= j < r.attempts - 1 ==> Failed(status, j))
      && (r.otp.Some? ==> r.attempts > k && status(r.attempts - 1) == Code(r.otp.value))
      && (r.otp.None? ==> r.attempts == maxRetries && forall j :: k <= j < maxRetries ==> Failed(status, j))
  {
    AcquireFromBounds(status, maxRetries, interval, k);
    AcquireFromFailures(status, maxRetries, interval, k);
  }

  lemma {:induction false} AcquireFromSleeps(status: nat -> Status, maxRetries: int, interval: int, k: nat)
    requires k <= maxRetries
    ensures var r := AcquireFrom(status, maxRetries, interval, k);
      r.sleeps == seq(if r.attempts > k then r.attempts - 1 - k else 0, _ => interval)
    decreases maxRetries - k
  {
    var r := AcquireFrom(status, maxRetries, interval, k);
    if k < maxRetries && Failed(status, k) {
      AcquireFromSleeps(status, maxRetries, interval, k + 1);
      AcquireFromFacts(status, maxRetries, interval, k + 1);
      var rest := AcquireFrom(status, maxRetries, interval, k + 1);
      assert r.attempts == rest.attempts && rest.attempts > k;
      if k < maxRetries - 1 {
        assert rest.attempts > k + 1;
        assert r.sleeps == [interval] + rest.sleeps;
      } else {
        assert rest.attempts == k + 1 && rest.sleeps == [];
      }
    }
  }

  /**
   * The retry loop makes at most `maxRetries` attempts (none when it is not
   * positive); it returns no code only when every one of them failed, a
   * mailbox error counting as a failed attempt; a returned code is the one the
   * last attempt found, every earlier attempt having failed; and it sleeps
   * `interval` once between consecutive attempts, never after the last.
   */
  lemma AcquireSpec(status: nat -> Status, maxRetries: int, interval: int)
    ensures var r := Retry(status, maxRetries, interval);
      && r.attempts <= (if maxRetries > 0 then maxRetries else 0)
      && (forall j :: 0 <= j < r.attempts - 1 ==> Failed(status, j))
      && (r.otp.Some? ==> r.attempts >= 1 && status(r.attempts - 1) == Code(r.otp.value))
      && (r.otp.None? <==> r.attempts == (if maxRetries > 0 then maxRetries else 0) &&
                           forall j :: 0 <= j < r.attempts ==> Failed(status, j))
      && r.sleeps == seq(if r.attempts > 0 then r.attempts - 1 else 0, _ => interval)
  {
    if maxRetries > 0 {
      AcquireFromFacts(status, maxRetries, interval, 0);
      AcquireFromSleeps(status, maxRetries, interval, 0);
      var r := Retry(status, maxRetries, interval);
      if r.otp.Some? && r.attempts == maxRetries {
        assert !Failed(status, r.attempts - 1);
      }
    }
  }

  /** Attempts that yield the code `c` on attempt `n` after `n - 1` failures: `n` attempts, `n - 1` sleeps. */
  lemma CodeOnAttempt(status: nat -> Status, maxRetries: int, interval: int, n: nat, c: string)
    requires 1 <= n <= maxRetries
    requires forall k :: 0 <= k < n - 1 ==> Failed(status, k)
    requires status(n - 1) == Code(c)
    ensures Retry(status, maxRetries, interval) == Acquisition(Some(c), n, seq(n - 1, _ => interval))
  {
    FoundFrom(status, maxRetries, interval, n, c, 0);
  }

  lemma {:induction false} FoundFrom(status: nat -> Status, maxRetries: int, interval: int, n: nat, c: string, k: nat)
    requires k < n <= maxRetries
    requires forall j :: k <= j < n - 1 ==> Failed(status, j)
    requires status(n - 1) == Code(c)
    ensures AcquireFrom(status, maxRetries, interval, k) == Acquisition(Some(c), n, seq(n - 1 - k, _ => interval))
    decreases n - k
  {
    if k < n - 1 {
      assert Failed(status, k);
      FoundFrom(status, maxRetries, interval, n, c, k + 1);
      var rest := AcquireFrom(status, maxRetries, interval, k + 1);
      assert AcquireFrom(status, maxRetries, interval, k) == Acquisition(rest.otp, rest.attempts, [interval] + rest.sleeps);
      assert [interval] + seq(n - 1 - (k + 1), _ => interval) == seq(n - 1 - k, _ => interval);
    }
  }

  /** Attempts that never yield a code: exactly `maxRetries` attempts and no code. */
  lemma NeverFound(status: nat -> Status, maxRetries: nat, interval: int)
    requires maxRetries >= 1
    requires forall k :: 0 <= k < maxRetries ==> Failed(status, k)
    ensures Retry(status, maxRetries, interval) == Acquisition(None, maxRetries, seq(maxRetries - 1, _ => interval))
  {
    NothingFrom(status, maxRetries, interval, 0);
    AcquireFromSleeps(status, maxRetries, interval, 0);
  }

  lemma {:induction false} NothingFrom(status: nat -> Status, maxRetries: nat, interval: int, k: nat)
    requires k <= maxRetries
    requires forall j :: k <= j < maxRetries ==> Failed(status, j)
    ensures AcquireFrom(status, maxRetries, interval, k).otp.None?
    ensures AcquireFrom(status, maxRetries, interval, k).attempts == maxRetries
    decreases maxRetries - k
  {
    if k < maxRetries {
      assert Failed(status, k);
      NothingFrom(status, maxRetries, interval, k + 1);
    }
  }

  /** Every acquired code is a non-empty string of digits, so `if not otp_code` fails only without one. */
  lemma AcquiredCodeIsDigits(mailbox: nat -> Attempt, enc: Encoding, maxRetries: int, interval: int)
    ensures var r := Acquire(mailbox, enc, maxRetries, interval);
      r.otp.Some? ==> |r.otp.value| >= 1 && IsDigits(r.otp.value)
  {
    AcquireSpec(StatusOf(mailbox, enc), maxRetries, interval);
    var r := Acquire(mailbox, enc, maxRetries, interval);
    if r.otp.Some? {
      assert AttemptStatus(mailbox(r.attempts - 1), enc) == StatusOf(mailbox, enc)(r.attempts - 1);
      var s := mailbox(r.attempts - 1).session;
      var ids := Candidates(s, enc).ids;
      var parts := s.messages[ids[|ids| - 1]];
      var i :| 0 <= i < |parts| && PartCode(parts[i]) == r.otp;
      BodyCodeIsDigits(parts[i].payload.value);
    }
  }

  /**
   * `extract_otp_from_email`: up to `maxRetries` attempts, each a fresh
   * session; an attempt that ends in an error is caught and counted like one
   * that found nothing.
   */
  method ExtractOtp(mailbox: nat -> Attempt, enc: Encoding, maxRetries: int, retryInterval: int)
    returns (otp: Option<string>, attempts: nat, sleeps: seq<int>)
    ensures Acquisition(otp, attempts, sleeps) == Acquire(mailbox, enc, maxRetries, retryInterval)
  {
    otp, attempts, sleeps := None, 0, [];
    ghost var statuses := StatusOf(mailbox, enc);
    var attempt: nat := 0;
    while attempt < maxRetries
      invariant attempts == attempt && otp.None?
      invariant attempt == 0 || attempt <= maxRetries
      invariant var rest := AcquireFrom(statuses, maxRetries, retryInterval, attempt);
        Acquire(mailbox, enc, maxRetries, retryInterval) == Acquisition(rest.otp, rest.attempts, sleeps + rest.sleeps)
      decreases maxRetries - attempt
    {
      var issued, fetched, status := RunAttempt(mailbox(attempt), enc);
      assert statuses(attempt) == status;
      attempts := attempt + 1;
      if status.Code? {
        otp := Some(status.otp);
        return;
      }
      var rest := AcquireFrom(statuses, maxRetries, retryInterval, attempt + 1);
      if attempt < maxRetries - 1 {
        assert sleeps + ([retryInterval] + rest.sleeps) == (sleeps + [retryInterval]) + rest.sleeps;
        sleeps := sleeps + [retryInterval];
      } else {
        assert [] + rest.sleeps == rest.sleeps;
      }
      attempt := attempt + 1;
    }
    assert sleeps + [] == sleeps;
  }
}
