# Ozon account login batch, modelled in Dafny

`ozon_login.py` logs a list of Ozon shop accounts in through a proxied
Chrome browser and stores each account's session cookies in an Excel sheet.
The code sent to the account's mailbox completes each login. This project
models the decision logic inside that automation and proves what it
guarantees. The browser, the mail server and the sheet file become given
inputs.

- `Text` (text.dfy): the string operations the script relies on. These are
  `str.strip()` with Python's whitespace set, `str.lower()` as far as the
  site tests need it, the case folding
  of `re.IGNORECASE` for the keywords, substring tests, splitting on '.', and
  the decimal rendering of a row index.
- `Otp` (otp.dfy): `extract_otp_from_email`.
  - The four pattern tiers are explicit left-to-right scanners.
  - One mailbox attempt is modelled with its three broadening searches, the
    fetch of the latest id and the walk over the message parts.
  - The retry loop is a method proved equal to a recursive specification.
- `Phone` (phone.dfy): the rewrite of the phone number before it is typed.
- `Proxy` (proxy.dfy): `verify_proxy_working`. It covers the dotted-quad
  shape test, the address test and the fallback through the home page. The
  check is parametrised by the address test: the substring test as written,
  or the range test it evidently means.
- `Login` (login.dfy): `login_to_ozon`, as a run over what the browser
  shows, with the table (`df`) and its saved file as a `Sheet` object.
  - A specification function `Login` gives the run's actions, its outcome,
    the cookie text written and whether the file was saved.
  - The method `LoginToOzon` performs that run on the sheet.
- `Batch` (batch.dfy): the row loop of `main`.
  - Browsers and plugin files alive on the host are sets of identities,
    together with the script's `browser` and `plugin_path` variables.
  - `RunBatch` is proved equal to the specification `RunBatchWith` for the
    script it runs: `AsWritten` (the leaking setup and the substring test) or
    `Intended` (the corrected setup and the range test).

What the model takes as given inputs:

- The mailbox: what the server does on each attempt, namely whether it
  connects, its answer to each search that reaches it, the messages with
  their decoded parts, and whether closing succeeds. As written, the third
  search never reaches the server: its criteria hold the Cyrillic keyword,
  and `imaplib` encodes command arguments as ASCII (see "## Findings").
- What the browser shows at each step: page locations, which buttons and
  fields appear, which success XPaths are present, and the cookies.
- Whether saving the sheet succeeds.
- How each browser setup goes.

The sleeps of the login steps are recorded as `Sleep(seconds)` actions and
those of the mail retry loop as its `sleeps` list. Nothing waits. The
sleeps of the browser setup and the proxy check are not recorded (see
"## Left out").

## Model

| member | source | states |
|---|---|---|
| Text.StripSlice | ozon_login.py:249 | `str.strip()`, here and on the row fields at lines 500-502: the stripped text is a slice of the input between an all-whitespace prefix and an all-whitespace suffix, and it neither starts nor ends with whitespace. |
| Otp.FindRun | ozon_login.py:120-129 | `re.search(r'(\d{n})')`: the found start is a run of n digits and no earlier start is. |
| Otp.FindKeyword | ozon_login.py:139-147 | `re.search(kw + r'\D*(\d+)', re.IGNORECASE)`: the found start matches and no earlier start does. |
| Otp.TierOrder | ozon_login.py:118-153 | The code has 6 digits whenever the body has a 6-digit run. It has 4 digits when there is a 4-digit run but no 6-digit run. Only with no 4 consecutive digits can a keyword tier answer, and then with 1 to 3 digits. |
| Otp.LeftmostSix | ozon_login.py:120-126 | With a 6-digit run present, the code is the leftmost such run. |
| Otp.LeftmostFour | ozon_login.py:129-135 | With no 6-digit run, the code is the leftmost 4-digit run. |
| Otp.LeftmostKeyword | ozon_login.py:138-153 | With no 4 digits together, the leftmost "код" match gives the code; with none, the leftmost "code" match; with neither, there is no code. |
| Otp.CapturedIsShort | ozon_login.py:139-153 | When no 4 digits stand together, the digits a keyword pattern captures are 1 to 3 digits. |
| Otp.BodyCodeIsDigits | ozon_login.py:118-153 | Every code taken from a body is a non-empty digit string that occurs in the body. |
| Otp.MessageCode | ozon_login.py:113-156 | A message's code comes from the first part, in walk order, that yields one. Parts that are not text, or whose payload cannot be decoded, yield nothing. |
| Otp.RunAttempt | ozon_login.py:86-159 | One attempt follows `AttemptStatus`. The searches go UNSEEN from ozon.ru, then all from ozon.ru, then the subject keywords, and each broader search is sent only after an empty answer. Under ASCII, two empty answers end the attempt in an error without a third search; the third search is sent only under UTF-8. Only the last id of the final answer is fetched, and only when that answer is non-empty. |
| Otp.SearchMail | ozon_login.py:91-103 | The search settles on `Candidates`: the first answer that is not empty, or `Rejected` when a search raised. The searches reach the server in order, each after an empty answer, and the subject search only under UTF-8. |
| Otp.ReadLatest | ozon_login.py:105-159 | Once the search settles on some ids, the attempt ends as `ReadStatus` says, and the id fetched is the last one, if any. |
| Otp.CriteriaEncoding | ozon_login.py:92-103 | The first two criteria are ASCII. The subject criteria are not, so they cannot be sent under ASCII. Under UTF-8 every criterion can be sent. |
| Otp.SubjectSearchRaises | ozon_login.py:100-103 | As written (ASCII), once the first two searches come back empty, the attempt ends in an error whatever the subject search would find. |
| Otp.SubjectSearchAnswered | ozon_login.py:100-159 | With UTF-8, once the first two searches come back empty, the subject search's latest message is read and its code, if any, is the attempt's result. |
| Otp.AcquireSpec | ozon_login.py:84-172 | At most `max_retries` attempts. No code only after every allowed attempt failed, an error counting as a failure. A code is what the last attempt found after failed ones. `retry_interval` is slept between attempts and never after the last. |
| Otp.CodeOnAttempt | ozon_login.py:161-163 | A code found on attempt n after n-1 failures: n attempts and n-1 sleeps. |
| Otp.NeverFound | ozon_login.py:165-172 | A mailbox that never yields a code: exactly `max_retries` attempts, `max_retries`-1 sleeps, no code. |
| Otp.AcquiredCodeIsDigits | ozon_login.py:118-153 | Every code the extractor returns is a non-empty digit string, under either encoding. |
| Otp.ExtractOtp | ozon_login.py:80-172 | The retry loop returns the code, the attempt count and the sleeps that `Acquire` specifies for the given encoding. |
| Phone.FormatPhone | ozon_login.py:320-323 | The typed number starts with '+' exactly when the input starts with '+', '8' or '9'. |
| Phone.FormatPhoneCases | ozon_login.py:320-323 | A number not starting with '8' or '9' is kept, and that includes every number with a leading '+'. A national number becomes "+7" and its last ten characters, or all of them when it is shorter. |
| Phone.FormatPhoneIdempotent | ozon_login.py:320-323 | Formatting a formatted number changes nothing. |
| Phone.SpellingsAgree | ozon_login.py:320-323 | For a ten-character subscriber number d, "8"+d, "+7"+d and d itself when it starts with '9' are all typed as "+7"+d. |
| Phone.FormatPhoneExamples | ozon_login.py:320-323 | "89991234567" and "+79991234567" are both typed as "+79991234567". |
| Proxy.DottedQuadShape | ozon_login.py:251 | Four groups of 1-3 digits joined by dots pass the shape test and split back into those groups. |
| Proxy.DottedQuadGroups | ozon_login.py:251 | A text that passes the shape test is its four groups joined by dots. |
| Proxy.AsWrittenAcceptsForeignAddress | ozon_login.py:251-256 | "185.142.0.1" passes the test as written but is outside 85.142.0.0/16. |
| Proxy.AcceptedIsInRange | ozon_login.py:251-256 | An accepted text strips to an address 85.142.c.d. |
| Proxy.RangeIsAccepted | ozon_login.py:251-256 | Every text that strips to 85.142.c.d is accepted. |
| Proxy.AcceptsRefinesAsWritten | ozon_login.py:251-256 | Whatever the corrected test accepts, the test as written accepts too. |
| Proxy.ProxyHostAccepted | ozon_login.py:426 | The batch's own proxy address 85.142.131.100 is accepted. |
| Proxy.ProxyCheck | ozon_login.py:236-275 | For any address test: the services are visited in order, and every one before the last visited showed a rejected address. When the check stops at a service, it succeeds iff that service showed an accepted address and fails iff its page could not be read. The home page is loaded only after all three services, and then success means its location contains "ozon". |
| Proxy.CheckEcho | ozon_login.py:249-258 | As written, a service's body text is accepted exactly when it strips to four groups of 1-3 digits joined by dots in which "85.142" occurs. With the corrected test, exactly when it strips to an address 85.142.c.d. |
| Proxy.SubstringMeaning | ozon_login.py:249-254 | The test as written accepts exactly the texts that strip to four digit groups joined by dots containing "85.142". |
| Proxy.RangeMeaning | ozon_login.py:249-254 | The corrected test accepts exactly the texts that strip to 85.142.c.d for digit groups c and d. |
| Proxy.TryService | ozon_login.py:246-262 | One service either ends the check, with the verdict `ConfirmFrom` gives and only that service loaded, or hands on to the next one with the verdict and pages unchanged. |
| Proxy.VerifyProxyWorking | ozon_login.py:236-275 | The check's verdict and the pages it loads, with either address test, are `Confirmed` and `Visits`. |
| Proxy.ConfirmRefines | ozon_login.py:246-262 | Whenever the check with the range test confirms the proxy, the check as written confirms it too. |
| Proxy.ForeignWorldConfirmedAsWritten | ozon_login.py:246-275 | When every service echoes "185.142.0.1" and the home page cannot load, the check as written confirms the proxy after one service; with the range test it visits all three services and the home page and fails. |
| Login.CookieCell | ozon_login.py:402-403 | `str(cookies)` is bracketed, so even an empty cookie list gives a non-empty cell. |
| Login.IndicatorFacts | ozon_login.py:381-396 | An indicator is found iff one of the three XPaths is present. The probing stops at the first present one and waits for every XPath before it. |
| Login.ProbeIndicators | ozon_login.py:381-396 | The indicator loop returns `IndicatorFound` and the probed XPaths `Probed`. |
| Login.LoginToOzon | ozon_login.py:277-422 | The method performs the run `Login` specifies. The row's cell takes the text the run wrote, the file is saved exactly when the run saved, and the result is true exactly when the run logged in. |
| Login.EnterPhone | ozon_login.py:299-347 | From the home page on, the method follows `AtHomePage`. |
| Login.EnterCode | ozon_login.py:349-396 | From the code field on, the method follows `AtOtpField`. It calls the extractor with 8 attempts 5 seconds apart. |
| Login.Conclude | ozon_login.py:398-412 | The verdict, the cookie write and the save follow `Verdict`. |
| Login.AcquiredCodeNotEmpty | ozon_login.py:353-356 | The `not otp_code` test only ever sees `None`, never an empty code. |
| Login.CookieWrittenOnlyOnSuccess | ozon_login.py:398-407 | The cell is written iff the success branch is reached (an indicator found, or the location on ozon.ru) and the cookies are read. It holds their non-empty rendering. The run logs in iff, besides, the save succeeds, and the file is saved iff the run logs in. |
| Login.FailureLeavesCell | ozon_login.py:286-422 | A failed run never saves the file. Its cell is untouched, except when the cell was written and the save then raised. |
| Login.FailureCauses | ozon_login.py:277-422 | Each failure kind occurs exactly under its condition. General: a navigation read raised. Navigation: both visits off the site. Missing code: the field was shown but the mailbox gave no code. Rejected: no indicator and a location off ozon.ru. Process: a missing field, an unreadable location, or unreadable cookies or a failed save on the success branch. |
| Login.NavigationRetriedOnce | ozon_login.py:282-295 | The home page is visited once, or twice when the first visit lands off the site, and nothing else is visited. Every failure takes exactly one screenshot, named after its kind and row, and a login takes none. |
| Login.ScreenshotNamesDistinct | ozon_login.py:294 | Two screenshot names are equal only for the same failure kind and the same row. The files for lines 355, 411, 416 and 421 are named the same way. |
| Batch.ScriptsKeepSheet | ozon_login.py:398-407 | Both scripts call `login_to_ozon`, whose runs write a filled cell if any and save the file exactly when they log in. |
| Batch.ScriptsCountSetups | ozon_login.py:486 | Both setups, as written and corrected, hand out one new browser identity per call. |
| Batch.BatchRows | ozon_login.py:462-518 | For either script: a filled row is skipped and stays as it was, in memory and in the file, and every other row is tried. A row changes only in its cookie cell and only when its login ran. A row that logged in is filled in memory and in the file. |
| Batch.SetupsPerPendingRow | ozon_login.py:462-490 | For either script: one browser setup per row whose cell was empty, and none for a skipped row. |
| Batch.RerunSkipsLoggedIn | ozon_login.py:439-466 | For either script: running the batch again on the saved file skips every row that logged in the first time. |
| Batch.OneBrowserAtATime | ozon_login.py:472-532 | With the corrected setup, at most one browser and one plugin file are alive after every setup and every row, and none remains after the final cleanup. |
| Batch.OnePluginAtATime | ozon_login.py:472-532 | With either setup, the one as written included, at most one plugin file exists after every setup and every row, and none remains after the final cleanup. |
| Batch.SetupAsWrittenLeaks | ozon_login.py:208-234 | With the setup as written, a hardening failure followed by a good setup leaves two browsers alive at once, and the script never quits the first, not even in the final cleanup. |
| Batch.RunBatch | ozon_login.py:462-532 | For the script it runs, as written or as intended, the loop and the final cleanup produce the sheet, the results, the host history and the final host that `RunBatchWith` specifies. |
| Batch.HandleRow | ozon_login.py:462-518 | One pass of the loop body, running the given script, is `Step`. |

## Left out

- The IMAP connection and MIME decoding are inputs: each message is its list of parts, with content type and decoded payload. Search replies carry ids already split. A reply that is not an id list stands for the call raising.
- The mail server name, the account's mailbox address and its password select the mailbox. The model takes that mailbox directly, so they appear only as fields of a row.
- Selenium is observations only. Waits with timeouts, XPath lookups, clicks, typing and window settings are outcomes in `LoginWorld` and `ProxyWorld`. The CDP anti-fingerprint script is only its failure, `HardeningFails`.
- `create_proxy_auth_extension` is left out: it is templating and zip writing. Its file is a plugin identity; its failure is `PluginFails`. A partly written zip is not modelled.
- Excel reading and writing are left out. The table is a sequence of rows, and a save copies it to `saved`. Adding a missing `Cookies` column and choosing between the source and target files happen before the loop and are not modelled.
- Wall-clock time is not modelled, nor is `time.time()` in plugin names. Identities come from a counter.
- The sleeps outside the login steps and the mail retry loop are not recorded: `time.sleep(3)` at the end of the browser setup (ozon_login.py:223) and `time.sleep(5)` after each page of the proxy check (ozon_login.py:248 and 265). They wait and decide nothing.
- Text.Lower: lowers ASCII letters only, where `str.lower()` lowers every script. It is exact for the two texts the script looks for in lowered locations, "ozon" and "ozon.ru": no non-ASCII character lowers to any of their characters, and the one character whose lowercase is two characters (U+0130) becomes "i" and a combining dot, neither of which occurs in them.
- Batch.SetupAsWritten: garbage-collection finalizers are not modelled. A browser the script drops stays in the host's set until something quits it. Selenium's driver service may stop chromedriver from its finalizer once the dropped driver is collected, so the leaked browser may in fact end earlier.
- Text.IsDigit: `\d` is the ASCII digits only. Python's `\d` on `str` also matches other Unicode decimal digits.
- Text.Fold: not the whole of `re.IGNORECASE`. It covers only the letters the two keywords "код" and "code" hold: ASCII and basic Cyrillic capitals, plus U+1C81 and U+1C82, which the regular-expression engine treats as "д" and "о". For those two keywords the match is exact; other scripts' case pairs are left out because no keyword contains them.
- Text.IsSpace: the set `str.isspace()` holds for is written out. Unicode normalisation is not modelled.
- Login.LoginToOzon: requires the row index to be in the table. This always holds, because the index comes from `df.iterrows()`. Writing at an absent index, which pandas would turn into a new row, is not modelled.
- Login: screenshots that raise, and reads that raise a second time (the location printed after the first failed visit), are not modelled. Each observation raises or succeeds once.
- Login: clearing a field and typing into it are folded into the field's presence.
- Batch: `browser.quit()` raising in the proxy-rejection branch, which would end `main`, is not modelled. The other quits and removes swallow their errors. A plugin removal that raises is modelled as a removal.
- Batch: `delete_all_cookies()` after each login is not modelled. If it raised, the row's handler would catch it, and the cookies in the sheet do not depend on it.
- Batch: a row missing one of the name columns raises `KeyError`, caught by the row's handler. This is not modelled: rows always carry the three fields. `str(...)` of a cell is taken to be the cell's text.
- Batch: `iterrows()` reads a snapshot of the table. The model reads the current row. This is the same, because a step changes only its own row.

## Findings

| source | as written | input that shows it | evidently intended | confidence | as-written member | corrected member |
|---|---|---|---|---|---|---|
| ozon_login.py:254 | The address is accepted when the text "85.142" occurs anywhere in it. | The echoed address "185.142.0.1", outside the proxy's network, is accepted. | Accept only addresses in 85.142.0.0/16, whose first two groups are 85 and 142. | not executed | Proxy.AsWrittenAcceptsForeignAddress | Proxy.AcceptedIsInRange |
| ozon_login.py:103 | The subject search is passed to `imaplib` as a `str` holding the Cyrillic keyword "код". `imaplib` encodes command arguments as ASCII unless UTF-8 was enabled, so the call raises `UnicodeEncodeError`. The attempt's handler reports that as a failed attempt. | A mailbox with no message from ozon.ru and a message whose subject contains "code" and whose body holds "123456": every attempt ends in an error and no code is found. | Send the subject search so that it reaches the server, for example after `enable("UTF8=ACCEPT")`, and read the latest message it finds. | not executed | Otp.SubjectSearchRaises | Otp.SubjectSearchAnswered |
| ozon_login.py:208-234 | After the browser has started, a failing `execute_cdp_cmd` is handled by removing the plugin and returning `None`. The live browser is dropped without being quit. | Two pending rows: the first setup's CDP command raises, the second setup succeeds. Two browsers are then alive. The started browser is never quit by the script; it may stay alive up to the final cleanup. | Quit the started browser before reporting the failure, so that at most one browser is ever alive. | not executed | Batch.SetupAsWrittenLeaks | Batch.OneBrowserAtATime |

Each of the three is modelled both ways:

- The proxy check takes its address test as a parameter: `Proxy.Substring`
  is the test as written and `Proxy.Range` the corrected one.
- The batch runs a script: `Batch.AsWritten` pairs the leaking setup with
  the substring test, and `Batch.Intended` pairs the corrected setup with
  the range test. The row and setup-count properties are proved for both;
  `Batch.OnePluginAtATime`, the plugin half of the resource property,
  holds for both. Its browser half, `Batch.OneBrowserAtATime`, holds for
  `Intended` only.
- The mailbox extractor takes the encoding as a parameter. `Otp.Ascii` is
  the script's own setting, and `Login` passes it, so the login runs as
  written. `Otp.Utf8` is the corrected one.
