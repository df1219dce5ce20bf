# BulkSMS alerter of simplemonitor, modelled in Dafny

simplemonitor runs checks ("monitors") and hands state changes to
pluggable alerters. The BulkSMS alerter turns an urgent monitor's failure
or catch-up state into one SMS. It builds the text, cuts it to at
most 160 characters and submits it with one HTTP GET to the BulkSMS gateway. If the
gateway refuses the message or the call fails, it clears its `available`
flag.

The model has two modules:

- `PyText` (`pytext.dfy`) models the Python string operations the alerter
  uses:
  - `Decimal` models `"%d" % n` and `Pad2` models `"%02d" % n`. Both are
    partnered with the decoder `DigitsValue`.
  - `Split` models `str.split` with a one-character separator. It is
    partnered with `Join`.
  - `StartsWith` models `str.startswith`.
- `BulkSms` (`bulksms.dfy`) models the alerter. Its pure functions give the
  message and the request an alert calls for:
  - `NormaliseSender`, `DowntimeText`, `FailureText`, `MessageText`,
    `Truncate` and `PlannedRequest` build the request.
  - `AvailableAfter` gives the effect of the gateway's reply on the flag.
  - `ErrorReport` gives the fields the error log takes from the reply.
- The class `BulkSmsAlerter` holds the configuration as `const` fields,
  because it is fixed after construction. It holds `available` as a
  mutable field.
  - Its constructor normalises the sender and applies the defaults.
  - `SendAlert` follows `send_alert` step by step. Its contract ties the
    request it issues to `PlannedRequest` and the new flag to
    `AvailableAfter`.

Inputs that come from outside the file are parameters:

- the kind that `should_alert` chose;
- the monitor's urgency, downtime, formatted first-failure time, last
  result and host, bundled as `MonitorView`;
- the configuration values;
- the dry-run mode;
- the gateway's outcome, `GatewayReply`: a response body, or a transport
  exception.

Two details of the code that the model keeps as written:

- The downtime is rendered `%d+%02d:%02d:%02d`, with no unit letter after
  the days.
- A refused reply without a `|` does not get its fields logged. Building
  the log line raises IndexError at `Alerters/bulksms.py:124`, and the
  handler at line 127 catches it, so the flag is cleared on that path too.

## Model

| member | source | states |
|---|---|---|
| `BulkSms.NormaliseSender` | Alerters/bulksms.py:36-38 | the sender is the longest prefix of the configured one that is at most 11 characters long: it is unchanged when it is at most 11 characters, and otherwise it is the first 11 |
| `BulkSms.BulkSmsAlerter.constructor` | Alerters/bulksms.py:20-44 | the account and target are stored as given; the sender defaults to "SmplMntr" and is normalised; every alerter's sender has type `SenderId`, so it is at most 11 characters; the API host defaults to "www.bulksms.co.uk"; catch-up is supported |
| `BulkSms.BulkSmsAlerter.SendAlert` | Alerters/bulksms.py:46-132 | the request issued is none in dry-run mode, and otherwise the planned request; the new flag is the old flag, cleared when an issued request is not accepted or the transport fails |
| `BulkSms.SendsIffUrgentAndHandled` | Alerters/bulksms.py:49-116 | a request is planned if and only if the monitor is urgent and the kind is "catchup" or "failure"; a non-urgent monitor, the empty kind or any other kind gives none |
| `BulkSms.PlannedRequestShape` | Alerters/bulksms.py:79-110 | a planned request goes to https://<api_host>/eapi/submission/send_sms/2/2.0 with exactly the six parameters: username, password, the truncated message, msisdn equal to the target, the normalised sender and repliable "0"; the message is at most 160 characters and the sender at most 11 |
| `BulkSms.PlannedRequest` | Alerters/bulksms.py:49-116 | the request an alert calls for; its behaviour is stated by `SendsIffUrgentAndHandled` (when there is one) and `PlannedRequestShape` (what it is) |
| `BulkSms.SubmissionUrl` | Alerters/bulksms.py:79 | the gateway URL for the API host; its value is stated by `PlannedRequestShape` |
| `BulkSms.SubmissionParams` | Alerters/bulksms.py:80-87 | the query parameters; their six keys and values are stated by `PlannedRequestShape` |
| `BulkSms.KindPrefix` | Alerters/bulksms.py:63-113 | a prefix exists exactly for the kinds "catchup" and "failure"; what it is for each is stated by `MessageText` (the failure message is the failure text itself) and `CatchupExtendsFailure` (the catch-up message adds "catchup: " in front) |
| `BulkSms.MessageText` | Alerters/bulksms.py:66-98 | a message exists exactly for the kinds "catchup" and "failure"; it always ends in the failure text of the same inputs, and for "failure" it is exactly that text, with no prefix |
| `BulkSms.FailureText` | Alerters/bulksms.py:89-98 | the failure text starts with the monitor name, ends with ")", a line break and the last result, and is the five fields plus 19 characters of fixed text |
| `BulkSms.DowntimeText` | Alerters/bulksms.py:66 | the downtime field splits at its one '+' into the plain decimal day count (`%d`) and the clock, and the clock splits at its two ':' into hours, minutes and seconds, each rendered by `%02d` |
| `BulkSms.ClockText` | Alerters/bulksms.py:89 | the clock part `%02d:%02d:%02d`; `DowntimeText`'s second ensures states that it splits at ':' into the three `%02d` fields |
| `BulkSms.Truncate` | Alerters/bulksms.py:76-78 | the sent message is at most 160 characters; a message of at most 160 is kept as is; a longer one becomes exactly 159 characters, its first 156 followed by "..." |
| `BulkSms.CatchupExtendsFailure` | Alerters/bulksms.py:66-98 | before truncation the catch-up message is "catchup: " followed by the failure message from the same inputs |
| `PyText.Decimal` | Alerters/bulksms.py:66 | `%d` of a natural is a non-empty string of digits; it is one digit long exactly below 10 and starts with '0' only for 0 |
| `PyText.DecimalRoundTrip` | Alerters/bulksms.py:66 | the digits `%d` renders decode back to the number |
| `PyText.DecimalCanonical` | Alerters/bulksms.py:89 | every digit string without a leading zero is what `%d` renders for the number it denotes, so the rendering is unique |
| `PyText.Pad2` | Alerters/bulksms.py:66 | `%02d` of a natural is at least two digits wide, denotes the number, starts with '0' exactly when the number is below 10, and is two characters long in that case |
| `BulkSms.DowntimeRoundTrip` | Alerters/bulksms.py:66 | the downtime field parses back, as days, '+' and three ':'-separated fields of at least two digits, into the same days, hours, minutes and seconds |
| `BulkSms.DowntimeTextExample` | Alerters/bulksms.py:89 | a downtime of 0 days 1 h 2 min 3 s renders as "0+01:02:03" |
| `BulkSms.FailureTextExample` | Alerters/bulksms.py:89-98 | a "failure" alert for monitor "db1" failing on "host-a" with result "timeout" has the message "db1 failed on host-a at <ts> (0+01:02:03)\ntimeout" |
| `BulkSms.Accepted` | Alerters/bulksms.py:122 | the gateway accepted the message; `AvailableIffAccepted` states it as a body whose first character is '0' |
| `BulkSms.AvailableAfter` | Alerters/bulksms.py:118-129 | the flag after an attempt; `NoRequestKeepsFlag`, `AvailableNeverRaised` and `AvailableIffAccepted` state its behaviour |
| `BulkSms.NoRequestKeepsFlag` | Alerters/bulksms.py:49-50 | an attempt that issues no request leaves the flag as it was; that covers a monitor that is not urgent, a kind that is not handled and dry-run mode, for which `SendAlert` issues nothing |
| `BulkSms.AvailableNeverRaised` | Alerters/bulksms.py:118-131 | an alert attempt never sets the availability flag back to true |
| `BulkSms.AvailableIffAccepted` | Alerters/bulksms.py:119-129 | after an issued request an available alerter stays available if and only if the reply is a body whose first character is '0'; a transport failure or any other body clears it |
| `BulkSms.ErrorReport` | Alerters/bulksms.py:122-129 | the code and description of a refused reply exist if and only if the body contains the pipe character; otherwise indexing the second field raises IndexError; when they exist they hold no separator, the body starts with the code, the separator and the description, and the description ends where the body does or at the next separator, so both are whole fields |
| `BulkSms.ErrorReportExample` | Alerters/bulksms.py:123-125 | a reply whose pipe-separated fields are "1", "ERR" and "bad auth" is logged with code "1" and description "ERR" |
| `PyText.StartsWith` | Alerters/bulksms.py:122 | `str.startswith`: the prefix is no longer than the string and equals its first characters; used by `Accepted` and stated through `AvailableIffAccepted` |
| `PyText.Split` | Alerters/bulksms.py:124 | `str.split` gives at least one piece and no piece holds the separator |
| `PyText.JoinSplit` | Alerters/bulksms.py:124 | joining the pieces of a split with the separator gives back the split string |
| `PyText.SplitHasSecondPiece` | Alerters/bulksms.py:124 | a split has a second piece if and only if the separator occurs in the string |

## Left out

- The HTTP GET (`requests.get`) and its URL query encoding are not modelled. The gateway's outcome is the `GatewayReply` parameter of `SendAlert`, and the request is returned as a URL and a parameter map.
- Logging is left out: the truncation warnings, the error and exception logs, and the dry-run info line. It has no content contract beyond the fields `ErrorReport` picks.
- `format_datetime` comes from `util`, which is not part of this model. The formatted first-failure time is an opaque string.
- `Alerter.get_config_option`, `should_alert`, `register` and the base-class initialisation come from `alerter.py`, which is not part of this model. So the model does not check for missing or empty required options; the constructor takes configuration values already read. The alert kind and the dry-run mode are inputs. The flag starts as true.
- The monitor object is not modelled. Its `urgent`, `get_downtime`, `first_failure_time`, `get_result` and `running_on` values are fields of `MonitorView`.
- The `assert isinstance` lines are type checks only, and Dafny's types enforce them.
- Strings are sequences of Unicode scalar values, and lengths count code points as Python's `len` does. A Python `str` may also hold lone surrogates (U+D800 to U+DFFF), for instance from text decoded with `surrogateescape`. A Dafny `char` cannot, so such strings are outside the model. Nothing is encoded as bytes.
