/** The BulkSMS alerter of simplemonitor: it decides whether a monitor's
    state is worth an SMS, builds the text, cuts it to SMS size, forms the
    gateway request and reads the gateway's reply into the alerter's
    availability flag. The monitor, the configuration reader, the clock
    formatting and the HTTP transport are outside the model, so their
    values come in as parameters. */
module BulkSms {
  import opened PyText

  datatype Option<T> = None | Some(value: T)

  const DefaultSender := "SmplMntr"
  const DefaultApiHost := "www.bulksms.co.uk"
  /** Longest sender id the gateway takes. */
  const MaxSenderLength := 11
  /** Longest message sent; a longer one keeps its first `KeptLength`
      characters followed by `Ellipsis`. */
  const MaxMessageLength := 160
  const KeptLength := 156
  const Ellipsis := "..."
  const CatchupPrefix := "catchup: "
  const SubmissionPath := "/eapi/submission/send_sms/2/2.0"

  /** `monitor.get_downtime()`: days, hours, minutes and seconds. */
  datatype Downtime = Downtime(days: nat, hours: nat, minutes: nat, seconds: nat)

  /** What `send_alert` reads from the monitor. `firstFailure` is the first
      failure time as the system's datetime formatting has already
      rendered it; it is used verbatim. */
  datatype MonitorView = MonitorView(
    urgent: bool,
    downtime: Downtime,
    firstFailure: string,
    result: string,
    runningOn: string)

  /** A sender id short enough for the gateway. */
  type SenderId = s: string | |s| <= MaxSenderLength

  /** The alerter's configuration after construction. */
  datatype Settings = Settings(
    username: string,
    password: string,
    target: string,
    sender: SenderId,
    apiHost: string)

  /** One HTTP GET to the gateway: the URL and its query parameters. */
  datatype Request = Request(url: string, params: map<string, string>)

  /** What the gateway call comes back with: a response body, or an
      exception raised by the transport. */
  datatype GatewayReply = Reply(body: string) | TransportError

  function Min(a: int, b: int): int { if a <= b then a else b }

  /** The configured sender id, cut to the longest prefix the gateway takes. */
  function NormaliseSender(s: string): (r: SenderId)
    ensures |r| == Min(|s|, MaxSenderLength)
    ensures r == s[..|r|]
  {
    if |s| > MaxSenderLength then s[..MaxSenderLength] else s
  }

  /** The clock part of the downtime, `%02d:%02d:%02d`. */
  function ClockText(d: Downtime): string {
    Pad2(d.hours) + ":" + Pad2(d.minutes) + ":" + Pad2(d.seconds)
  }

  /** The downtime as `%d+%02d:%02d:%02d`: the one `+` separates the plain
      decimal day count from the clock, whose two `:` separate the hours,
      minutes and seconds, each rendered by `%02d`. */
  function DowntimeText(d: Downtime): (r: string)
    ensures Split(r, '+') == [Decimal(d.days), ClockText(d)]
    ensures Split(ClockText(d), ':') == [Pad2(d.hours), Pad2(d.minutes), Pad2(d.seconds)]
  {
    ClockSplit(Pad2(d.hours), Pad2(d.minutes), Pad2(d.seconds));
    DaysSplit(Decimal(d.days), ClockText(d));
    Decimal(d.days) + "+" + ClockText(d)
  }

  /** A digit string and a text without `+`, joined by `+`, split back
      into the two. */
  lemma DaysSplit(days: string, clock: string)
    requires AllDigits(days) && '+' !in clock
    ensures Split(days + "+" + clock, '+') == [days, clock]
  {
    DigitsExclude(days, '+');
    assert days + "+" + clock == days + ['+'] + clock;
    SplitAt(days, '+', clock);
    SplitWithout(clock, '+');
  }

  /** Three digit strings joined by `:` split back into the three and hold
      no `+`. */
  lemma ClockSplit(h: string, mi: string, se: string)
    requires AllDigits(h) && AllDigits(mi) && AllDigits(se)
    ensures Split(h + ":" + mi + ":" + se, ':') == [h, mi, se]
    ensures '+' !in h + ":" + mi + ":" + se
  {
    DigitsExclude(h, '+');
    DigitsExclude(mi, '+');
    DigitsExclude(se, '+');
    DigitsExclude(h, ':');
    DigitsExclude(mi, ':');
    DigitsExclude(se, ':');
    assert h + ":" + mi + ":" + se == h + [':'] + (mi + [':'] + se);
    SplitAt(h, ':', mi + [':'] + se);
    SplitAt(mi, ':', se);
    SplitWithout(se, ':');
  }

  /** Reads a downtime field back: a decimal day count, `+`, then three
      `:`-separated fields of at least two digits each. */
  function ParseDowntime(s: string): Option<Downtime> {
    var outer := Split(s, '+');
    if |outer| != 2 || |outer[0]| == 0 || !AllDigits(outer[0]) then None
    else
      var clock := Split(outer[1], ':');
      if |clock| != 3 then None
      else if !(|clock[0]| >= 2 && AllDigits(clock[0])) then None
      else if !(|clock[1]| >= 2 && AllDigits(clock[1])) then None
      else if !(|clock[2]| >= 2 && AllDigits(clock[2])) then None
      else Some(Downtime(DigitsValue(outer[0]), DigitsValue(clock[0]),
                         DigitsValue(clock[1]), DigitsValue(clock[2])))
  }

  /** The failure text, before any prefix or truncation: it starts with the
      monitor's name, ends with `)`, a line break and the last result, and
      adds 19 characters of fixed text to its five fields. */
  function FailureText(name: string, m: MonitorView): (r: string)
    ensures |r| == |name| + |m.runningOn| + |m.firstFailure| + |DowntimeText(m.downtime)| + |m.result| + 19
    ensures r[..|name|] == name
    ensures r[|r| - |m.result| - 2..] == ")\n" + m.result
  {
    name + " failed on " + m.runningOn + " at " + m.firstFailure
      + " (" + DowntimeText(m.downtime) + ")\n" + m.result
  }

  /** The prefix for the alert kinds the alerter handles; `None` for every
      other kind, the empty kind included. */
  function KindPrefix(kind: string): (r: Option<string>)
    ensures r.Some? <==> kind == "catchup" || kind == "failure"
  {
    if kind == "catchup" then Some(CatchupPrefix)
    else if kind == "failure" then Some("")
    else None
  }

  /** The message for an alert kind, before truncation: defined for the
      handled kinds only, always ending in the failure text, and for a
      failure alert exactly the failure text. */
  function MessageText(kind: string, name: string, m: MonitorView): (r: Option<string>)
    ensures r.Some? <==> kind == "catchup" || kind == "failure"
    ensures kind == "failure" ==> r == Some(FailureText(name, m))
    ensures r.Some? ==> (|r.value| >= |FailureText(name, m)|
                         && r.value[|r.value| - |FailureText(name, m)|..] == FailureText(name, m))
  {
    match KindPrefix(kind)
    case None => None
    case Some(p) =>
      assert "" + FailureText(name, m) == FailureText(name, m);
      Some(p + FailureText(name, m))
  }

  /** A message cut to SMS size: an over-long one keeps its first
      `KeptLength` characters and ends in `Ellipsis`. */
  function Truncate(message: string): (r: string)
    ensures |r| <= MaxMessageLength
    ensures |message| <= MaxMessageLength ==> r == message
    ensures |message| > MaxMessageLength ==>
              |r| == KeptLength + |Ellipsis| && r[..KeptLength] == message[..KeptLength]
              && r[KeptLength..] == Ellipsis
  {
    if |message| > MaxMessageLength then message[..KeptLength] + Ellipsis else message
  }

  function SubmissionUrl(apiHost: string): string {
    "https://" + apiHost + SubmissionPath
  }

  function SubmissionParams(s: Settings, message: string): map<string, string> {
    map["username" := s.username, "password" := s.password, "message" := message,
        "msisdn" := s.target, "sender" := s.sender, "repliable" := "0"]
  }

  /** The request an alert calls for, whether or not it is then issued:
      `None` when the monitor is not urgent or the kind is not handled. */
  function PlannedRequest(s: Settings, name: string, kind: string, m: MonitorView): Option<Request> {
    if !m.urgent then None
    else
      match MessageText(kind, name, m)
      case None => None
      case Some(text) => Some(Request(SubmissionUrl(s.apiHost), SubmissionParams(s, Truncate(text))))
  }

  /** The gateway accepted the message: the body starts with "0". */
  predicate Accepted(reply: GatewayReply) {
    reply.Reply? && StartsWith(reply.body, "0")
  }

  /** The availability flag after an attempt: a request that was issued and
      not accepted clears it, and nothing else changes it. */
  function AvailableAfter(was: bool, sent: Option<Request>, reply: GatewayReply): bool {
    if sent.Some? && !Accepted(reply) then false else was
  }

  /** The code and description logged for a refused message: the first two
      `|`-separated fields of the body; `None` when there is no second field,
      where indexing it raises IndexError. */
  function ErrorReport(body: string): (r: Option<(string, string)>)
    ensures r.Some? <==> '|' in body
    ensures r.Some? ==> ('|' !in r.value.0 && '|' !in r.value.1
                         && StartsWith(body, r.value.0 + "|" + r.value.1)
                         && (|body| == |r.value.0| + 1 + |r.value.1|
                             || body[|r.value.0| + 1 + |r.value.1|] == '|'))
  {
    var fields := Split(body, '|');
    SplitHasSecondPiece(body, '|');
    JoinSplit(body, '|');
    if |fields| >= 2 then
      SecondPieceStarts(fields, '|');
      Some((fields[0], fields[1]))
    else None
  }

  /** A join of two or more pieces starts with the first two and the
      separator between them, and the second piece ends where the string
      does or at the next separator. */
  lemma SecondPieceStarts(fields: seq<string>, c: char)
    requires |fields| >= 2
    ensures var s, n := Join(fields, c), |fields[0]| + 1 + |fields[1]|;
      StartsWith(s, fields[0] + [c] + fields[1]) && (|s| == n || s[n] == c)
  {
  }

  class BulkSmsAlerter {
    const username: string
    const password: string
    const target: string
    const sender: SenderId
    const apiHost: string
    const supportCatchup: bool
    const dryRun: bool
    var available: bool

    function Config(): Settings {
      Settings(username, password, target, sender, apiHost)
    }

    /** `sender` and `apiHost` are `None` when the option is not configured. */
    constructor (username: string, password: string, target: string,
                 sender: Option<string>, apiHost: Option<string>, dryRun: bool)
      ensures this.username == username && this.password == password && this.target == target
      ensures this.sender == NormaliseSender(if sender.Some? then sender.value else DefaultSender)
      ensures this.apiHost == if apiHost.Some? then apiHost.value else DefaultApiHost
      ensures this.supportCatchup && this.dryRun == dryRun && available
    {
      this.username := username;
      this.password := password;
      this.target := target;
      var configured := if sender.Some? then sender.value else DefaultSender;
      if |configured| > MaxSenderLength {
        configured := configured[..MaxSenderLength];
      }
      this.sender := configured;
      this.apiHost := if apiHost.Some? then apiHost.value else DefaultApiHost;
      this.supportCatchup := true;
      this.dryRun := dryRun;
      available := true;
    }

    /** Sends the alert for `name` given the kind the alerter decided on and
        the monitor's state; `reply` is what the gateway call would return.
        `sent` is the request actually issued. */
    method SendAlert(name: string, kind: string, m: MonitorView, reply: GatewayReply)
      returns (sent: Option<Request>)
      modifies this
      ensures sent == if dryRun then None else PlannedRequest(Config(), name, kind, m)
      ensures available == AvailableAfter(old(available), sent, reply)
    {
      sent := None;
      if !m.urgent {
        return;
      }
      var message := "";
      var url := "";
      var params: map<string, string> := map[];
      if kind == "" {
        return;
      } else if kind == "catchup" {
        message := CatchupPrefix + FailureText(name, m);
        ghost var text := message;
        assert MessageText(kind, name, m) == Some(text);
        if |message| > MaxMessageLength {
          message := message[..KeptLength] + Ellipsis;
        }
        assert message == Truncate(text);
        url := SubmissionUrl(apiHost);
        params := SubmissionParams(Config(), message);
      } else if kind == "failure" {
        message := FailureText(name, m);
        ghost var text := message;
        assert "" + text == text;
        assert MessageText(kind, name, m) == Some(text);
        if |message| > MaxMessageLength {
          message := message[..KeptLength] + Ellipsis;
        }
        assert message == Truncate(text);
        url := SubmissionUrl(apiHost);
        params := SubmissionParams(Config(), message);
      } else {
        // other kinds are not handled
      }
      if url == "" {
        return;
      }
      assert url[..8] == "https://";
      if !dryRun {
        sent := Some(Request(url, params));
        match reply
        case TransportError =>
          available := false;
        case Reply(body) =>
          if !StartsWith(body, "0") {
            // the log line takes the fields `ErrorReport(body)` gives; when
            // there is no `|` it raises IndexError instead, which the same
            // handler as a transport error catches, so the flag is cleared
            // on both paths
            available := false;
          }
      }
    }
  }

  // ---- Properties of the model ----

  /** A request is planned exactly when the monitor is urgent and the kind is
      "catchup" or "failure". */
  lemma SendsIffUrgentAndHandled(s: Settings, name: string, kind: string, m: MonitorView)
    ensures PlannedRequest(s, name, kind, m).Some? <==>
              m.urgent && (kind == "catchup" || kind == "failure")
  {
  }

  /** The planned request goes to the gateway's submission URL with the
      configured account, the target as msisdn, the sender, a message of at
      most 160 characters and `repliable` off. */
  lemma PlannedRequestShape(s: Settings, name: string, kind: string, m: MonitorView, req: Request)
    requires PlannedRequest(s, name, kind, m) == Some(req)
    ensures req.url == "https://" + s.apiHost + "/eapi/submission/send_sms/2/2.0"
    ensures req.params.Keys == {"username", "password", "message", "msisdn", "sender", "repliable"}
    ensures req.params["username"] == s.username && req.params["password"] == s.password
    ensures req.params["msisdn"] == s.target && req.params["sender"] == s.sender
    ensures req.params["repliable"] == "0" && |req.params["sender"]| <= MaxSenderLength
    ensures req.params["message"] == Truncate(MessageText(kind, name, m).value)
    ensures |req.params["message"]| <= MaxMessageLength
  {
  }

  /** Before truncation the catch-up message is the failure message behind
      the "catchup: " prefix. */
  lemma CatchupExtendsFailure(name: string, m: MonitorView)
    ensures MessageText("catchup", name, m) == Some("catchup: " + MessageText("failure", name, m).value)
  {
  }

  /** The downtime field reads back as the downtime it renders. */
  lemma DowntimeRoundTrip(d: Downtime)
    ensures ParseDowntime(DowntimeText(d)) == Some(d)
  {
    DecimalRoundTrip(d.days);
  }

  /** The downtime of one hour, two minutes and three seconds. */
  lemma DowntimeTextExample()
    ensures DowntimeText(Downtime(0, 1, 2, 3)) == "0+01:02:03"
  {
  }

  /** The sample failure alert of monitor "db1" on "host-a", down for
      1h 2m 3s. */
  lemma FailureTextExample(ts: string)
    ensures MessageText("failure", "db1", MonitorView(true, Downtime(0, 1, 2, 3), ts, "timeout", "host-a"))
              == Some("db1 failed on host-a at " + ts + " (0+01:02:03)\ntimeout")
  {
    var m := MonitorView(true, Downtime(0, 1, 2, 3), ts, "timeout", "host-a");
    var head := "db1" + " failed on " + "host-a" + " at ";
    var tail := " (" + DowntimeText(m.downtime) + ")\n" + "timeout";
    DowntimeTextExample();
    assert head == "db1 failed on host-a at ";
    assert tail == " (0+01:02:03)\ntimeout";
    assert FailureText("db1", m) == head + ts + tail;
  }

  /** An attempt never sets the flag: it stays false once cleared. */
  lemma AvailableNeverRaised(was: bool, sent: Option<Request>, reply: GatewayReply)
    ensures AvailableAfter(was, sent, reply) ==> was
  {
  }

  /** An attempt that issues no request (a monitor that is not urgent, a
      kind that is not handled, or dry-run mode) leaves the flag as it was. */
  lemma NoRequestKeepsFlag(was: bool, reply: GatewayReply)
    ensures AvailableAfter(was, None, reply) == was
  {
  }

  /** An issued request leaves an available alerter available exactly when
      the body starts with "0". */
  lemma AvailableIffAccepted(req: Request, reply: GatewayReply)
    ensures AvailableAfter(true, Some(req), reply) <==> reply.Reply? && |reply.body| >= 1 && reply.body[0] == '0'
  {
  }

  /** "1|ERR|bad auth" is reported with code "1" and description "ERR". */
  lemma ErrorReportExample()
    ensures ErrorReport("1|ERR|bad auth") == Some(("1", "ERR"))
  {
    assert "1|ERR|bad auth" == "1" + ['|'] + ("ERR" + ['|'] + "bad auth");
    SplitAt("1", '|', "ERR" + ['|'] + "bad auth");
    SplitAt("ERR", '|', "bad auth");
  }
}
