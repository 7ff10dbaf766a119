/** The script's `main`: load the recipients, stop when there are none,
    build every message, then either preview the first one or open one
    SMTP session and send them all. */
module Newsletter {
  import opened Lists
  import opened Loader
  import opened Messages
  import opened Dispatch
  import opened Render

  /** The command-line options that reach the core: `--subject`, `--cta`
      and `--test`. */
  datatype Options = Options(subject: string, cta: string, test: bool)

  /** How a run ends. */
  datatype RunResult =
    | NoRecipients                  // exits with "No recipients"
    | Preview(first: Outbound)      // test mode: the first message is shown
    | NotConnected(reason: string)  // connecting, STARTTLS or login raised
    | Finished(events: seq<Event>)  // the sending loop ran to the end

  /** The deliveries a run performs. */
  function Sends(r: RunResult): seq<Event> {
    if r.Finished? then r.events else []
  }

  /** One run; `session` is how opening the authenticated session went and
      `server(n)` the answer to the n-th `sendmail`. */
  method Run(cfg: Config, opts: Options, rows: seq<Row>, session: Outcome, server: nat -> Outcome)
    returns (result: RunResult)
    ensures result == NoRecipients <==> Subscribers(rows) == []
    ensures Subscribers(rows) != [] && opts.test ==>
              result == Preview(OutboundFor(cfg, opts.subject, opts.cta, Subscribers(rows)[0]))
    ensures Subscribers(rows) != [] && !opts.test && session.Refused? ==>
              result == NotConnected(session.reason)
    ensures Subscribers(rows) != [] && !opts.test && session.Accepted? ==>
              result == Finished(Trace(cfg.fromEmail, AllOutbound(cfg, opts.subject, opts.cta, Subscribers(rows)),
                                       server, 1))
    ensures FilterMap(Sends(result), IsAttempt, Attempted)
            == if !opts.test && session.Accepted? then AllOutbound(cfg, opts.subject, opts.cta, Subscribers(rows))
               else []
  {
    var recips := LoadRecipients(rows);
    if recips == [] {
      return NoRecipients;
    }
    var msgs := BuildMessages(cfg, opts.subject, opts.cta, recips);
    if opts.test {
      return Preview(msgs[0]);
    }
    if session.Refused? {
      return NotConnected(session.reason);
    }
    var events := Dispatch.Dispatch(cfg.fromEmail, msgs, server);
    AttemptsAreMessages(cfg.fromEmail, msgs, server, 1);
    return Finished(events);
  }

  /** In a completed run the n-th delivery goes to the n-th kept row's
      address, from the configured sender, with that row's message. */
  lemma FinishedRunDeliveries(cfg: Config, opts: Options, rows: seq<Row>, server: nat -> Outcome, i: nat)
    requires i < |Subscribers(rows)|
    ensures var sent := FilterMap(Trace(cfg.fromEmail, AllOutbound(cfg, opts.subject, opts.cta, Subscribers(rows)),
                                        server, 1), IsAttempt, Attempted);
            |sent| == |Subscribers(rows)|
            && sent[i].to == Subscribers(rows)[i].email
            && HeaderValue(sent[i].msg.headers, To) == Some(Subscribers(rows)[i].email)
            && HeaderValue(sent[i].msg.headers, From) == Some(FromHeader(cfg))
            && HeaderValue(sent[i].msg.headers, Subject) == Some(opts.subject)
  {
    var msgs := AllOutbound(cfg, opts.subject, opts.cta, Subscribers(rows));
    AttemptsAreMessages(cfg.fromEmail, msgs, server, 1);
    AllOutboundAt(cfg, opts.subject, opts.cta, Subscribers(rows), i);
    OutboundHeaders(cfg, opts.subject, opts.cta, Subscribers(rows)[i]);
  }

  /** A completed run reports, per kept row and in order, that row's address
      with the server's answer. */
  lemma FinishedRunReports(cfg: Config, opts: Options, rows: seq<Row>, server: nat -> Outcome, i: nat)
    requires i < |Subscribers(rows)|
    ensures var reports := FilterMap(Trace(cfg.fromEmail, AllOutbound(cfg, opts.subject, opts.cta, Subscribers(rows)),
                                           server, 1), IsReport, Reported);
            |reports| == |Subscribers(rows)| && reports[i] == (Subscribers(rows)[i].email, server(i + 1))
  {
    var msgs := AllOutbound(cfg, opts.subject, opts.cta, Subscribers(rows));
    ReportsFollowOutcomes(cfg.fromEmail, msgs, server, 1);
    AllOutboundAt(cfg, opts.subject, opts.cta, Subscribers(rows), i);
  }
}
