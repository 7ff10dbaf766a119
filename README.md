# Newsletter sender — a verified model

`newsletter_sender.py` is a single-file campaign mailer. It reads a CSV
list of contacts and keeps the rows that are subscribed. It fills an HTML
template and a plain-text template for each kept contact, then sends one
multipart message per contact over one SMTP session. It pauses briefly after
every message and for longer after every fiftieth. With `--test` it only
shows the first message.

This project models the logic under that I/O and proves what it does:

- **Loader** (`load_recipients`): a CSV row is a `map<string, string>`.
  A row is kept when its `subscribed` cell, lower-cased, is `yes`, `y`, `1`
  or `true`, and a missing column counts as `yes`. The record holds the
  stripped e-mail plus name and company. Defaults apply only to absent
  columns, never to empty cells. The loop is a `while` loop proved against
  the order-preserving `Subscribers` function.
- **Strings**: Python's `str.strip()`, using Python's exact whitespace set,
  `str.lower()` on ASCII, and `str.replace()`, which replaces left to
  right without overlap, including the empty-pattern case.
- **Render** (`render`): the text is reassigned once per context entry, in
  dictionary order. The model is a left fold of `Replace`. The order matters:
  if a value contains a later key's placeholder, that placeholder is
  replaced again; a value containing an earlier key's placeholder stays.
- **Templates**: a template is text interleaved with placeholders. For a
  well-formed template and values that contain no `{`, rendering puts each
  defined key's value in its place and leaves unknown placeholders verbatim.
  The two templates of the script are written out piece by piece.
- **Messages**: the render context of a recipient, `create_message`'s
  headers and parts, the unsubscribe link, and the loop that builds
  exactly one addressed message per recipient, in order.
- **Dispatch**: the sending loop is an imperative method. It produces a
  trace of events: attempt, printed outcome, short pause, long pause. The
  server's answers come from an oracle `server(n)`. The proofs show that
  every message is attempted once and in order whatever the earlier
  answers were, that every attempt gets one report, and that the pause
  counts and positions are right.
- **Newsletter** (`main`): no recipients means no sending. Test mode shows
  the first message. A failed connection sends nothing. Otherwise the
  whole trace is sent.

The definitions the contracts below are stated against, with the lines
they model:

- `Strings.Replace`: `str.replace`, newsletter_sender.py:58.
- `Render.Rendered`: the fold of `render`, newsletter_sender.py:55-59.
- `Loader.IsSubscribed`, `Loader.ToSubscriber`, `Loader.Subscribers`: the
  filter, the record and the result of `load_recipients`,
  newsletter_sender.py:46, 48-52 and 42-53.
- `Messages.UnsubscribeUrl`, `Messages.ContextFor`, `Messages.OutboundFor`:
  the link, the context and the `msgs` entry of one recipient,
  newsletter_sender.py:83, 84 and 85-86.
- `Dispatch.Step`, `Dispatch.Trace`: the events of one iteration and of
  the whole sending loop, newsletter_sender.py:97-102 and 96-102.

Nothing is executed: the statements below are proved by the Dafny verifier.

## Model

| member | source | states |
|---|---|---|
| Strings.Strip | newsletter_sender.py:49 | `strip()` returns the infix of the cell left after removing leading and trailing Python whitespace; the result neither starts nor ends with whitespace |
| Strings.Lower | newsletter_sender.py:46 | `lower()` keeps the length and lower-cases each ASCII capital, leaving every other character |
| Strings.LowerEqualsIff | newsletter_sender.py:46 | lower-casing a cell gives a lower-case word exactly when the cell spells that word in any mixture of cases |
| Strings.ReplaceWithoutOccurrence | newsletter_sender.py:58 | `replace` returns a string unchanged when the pattern does not occur in it |
| Strings.ReplaceAtFirstOccurrence | newsletter_sender.py:58 | `replace` copies the text before the leftmost occurrence, substitutes it, and resumes scanning after it |
| Strings.ReplaceSkip | newsletter_sender.py:58 | `replace` copies a prefix in which no occurrence starts |
| Strings.ReplaceLonger | newsletter_sender.py:58 | substituting a longer value never shortens the text and lengthens it when the pattern occurs |
| Strings.ReplaceCanLeavePattern | newsletter_sender.py:58 | with a value free of the placeholder, one `replace` can still leave the placeholder behind: `{{{{k}}k}}` becomes `{{k}}` |
| Loader.LoadRecipients | newsletter_sender.py:42-53 | the loop returns exactly `Subscribers(rows)`: one record per kept row, in row order |
| Loader.SubscribersAppend | newsletter_sender.py:45-52 | loading a concatenation of rows concatenates the results, so row order is kept |
| Loader.SubscriberPosition | newsletter_sender.py:45-52 | a kept row's record sits right after the records of the rows before it |
| Loader.SubscriberDropped | newsletter_sender.py:46-47 | a dropped row contributes nothing to the output |
| Loader.SubscribersMembership | newsletter_sender.py:45-52 | a record is in the output if and only if some kept row yields it |
| Loader.IsSubscribedIff | newsletter_sender.py:46 | a row is kept exactly when `subscribed` is absent or spells yes, y, 1 or true in any letter case |
| Loader.MissingSubscribedKept | newsletter_sender.py:46 | a row without a `subscribed` column is kept |
| Loader.EmptySubscribedDropped | newsletter_sender.py:46 | an empty `subscribed` cell drops the row, because the default applies only to an absent column |
| Loader.NoSubscribedDropped | newsletter_sender.py:46 | `subscribed=no` drops the row |
| Loader.ToSubscriberFields | newsletter_sender.py:48-52 | name and company are the cell when present, even an empty one, and "there" / "your company" when the column is absent; the e-mail is the stripped cell, or "" when absent |
| Render.Lookup | newsletter_sender.py:84 | a context lookup finds a value if and only if some entry has that key, and the value it finds is that of the first such entry |
| Render.Render | newsletter_sender.py:55-59 | the loop's final text is the left fold `Rendered`, one `replace` per entry in context order |
| Render.RenderedSnoc | newsletter_sender.py:56-58 | adding one more context entry applies one more `replace` to the previous result |
| Render.RenderedUnchanged | newsletter_sender.py:55-59 | a template containing no placeholder of any context key comes back unchanged |
| Render.ValueRenderedAgainByLaterKey | newsletter_sender.py:57-58 | a name of `{{company}}` is replaced again by the later `company` entry |
| Render.ValueNotRenderedByEarlierKey | newsletter_sender.py:57-58 | a company of `{{name}}` stays verbatim, because `name` was substituted earlier |
| Templates.Fill | newsletter_sender.py:58 | filling a hole keeps the number of pieces and changes only the pieces that are that hole |
| Templates.ReplaceFlatten | newsletter_sender.py:58 | on a well-formed template, one `replace` of a placeholder fills exactly that hole |
| Templates.FillAllPointwise | newsletter_sender.py:57-58 | filling entry by entry acts on each piece on its own: a defined hole becomes its value, anything else stays |
| Templates.RenderFlatten | newsletter_sender.py:55-59 | rendering a well-formed template with brace-free values gives the text of the filled pieces |
| Templates.RenderedTemplate | newsletter_sender.py:55-59 | the text between placeholders is kept, a placeholder with a context key gets that key's value, and an unknown placeholder stays verbatim |
| Templates.NoPlaceholderLeft | newsletter_sender.py:55-59 | for a well-formed template and values with no `{`, when the context defines every key the template uses, no placeholder of any key is left |
| Templates.NoHoleNoPlaceholder | newsletter_sender.py:58 | a well-formed template without a hole for a key contains no placeholder of that key |
| Templates.StepRemovesPlaceholder | newsletter_sender.py:58 | after the step for key `k` on a well-formed template, with a value free of `{`, no `{{k}}` remains |
| Templates.HtmlTemplatePieces | newsletter_sender.py:23-30 | the HTML template is well formed, and its pieces spell it, placeholders included |
| Templates.PlainTemplatePieces | newsletter_sender.py:32-40 | the plain-text template is well formed, and its pieces spell it, placeholders included |
| Messages.HeaderValue | newsletter_sender.py:63-65 | reading a header finds it if and only if it was set, and returns the value of the first header of that name |
| Messages.CreateMessage | newsletter_sender.py:61-68 | a multipart/alternative message with exactly three headers, whose Subject, From and To read back as the subject, `FROM_NAME <FROM_EMAIL>` and the destination; the plain part comes first, the HTML part second, both UTF-8 |
| Messages.UnsubscribeAddress | newsletter_sender.py:83 | parsing an unsubscribe link returns an address only when the link is that address's link |
| Messages.UnsubscribeRoundTrip | newsletter_sender.py:83 | the address can be read back from `UNSUBSCRIBE_BASE&email=<address>` |
| Messages.UnsubscribeUrlInjective | newsletter_sender.py:83 | different addresses get different unsubscribe links |
| Messages.ContextLookups | newsletter_sender.py:84 | in a recipient's context, name, company, unsubscribe_url and cta_link find the recipient's name, company, unsubscribe link and the CTA link |
| Messages.AllOutboundAt | newsletter_sender.py:81-86 | message i is built for recipient i and addressed to that recipient's e-mail |
| Messages.BuildMessages | newsletter_sender.py:81-86 | the loop builds one message per recipient, in recipient order, each with `to` equal to that recipient's e-mail |
| Messages.OutboundHeaders | newsletter_sender.py:63-65 | a recipient's message is addressed to their e-mail, and its To, Subject and From headers read back as that e-mail, the subject and the sender display |
| Messages.OutboundParts | newsletter_sender.py:66-67 | a recipient's message has two parts: the plain template rendered with the recipient's context, then the HTML template rendered with it |
| Messages.PlainRendered | newsletter_sender.py:32-40 | for brace-free fields, the plain body is the template text with name, company, CTA link and unsubscribe link in place |
| Messages.HtmlRendered | newsletter_sender.py:23-30 | the same for the HTML body |
| Messages.PlainNameRenderedAgain | newsletter_sender.py:84-85 | a recipient whose name is `{{company}}` gets a plain-text body with the company where the name belongs as well as after "specially for", because the company entry follows the name entry in the context |
| Messages.PlainComplete | newsletter_sender.py:84-85 | for brace-free fields, no placeholder of any key is left in the plain body |
| Messages.HtmlComplete | newsletter_sender.py:84-85 | the same for the HTML body |
| Messages.PlainPartText | newsletter_sender.py:66 | the plain-text part of a recipient's message is exactly that filled text |
| Messages.HtmlPartText | newsletter_sender.py:67 | the HTML part of a recipient's message is exactly that filled text |
| Dispatch.Dispatch | newsletter_sender.py:96-102 | the loop's events are `Trace(sender, msgs, server, 1)`: for message n, an attempt, its report, a short pause, and a long pause when n is a multiple of 50 |
| Dispatch.TraceAppend | newsletter_sender.py:96 | sending a concatenation is sending the first part, then the second numbered on from where the first stopped |
| Dispatch.AttemptsAreMessages | newsletter_sender.py:96-100 | the attempted messages are exactly the message list, in order, whatever the server answers, so a failure never stops a later send |
| Dispatch.AttemptsFromSender | newsletter_sender.py:98 | every attempt uses the configured FROM_EMAIL as envelope sender |
| Dispatch.ReportsFollowOutcomes | newsletter_sender.py:97-100 | there is exactly one report per message, in order, and it carries that message's recipient and the server's answer to it |
| Dispatch.PauseCounts | newsletter_sender.py:101-102 | counting from any message number, there is one short pause per message, and one long pause per multiple of 50 among the numbers |
| Dispatch.DispatchPauses | newsletter_sender.py:101-102 | n messages give n short pauses and n / 50 long pauses |
| Dispatch.BatchPauseAfter | newsletter_sender.py:102 | after message k the last event is a long pause when k is a multiple of 50, and a short pause otherwise |
| Dispatch.TracePrefix | newsletter_sender.py:96 | the events of the first k messages are the start of the whole run's events |
| Dispatch.FiftyOneMessages | newsletter_sender.py:101-102 | 51 messages give 51 short pauses and one long pause, which follows message 50 |
| Newsletter.Run | newsletter_sender.py:78-102 | a run stops with "No recipients" exactly when no row is kept; test mode previews the first recipient's message; a failed connection ends the run; otherwise the whole trace is sent; a delivery happens only in a connected run without `--test`, and then each message is attempted once |
| Newsletter.FinishedRunDeliveries | newsletter_sender.py:81-98 | in a completed run, delivery i goes to kept row i's address, with To, From and Subject set to that address, the sender display and the subject |
| Newsletter.FinishedRunReports | newsletter_sender.py:96-100 | in a completed run, report i names kept row i's address with the server's answer to attempt i + 1 |

## Left out

- Reading the CSV file is not modelled: opening it and `csv.DictReader` are replaced by a sequence of rows already parsed into maps.
- A short row is not modelled: `DictReader` fills its missing cells with `None`, and `.lower()` or `.strip()` on `None` makes the script crash. Every cell here is a string.
- Strings.Lower: lower-cases ASCII letters only. Python's Unicode case mapping is not modelled, so a non-ASCII `subscribed` value is compared as it is.
- The SMTP session is not modelled: connecting, `starttls`, `login` and `sendmail` become oracles. `session` says whether the session opened, and `server(n)` gives the answer to the n-th send. The host, port and credentials do not appear in the model; the oracles' answers depend only on the attempt number.
- Sleeping is not modelled: `time.sleep` and the delays of 0.8 s and 5 s (floating point, real time) appear only as `Pause` and `BatchPause` events.
- MIME is not modelled: a message is its subtype, the three headers in the order they are set, and its ordered parts (body, subtype, charset). The library's own headers (Content-Type, MIME-Version, transfer encoding), the boundary and `as_string` serialisation are left out.
- The test-mode printout is kept only as the message it would show, `Preview(first message)`.
- Configuration plumbing is not modelled: the environment variables become `Config`, `argparse` becomes `Options`, and `print` and `sys.exit` become events and `RunResult` values. The defaults of lines 15-16 and 74 are not singled out: `Config` and `Options` hold whatever values a run gets.
- An e-mail address is inserted into the unsubscribe link verbatim. The script does no percent-encoding, and neither does the model.
- Templates.StepRemovesPlaceholder: "no `{{k}}` remains after the step for k" is proved only for well-formed templates (every `{` starts a placeholder whose key has no brace) and values with no `{`. Strings.ReplaceCanLeavePattern shows a template for which it fails even though the value has no placeholder.
- Templates.RenderedTemplate, Messages.PlainRendered, Messages.HtmlRendered: the written-out bodies are proved for values with no `{`. For other values, Render.ValueRenderedAgainByLaterKey, Render.ValueNotRenderedByEarlierKey and Messages.PlainNameRenderedAgain show what the substitution order does.
- The code does not check that an e-mail column exists: a missing one gives "" and that recipient is still sent to. The model does the same.
