/** Message construction: the per-recipient render context, `create_message`,
    and the loop that builds one outgoing message per recipient. */
module Messages {
  import opened Lists
  import opened Strings
  import opened Render
  import opened Templates
  import opened Loader

  /** The sender identity, read from the environment. */
  datatype Config = Config(fromName: string, fromEmail: string)

  const UnsubscribeBase: string := "mailto:unsubscribe@yourdomain.com" + "?subject=Unsubscribe"

  /** The From header: display name, then the address in angle brackets. */
  function FromHeader(cfg: Config): string {
    cfg.fromName + " <" + cfg.fromEmail + ">"
  }

  /** The headers `create_message` sets. */
  datatype Field = Subject | From | To

  datatype Header = Header(name: Field, value: string)

  /** A text part: its body, its MIME subtype and its charset. */
  datatype Part = Part(body: string, subtype: string, charset: string)

  /** A multipart message: its subtype, the headers in the order they were
      set, and its parts in the order they were attached. */
  datatype Message = Message(subtype: string, headers: seq<Header>, parts: seq<Part>)

  /** Reading `msg[name]`: the value of the first header of that name, or
      None. */
  function HeaderValue(headers: seq<Header>, name: Field): (r: Option<string>)
    ensures r.Some? <==> exists i :: 0 <= i < |headers| && headers[i].name == name
    ensures r.Some? ==> exists i :: 0 <= i < |headers| && headers[i] == Header(name, r.value)
                                    && forall j :: 0 <= j < i ==> headers[j].name != name
  {
    if headers == [] then None
    else if headers[0].name == name then Some(headers[0].value)
    else
      var r := HeaderValue(headers[1..], name);
      assert forall i :: 0 < i < |headers| ==> headers[i] == headers[1..][i - 1];
      r
  }

  lemma HeaderValueCons(headers: seq<Header>, name: Field)
    requires headers != []
    ensures HeaderValue(headers, name)
            == if headers[0].name == name then Some(headers[0].value) else HeaderValue(headers[1..], name)
  {
  }

  /** `create_message`: a multipart/alternative message with Subject, From
      and To set once each, the plain-text part attached first and the HTML
      part second, both in UTF-8. */
  function CreateMessage(cfg: Config, subject: string, to: string, htmlBody: string, textBody: string): (m: Message)
    ensures m.subtype == "alternative"
    ensures |m.headers| == 3
    ensures HeaderValue(m.headers, Subject) == Some(subject)
    ensures HeaderValue(m.headers, From) == Some(FromHeader(cfg))
    ensures HeaderValue(m.headers, To) == Some(to)
    ensures |m.parts| == 2
    ensures m.parts[0] == Part(textBody, "plain", "utf-8")
    ensures m.parts[1] == Part(htmlBody, "html", "utf-8")
  {
    var headers := [Header(Subject, subject), Header(From, FromHeader(cfg)), Header(To, to)];
    var rest := [Header(From, FromHeader(cfg)), Header(To, to)];
    assert headers[1..] == rest;
    assert rest[1..] == [Header(To, to)];
    HeaderValueCons(rest, To);
    Message("alternative", headers,
            [Part(textBody, "plain", "utf-8"), Part(htmlBody, "html", "utf-8")])
  }

  const UnsubscribePrefix: string := UnsubscribeBase + "&email="

  /** The unsubscribe link of an address: the address appended verbatim. */
  function UnsubscribeUrl(email: string): string {
    UnsubscribePrefix + email
  }

  /** The address an unsubscribe link was made for, if it is one. */
  function UnsubscribeAddress(url: string): (r: Option<string>)
    ensures r.Some? ==> UnsubscribeUrl(r.value) == url
  {
    if |url| >= |UnsubscribePrefix| && url[..|UnsubscribePrefix|] == UnsubscribePrefix then
      SplitAt(url, |UnsubscribePrefix|);
      Some(url[|UnsubscribePrefix|..])
    else None
  }

  /** The address can be read back from its unsubscribe link, so different
      recipients get different links. */
  lemma UnsubscribeRoundTrip(email: string)
    ensures UnsubscribeAddress(UnsubscribeUrl(email)) == Some(email)
  {
    AppendParts(UnsubscribePrefix, email);
  }

  lemma UnsubscribeUrlInjective(a: string, b: string)
    ensures UnsubscribeUrl(a) == UnsubscribeUrl(b) <==> a == b
  {
    UnsubscribeRoundTrip(a);
    UnsubscribeRoundTrip(b);
  }

  /** The render context of a recipient, in the order the dictionary
      literal lists its keys. */
  function ContextFor(r: Subscriber, cta: string): Context {
    [("name", r.name), ("company", r.company), ("unsubscribe_url", UnsubscribeUrl(r.email)),
     ("cta_link", cta)]
  }

  /** Each template key finds the intended field of the recipient. */
  lemma ContextLookups(r: Subscriber, cta: string)
    ensures Lookup(ContextFor(r, cta), "name") == Some(r.name)
    ensures Lookup(ContextFor(r, cta), "company") == Some(r.company)
    ensures Lookup(ContextFor(r, cta), "unsubscribe_url") == Some(UnsubscribeUrl(r.email))
    ensures Lookup(ContextFor(r, cta), "cta_link") == Some(cta)
  {
    var ctx := ContextFor(r, cta);
    var c1 := [("company", r.company), ("unsubscribe_url", UnsubscribeUrl(r.email)), ("cta_link", cta)];
    var c2 := [("unsubscribe_url", UnsubscribeUrl(r.email)), ("cta_link", cta)];
    var c3 := [("cta_link", cta)];
    assert ctx[1..] == c1 && c1[1..] == c2 && c2[1..] == c3;
    LookupCons(ctx, "unsubscribe_url");
    LookupCons(c1, "unsubscribe_url");
    LookupCons(ctx, "cta_link");
    LookupCons(c1, "cta_link");
    LookupCons(c2, "cta_link");
  }

  /** One entry of `msgs`: the envelope recipient and the message. */
  datatype Outbound = Outbound(to: string, msg: Message)

  /** The message built for a recipient. */
  function OutboundFor(cfg: Config, subject: string, cta: string, r: Subscriber): Outbound {
    var ctx := ContextFor(r, cta);
    Outbound(r.email, CreateMessage(cfg, subject, r.email, Rendered(HtmlTemplate, ctx), Rendered(PlainTemplate, ctx)))
  }

  /** The messages for a list of recipients, one per recipient, in order. */
  function AllOutbound(cfg: Config, subject: string, cta: string, recips: seq<Subscriber>): seq<Outbound> {
    Map(recips, r => OutboundFor(cfg, subject, cta, r))
  }

  /** The i-th message is the i-th recipient's, addressed to that recipient. */
  lemma AllOutboundAt(cfg: Config, subject: string, cta: string, recips: seq<Subscriber>, i: nat)
    requires i < |recips|
    ensures |AllOutbound(cfg, subject, cta, recips)| == |recips|
    ensures AllOutbound(cfg, subject, cta, recips)[i] == OutboundFor(cfg, subject, cta, recips[i])
    ensures AllOutbound(cfg, subject, cta, recips)[i].to == recips[i].email
  {
  }

  /** The message loop of `main`: render both templates for each recipient
      and append the addressed message. */
  method BuildMessages(cfg: Config, subject: string, cta: string, recips: seq<Subscriber>)
    returns (msgs: seq<Outbound>)
    ensures msgs == AllOutbound(cfg, subject, cta, recips)
    ensures |msgs| == |recips|
    ensures forall i :: 0 <= i < |recips| ==> msgs[i].to == recips[i].email
  {
    msgs := [];
    var i := 0;
    while i < |recips|
      invariant 0 <= i <= |recips|
      invariant msgs == AllOutbound(cfg, subject, cta, recips[..i])
    {
      var r := recips[i];
      var unsub := UnsubscribeUrl(r.email);
      var ctx := [("name", r.name), ("company", r.company), ("unsubscribe_url", unsub), ("cta_link", cta)];
      var html := Render.Render(HtmlTemplate, ctx);
      var plain := Render.Render(PlainTemplate, ctx);
      assert ctx == ContextFor(r, cta);
      AllOutboundSnoc(cfg, subject, cta, recips, i);
      msgs := msgs + [Outbound(r.email, CreateMessage(cfg, subject, r.email, html, plain))];
      i := i + 1;
    }
    TakeAll(recips);
  }

  lemma AllOutboundSnoc(cfg: Config, subject: string, cta: string, recips: seq<Subscriber>, i: nat)
    requires i < |recips|
    ensures AllOutbound(cfg, subject, cta, recips[..i + 1])
            == AllOutbound(cfg, subject, cta, recips[..i]) + [OutboundFor(cfg, subject, cta, recips[i])]
  {
    MapSnoc(recips, i, r => OutboundFor(cfg, subject, cta, r));
  }

  /** The headers of a recipient's message. */
  lemma OutboundHeaders(cfg: Config, subject: string, cta: string, r: Subscriber)
    ensures OutboundFor(cfg, subject, cta, r).to == r.email
    ensures HeaderValue(OutboundFor(cfg, subject, cta, r).msg.headers, To) == Some(r.email)
    ensures HeaderValue(OutboundFor(cfg, subject, cta, r).msg.headers, Subject) == Some(subject)
    ensures HeaderValue(OutboundFor(cfg, subject, cta, r).msg.headers, From)
            == Some(cfg.fromName + " <" + cfg.fromEmail + ">")
  {
  }

  /** The plain-text body for brace-free fields, written out. */
  function PlainBody(name: string, company: string, cta: string, unsub: string): string {
    Plain0 + name + Plain1 + company + Plain2 + cta + Plain3 + unsub + Plain4
  }

  /** The HTML body for brace-free fields, written out. */
  function HtmlBody(name: string, company: string, cta: string, unsub: string): string {
    Html0 + name + Html1 + company + Html2 + cta + Html3 + unsub + Html4
  }

  lemma UnsubscribeBraceFree(email: string)
    requires '{' !in email
    ensures '{' !in UnsubscribeUrl(email)
  {
    assert '{' !in "mailto:unsubscribe@yourdomain.com";
    assert '{' !in "?subject=Unsubscribe";
    assert '{' !in "&email=";
  }

  /** The context of a recipient whose fields hold no brace is safe. */
  lemma SafeContextFor(r: Subscriber, cta: string)
    requires '{' !in r.name && '{' !in r.company && '{' !in r.email && '{' !in cta
    ensures SafeContext(ContextFor(r, cta))
  {
    UnsubscribeBraceFree(r.email);
    KeysAreKeys();
  }

  /** A nine-piece template of alternating texts and the four holes, filled
      from a safe context that defines all four keys. */
  lemma FilledPieces(ps: seq<Piece>, t0: string, t1: string, t2: string, t3: string, t4: string,
                     ctx: Context, name: string, company: string, cta: string, unsub: string)
    requires ps == [Text(t0), Hole("name"), Text(t1), Hole("company"), Text(t2),
                    Hole("cta_link"), Text(t3), Hole("unsubscribe_url"), Text(t4)]
    requires WellFormed(ps) && SafeContext(ctx)
    requires Lookup(ctx, "name") == Some(name) && Lookup(ctx, "company") == Some(company)
    requires Lookup(ctx, "cta_link") == Some(cta) && Lookup(ctx, "unsubscribe_url") == Some(unsub)
    ensures Rendered(Flatten(ps), ctx)
            == Flatten([Text(t0), Text(name), Text(t1), Text(company), Text(t2),
                        Text(cta), Text(t3), Text(unsub), Text(t4)])
  {
    RenderFlatten(ps, ctx);
    FillAllNine(Text(t0), Hole("name"), Text(t1), Hole("company"), Text(t2),
                Hole("cta_link"), Text(t3), Hole("unsubscribe_url"), Text(t4), ctx);
  }

  lemma Spell(t0: string, a: string, t1: string, b: string, t2: string, c: string, t3: string, d: string, t4: string)
    ensures Flatten([Text(t0), Text(a), Text(t1), Text(b), Text(t2), Text(c), Text(t3), Text(d), Text(t4)])
            == t0 + a + t1 + b + t2 + c + t3 + d + t4
  {
    FlattenNine(Text(t0), Text(a), Text(t1), Text(b), Text(t2), Text(c), Text(t3), Text(d), Text(t4));
    Regroup(t0, a, t1, b, t2, c, t3, d, t4);
  }

  /** The parts of a recipient's message hold the two templates rendered
      with the recipient's context, plain text first. */
  lemma OutboundParts(cfg: Config, subject: string, cta: string, r: Subscriber)
    ensures |OutboundFor(cfg, subject, cta, r).msg.parts| == 2
    ensures OutboundFor(cfg, subject, cta, r).msg.parts[0]
            == Part(Rendered(PlainTemplate, ContextFor(r, cta)), "plain", "utf-8")
    ensures OutboundFor(cfg, subject, cta, r).msg.parts[1]
            == Part(Rendered(HtmlTemplate, ContextFor(r, cta)), "html", "utf-8")
  {
  }

  lemma PlainRendered(r: Subscriber, cta: string)
    requires '{' !in r.name && '{' !in r.company && '{' !in r.email && '{' !in cta
    ensures Rendered(PlainTemplate, ContextFor(r, cta)) == PlainBody(r.name, r.company, cta, UnsubscribeUrl(r.email))
  {
    PlainTemplatePieces();
    SafeContextFor(r, cta);
    ContextLookups(r, cta);
    FilledPieces(PlainPieces, Plain0, Plain1, Plain2, Plain3, Plain4, ContextFor(r, cta),
                 r.name, r.company, cta, UnsubscribeUrl(r.email));
    Spell(Plain0, r.name, Plain1, r.company, Plain2, cta, Plain3, UnsubscribeUrl(r.email), Plain4);
  }

  lemma HtmlRendered(r: Subscriber, cta: string)
    requires '{' !in r.name && '{' !in r.company && '{' !in r.email && '{' !in cta
    ensures Rendered(HtmlTemplate, ContextFor(r, cta)) == HtmlBody(r.name, r.company, cta, UnsubscribeUrl(r.email))
  {
    HtmlTemplatePieces();
    SafeContextFor(r, cta);
    ContextLookups(r, cta);
    FilledPieces(HtmlPieces, Html0, Html1, Html2, Html3, Html4, ContextFor(r, cta),
                 r.name, r.company, cta, UnsubscribeUrl(r.email));
    Spell(Html0, r.name, Html1, r.company, Html2, cta, Html3, UnsubscribeUrl(r.email), Html4);
  }

  /** The order of the context made visible: a name that spells the
      company's placeholder is substituted again by the company entry that
      follows it, so that recipient's plain-text body shows the company
      where the name belongs as well. */
  lemma PlainNameRenderedAgain(r: Subscriber, cta: string)
    requires r.name == Placeholder("company")
    requires '{' !in r.company && '{' !in r.email && '{' !in cta
    ensures Rendered(PlainTemplate, ContextFor(r, cta))
            == PlainBody(r.company, r.company, cta, UnsubscribeUrl(r.email))
  {
    var ctx := ContextFor(r, cta);
    var rest := ctx[1..];
    var unsub := UnsubscribeUrl(r.email);
    var ps := [Text(Plain0), Hole("company"), Text(Plain1), Hole("company"), Text(Plain2),
               Hole("cta_link"), Text(Plain3), Hole("unsubscribe_url"), Text(Plain4)];
    PlainTemplatePieces();
    KeysAreKeys();
    ReplaceFlatten(PlainPieces, "name", r.name);
    NameAsCompanyPieces(r.name);
    RestOfContext(r, cta);
    RenderFlatten(ps, rest);
    FillAllNine(Text(Plain0), Hole("company"), Text(Plain1), Hole("company"), Text(Plain2),
                Hole("cta_link"), Text(Plain3), Hole("unsubscribe_url"), Text(Plain4), rest);
    Spell(Plain0, r.company, Plain1, r.company, Plain2, cta, Plain3, unsub, Plain4);
  }

  /** Filling the name hole with the company's placeholder spells the plain
      template in which the name hole is a second company hole. */
  lemma NameAsCompanyPieces(name: string)
    requires name == Placeholder("company")
    ensures Flatten(Fill(PlainPieces, "name", name))
            == Flatten([Text(Plain0), Hole("company"), Text(Plain1), Hole("company"), Text(Plain2),
                        Hole("cta_link"), Text(Plain3), Hole("unsubscribe_url"), Text(Plain4)])
    ensures WellFormed([Text(Plain0), Hole("company"), Text(Plain1), Hole("company"), Text(Plain2),
                        Hole("cta_link"), Text(Plain3), Hole("unsubscribe_url"), Text(Plain4)])
  {
    var ps := [Text(Plain0), Hole("company"), Text(Plain1), Hole("company"), Text(Plain2),
               Hole("cta_link"), Text(Plain3), Hole("unsubscribe_url"), Text(Plain4)];
    var filled := Fill(PlainPieces, "name", name);
    forall j | 0 <= j < |filled| ensures PieceText(filled[j]) == PieceText(ps[j]) {
      if j != 1 {
        assert PlainPieces[j] != Hole("name");
        assert filled[j] == PlainPieces[j] == ps[j];
      }
    }
    FlattenSameText(filled, ps);
    Plain1BraceFree();
    PlainShortBraceFree();
    KeysAreKeys();
    WellFormedNine(Text(Plain0), Hole("company"), Text(Plain1), Hole("company"), Text(Plain2),
                   Hole("cta_link"), Text(Plain3), Hole("unsubscribe_url"), Text(Plain4));
  }

  /** The entries after `name` in a recipient's context: safe, and each
      key finds its field. */
  lemma RestOfContext(r: Subscriber, cta: string)
    requires '{' !in r.company && '{' !in r.email && '{' !in cta
    ensures SafeContext(ContextFor(r, cta)[1..])
    ensures Lookup(ContextFor(r, cta)[1..], "company") == Some(r.company)
    ensures Lookup(ContextFor(r, cta)[1..], "unsubscribe_url") == Some(UnsubscribeUrl(r.email))
    ensures Lookup(ContextFor(r, cta)[1..], "cta_link") == Some(cta)
  {
    var c1 := [("company", r.company), ("unsubscribe_url", UnsubscribeUrl(r.email)), ("cta_link", cta)];
    var c2 := [("unsubscribe_url", UnsubscribeUrl(r.email)), ("cta_link", cta)];
    assert ContextFor(r, cta)[1..] == c1 && c1[1..] == c2 && c2[1..] == [("cta_link", cta)];
    UnsubscribeBraceFree(r.email);
    KeysAreKeys();
    LookupCons(c1, "unsubscribe_url");
    LookupCons(c1, "cta_link");
    LookupCons(c2, "cta_link");
  }

  /** A context defining the four keys covers every hole of a nine-piece
      template. */
  lemma HolesCovered(ps: seq<Piece>, t0: string, t1: string, t2: string, t3: string, t4: string, ctx: Context)
    requires ps == [Text(t0), Hole("name"), Text(t1), Hole("company"), Text(t2),
                    Hole("cta_link"), Text(t3), Hole("unsubscribe_url"), Text(t4)]
    requires Lookup(ctx, "name").Some? && Lookup(ctx, "company").Some?
    requires Lookup(ctx, "cta_link").Some? && Lookup(ctx, "unsubscribe_url").Some?
    ensures forall j :: 0 <= j < |ps| && ps[j].Hole? ==> Lookup(ctx, ps[j].key).Some?
  {
    forall j | 0 <= j < |ps| && ps[j].Hole? ensures Lookup(ctx, ps[j].key).Some? {
      assert j == 1 || j == 3 || j == 5 || j == 7;
    }
  }

  lemma PlainComplete(r: Subscriber, cta: string, k: string)
    requires '{' !in r.name && '{' !in r.company && '{' !in r.email && '{' !in cta
    ensures !Contains(Rendered(PlainTemplate, ContextFor(r, cta)), Placeholder(k))
  {
    PlainTemplatePieces();
    SafeContextFor(r, cta);
    ContextLookups(r, cta);
    HolesCovered(PlainPieces, Plain0, Plain1, Plain2, Plain3, Plain4, ContextFor(r, cta));
    NoPlaceholderLeft(PlainPieces, ContextFor(r, cta), k);
  }

  lemma HtmlComplete(r: Subscriber, cta: string, k: string)
    requires '{' !in r.name && '{' !in r.company && '{' !in r.email && '{' !in cta
    ensures !Contains(Rendered(HtmlTemplate, ContextFor(r, cta)), Placeholder(k))
  {
    HtmlTemplatePieces();
    SafeContextFor(r, cta);
    ContextLookups(r, cta);
    HolesCovered(HtmlPieces, Html0, Html1, Html2, Html3, Html4, ContextFor(r, cta));
    NoPlaceholderLeft(HtmlPieces, ContextFor(r, cta), k);
  }

  /** For a recipient whose fields hold no brace, the plain-text part reads
      the template with name, company, link and unsubscribe URL in place,
      and no placeholder of any key is left. */
  lemma PlainPartText(cfg: Config, subject: string, cta: string, r: Subscriber, k: string)
    requires '{' !in r.name && '{' !in r.company && '{' !in r.email && '{' !in cta
    ensures OutboundFor(cfg, subject, cta, r).msg.parts[0].body
            == PlainBody(r.name, r.company, cta, UnsubscribeUrl(r.email))
    ensures !Contains(OutboundFor(cfg, subject, cta, r).msg.parts[0].body, Placeholder(k))
  {
    OutboundParts(cfg, subject, cta, r);
    PlainRendered(r, cta);
    PlainComplete(r, cta, k);
  }

  /** The same for the HTML part. */
  lemma HtmlPartText(cfg: Config, subject: string, cta: string, r: Subscriber, k: string)
    requires '{' !in r.name && '{' !in r.company && '{' !in r.email && '{' !in cta
    ensures OutboundFor(cfg, subject, cta, r).msg.parts[1].body
            == HtmlBody(r.name, r.company, cta, UnsubscribeUrl(r.email))
    ensures !Contains(OutboundFor(cfg, subject, cta, r).msg.parts[1].body, Placeholder(k))
  {
    OutboundParts(cfg, subject, cta, r);
    HtmlRendered(r, cta);
    HtmlComplete(r, cta, k);
  }
}
