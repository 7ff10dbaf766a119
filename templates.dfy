/** The two message templates seen as text interleaved with placeholders.
    For such a template, and for context values that hold no brace, the
    script's replace-in-order rendering fills every placeholder whose key is
    in the context with that key's value and leaves every other one as it is. */
module Templates {
  import opened Lists
  import opened Strings
  import opened Render

  datatype Piece = Text(text: string) | Hole(key: string)

  function PieceText(p: Piece): string {
    match p
    case Text(s) => s
    case Hole(k) => Placeholder(k)
  }

  /** The template text the pieces spell. */
  function Flatten(ps: seq<Piece>): string {
    if ps == [] then [] else PieceText(ps[0]) + Flatten(ps[1..])
  }

  /** A placeholder key: no brace inside. */
  predicate IsKey(k: string) {
    '{' !in k && '}' !in k
  }

  predicate WellFormedPiece(p: Piece) {
    match p
    case Text(s) => '{' !in s
    case Hole(k) => IsKey(k)
  }

  /** Every opening brace of the text belongs to a placeholder. */
  predicate WellFormed(ps: seq<Piece>) {
    forall i :: 0 <= i < |ps| ==> WellFormedPiece(ps[i])
  }

  /** Context entries whose keys are keys and whose values hold no opening
      brace. */
  predicate SafeContext(ctx: Context) {
    forall i :: 0 <= i < |ctx| ==> IsKey(ctx[i].0) && '{' !in ctx[i].1
  }

  function FillPiece(p: Piece, k: string, v: string): Piece {
    if p == Hole(k) then Text(v) else p
  }

  /** The pieces after filling hole `k` with `v`. */
  function Fill(ps: seq<Piece>, k: string, v: string): (r: seq<Piece>)
    ensures |r| == |ps|
    ensures forall i :: 0 <= i < |ps| ==> r[i] == FillPiece(ps[i], k, v)
  {
    if ps == [] then []
    else
      var r := [FillPiece(ps[0], k, v)] + Fill(ps[1..], k, v);
      assert forall i :: 0 < i < |ps| ==> ps[i] == ps[1..][i - 1];
      r
  }

  /** The pieces after filling the holes of each context entry in turn. */
  function FillAll(ps: seq<Piece>, ctx: Context): seq<Piece>
    decreases |ctx|
  {
    if ctx == [] then ps else FillAll(Fill(ps, ctx[0].0, ctx[0].1), ctx[1..])
  }

  /** What one piece becomes: a hole whose key the context defines becomes
      that key's value, anything else stays. */
  function Resolve(p: Piece, ctx: Context): Piece {
    match p
    case Text(_) => p
    case Hole(k) =>
      match Lookup(ctx, k)
      case Some(v) => Text(v)
      case None => p
  }

  /** Filling entry by entry acts on each piece independently, as Resolve. */
  lemma {:induction false} FillAllPointwise(ps: seq<Piece>, ctx: Context)
    ensures |FillAll(ps, ctx)| == |ps|
    ensures forall j :: 0 <= j < |ps| ==> FillAll(ps, ctx)[j] == Resolve(ps[j], ctx)
    decreases |ctx|
  {
    if ctx != [] {
      var (k, v) := ctx[0];
      var qs := Fill(ps, k, v);
      FillAllPointwise(qs, ctx[1..]);
      forall j | 0 <= j < |ps| ensures FillAll(ps, ctx)[j] == Resolve(ps[j], ctx) {
        ResolveStep(ps[j], ctx);
      }
    }
  }

  lemma ResolveStep(p: Piece, ctx: Context)
    requires ctx != []
    ensures Resolve(FillPiece(p, ctx[0].0, ctx[0].1), ctx[1..]) == Resolve(p, ctx)
  {
  }

  lemma FlattenCons(ps: seq<Piece>)
    requires ps != []
    ensures Flatten(ps) == PieceText(ps[0]) + Flatten(ps[1..])
  {
  }

  lemma FillCons(ps: seq<Piece>, k: string, v: string)
    requires ps != []
    ensures Fill(ps, k, v)[1..] == Fill(ps[1..], k, v)
  {
  }

  /** No placeholder starts inside a brace-free text. */
  lemma NoOccurrenceInText(s: string, rest: string, pat: string)
    requires '{' !in s && |pat| > 0 && pat[0] == '{'
    ensures forall i :: 0 <= i < |s| ==> !OccursAt(s + rest, pat, i)
  {
    forall i | 0 <= i < |s| ensures !OccursAt(s + rest, pat, i) {
      if i + |pat| <= |s + rest| {
        assert (s + rest)[i..i + |pat|][0] == s[i];
      }
    }
  }

  /** The placeholder of key `k` starts nowhere inside the placeholder of a
      different key `k2`. */
  lemma NoOccurrenceInOtherHole(k2: string, k: string, rest: string)
    requires IsKey(k2) && IsKey(k) && k2 != k
    ensures forall i :: 0 <= i < |Placeholder(k2)| ==> !OccursAt(Placeholder(k2) + rest, Placeholder(k), i)
  {
    var h := Placeholder(k2);
    var x := h + rest;
    var pat := Placeholder(k);
    forall i | 0 <= i < |h| ensures !OccursAt(x, pat, i) {
      if i + |pat| <= |x| {
        var w := x[i..i + |pat|];
        if i == 0 {
          if |k| < |k2| {
            assert w[2 + |k|] == k2[|k|] != '}' == pat[2 + |k|];
          } else if |k| == |k2| {
            assert w[2..2 + |k|] == k2 && pat[2..2 + |k|] == k;
          } else {
            assert w[2 + |k2|] == '}' != k[|k2|] == pat[2 + |k2|];
          }
        } else if i == 1 {
          assert w[1] == h[2] != '{';
        } else {
          assert w[0] == h[i] != '{';
        }
      }
    }
  }

  /** One replacement step on a well-formed template is one fill of the
      corresponding hole. */
  lemma {:induction false} ReplaceFlatten(ps: seq<Piece>, k: string, v: string)
    requires WellFormed(ps) && IsKey(k)
    ensures Replace(Flatten(ps), Placeholder(k), v) == Flatten(Fill(ps, k, v))
    decreases |ps|
  {
    var pat := Placeholder(k);
    if ps == [] {
      ReplaceWithoutShort([], pat, v);
    } else {
      var rest := Flatten(ps[1..]);
      FlattenCons(ps);
      FillCons(ps, k, v);
      FlattenCons(Fill(ps, k, v));
      assert WellFormed(ps[1..]) by {
        forall i | 0 <= i < |ps[1..]| ensures WellFormedPiece(ps[1..][i]) {
          assert ps[1..][i] == ps[i + 1];
        }
      }
      ReplaceFlatten(ps[1..], k, v);
      assert WellFormedPiece(ps[0]);
      match ps[0]
      case Text(s) =>
        NoOccurrenceInText(s, rest, pat);
        ReplaceSkip(s, rest, pat, v);
      case Hole(k2) =>
        if k2 == k {
          AppendParts(pat, rest);
          ReplaceAtStart(pat + rest, pat, v);
        } else {
          NoOccurrenceInOtherHole(k2, k, rest);
          ReplaceSkip(Placeholder(k2), rest, pat, v);
        }
    }
  }

  /** Pieces that spell the same texts one by one spell the same template. */
  lemma {:induction false} FlattenSameText(ps: seq<Piece>, qs: seq<Piece>)
    requires |ps| == |qs|
    requires forall j :: 0 <= j < |ps| ==> PieceText(ps[j]) == PieceText(qs[j])
    ensures Flatten(ps) == Flatten(qs)
  {
    if ps != [] {
      assert forall j :: 0 <= j < |ps| - 1 ==> ps[1..][j] == ps[j + 1] && qs[1..][j] == qs[j + 1];
      FlattenSameText(ps[1..], qs[1..]);
      FlattenCons(ps);
      FlattenCons(qs);
    }
  }

  lemma FillWellFormed(ps: seq<Piece>, k: string, v: string)
    requires WellFormed(ps) && '{' !in v
    ensures WellFormed(Fill(ps, k, v))
  {
  }

  lemma FillWithoutHole(ps: seq<Piece>, k: string, v: string)
    requires forall j :: 0 <= j < |ps| ==> ps[j] != Hole(k)
    ensures Fill(ps, k, v) == ps
  {
  }

  /** A well-formed template without a hole for `k` contains no placeholder
      of `k`: were there one, replacing it by a longer value would change
      the text, yet a fill of a missing hole changes nothing. */
  lemma NoHoleNoPlaceholder(ps: seq<Piece>, k: string)
    requires WellFormed(ps) && IsKey(k)
    requires forall j :: 0 <= j < |ps| ==> ps[j] != Hole(k)
    ensures !Contains(Flatten(ps), Placeholder(k))
  {
    var w := Placeholder(k) + "}";
    ReplaceFlatten(ps, k, w);
    FillWithoutHole(ps, k, w);
    ReplaceLonger(Flatten(ps), Placeholder(k), w);
  }

  /** After the step for key `k` of a well-formed template, with a value
      holding no opening brace, no placeholder of `k` is left. */
  lemma StepRemovesPlaceholder(ps: seq<Piece>, k: string, v: string)
    requires WellFormed(ps) && IsKey(k) && '{' !in v
    ensures !Contains(Replace(Flatten(ps), Placeholder(k), v), Placeholder(k))
  {
    ReplaceFlatten(ps, k, v);
    FillWellFormed(ps, k, v);
    NoHoleNoPlaceholder(Fill(ps, k, v), k);
  }

  /** Rendering a well-formed template with a safe context spells the filled
      pieces. */
  lemma {:induction false} RenderFlatten(ps: seq<Piece>, ctx: Context)
    requires WellFormed(ps) && SafeContext(ctx)
    ensures Rendered(Flatten(ps), ctx) == Flatten(FillAll(ps, ctx))
    decreases |ctx|
  {
    if ctx != [] {
      var (k, v) := ctx[0];
      assert IsKey(k) && '{' !in v;
      ReplaceFlatten(ps, k, v);
      FillWellFormed(ps, k, v);
      assert SafeContext(ctx[1..]) by {
        forall i | 0 <= i < |ctx[1..]| ensures IsKey(ctx[1..][i].0) && '{' !in ctx[1..][i].1 {
          assert ctx[1..][i] == ctx[i + 1];
        }
      }
      RenderFlatten(Fill(ps, k, v), ctx[1..]);
    }
  }

  /** The rendered text of a well-formed template under a safe context: each
      placeholder whose key the context defines is replaced by that key's
      value, each other placeholder stays verbatim, the text between them is
      kept. */
  lemma RenderedTemplate(ps: seq<Piece>, ctx: Context)
    requires WellFormed(ps) && SafeContext(ctx)
    ensures Rendered(Flatten(ps), ctx) == Flatten(FillAll(ps, ctx))
    ensures |FillAll(ps, ctx)| == |ps|
    ensures forall j :: 0 <= j < |ps| && ps[j].Text? ==> FillAll(ps, ctx)[j] == ps[j]
    ensures forall j :: 0 <= j < |ps| && ps[j].Hole? && Lookup(ctx, ps[j].key).Some? ==>
              FillAll(ps, ctx)[j] == Text(Lookup(ctx, ps[j].key).value)
    ensures forall j :: 0 <= j < |ps| && ps[j].Hole? && Lookup(ctx, ps[j].key).None? ==>
              FillAll(ps, ctx)[j] == ps[j]
  {
    RenderFlatten(ps, ctx);
    FillAllPointwise(ps, ctx);
  }

  lemma FillAllNine(p1: Piece, p2: Piece, p3: Piece, p4: Piece, p5: Piece, p6: Piece, p7: Piece, p8: Piece, p9: Piece,
                    ctx: Context)
    ensures FillAll([p1, p2, p3, p4, p5, p6, p7, p8, p9], ctx)
            == [Resolve(p1, ctx), Resolve(p2, ctx), Resolve(p3, ctx), Resolve(p4, ctx), Resolve(p5, ctx),
                Resolve(p6, ctx), Resolve(p7, ctx), Resolve(p8, ctx), Resolve(p9, ctx)]
  {
    var ps := [p1, p2, p3, p4, p5, p6, p7, p8, p9];
    FillAllPointwise(ps, ctx);
    var qs := FillAll(ps, ctx);
    assert qs[0] == Resolve(p1, ctx) && qs[1] == Resolve(p2, ctx) && qs[2] == Resolve(p3, ctx);
    assert qs[3] == Resolve(p4, ctx) && qs[4] == Resolve(p5, ctx) && qs[5] == Resolve(p6, ctx);
    assert qs[6] == Resolve(p7, ctx) && qs[7] == Resolve(p8, ctx) && qs[8] == Resolve(p9, ctx);
    NineElements(qs, Resolve(p1, ctx), Resolve(p2, ctx), Resolve(p3, ctx), Resolve(p4, ctx), Resolve(p5, ctx),
                 Resolve(p6, ctx), Resolve(p7, ctx), Resolve(p8, ctx), Resolve(p9, ctx));
  }

  lemma NineElements(qs: seq<Piece>, p1: Piece, p2: Piece, p3: Piece, p4: Piece, p5: Piece, p6: Piece, p7: Piece, p8: Piece, p9: Piece)
    requires |qs| == 9 && qs[0] == p1 && qs[1] == p2 && qs[2] == p3 && qs[3] == p4 && qs[4] == p5
    requires qs[5] == p6 && qs[6] == p7 && qs[7] == p8 && qs[8] == p9
    ensures qs == [p1, p2, p3, p4, p5, p6, p7, p8, p9]
  {
  }

  /** Pieces that are all brace-free texts spell a brace-free string. */
  lemma {:induction false} FlattenBraceFree(ps: seq<Piece>)
    requires forall j :: 0 <= j < |ps| ==> ps[j].Text? && '{' !in ps[j].text
    ensures '{' !in Flatten(ps)
  {
    if ps != [] {
      FlattenCons(ps);
      assert forall j :: 0 <= j < |ps[1..]| ==> ps[1..][j] == ps[j + 1];
      FlattenBraceFree(ps[1..]);
    }
  }

  /** A string without an opening brace contains no placeholder. */
  lemma BraceFreeHasNoPlaceholder(s: string, k: string)
    requires '{' !in s
    ensures !Contains(s, Placeholder(k))
  {
    var pat := Placeholder(k);
    forall i | 0 <= i <= |s| ensures !OccursAt(s, pat, i) {
      if i + |pat| <= |s| {
        assert s[i..i + |pat|][0] == s[i];
      }
    }
  }

  /** When the context defines every key the template uses, no placeholder
      of any key is left in the rendered text. */
  lemma NoPlaceholderLeft(ps: seq<Piece>, ctx: Context, k: string)
    requires WellFormed(ps) && SafeContext(ctx)
    requires forall j :: 0 <= j < |ps| && ps[j].Hole? ==> Lookup(ctx, ps[j].key).Some?
    ensures !Contains(Rendered(Flatten(ps), ctx), Placeholder(k))
  {
    RenderedTemplate(ps, ctx);
    var qs := FillAll(ps, ctx);
    forall j | 0 <= j < |qs| ensures qs[j].Text? && '{' !in qs[j].text {
      assert WellFormedPiece(ps[j]);
      if ps[j].Hole? {
        var e :| 0 <= e < |ctx| && ctx[e] == (ps[j].key, Lookup(ctx, ps[j].key).value);
        assert '{' !in ctx[e].1;
      }
    }
    FlattenBraceFree(qs);
    BraceFreeHasNoPlaceholder(Flatten(qs), k);
  }

  lemma FlattenPrepend(p: Piece, ps: seq<Piece>)
    ensures Flatten([p] + ps) == PieceText(p) + Flatten(ps)
  {
    assert ([p] + ps)[1..] == ps;
  }

  lemma NinePieces(p1: Piece, p2: Piece, p3: Piece, p4: Piece, p5: Piece, p6: Piece, p7: Piece, p8: Piece, p9: Piece)
    ensures [p1, p2, p3, p4, p5, p6, p7, p8, p9]
            == [p1] + ([p2] + ([p3] + ([p4] + ([p5] + ([p6] + ([p7] + ([p8] + [p9])))))))
  {
  }

  lemma FlattenFive(p5: Piece, p6: Piece, p7: Piece, p8: Piece, p9: Piece)
    ensures Flatten([p5] + ([p6] + ([p7] + ([p8] + [p9]))))
            == PieceText(p5) + (PieceText(p6) + (PieceText(p7) + (PieceText(p8) + PieceText(p9))))
  {
    var s9 := [p9];
    var s8 := [p8] + s9;
    var s7 := [p7] + s8;
    var s6 := [p6] + s7;
    FlattenPrepend(p9, []);
    FlattenPrepend(p8, s9);
    FlattenPrepend(p7, s8);
    FlattenPrepend(p6, s7);
    FlattenPrepend(p5, s6);
  }

  lemma FlattenNested(p1: Piece, p2: Piece, p3: Piece, p4: Piece, p5: Piece, p6: Piece, p7: Piece, p8: Piece, p9: Piece)
    ensures Flatten([p1] + ([p2] + ([p3] + ([p4] + ([p5] + ([p6] + ([p7] + ([p8] + [p9]))))))))
            == PieceText(p1) + (PieceText(p2) + (PieceText(p3) + (PieceText(p4) + (PieceText(p5)
               + (PieceText(p6) + (PieceText(p7) + (PieceText(p8) + PieceText(p9))))))))
  {
    var s5 := [p5] + ([p6] + ([p7] + ([p8] + [p9])));
    var s4 := [p4] + s5;
    var s3 := [p3] + s4;
    var s2 := [p2] + s3;
    FlattenFive(p5, p6, p7, p8, p9);
    FlattenPrepend(p4, s5);
    FlattenPrepend(p3, s4);
    FlattenPrepend(p2, s3);
    FlattenPrepend(p1, s2);
  }

  /** A template of nine pieces spells their texts one after the other. */
  lemma FlattenNine(p1: Piece, p2: Piece, p3: Piece, p4: Piece, p5: Piece, p6: Piece, p7: Piece, p8: Piece, p9: Piece)
    ensures Flatten([p1, p2, p3, p4, p5, p6, p7, p8, p9])
            == PieceText(p1) + (PieceText(p2) + (PieceText(p3) + (PieceText(p4) + (PieceText(p5)
               + (PieceText(p6) + (PieceText(p7) + (PieceText(p8) + PieceText(p9))))))))
  {
    NinePieces(p1, p2, p3, p4, p5, p6, p7, p8, p9);
    FlattenNested(p1, p2, p3, p4, p5, p6, p7, p8, p9);
  }

  // The two templates of the script: the literal text between its
  // placeholders, the template itself, and the template cut into pieces.

  const Html0: string := "\n<html><body>\n  <h2>Hello "
  const Html1: string :=
    ",</h2>\n" + "  <p>This month\U{2019}s newsletter " + "is crafted specially for <b>"
  const Html2: string := "</b>.</p>\n  <p><a href=\""
  const Html3: string := "\">Click here</a> to request " + "a quick audit.</p>\n  <p><a href=\""
  const Html4: string := "\">Unsubscribe</a></p>\n" + "</body></html>\n"

  const HtmlTemplate: string :=
    Html0 + "{{name}}" + Html1 + "{{company}}" + Html2 + "{{cta_link}}" + Html3
    + "{{unsubscribe_url}}" + Html4

  const HtmlPieces: seq<Piece> :=
    [Text(Html0), Hole("name"), Text(Html1), Hole("company"), Text(Html2),
     Hole("cta_link"), Text(Html3), Hole("unsubscribe_url"), Text(Html4)]

  const Plain0: string := "\nHello "
  const Plain1: string := ",\n\nThis month\U{2019}s newsletter " + "is crafted specially for "
  const Plain2: string := ".\n\nRequest audit: "
  const Plain3: string := "\n\nUnsubscribe: "
  const Plain4: string := "\n"

  const PlainTemplate: string :=
    Plain0 + "{{name}}" + Plain1 + "{{company}}" + Plain2 + "{{cta_link}}" + Plain3
    + "{{unsubscribe_url}}" + Plain4

  const PlainPieces: seq<Piece> :=
    [Text(Plain0), Hole("name"), Text(Plain1), Hole("company"), Text(Plain2),
     Hole("cta_link"), Text(Plain3), Hole("unsubscribe_url"), Text(Plain4)]

  /** Nine strings concatenated left to right or right to left agree. */
  lemma Regroup(s1: string, s2: string, s3: string, s4: string, s5: string, s6: string, s7: string, s8: string, s9: string)
    ensures s1 + s2 + s3 + s4 + s5 + s6 + s7 + s8 + s9
            == s1 + (s2 + (s3 + (s4 + (s5 + (s6 + (s7 + (s8 + s9)))))))
  {
  }

  lemma WellFormedNine(p1: Piece, p2: Piece, p3: Piece, p4: Piece, p5: Piece, p6: Piece, p7: Piece, p8: Piece, p9: Piece)
    requires WellFormedPiece(p1) && WellFormedPiece(p2) && WellFormedPiece(p3)
    requires WellFormedPiece(p4) && WellFormedPiece(p5) && WellFormedPiece(p6)
    requires WellFormedPiece(p7) && WellFormedPiece(p8) && WellFormedPiece(p9)
    ensures WellFormed([p1, p2, p3, p4, p5, p6, p7, p8, p9])
  {
  }

  // No text of the two templates holds a brace; the longer ones are checked
  // chunk by chunk.

  lemma Html0BraceFree() ensures '{' !in Html0 {}
  lemma Html1BraceFree() ensures '{' !in Html1 {
    assert '{' !in "  <p>This month\U{2019}s newsletter ";
    assert '{' !in "is crafted specially for <b>";
  }
  lemma Html2BraceFree() ensures '{' !in Html2 {}
  lemma Html3BraceFree() ensures '{' !in Html3 {
    assert '{' !in "\">Click here</a> to request ";
    assert '{' !in "a quick audit.</p>\n  <p><a href=\"";
  }
  lemma Html4BraceFree() ensures '{' !in Html4 {}
  lemma Plain1BraceFree() ensures '{' !in Plain1 {
    assert '{' !in ",\n\nThis month\U{2019}s newsletter ";
    assert '{' !in "is crafted specially for ";
  }
  lemma PlainShortBraceFree() ensures '{' !in Plain0 && '{' !in Plain2 && '{' !in Plain3 && '{' !in Plain4 {}

  lemma KeysAreKeys()
    ensures IsKey("name") && IsKey("company") && IsKey("cta_link") && IsKey("unsubscribe_url")
  {
  }

  lemma HtmlTemplateWellFormed()
    ensures WellFormed(HtmlPieces)
  {
    Html0BraceFree();
    Html1BraceFree();
    Html2BraceFree();
    Html3BraceFree();
    Html4BraceFree();
    KeysAreKeys();
    WellFormedNine(Text(Html0), Hole("name"), Text(Html1), Hole("company"), Text(Html2),
                   Hole("cta_link"), Text(Html3), Hole("unsubscribe_url"), Text(Html4));
  }

  lemma PlainTemplateWellFormed()
    ensures WellFormed(PlainPieces)
  {
    Plain1BraceFree();
    PlainShortBraceFree();
    KeysAreKeys();
    WellFormedNine(Text(Plain0), Hole("name"), Text(Plain1), Hole("company"), Text(Plain2),
                   Hole("cta_link"), Text(Plain3), Hole("unsubscribe_url"), Text(Plain4));
  }

  lemma PlaceholderNames()
    ensures Placeholder("name") == "{{name}}" && Placeholder("company") == "{{company}}"
    ensures Placeholder("cta_link") == "{{cta_link}}"
    ensures Placeholder("unsubscribe_url") == "{{unsubscribe_url}}"
  {
  }

  /** The HTML template is well formed and its pieces spell it. */
  lemma HtmlTemplatePieces()
    ensures WellFormed(HtmlPieces) && Flatten(HtmlPieces) == HtmlTemplate
  {
    HtmlTemplateWellFormed();
    PlaceholderNames();
    FlattenNine(Text(Html0), Hole("name"), Text(Html1), Hole("company"), Text(Html2),
                Hole("cta_link"), Text(Html3), Hole("unsubscribe_url"), Text(Html4));
    Regroup(Html0, "{{name}}", Html1, "{{company}}", Html2, "{{cta_link}}", Html3,
            "{{unsubscribe_url}}", Html4);
  }

  /** The plain-text template is well formed and its pieces spell it. */
  lemma PlainTemplatePieces()
    ensures WellFormed(PlainPieces) && Flatten(PlainPieces) == PlainTemplate
  {
    PlainTemplateWellFormed();
    PlaceholderNames();
    FlattenNine(Text(Plain0), Hole("name"), Text(Plain1), Hole("company"), Text(Plain2),
                Hole("cta_link"), Text(Plain3), Hole("unsubscribe_url"), Text(Plain4));
    Regroup(Plain0, "{{name}}", Plain1, "{{company}}", Plain2, "{{cta_link}}", Plain3,
            "{{unsubscribe_url}}", Plain4);
  }
}
