/** The template renderer, `render(template, ctx)`: literal replacement of
    `{{key}}` by the key's value, one context entry at a time, in the order
    the context was built. */
module Render {
  import opened Lists
  import opened Strings

  /** A render context: the `(key, value)` pairs of a dictionary in its
      insertion order. */
  type Context = seq<(string, string)>

  datatype Option<T> = None | Some(value: T)

  /** The value of the first entry of `ctx` with key `k`, as a dictionary
      lookup `ctx.get(k)` gives it (a dictionary's keys are distinct, so the
      first entry is the only one). */
  function Lookup(ctx: Context, k: string): (r: Option<string>)
    ensures r.Some? <==> exists i :: 0 <= i < |ctx| && ctx[i].0 == k
    ensures r.Some? ==> exists i :: 0 <= i < |ctx| && ctx[i] == (k, r.value)
                                    && forall j :: 0 <= j < i ==> ctx[j].0 != k
  {
    if ctx == [] then None
    else if ctx[0].0 == k then Some(ctx[0].1)
    else
      var r := Lookup(ctx[1..], k);
      assert forall i :: 0 < i < |ctx| ==> ctx[i] == ctx[1..][i - 1];
      r
  }

  /** One step of the lookup. */
  lemma LookupCons(ctx: Context, k: string)
    requires ctx != []
    ensures Lookup(ctx, k) == if ctx[0].0 == k then Some(ctx[0].1) else Lookup(ctx[1..], k)
  {
  }

  function Placeholder(key: string): (p: string)
    ensures |p| == |key| + 4 && p[0] == '{' && p[1] == '{'
  {
    "{{" + key + "}}"
  }

  /** The text after substituting every entry of `ctx`, first entry first:
      each step replaces all occurrences of one placeholder in the text the
      previous steps produced. */
  function Rendered(template: string, ctx: Context): string
    decreases |ctx|
  {
    if ctx == [] then template
    else Rendered(Replace(template, Placeholder(ctx[0].0), ctx[0].1), ctx[1..])
  }

  /** The loop of `render`: reassign the text once per context entry. */
  method Render(template: string, ctx: Context) returns (text: string)
    ensures text == Rendered(template, ctx)
  {
    text := template;
    var i := 0;
    while i < |ctx|
      invariant 0 <= i <= |ctx|
      invariant Rendered(text, ctx[i..]) == Rendered(template, ctx)
    {
      var (k, v) := ctx[i];
      DropDrop(ctx, i, 1);
      text := Replace(text, Placeholder(k), v);
      i := i + 1;
    }
  }

  /** Appending an entry to the context applies one more replacement to the
      result: rendering is a left fold of Replace over the entries. */
  lemma {:induction false} RenderedSnoc(template: string, ctx: Context, k: string, v: string)
    ensures Rendered(template, ctx + [(k, v)]) == Replace(Rendered(template, ctx), Placeholder(k), v)
    decreases |ctx|
  {
    if ctx == [] {
      EmptyAppend(ctx, [(k, v)]);
      assert [(k, v)][1..] == [];
    } else {
      DropOfAppend(ctx, [(k, v)]);
      RenderedSnoc(Replace(template, Placeholder(ctx[0].0), ctx[0].1), ctx[1..], k, v);
    }
  }

  /** A template that holds no placeholder of any context key is returned
      unchanged. */
  lemma {:induction false} RenderedUnchanged(template: string, ctx: Context)
    requires forall i :: 0 <= i < |ctx| ==> !Contains(template, Placeholder(ctx[i].0))
    ensures Rendered(template, ctx) == template
    decreases |ctx|
  {
    if ctx != [] {
      ReplaceWithoutOccurrence(template, Placeholder(ctx[0].0), ctx[0].1);
      forall i | 0 <= i < |ctx[1..]| ensures !Contains(template, Placeholder(ctx[1..][i].0)) {
        assert ctx[1..][i] == ctx[i + 1];
      }
      RenderedUnchanged(template, ctx[1..]);
    }
  }

  /** Because entries are applied in order, a value that contains the
      placeholder of a LATER key is substituted again: a name of
      `{{company}}` renders as the company. */
  lemma ValueRenderedAgainByLaterKey(company: string)
    ensures Rendered(Placeholder("name"), [("name", Placeholder("company")), ("company", company)]) == company
  {
    var ctx := [("name", Placeholder("company")), ("company", company)];
    var rest := ctx[1..];
    assert rest == [("company", company)] && rest[1..] == [];
    ReplaceWholeString(Placeholder("name"), Placeholder("company"));
    ReplaceWholeString(Placeholder("company"), company);
    calc {
      Rendered(Placeholder("name"), ctx);
      Rendered(Replace(Placeholder("name"), Placeholder("name"), Placeholder("company")), rest);
      Rendered(Placeholder("company"), rest);
      Rendered(Replace(Placeholder("company"), Placeholder("company"), company), rest[1..]);
      Rendered(company, []);
    }
  }

  /** A value that contains the placeholder of an EARLIER key stays verbatim. */
  lemma ValueNotRenderedByEarlierKey(name: string)
    ensures Rendered(Placeholder("company"), [("name", name), ("company", Placeholder("name"))]) == Placeholder("name")
  {
    var ctx := [("name", name), ("company", Placeholder("name"))];
    var p := Placeholder("company");
    var q := Placeholder("name");
    assert p == "{{company}}" && q == "{{name}}";
    forall i | 0 <= i <= |p| ensures !OccursAt(p, q, i) {
      if i + |q| <= |p| {
        assert p[i..i + |q|][2] == p[i + 2] != q[2];
      }
    }
    ReplaceWithoutOccurrence(p, Placeholder("name"), name);
    ReplaceWholeString(p, Placeholder("name"));
    var rest := ctx[1..];
    assert rest == [("company", Placeholder("name"))] && rest[1..] == [];
    calc {
      Rendered(p, ctx);
      Rendered(Replace(p, Placeholder("name"), name), rest);
      Rendered(p, rest);
      Rendered(Replace(p, p, Placeholder("name")), rest[1..]);
      Rendered(Placeholder("name"), []);
    }
  }

  /** A string that is exactly the pattern becomes the value. */
  lemma ReplaceWholeString(pat: string, val: string)
    requires |pat| > 0
    ensures Replace(pat, pat, val) == val
  {
    assert pat[..|pat|] == pat;
    assert pat[|pat|..] == [];
    ReplaceWithoutShort([], pat, val);
    EmptyAppend([], val);
  }
}
