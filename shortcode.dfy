/**
 * The second half of the `[plugin_cards]` shortcode: the transient-backed
 * lookup and the assembly of the output from the cards.
 */
module Shortcode {
  import opened PhpValues
  import opened Directory
  import opened Resolver
  import opened Renderer

  /** The WordPress side the shortcode calls into. */
  datatype Env = Env(
    queryArgs: (Atts, map<string, bool>) -> map<string, ArgVal>, // plugin_cards_api_query_args
    api: Request -> ApiResult,                                   // plugins_api
    filters: CardFilters,
    escUrl: string -> string)                                    // esc_url

  // ---------------------------------------------------------------------------
  // Output assembly
  // ---------------------------------------------------------------------------

  datatype Layout = MultiplePlugins | SinglePlugin

  /** A piece of the shortcode's output: a wrapper's opening tag, a card, the closing tag. */
  datatype Chunk = Open(layout: Layout) | CardChunk(card: Card) | Close

  /** The positions of a result list that hold a plugin object. */
  function ObjectPositions(ps: seq<PluginValue>): set<int> {
    set i | 0 <= i < |ps| && ps[i].Obj?
  }

  /** Adding an entry at the end adds its position exactly when it is an object. */
  lemma ObjectPositionsExtend(ps: seq<PluginValue>)
    requires ps != []
    ensures var n := |ps| - 1;
      |ObjectPositions(ps)| == |ObjectPositions(ps[..n])| + (if ps[n].Obj? then 1 else 0)
  {
    var n := |ps| - 1;
    var front := ObjectPositions(ps[..n]);
    assert n !in front;
    if ps[n].Obj? {
      assert ObjectPositions(ps) == front + {n};
    } else {
      assert ObjectPositions(ps) == front;
    }
  }

  /** The plugin objects of a result list, in list order: one per object position. */
  function Objects(ps: seq<PluginValue>): (os: seq<PluginInfo>)
    ensures |os| == |ObjectPositions(ps)|
    ensures (forall i :: 0 <= i < |ps| ==> ps[i].Obj?) ==>
      |os| == |ps| && forall i :: 0 <= i < |ps| ==> os[i] == ps[i].info
  {
    if ps == [] then []
    else
      var last := ps[|ps| - 1];
      ObjectPositionsExtend(ps);
      Objects(ps[..|ps| - 1]) + (if last.Obj? then [last.info] else [])
  }

  /** The chunk `pc_render_plugin_card` adds for one entry; `false` adds nothing. */
  function EntryChunks(v: PluginValue, f: CardFilters, escUrl: string -> string): seq<Chunk> {
    match RenderValue(v, f, escUrl)
    case None => []
    case Some(c) => [CardChunk(c)]
  }

  /** The cards of a result list, built entry by entry. */
  function CardsOf(ps: seq<PluginValue>, f: CardFilters, escUrl: string -> string): seq<Chunk> {
    if ps == [] then []
    else CardsOf(ps[..|ps| - 1], f, escUrl) + EntryChunks(ps[|ps| - 1], f, escUrl)
  }

  /** A result list yields one card per plugin object, in list order, and nothing else. */
  lemma {:induction false} CardsInListOrder(ps: seq<PluginValue>, f: CardFilters, escUrl: string -> string)
    ensures |CardsOf(ps, f, escUrl)| == |Objects(ps)|
    ensures forall k :: 0 <= k < |Objects(ps)| ==>
      CardsOf(ps, f, escUrl)[k] == CardChunk(RenderCard(Objects(ps)[k], f, escUrl))
  {
    if ps != [] {
      CardsInListOrder(ps[..|ps| - 1], f, escUrl);
    }
  }

  /** Extending a list by one entry extends its cards by that entry's card, if any. */
  lemma CardsOfExtend(ps: seq<PluginValue>, i: nat, f: CardFilters, escUrl: string -> string)
    requires i < |ps|
    ensures CardsOf(ps[..i + 1], f, escUrl) == CardsOf(ps[..i], f, escUrl) + EntryChunks(ps[i], f, escUrl)
  {
    assert ps[..i + 1][..i] == ps[..i];
  }

  /**
   * The shortcode's output for a lookup result: nothing unless the result is a
   * non-error object; otherwise one wrapper holding the cards of the `plugins`
   * list, or the single card of the object itself.
   */
  function Assembled(res: ApiResult, f: CardFilters, escUrl: string -> string): seq<Chunk> {
    match res
    case Multiple(ps) => [Open(MultiplePlugins)] + CardsOf(ps, f, escUrl) + [Close]
    case Single(p) => [Open(SinglePlugin), CardChunk(RenderCard(p, f, escUrl)), Close]
    case _ => []
  }

  /**
   * The output is empty exactly when the lookup failed; otherwise it is one
   * wrapper, of the kind the result calls for, holding nothing but cards.
   */
  lemma AssembledShape(res: ApiResult, f: CardFilters, escUrl: string -> string)
    ensures var out := Assembled(res, f, escUrl);
      && (out == [] <==> !Usable(res))
      && (Usable(res) ==>
        && |out| >= 2
        && out[0] == Open(if res.Multiple? then MultiplePlugins else SinglePlugin)
        && out[|out| - 1] == Close
        && forall k :: 0 < k < |out| - 1 ==> out[k].CardChunk?)
      && (res.Multiple? ==> out[1..|out| - 1] == CardsOf(res.plugins, f, escUrl))
      && (res.Single? ==> |out| == 3 && out[1] == CardChunk(RenderCard(res.info, f, escUrl)))
  {
    var out := Assembled(res, f, escUrl);
    if res.Multiple? {
      var cards := CardsOf(res.plugins, f, escUrl);
      CardsInListOrder(res.plugins, f, escUrl);
      assert out[1..|out| - 1] == cards;
      assert forall k :: 0 < k < |out| - 1 ==> out[k] == cards[k - 1];
    }
  }

  /** The output built the way the plugin builds it: `.=` onto a string, card by card. */
  method Assemble(res: ApiResult, f: CardFilters, escUrl: string -> string) returns (out: seq<Chunk>)
    ensures out == Assembled(res, f, escUrl)
  {
    out := [];
    if Usable(res) {
      if res.Multiple? {
        var ps := res.plugins;
        out := out + [Open(MultiplePlugins)];
        var i := 0;
        while i < |ps|
          invariant 0 <= i <= |ps|
          invariant out == [Open(MultiplePlugins)] + CardsOf(ps[..i], f, escUrl)
        {
          var card := RenderValue(ps[i], f, escUrl);
          if card.Some? {
            out := out + [CardChunk(card.value)];
          }
          CardsOfExtend(ps, i, f, escUrl);
          i := i + 1;
        }
        assert ps[..i] == ps;
        out := out + [Close];
        assert out == Assembled(res, f, escUrl) by {
          assert res == Multiple(ps);
        }
      } else {
        out := out + [Open(SinglePlugin)];
        out := out + [CardChunk(RenderCard(res.info, f, escUrl))];
        out := out + [Close];
      }
    }
  }

  // ---------------------------------------------------------------------------
  // Transient-backed lookup
  // ---------------------------------------------------------------------------

  /** The outcome of a lookup: the result, the transients afterwards, and the request sent, if any. */
  datatype Fetch = Fetch(result: ApiResult, cache: map<string, ApiResult>, lookup: Option<Request>)

  /** Two transient maps hold the same thing under `key`. */
  predicate SameAt(m1: map<string, ApiResult>, m2: map<string, ApiResult>, key: string) {
    (key in m1 <==> key in m2) && (key in m1 ==> m1[key] == m2[key])
  }

  /**
   * `get_transient`, and on a miss `plugins_api` followed by `set_transient`
   * when the answer is a non-error object. A stored value counts as a hit
   * unless it is falsy.
   */
  function CacheThrough(cache: map<string, ApiResult>, key: string, req: Request, api: Request -> ApiResult): (r: Fetch)
    ensures r.lookup.None? <==> key in cache && !cache[key].Nothing?
    ensures r.lookup.None? ==> r.result == cache[key] && r.cache == cache
    ensures r.lookup.Some? ==> r.lookup.value == req && r.result == api(req)
    ensures !Usable(r.result) ==> r.cache == cache
    ensures r.lookup.Some? && Usable(r.result) ==> key in r.cache && r.cache[key] == r.result
    ensures forall other :: other != key ==> SameAt(r.cache, cache, other)
  {
    if key in cache && !cache[key].Nothing? then Fetch(cache[key], cache, None)
    else
      var res := api(req);
      Fetch(res, if Usable(res) then cache[key := res] else cache, Some(req))
  }

  // ---------------------------------------------------------------------------
  // The whole shortcode
  // ---------------------------------------------------------------------------

  /** The query a shortcode runs for its attributes. */
  function ModeOf(raw: map<string, string>, env: Env): Mode {
    var atts := ShortcodeAtts(raw);
    Resolve(env.queryArgs(atts, QueryFields()), atts)
  }

  /** `$plugin_info` at the end of the chain; unset (null) when no query ran. */
  function Lookup(scheme: KeyScheme, cache: map<string, ApiResult>, raw: map<string, string>, env: Env): Fetch {
    var atts := ShortcodeAtts(raw);
    var mode := ModeOf(raw, env);
    match mode
    case NoQuery => Fetch(Nothing, cache, None)
    case CustomQuery(args) =>
      var req := RequestFor(mode, PerPage(atts)).value;
      Fetch(env.api(req), cache, Some(req))
    case Filtered(k, v) =>
      CacheThrough(cache, CacheKey(scheme, k, v), RequestFor(mode, PerPage(atts)).value, env.api)
  }

  /** What one shortcode evaluation returns, and the transients and request it leaves. */
  datatype Outcome = Outcome(output: seq<Chunk>, cache: map<string, ApiResult>, lookup: Option<Request>)

  function Run(scheme: KeyScheme, cache: map<string, ApiResult>, raw: map<string, string>, env: Env): Outcome {
    var fetched := Lookup(scheme, cache, raw, env);
    Outcome(Assembled(fetched.result, env.filters, env.escUrl), fetched.cache, fetched.lookup)
  }

  /** Every stored transient is a non-error object. */
  predicate AllUsable(cache: map<string, ApiResult>) {
    forall key :: key in cache ==> Usable(cache[key])
  }

  /**
   * The shortcode prints nothing exactly when no query ran or the result is
   * not a non-error object; any request it sends is the one its query calls for.
   */
  lemma RunOutput(scheme: KeyScheme, cache: map<string, ApiResult>, raw: map<string, string>, env: Env)
    ensures var r := Run(scheme, cache, raw, env);
      && (r.output == [] <==> ModeOf(raw, env).NoQuery? || !Usable(Lookup(scheme, cache, raw, env).result))
      && (r.lookup.Some? ==> r.lookup == RequestFor(ModeOf(raw, env), PerPage(ShortcodeAtts(raw))))
      && (ModeOf(raw, env).NoQuery? ==> r.lookup.None? && r.cache == cache)
  {
  }

  /** Custom query arguments always go to the directory and never touch the transients. */
  lemma CustomQueryBypassesCache(scheme: KeyScheme, cache: map<string, ApiResult>, raw: map<string, string>, env: Env)
    requires ModeOf(raw, env).CustomQuery?
    ensures var r := Run(scheme, cache, raw, env);
      && r.cache == cache
      && r.lookup == Some(Request("query_plugins", ModeOf(raw, env).args))
      && r.output == Assembled(env.api(r.lookup.value), env.filters, env.escUrl)
  {
  }

  /** Only non-error objects are ever stored. */
  lemma RunKeepsCacheUsable(scheme: KeyScheme, cache: map<string, ApiResult>, raw: map<string, string>, env: Env)
    requires AllUsable(cache)
    ensures AllUsable(Run(scheme, cache, raw, env).cache)
  {
    var r := Run(scheme, cache, raw, env);
    forall key | key in r.cache ensures Usable(r.cache[key]) {
      if key !in cache || r.cache[key] != cache[key] {
        assert r.lookup.Some? && Usable(Lookup(scheme, cache, raw, env).result);
      }
    }
  }

  /**
   * Evaluating the same filtered shortcode twice: the second evaluation is
   * served from the transient the first stored, sends no request, and prints
   * the same output.
   */
  lemma RepeatIsServedFromCache(scheme: KeyScheme, cache: map<string, ApiResult>, raw: map<string, string>, env: Env)
    requires ModeOf(raw, env).Filtered?
    requires Run(scheme, cache, raw, env).output != []
    ensures var first := Run(scheme, cache, raw, env);
      var second := Run(scheme, first.cache, raw, env);
      && second.lookup.None?
      && second.output == first.output
      && second.cache == first.cache
  {
    var mode := ModeOf(raw, env);
    var key := CacheKey(scheme, mode.kind, mode.value);
    var req := RequestFor(mode, PerPage(ShortcodeAtts(raw))).value;
    var f1 := CacheThrough(cache, key, req, env.api);
    assert Usable(f1.result);
    assert key in f1.cache && f1.cache[key] == f1.result;
  }

  // ---------------------------------------------------------------------------
  // The transient key, as written and as intended
  // ---------------------------------------------------------------------------

  /** Shortcode attributes naming one plugin by slug. */
  function SlugAttrs(slug: string): map<string, string> {
    map["slug" := slug]
  }

  /** The request a slug shortcode sends. */
  function SlugRequest(slug: string): Request {
    Request("plugin_information", map["slug" := StrArg(slug), "fields" := FieldsArg(QueryFields())])
  }

  /** No callback is attached to `plugin_cards_api_query_args`. */
  ghost predicate NoCustomQuery(env: Env) {
    forall a :: env.queryArgs(a, QueryFields()) == map[]
  }

  /** The example slugs are truthy and have nothing for `esc_attr` to encode. */
  lemma ExampleSlugsArePlain()
    ensures Truthy("akismet") && EscAttr("akismet") == "akismet"
    ensures Truthy("jetpack") && EscAttr("jetpack") == "jetpack"
  {
    var a, j := "akismet", "jetpack";
    assert a == ['a', 'k', 'i', 's', 'm', 'e', 't'];
    assert j == ['j', 'e', 't', 'p', 'a', 'c', 'k'];
    assert forall i :: 0 <= i < |a| ==> !IsSpecial(a[i]);
    assert forall i :: 0 <= i < |j| ==> !IsSpecial(j[i]);
  }

  /**
   * A slug shortcode runs the slug query, on the escaped slug, through the
   * transient named by the key scheme.
   */
  lemma SlugShortcodeRun(scheme: KeyScheme, cache: map<string, ApiResult>, env: Env, slug: string)
    requires NoCustomQuery(env)
    requires Truthy(slug)
    ensures ModeOf(SlugAttrs(slug), env) == Filtered(Slug, EscAttr(slug))
    ensures var v := EscAttr(slug);
      var fetched := CacheThrough(cache, CacheKey(scheme, Slug, v), SlugRequest(v), env.api);
      Run(scheme, cache, SlugAttrs(slug), env)
        == Outcome(Assembled(fetched.result, env.filters, env.escUrl), fetched.cache, fetched.lookup)
  {
    var atts := ShortcodeAtts(SlugAttrs(slug));
    var v := EscAttr(slug);
    EscAttrKeepsTruthiness(slug);
    assert RawValue(atts, Slug) == Some(slug);
    assert Value(atts, Slug) == v;
    assert ModeOf(SlugAttrs(slug), env) == Filtered(Slug, v);
    assert RequestFor(Filtered(Slug, v), PerPage(atts)).value == SlugRequest(v);
  }

  /** A slug shortcode that misses its transient asks the directory and stores a usable answer. */
  lemma SlugRunMissStores(scheme: KeyScheme, cache: map<string, ApiResult>, env: Env, slug: string)
    requires NoCustomQuery(env)
    requires Truthy(slug)
    requires CacheKey(scheme, Slug, EscAttr(slug)) !in cache
    requires Usable(env.api(SlugRequest(EscAttr(slug))))
    ensures var v := EscAttr(slug);
      var r := Run(scheme, cache, SlugAttrs(slug), env);
      && r.lookup == Some(SlugRequest(v))
      && r.cache == cache[CacheKey(scheme, Slug, v) := env.api(SlugRequest(v))]
      && r.output == Assembled(env.api(SlugRequest(v)), env.filters, env.escUrl)
  {
    SlugShortcodeRun(scheme, cache, env, slug);
  }

  /** A slug shortcode that finds its transient sends nothing and prints what is stored. */
  lemma SlugRunHit(scheme: KeyScheme, cache: map<string, ApiResult>, env: Env, slug: string)
    requires NoCustomQuery(env)
    requires Truthy(slug)
    requires CacheKey(scheme, Slug, EscAttr(slug)) in cache
    requires !cache[CacheKey(scheme, Slug, EscAttr(slug))].Nothing?
    ensures var r := Run(scheme, cache, SlugAttrs(slug), env);
      && r.lookup.None?
      && r.cache == cache
      && r.output == Assembled(cache[CacheKey(scheme, Slug, EscAttr(slug))], env.filters, env.escUrl)
  {
    SlugShortcodeRun(scheme, cache, env, slug);
  }

  /**
   * As written: after `[plugin_cards slug="akismet"]` has stored its result,
   * `[plugin_cards slug="jetpack"]` sends no request and prints Akismet's card.
   */
  lemma AsWrittenServesAnotherSlugsCard(env: Env)
    requires NoCustomQuery(env)
    requires Usable(env.api(SlugRequest("akismet")))
    ensures var first := Run(AsWritten, map[], SlugAttrs("akismet"), env);
      var second := Run(AsWritten, first.cache, SlugAttrs("jetpack"), env);
      && first.lookup == Some(SlugRequest("akismet"))
      && second.lookup.None?
      && second.output == first.output
      && second.output == Assembled(env.api(SlugRequest("akismet")), env.filters, env.escUrl)
  {
    ExampleSlugsArePlain();
    assert CacheKey(AsWritten, Slug, "jetpack") == CacheKey(AsWritten, Slug, "akismet");
    SlugRunMissStores(AsWritten, map[], env, "akismet");
    var first := Run(AsWritten, map[], SlugAttrs("akismet"), env);
    SlugRunHit(AsWritten, first.cache, env, "jetpack");
  }

  /** A slug shortcode stores nothing but its own transient. */
  lemma SlugRunStoresOnlyItsKey(scheme: KeyScheme, cache: map<string, ApiResult>, env: Env, slug: string)
    requires NoCustomQuery(env)
    requires Truthy(slug)
    ensures Run(scheme, cache, SlugAttrs(slug), env).cache.Keys <= cache.Keys + {CacheKey(scheme, Slug, EscAttr(slug))}
  {
    SlugShortcodeRun(scheme, cache, env, slug);
  }

  /** Interpolated, a slug shortcode whose own transient is not stored asks the directory. */
  lemma InterpolatedMissLooksUp(cache: map<string, ApiResult>, env: Env, slug: string)
    requires NoCustomQuery(env)
    requires Truthy(slug)
    requires CacheKey(Interpolated, Slug, EscAttr(slug)) !in cache
    ensures var v := EscAttr(slug);
      var r := Run(Interpolated, cache, SlugAttrs(slug), env);
      && r.lookup == Some(SlugRequest(v))
      && r.output == Assembled(env.api(SlugRequest(v)), env.filters, env.escUrl)
  {
    SlugShortcodeRun(Interpolated, cache, env, slug);
  }

  /**
   * With the key interpolated as intended, the second shortcode asks the
   * directory for its own plugin and prints what the directory answers.
   */
  lemma InterpolatedLooksUpEachSlug(env: Env)
    requires NoCustomQuery(env)
    ensures var first := Run(Interpolated, map[], SlugAttrs("akismet"), env);
      var second := Run(Interpolated, first.cache, SlugAttrs("jetpack"), env);
      && second.lookup == Some(SlugRequest("jetpack"))
      && second.output == Assembled(env.api(SlugRequest("jetpack")), env.filters, env.escUrl)
  {
    ExampleSlugsArePlain();
    InterpolatedKeySeparatesValues(Slug, "akismet", "jetpack");
    SlugRunStoresOnlyItsKey(Interpolated, map[], env, "akismet");
    var first := Run(Interpolated, map[], SlugAttrs("akismet"), env);
    InterpolatedMissLooksUp(first.cache, env, "jetpack");
  }

  // ---------------------------------------------------------------------------
  // The transient store
  // ---------------------------------------------------------------------------

  /** The site's transients, as far as the shortcode reads and writes them. */
  class PluginCards {
    var transients: map<string, ApiResult>

    constructor ()
      ensures transients == map[]
    {
      transients := map[];
    }

    /** `get_transient`, then on a miss `plugins_api` and `set_transient` on success. */
    method FetchThrough(key: string, req: Request, api: Request -> ApiResult) returns (res: ApiResult, lookup: Option<Request>)
      modifies this
      ensures Fetch(res, transients, lookup) == CacheThrough(old(transients), key, req, api)
    {
      var cached := if key in transients then transients[key] else Nothing;
      if !cached.Nothing? {
        res, lookup := cached, None;
      } else {
        res := api(req);
        lookup := Some(req);
        if Usable(res) {
          transients := transients[key := res];
        }
      }
    }

    /**
     * `pc_plugin_cards_shortcode`. With `AsWritten` the transient keys are the
     * plugin's literals; `Interpolated` is the corrected keying.
     */
    method Shortcode(scheme: KeyScheme, raw: map<string, string>, env: Env) returns (out: seq<Chunk>, lookup: Option<Request>)
      modifies this
      ensures Outcome(out, transients, lookup) == Run(scheme, old(transients), raw, env)
      ensures AllUsable(old(transients)) ==> AllUsable(transients)
    {
      var atts := ShortcodeAtts(raw);
      var perPage := PerPage(atts);
      var custom := env.queryArgs(atts, QueryFields());
      var mode := Resolve(custom, atts);
      ghost var fetched := Lookup(scheme, transients, raw, env);
      assert mode == ModeOf(raw, env);
      var info := Nothing;
      lookup := None;
      match mode {
        case NoQuery =>
        case CustomQuery(args) =>
          var req := Request("query_plugins", args);
          info := env.api(req);
          lookup := Some(req);
        case Filtered(k, v) =>
          info, lookup := FetchThrough(CacheKey(scheme, k, v), RequestFor(mode, perPage).value, env.api);
      }
      assert fetched == Fetch(info, transients, lookup);
      out := Assemble(info, env.filters, env.escUrl);
      if AllUsable(old(transients)) {
        RunKeepsCacheUsable(scheme, old(transients), raw, env);
      }
    }
  }
}
