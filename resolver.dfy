/**
 * The first half of the `[plugin_cards]` shortcode: attribute defaults, the
 * precedence chain that picks exactly one query, the request each query sends
 * to `plugins_api`, and the transient key each query is cached under.
 */
module Resolver {
  import opened PhpValues
  import opened Directory

  // ---------------------------------------------------------------------------
  // Attributes
  // ---------------------------------------------------------------------------

  /**
   * The shortcode's attributes after `shortcode_atts`. `None` is an attribute
   * the author did not write, which takes the default (`false` for the six
   * filters, 50 for `max_results`).
   */
  datatype Atts = Atts(
    maxResults: Option<string>,
    slug: Option<string>,
    author: Option<string>,
    tag: Option<string>,
    browse: Option<string>,
    user: Option<string>,
    search: Option<string>)

  function Given(raw: map<string, string>, name: string): Option<string> {
    if name in raw then Some(raw[name]) else None
  }

  /** The attribute names `shortcode_atts` keeps; every other name is dropped. */
  const AttributeNames: set<string> :=
    {"max_results", "slug", "author", "tag", "browse", "user", "search"}

  /**
   * `shortcode_atts` with the plugin's defaults: each filter is read from the
   * attribute of its own name.
   */
  function ShortcodeAtts(raw: map<string, string>): (a: Atts)
    ensures a.maxResults == Given(raw, "max_results")
    ensures forall k :: RawValue(a, k) == Given(raw, ArgKey(k))
  {
    Atts(Given(raw, "max_results"), Given(raw, "slug"), Given(raw, "author"), Given(raw, "tag"),
         Given(raw, "browse"), Given(raw, "user"), Given(raw, "search"))
  }

  /** Attributes the shortcode does not know are ignored. */
  lemma ShortcodeAttsIgnoresUnknown(raw: map<string, string>, name: string, v: string)
    requires name !in AttributeNames
    ensures ShortcodeAtts(raw[name := v]) == ShortcodeAtts(raw)
  {
  }

  /** `(int)$atts['max_results']`: 50 when the attribute is absent. */
  function PerPage(a: Atts): int {
    match a.maxResults
    case None => 50
    case Some(s) => IntCast(s)
  }

  /** A `max_results` written as a decimal number is the page size requested. */
  lemma PerPageOfDecimal(a: Atts, n: int)
    requires a.maxResults == Some(DecimalString(n))
    ensures PerPage(a) == n
  {
    IntCastOfDecimalString(n);
  }

  // ---------------------------------------------------------------------------
  // Query resolution
  // ---------------------------------------------------------------------------

  datatype FilterKind = Slug | Author | Tag | User | Browse | Search

  /** The order in which the chain tests the filters. */
  const Precedence: seq<FilterKind> := [Slug, Author, Tag, User, Browse, Search]

  /** Position of a filter in the chain. */
  function Rank(k: FilterKind): (i: nat)
    ensures i < |Precedence| && Precedence[i] == k
  {
    match k
    case Slug => 0
    case Author => 1
    case Tag => 2
    case User => 3
    case Browse => 4
    case Search => 5
  }

  /** The attribute name of a filter, which is also its key in the request. */
  function ArgKey(k: FilterKind): string {
    match k
    case Slug => "slug"
    case Author => "author"
    case Tag => "tag"
    case User => "user"
    case Browse => "browse"
    case Search => "search"
  }

  /** The attribute a filter is read from, as written. */
  function RawValue(a: Atts, k: FilterKind): Option<string> {
    match k
    case Slug => a.slug
    case Author => a.author
    case Tag => a.tag
    case User => a.user
    case Browse => a.browse
    case Search => a.search
  }

  /** `esc_attr($atts[...])`; the default `false` escapes to "". */
  function Value(a: Atts, k: FilterKind): string {
    match RawValue(a, k)
    case None => ""
    case Some(s) => EscAttr(s)
  }

  /** The filter values in chain order. */
  function Values(a: Atts): (vs: seq<string>)
    ensures |vs| == |Precedence|
    ensures forall i :: 0 <= i < |vs| ==> vs[i] == Value(a, Precedence[i])
  {
    [Value(a, Slug), Value(a, Author), Value(a, Tag), Value(a, User), Value(a, Browse), Value(a, Search)]
  }

  /** The one query a shortcode runs. */
  datatype Mode =
    | NoQuery
    | CustomQuery(args: map<string, ArgVal>)
    | Filtered(kind: FilterKind, value: string)

  /**
   * The if/elseif chain: custom query arguments (the value returned by the
   * `plugin_cards_api_query_args` filter, a PHP array, truthy when non-empty)
   * win, then the first truthy escaped filter value in the order slug, author,
   * tag, user, browse, search.
   */
  function Resolve(custom: map<string, ArgVal>, a: Atts): (m: Mode)
    ensures m.CustomQuery? <==> custom != map[]
    ensures m.CustomQuery? ==> m.args == custom
    ensures m.NoQuery? <==> custom == map[] && forall k :: !Truthy(Value(a, k))
    ensures m.Filtered? ==> m.value == Value(a, m.kind) && Truthy(m.value)
    ensures m.Filtered? ==> forall k :: Rank(k) < Rank(m.kind) ==> !Truthy(Value(a, k))
  {
    var slug, author, tag := Value(a, Slug), Value(a, Author), Value(a, Tag);
    var user, browse, search := Value(a, User), Value(a, Browse), Value(a, Search);
    if custom != map[] then CustomQuery(custom)
    else if Truthy(slug) then Filtered(Slug, slug)
    else if Truthy(author) then Filtered(Author, author)
    else if Truthy(tag) then Filtered(Tag, tag)
    else if Truthy(user) then Filtered(User, user)
    else if Truthy(browse) then Filtered(Browse, browse)
    else if Truthy(search) then Filtered(Search, search)
    else NoQuery
  }

  /** The chain agrees with "the first truthy value in precedence order". */
  lemma ResolveIsFirstTruthy(custom: map<string, ArgVal>, a: Atts)
    ensures custom != map[] ==> Resolve(custom, a) == CustomQuery(custom)
    ensures custom == map[] ==>
      Resolve(custom, a) == match FirstTruthyIndex(Values(a))
                            case None => NoQuery
                            case Some(i) => Filtered(Precedence[i], Values(a)[i])
  {
    var m := Resolve(custom, a);
    var vs := Values(a);
    if custom == map[] {
      match FirstTruthyIndex(vs)
      case None =>
        forall k: FilterKind ensures !Truthy(Value(a, k)) {
          assert vs[Rank(k)] == Value(a, k);
        }
      case Some(i) =>
        var k := Precedence[i];
        assert Rank(k) == i;
        assert Truthy(Value(a, k));
        assert m.Filtered?;
        var j := Rank(m.kind);
        assert vs[j] == m.value;
        assert !(j < i);
        assert !(i < j);
    }
  }

  /** An attribute as the author wrote it is truthy. */
  predicate GivenTruthy(a: Atts, k: FilterKind) {
    RawValue(a, k).Some? && Truthy(RawValue(a, k).value)
  }

  /**
   * Escaping does not disturb the chain: the query chosen is decided by the
   * attributes exactly as the author wrote them.
   */
  lemma ResolveOnWrittenAttributes(custom: map<string, ArgVal>, a: Atts)
    ensures Resolve(custom, a).NoQuery? <==> custom == map[] && forall k :: !GivenTruthy(a, k)
    ensures Resolve(custom, a).Filtered? ==>
      var m := Resolve(custom, a);
      && GivenTruthy(a, m.kind)
      && m.value == EscAttr(RawValue(a, m.kind).value)
      && forall k :: Rank(k) < Rank(m.kind) ==> !GivenTruthy(a, k)
  {
    forall k: FilterKind ensures Truthy(Value(a, k)) <==> GivenTruthy(a, k) {
      if RawValue(a, k).Some? {
        EscAttrKeepsTruthiness(RawValue(a, k).value);
      }
    }
  }

  // ---------------------------------------------------------------------------
  // Requests
  // ---------------------------------------------------------------------------

  /** The `fields` array every filtered request carries. */
  function QueryFields(): (f: map<string, bool>)
    ensures f.Keys == {"banners", "icons", "reviews", "rating", "num_ratings", "downloaded",
                       "active_installs", "short_description", "sections", "downloadlink",
                       "last_updated", "homepage"}
    ensures forall name :: name in f ==> (f[name] <==> name != "reviews" && name != "sections")
  {
    map[
      "banners" := true,
      "icons" := true,
      "reviews" := false,
      "rating" := true,
      "num_ratings" := true,
      "downloaded" := true,
      "active_installs" := true,
      "short_description" := true,
      "sections" := false,
      "downloadlink" := true,
      "last_updated" := true,
      "homepage" := true
    ]
  }

  /** The `plugins_api` call a query makes, if any. */
  function RequestFor(m: Mode, perPage: int): (r: Option<Request>)
    ensures r.None? <==> m.NoQuery?
    ensures m.CustomQuery? ==> r == Some(Request("query_plugins", m.args))
    ensures m.Filtered? && m.kind == Slug ==>
      && r.value.action == "plugin_information"
      && r.value.args.Keys == {"slug", "fields"}
      && r.value.args["slug"] == StrArg(m.value)
    ensures m.Filtered? && m.kind != Slug ==>
      && r.value.action == "query_plugins"
      && r.value.args.Keys == {"per_page", ArgKey(m.kind), "fields"}
      && r.value.args["per_page"] == IntArg(perPage)
      && r.value.args[ArgKey(m.kind)] == StrArg(m.value)
    ensures m.Filtered? ==> r.value.args["fields"] == FieldsArg(QueryFields())
  {
    match m
    case NoQuery => None
    case CustomQuery(args) => Some(Request("query_plugins", args))
    case Filtered(Slug, v) =>
      Some(Request("plugin_information", map["slug" := StrArg(v), "fields" := FieldsArg(QueryFields())]))
    case Filtered(k, v) =>
      Some(Request("query_plugins",
        map["per_page" := IntArg(perPage), ArgKey(k) := StrArg(v), "fields" := FieldsArg(QueryFields())]))
  }

  // ---------------------------------------------------------------------------
  // Transient keys
  // ---------------------------------------------------------------------------

  /**
   * How a filtered query names its transient. `AsWritten` is the plugin's
   * single-quoted literal, in which `{$slug}` is not interpolated; `Interpolated`
   * is the key the literal was evidently meant to produce.
   */
  datatype KeyScheme = AsWritten | Interpolated

  function CacheKey(scheme: KeyScheme, k: FilterKind, v: string): string {
    match scheme
    case AsWritten =>
      (match k
       case Slug => "plugin_cards_{$slug}"
       case Author => "plugin_cards_{$author}"
       case Tag => "plugin_cards_{$tag}"
       case User => "plugin_cards_{$user}"
       case Browse => "plugin_cards_{$browse}"
       case Search => "plugin_cards_{$search}")
    case Interpolated => "plugin_cards_" + v
  }

  /** As written, a filter's key is the same whatever the filter's value. */
  lemma AsWrittenKeyIgnoresValue(k: FilterKind, v1: string, v2: string)
    ensures CacheKey(AsWritten, k, v1) == CacheKey(AsWritten, k, v2)
  {
  }

  /** Interpolated, two values of a filter never share a key. */
  lemma InterpolatedKeySeparatesValues(k: FilterKind, v1: string, v2: string)
    requires v1 != v2
    ensures CacheKey(Interpolated, k, v1) != CacheKey(Interpolated, k, v2)
  {
    var prefix := "plugin_cards_";
    assert (prefix + v1)[|prefix|..] == v1;
    assert (prefix + v2)[|prefix|..] == v2;
  }
}
