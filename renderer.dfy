/**
 * `pc_render_plugin_card`: one plugin object becomes one card. The markup the
 * function echoes is represented by what it decides — the link target, which
 * icon, the five stars, the installs wording, the compatibility line — and by
 * which sections a filter replaced. Escaping for output and translation are
 * left to the templating layer; only decisions are modelled.
 */
module Renderer {
  import opened PhpValues
  import opened Directory

  // ---------------------------------------------------------------------------
  // Extension points
  // ---------------------------------------------------------------------------

  /**
   * The card's `apply_filters` hooks. The five section hooks are handed ''
   * and replace their whole section when they return something truthy; the
   * other four are handed the default value and return the value to use.
   */
  datatype CardFilters = CardFilters(
    pluginUrl: (string, PluginInfo) -> string,        // plugin_cards_plugin_url
    pluginIcon: (PluginInfo, string) -> string,       // plugin_cards_plugin_icon (also given the URL)
    pluginName: (string, PluginInfo) -> string,       // plugin_cards_plugin_name
    shortDescription: (string, PluginInfo) -> string, // plugin_cards_short_description
    pluginAuthor: (string, PluginInfo) -> string,     // plugin_cards_plugin_author
    pluginRating: PluginInfo -> string,               // plugin_cards_plugin_rating
    lastUpdated: PluginInfo -> string,                // plugin_cards_last_updated
    installCount: PluginInfo -> string,               // plugin_cards_install_count
    compatibility: PluginInfo -> string)              // plugin_cards_plugin_compatibility

  /** No callback attached to any hook. */
  const NoCardFilters: CardFilters := CardFilters(
    (url: string, p: PluginInfo) => url,
    (p: PluginInfo, url: string) => "",
    (name: string, p: PluginInfo) => name,
    (text: string, p: PluginInfo) => text,
    (author: string, p: PluginInfo) => author,
    (p: PluginInfo) => "",
    (p: PluginInfo) => "",
    (p: PluginInfo) => "",
    (p: PluginInfo) => "")

  /** A card section: a filter's replacement markup, or the section the card computes. */
  datatype Section<T> = Override(html: string) | Computed(value: T)

  /** `if ($hooked) { echo $hooked; } else { …computed… }`. */
  function Pick<T>(hooked: string, computed: T): (r: Section<T>)
    ensures r.Override? <==> Truthy(hooked)
    ensures r.Override? ==> r.html == hooked
    ensures r.Computed? ==> r.value == computed
  {
    if Truthy(hooked) then Override(hooked) else Computed(computed)
  }

  // ---------------------------------------------------------------------------
  // Link target
  // ---------------------------------------------------------------------------

  /** The plugin's page in the WordPress.org directory. */
  function DirectoryUrl(slug: string): string {
    "https://wordpress.org/plugins/" + EscAttr(slug) + "/"
  }

  /**
   * `esc_url($plugin->homepage)`, or the directory page when that is falsy.
   * `escUrl` stands for WordPress's `esc_url`.
   */
  function DisplayUrl(p: PluginInfo, escUrl: string -> string): (url: string)
    ensures Truthy(url)
    ensures Truthy(escUrl(p.homepage)) ==> url == escUrl(p.homepage)
    ensures !Truthy(escUrl(p.homepage)) ==> url == DirectoryUrl(p.slug)
  {
    var homepage := escUrl(p.homepage);
    if Truthy(homepage) then homepage else DirectoryUrl(p.slug)
  }

  // ---------------------------------------------------------------------------
  // Icon
  // ---------------------------------------------------------------------------

  /** An `<img>`; `escaped` tells whether its `src` went through `esc_url`. */
  datatype Img = Img(src: string, escaped: bool)

  /** `$plugin->icons[$variant]`, "" when the variant is missing. */
  function IconUrl(icons: map<string, string>, variant: string): string {
    if variant in icons then icons[variant] else ""
  }

  /** The icon variants in the order the card tries them. */
  function IconCandidates(icons: map<string, string>): seq<string> {
    [IconUrl(icons, "svg"), IconUrl(icons, "2x"), IconUrl(icons, "1x"), IconUrl(icons, "default")]
  }

  /**
   * The icon chain svg, 2x, 1x, default: the first variant that is not
   * `empty()`, or no `<img>` at all. Only the 2x and 1x sources are escaped.
   */
  function IconChoice(icons: map<string, string>): (r: Option<Img>)
    ensures match FirstTruthyIndex(IconCandidates(icons))
            case None => r.None?
            case Some(i) => r == Some(Img(IconCandidates(icons)[i], i == 1 || i == 2))
  {
    var svg, x2 := IconUrl(icons, "svg"), IconUrl(icons, "2x");
    var x1, default := IconUrl(icons, "1x"), IconUrl(icons, "default");
    var candidates := IconCandidates(icons);
    assert candidates[0] == svg && candidates[1] == x2 && candidates[2] == x1 && candidates[3] == default;
    if Truthy(svg) then Some(Img(svg, false))
    else if Truthy(x2) then Some(Img(x2, true))
    else if Truthy(x1) then Some(Img(x1, true))
    else if Truthy(default) then Some(Img(default, false))
    else None
  }

  // ---------------------------------------------------------------------------
  // Rating
  // ---------------------------------------------------------------------------

  datatype Star = Full | Half | Empty

  /** Order of star states, for monotonicity. */
  function Fill(s: Star): nat {
    match s
    case Empty => 0
    case Half => 1
    case Full => 2
  }

  /** One star: full from `full` up, half from `half` up, otherwise empty. */
  function StarAt(rating: int, full: int, half: int): Star {
    if rating >= full then Full else if rating >= half then Half else Empty
  }

  /** The thresholds at which star i (0-based) becomes full and half. */
  const FullFrom: seq<int> := [20, 40, 60, 80, 98]
  const HalfFrom: seq<int> := [10, 30, 50, 70, 90]

  /**
   * The five stars drawn for `(int)$plugin->rating`. Stars one to four follow
   * the 20-point pattern (full at 20i, half at 20i - 10); the fifth is full at
   * 98 and half at 90.
   */
  function Stars(rating: int): (r: seq<Star>)
    ensures |r| == 5
    ensures forall i :: 0 <= i < 4 ==>
      && (r[i] == Full <==> rating >= 20 * (i + 1))
      && (r[i] == Half <==> 20 * (i + 1) - 10 <= rating < 20 * (i + 1))
    ensures r[4] == Full <==> rating >= 98
    ensures r[4] == Half <==> 90 <= rating < 98
    ensures forall i, j :: 0 <= i < j < 5 ==> Fill(r[i]) >= Fill(r[j])
    ensures forall i, j :: 0 <= i < j < 5 && r[i] == Half ==> r[j] == Empty
    ensures rating < 10 ==> r == [Empty, Empty, Empty, Empty, Empty]
    ensures rating >= 98 ==> r == [Full, Full, Full, Full, Full]
  {
    [StarAt(rating, FullFrom[0], HalfFrom[0]),
     StarAt(rating, FullFrom[1], HalfFrom[1]),
     StarAt(rating, FullFrom[2], HalfFrom[2]),
     StarAt(rating, FullFrom[3], HalfFrom[3]),
     StarAt(rating, FullFrom[4], HalfFrom[4])]
  }

  /** A higher rating never shows any star less filled. */
  lemma StarsMonotone(r1: int, r2: int)
    requires r1 <= r2
    ensures forall i :: 0 <= i < 5 ==> Fill(Stars(r1)[i]) <= Fill(Stars(r2)[i])
  {
  }

  /** The computed rating section: the stars and the review link's slug and count. */
  datatype Rating = Rating(stars: seq<Star>, reviewsSlug: string, numRatings: int)

  function RatingOf(p: PluginInfo): Rating {
    Rating(Stars(p.rating), EscAttr(p.slug), p.numRatings)
  }

  // ---------------------------------------------------------------------------
  // Installs and compatibility
  // ---------------------------------------------------------------------------

  /** The words before "Active Installs": "1+ Million", or the number then "+". */
  datatype Installs = MillionPlus | CountPlus(count: int)

  function InstallsText(activeInstalls: int): (r: Installs)
    ensures r == MillionPlus <==> activeInstalls >= 1000000
    ensures r.CountPlus? ==> r.count == activeInstalls && r.count < 1000000
  {
    if activeInstalls >= 1000000 then MillionPlus else CountPlus(activeInstalls)
  }

  /** "Compatible up to: <tested>" only when `tested` is not `empty()`. */
  function Compatibility(tested: string): (r: Option<string>)
    ensures r.Some? <==> Truthy(tested)
    ensures r.Some? ==> r.value == EscAttr(tested)
  {
    if Truthy(tested) then Some(EscAttr(tested)) else None
  }

  // ---------------------------------------------------------------------------
  // The card
  // ---------------------------------------------------------------------------

  datatype Card = Card(
    slug: string,                          // esc_attr($plugin->slug), in the card's class
    url: string,                           // where the icon and the name link to
    icon: Section<Option<Img>>,
    name: string,
    description: string,
    author: string,
    rating: Section<Rating>,
    updated: Section<string>,              // the last_updated stamp shown as "… ago"
    installs: Section<Installs>,
    compatibility: Section<Option<string>>)

  /** A section shows the filter's markup verbatim exactly when that markup is truthy. */
  predicate Honours<T>(section: Section<T>, hooked: string) {
    && (section.Override? <==> Truthy(hooked))
    && (section.Override? ==> section.html == hooked)
  }

  /**
   * The card of a plugin object: each of the five overridable sections is the
   * filter's markup when that is truthy and otherwise the computed default.
   */
  function RenderCard(p: PluginInfo, f: CardFilters, escUrl: string -> string): (c: Card)
    ensures c.slug == EscAttr(p.slug)
    ensures c.url == f.pluginUrl(DisplayUrl(p, escUrl), p)
    ensures Honours(c.icon, f.pluginIcon(p, c.url))
    ensures c.icon.Computed? ==> c.icon.value == IconChoice(p.icons)
    ensures c.name == f.pluginName(p.name, p)
    ensures c.description == f.shortDescription(p.shortDescription, p)
    ensures c.author == f.pluginAuthor(p.author, p)
    ensures Honours(c.rating, f.pluginRating(p))
    ensures c.rating.Computed? ==> c.rating.value == Rating(Stars(p.rating), EscAttr(p.slug), p.numRatings)
    ensures Honours(c.updated, f.lastUpdated(p))
    ensures c.updated.Computed? ==> c.updated.value == p.lastUpdated
    ensures Honours(c.installs, f.installCount(p))
    ensures c.installs.Computed? ==> c.installs.value == InstallsText(p.activeInstalls)
    ensures Honours(c.compatibility, f.compatibility(p))
    ensures c.compatibility.Computed? ==> c.compatibility.value == Compatibility(p.tested)
  {
    var url := f.pluginUrl(DisplayUrl(p, escUrl), p);
    Card(
      EscAttr(p.slug),
      url,
      Pick(f.pluginIcon(p, url), IconChoice(p.icons)),
      f.pluginName(p.name, p),
      f.shortDescription(p.shortDescription, p),
      f.pluginAuthor(p.author, p),
      Pick(f.pluginRating(p), RatingOf(p)),
      Pick(f.lastUpdated(p), p.lastUpdated),
      Pick(f.installCount(p), InstallsText(p.activeInstalls)),
      Pick(f.compatibility(p), Compatibility(p.tested)))
  }

  /** `pc_render_plugin_card`: a card for an object, `false` (None) for anything else. */
  function RenderValue(v: PluginValue, f: CardFilters, escUrl: string -> string): (r: Option<Card>)
    ensures r.Some? <==> v.Obj?
    ensures v.Obj? ==> r.value == RenderCard(v.info, f, escUrl)
  {
    match v
    case Obj(p) => Some(RenderCard(p, f, escUrl))
    case NonObject => None
  }

  /**
   * With no filter attached, a card shows every computed section: a link that
   * is never empty, five stars, and the installs and compatibility defaults.
   */
  lemma UnfilteredCard(p: PluginInfo, escUrl: string -> string)
    ensures var c := RenderCard(p, NoCardFilters, escUrl);
      && c.url == DisplayUrl(p, escUrl) && Truthy(c.url)
      && c.icon == Computed(IconChoice(p.icons))
      && c.name == p.name && c.description == p.shortDescription && c.author == p.author
      && c.rating == Computed(Rating(Stars(p.rating), EscAttr(p.slug), p.numRatings))
      && |c.rating.value.stars| == 5
      && c.updated == Computed(p.lastUpdated)
      && c.installs == Computed(InstallsText(p.activeInstalls))
      && c.compatibility == Computed(Compatibility(p.tested))
  {
  }
}
