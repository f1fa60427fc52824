/**
 * Theme recommendation: a fixed table from style to allowed colours,
 * backgrounds and glass effect, and a recommendation that draws a style from
 * the profile's preferences and then a colour and a background from the
 * style's lists. Each draw of `Math.random()` is an input: a rational
 * num/den in [0, 1).
 */
module ThemeRecommender {
  import opened Schema

  datatype ThemeStyle = Professional | Modern | Playful | Minimal | Bold
  datatype ThemeColor = Blue | Purple | Pink | Orange | Green

  datatype StyleConfig = StyleConfig(colors: seq<ThemeColor>, backgrounds: seq<string>, glassEffect: bool)

  datatype ThemeRecommendation = ThemeRecommendation(
    style: ThemeStyle, color: ThemeColor, background: string, glassEffect: bool)

  /** The row of the style table. */
  function ThemeStyles(s: ThemeStyle): StyleConfig {
    match s
    case Professional => StyleConfig([Blue, Purple], ["gradient1", "gradient4"], true)
    case Modern => StyleConfig([Purple, Pink], ["gradient2", "gradient3"], true)
    case Playful => StyleConfig([Orange, Pink], ["gradient3"], false)
    case Minimal => StyleConfig([Blue, Green], ["gradient1"], false)
    case Bold => StyleConfig([Purple, Orange], ["gradient4"], true)
  }

  /** The background names the table may contain. */
  predicate KnownBackground(b: string) {
    b == "gradient1" || b == "gradient2" || b == "gradient3" || b == "gradient4"
  }

  /** Every row has colours and backgrounds, and only gradient1 to gradient4. */
  lemma TableShape(s: ThemeStyle)
    ensures |ThemeStyles(s).colors| > 0 && |ThemeStyles(s).backgrounds| > 0
    ensures forall b :: b in ThemeStyles(s).backgrounds ==> KnownBackground(b)
  {
  }

  /** The glass effect is off exactly for the playful and minimal styles. */
  lemma GlassEffectByStyle(s: ThemeStyle)
    ensures ThemeStyles(s).glassEffect <==> !(s == Playful || s == Minimal)
  {
  }

  /** The key of a style in the table and in the stored preferences. */
  function StyleKey(s: ThemeStyle): string {
    match s
    case Professional => "professional"
    case Modern => "modern"
    case Playful => "playful"
    case Minimal => "minimal"
    case Bold => "bold"
  }

  /** The style a stored key names, or `None` for a key not in the table. */
  function StyleNamed(key: string): (r: Option<ThemeStyle>)
    ensures r.Some? ==> StyleKey(r.value) == key
  {
    if key == "professional" then Some(Professional)
    else if key == "modern" then Some(Modern)
    else if key == "playful" then Some(Playful)
    else if key == "minimal" then Some(Minimal)
    else if key == "bold" then Some(Bold)
    else None
  }

  /** Every style is found under its own key. */
  lemma StyleNamedKey(s: ThemeStyle)
    ensures StyleNamed(StyleKey(s)) == Some(s)
  {
  }

  /** One value of `Math.random()`: the fraction num/den, with num < den. */
  datatype Draw = Draw(num: nat, den: nat)

  predicate ValidDraw(d: Draw) {
    d.num < d.den
  }

  /** `Math.floor(Math.random() * len)`. */
  function RandomIndex(d: Draw, len: nat): (i: nat)
    requires ValidDraw(d)
    ensures len > 0 ==> i < len
    ensures len == 0 ==> i == 0
  {
    FloorBelow(d.num, d.den, len);
    d.num * len / d.den
  }

  /** num/den < 1 scaled by len stays below len. */
  lemma FloorBelow(num: nat, den: nat, len: nat)
    requires num < den
    ensures len > 0 ==> num * len / den < len
    ensures len == 0 ==> num * len / den == 0
  {
    if len > 0 {
      assert num * len < den * len by {
        assert (den - num) * len > 0;
      }
      var q := num * len / den;
      assert q * den <= num * len;
      assert (len - q) * den > 0;
    }
  }

  /** `getRandomItem(items)`: `None` is the `undefined` of an empty list. */
  function GetRandomItem<T>(items: seq<T>, d: Draw): (r: Option<T>)
    requires ValidDraw(d)
    ensures r.Some? <==> |items| > 0
    ensures r.Some? ==> r.value in items
  {
    if |items| == 0 then None else Some(items[RandomIndex(d, |items|)])
  }

  /**
   * `generateThemeRecommendation(preferences)` with its three draws. `None`
   * is the TypeError thrown when the drawn style has no row: the list is
   * empty, or the drawn key is not a style.
   */
  function GenerateThemeRecommendation(preferences: seq<string>, d1: Draw, d2: Draw, d3: Draw)
    : (r: Option<ThemeRecommendation>)
    requires ValidDraw(d1) && ValidDraw(d2) && ValidDraw(d3)
    ensures preferences == [] ==> r.None?
    ensures (forall i :: 0 <= i < |preferences| ==> StyleNamed(preferences[i]).Some?) && preferences != [] ==> r.Some?
    ensures r.Some? ==> StyleKey(r.value.style) in preferences
    ensures r.Some? ==> r.value.color in ThemeStyles(r.value.style).colors
    ensures r.Some? ==> r.value.background in ThemeStyles(r.value.style).backgrounds
    ensures r.Some? ==> KnownBackground(r.value.background)
    ensures r.Some? ==> r.value.glassEffect == ThemeStyles(r.value.style).glassEffect
  {
    match GetRandomItem(preferences, d1)
    case None => None
    case Some(key) =>
      match StyleNamed(key)
      case None => None
      case Some(style) =>
        var config := ThemeStyles(style);
        TableShape(style);
        var color := GetRandomItem(config.colors, d2);
        var background := GetRandomItem(config.backgrounds, d3);
        Some(ThemeRecommendation(style, color.value, background.value, config.glassEffect))
  }

  /** With only known styles preferred, the style is drawn from the list by the first draw. */
  lemma RecommendationFollowsDraw(preferences: seq<string>, d1: Draw, d2: Draw, d3: Draw)
    requires ValidDraw(d1) && ValidDraw(d2) && ValidDraw(d3)
    requires preferences != []
    ensures var r := GenerateThemeRecommendation(preferences, d1, d2, d3);
      var key := preferences[RandomIndex(d1, |preferences|)];
      r.Some? <==> StyleNamed(key).Some?
  {
  }

  /** The description of a style. */
  function Description(s: ThemeStyle): (r: string)
    ensures r != []
  {
    match s
    case Professional => "A clean and trustworthy look perfect for business profiles"
    case Modern => "A contemporary design that stands out while maintaining elegance"
    case Playful => "A fun and engaging theme that shows personality"
    case Minimal => "A simple and focused design that puts your content first"
    case Bold => "A striking appearance that makes a strong impression"
  }

  /** `getThemeDescription(theme)`: defined for every style, never empty. */
  function GetThemeDescription(theme: ThemeRecommendation): (r: string)
    ensures r != []
  {
    Description(theme.style)
  }

  /** The description depends on the style alone. */
  lemma DescriptionDependsOnStyle(a: ThemeRecommendation, b: ThemeRecommendation)
    requires a.style == b.style
    ensures GetThemeDescription(a) == GetThemeDescription(b)
  {
  }
}
