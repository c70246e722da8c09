/** The StatCard component's decisions: the trend badge (icon, colour and
    percentage), the subtitle line and the colour variant. */
module StatCard {
  import opened Wrappers
  import opened Strings

  /** The `trend` prop; `caption` is its `label` field. */
  datatype Trend = Trend(value: real, caption: string)

  /** `TrendingUp`, `TrendingDown` and `Minus` from the icon set. */
  datatype TrendIcon = TrendingUp | TrendingDown | Minus

  datatype Variant = Default | Success | Warning | Danger

  /** `getTrendIcon`. */
  function TrendIconFor(trend: Option<Trend>): (icon: Option<TrendIcon>)
    ensures icon.None? <==> trend.None?
    ensures icon == Some(TrendingUp) <==> trend.Some? && trend.value.value > 0.0
  {
    if trend.None? then None
    else if trend.value.value > 0.0 then Some(TrendingUp)
    else if trend.value.value < 0.0 then Some(TrendingDown)
    else Some(Minus)
  }

  /** `getTrendColor`: for emissions a fall is good (green) and a rise is bad (red). */
  function TrendColor(trend: Option<Trend>): (color: string)
    ensures color == "" <==> trend.None?
    ensures color == "text-eco-leaf" <==> trend.Some? && trend.value.value < 0.0
  {
    if trend.None? then ""
    else if trend.value.value < 0.0 then "text-eco-leaf"
    else if trend.value.value > 0.0 then "text-destructive"
    else "text-muted-foreground"
  }

  /** The icon and the colour always tell the same story, and both follow the
      sign of the trend. */
  lemma TrendIconMatchesColor(trend: Option<Trend>)
    ensures TrendIconFor(trend).None? <==> trend.None?
    ensures TrendIconFor(trend).None? <==> TrendColor(trend) == ""
    ensures TrendIconFor(trend) == Some(TrendingUp) <==> TrendColor(trend) == "text-destructive"
    ensures TrendIconFor(trend) == Some(TrendingDown) <==> TrendColor(trend) == "text-eco-leaf"
    ensures TrendIconFor(trend) == Some(Minus) <==> TrendColor(trend) == "text-muted-foreground"
    ensures trend.Some? ==> (TrendIconFor(trend) == Some(TrendingUp) <==> trend.value.value > 0.0)
    ensures trend.Some? ==> (TrendIconFor(trend) == Some(TrendingDown) <==> trend.value.value < 0.0)
    ensures trend.Some? ==> (TrendIconFor(trend) == Some(Minus) <==> trend.value.value == 0.0)
  {
  }

  /** `Math.abs(trend.value)`: the shown percentage, without its sign. */
  function DisplayedPercent(trend: Trend): (p: real)
    ensures p >= 0.0
    ensures p == trend.value || p == -trend.value
  {
    if trend.value < 0.0 then -trend.value else trend.value
  }

  datatype TrendBadge = TrendBadge(icon: TrendIcon, color: string, percent: real)

  /** The badge in the card's corner, present exactly when there is a trend. */
  function Badge(trend: Option<Trend>): (b: Option<TrendBadge>)
    ensures b.None? <==> trend.None?
    ensures b.Some? ==> b.value.percent >= 0.0
    ensures b.Some? ==> Some(b.value.icon) == TrendIconFor(trend) && b.value.color == TrendColor(trend)
  {
    if trend.None? then None
    else Some(TrendBadge(TrendIconFor(trend).value, TrendColor(trend), DisplayedPercent(trend.value)))
  }

  /** `(subtitle || trend?.caption) && <p>{subtitle || trend?.caption}</p>`: the
      subtitle when it is non-empty, otherwise the trend's label when that is
      non-empty, otherwise no line. */
  function SubtitleLine(subtitle: Option<string>, trend: Option<Trend>): (line: Option<string>)
    ensures line.Some? ==> line.value != ""
  {
    if subtitle.Some? && subtitle.value != "" then subtitle
    else if trend.Some? && trend.value.caption != "" then Some(trend.value.caption)
    else None
  }

  /** The line is shown exactly when one of the two texts is non-empty, it is
      never empty, and the subtitle takes precedence over the trend label. */
  lemma SubtitleFallback(subtitle: Option<string>, trend: Option<Trend>)
    ensures var line := SubtitleLine(subtitle, trend);
      && (line.None? <==> (subtitle.None? || subtitle == Some("")) && (trend.None? || trend.value.caption == ""))
      && (line.Some? ==> line.value != "")
      && (line.Some? ==> line == subtitle || (trend.Some? && line.value == trend.value.caption))
      && (subtitle.Some? && subtitle.value != "" ==> line == subtitle)
  {
  }

  /** `variantStyles[variant]`. */
  function BackgroundStyle(v: Variant): (style: string)
    ensures StartsWith(style, "from-")
  {
    match v
    case Default => "from-primary/5 to-transparent"
    case Success => "from-eco-leaf/10 to-transparent"
    case Warning => "from-amber-500/10 to-transparent"
    case Danger => "from-destructive/10 to-transparent"
  }

  /** `iconStyles[variant]`. */
  function IconStyle(v: Variant): (style: string)
    ensures StartsWith(style, "bg-")
  {
    match v
    case Default => "bg-primary/10 text-primary"
    case Success => "bg-eco-leaf/10 text-eco-leaf"
    case Warning => "bg-amber-500/10 text-amber-600"
    case Danger => "bg-destructive/10 text-destructive"
  }

  /** The variant prop with its default, `'default'`. */
  function VariantOrDefault(variant: Option<Variant>): (v: Variant)
    ensures variant.None? ==> v == Default
    ensures variant.Some? ==> v == variant.value
  {
    variant.GetOr(Default)
  }

  /** Each variant selects its own entry of each map: different variants look different. */
  lemma VariantStylesDistinct(v1: Variant, v2: Variant)
    requires v1 != v2
    ensures BackgroundStyle(v1) != BackgroundStyle(v2)
    ensures IconStyle(v1) != IconStyle(v2)
  {
  }
}
