/**
  The threshold-crossing decision the price monitor makes once per polling
  cycle: given the previous price (the baseline) and the freshly fetched one,
  decide whether an "above" or a "below" alert is due.
*/
module Detector {
  import opened Wrappers

  /** Prices are only ever compared with <, <=, > and >=, so exact reals stand
      for the floating-point values of the running program. */
  type Price = real

  /** The two thresholds read from the configuration file. Nothing requires
      `low` to lie below `high`. */
  datatype Config = Config(high: Price, low: Price)

  /** The direction label passed to the notifier. */
  datatype Direction = Above | Below

  /** One notification: the label, the threshold that was crossed and the
      price that crossed it (the arguments of the notifier). */
  datatype Alert = Alert(direction: Direction, threshold: Price, price: Price)

  /** The effect of one cycle: the new baseline and the alert emitted, if any.
      An `Option` holds at most one alert, so a cycle never emits two. */
  datatype Cycle = Cycle(last: Option<Price>, alert: Option<Alert>)

  /** An alert names the threshold belonging to its direction, and its price
      lies strictly beyond that threshold. */
  predicate Sound(cfg: Config, a: Alert)
  {
    match a.direction
    case Above => a.threshold == cfg.high && a.price > cfg.high
    case Below => a.threshold == cfg.low && a.price < cfg.low
  }

  /** The price rose from at or below the high threshold to strictly above it. */
  predicate CrossesAbove(cfg: Config, last: Price, current: Price)
  {
    current > cfg.high && last <= cfg.high
  }

  /** The price fell from at or above the low threshold to strictly below it. */
  predicate CrossesBelow(cfg: Config, last: Price, current: Price)
  {
    current < cfg.low && last >= cfg.low
  }

  /** The if/elif crossing test, once a baseline exists. The "above" test is
      made first; the "below" alert is only considered when it fails. */
  function Detect(cfg: Config, last: Price, current: Price): (r: Option<Alert>)
    ensures r == Some(Alert(Above, cfg.high, current)) <==> CrossesAbove(cfg, last, current)
    ensures r == Some(Alert(Below, cfg.low, current))
            <==> !CrossesAbove(cfg, last, current) && CrossesBelow(cfg, last, current)
    ensures r == None <==> !CrossesAbove(cfg, last, current) && !CrossesBelow(cfg, last, current)
    ensures r.Some? ==> Sound(cfg, r.value) && r.value.price == current
  {
    if CrossesAbove(cfg, last, current) then Some(Alert(Above, cfg.high, current))
    else if CrossesBelow(cfg, last, current) then Some(Alert(Below, cfg.low, current))
    else None
  }

  /** One pass of the monitoring loop after the fetch: a failed fetch changes
      nothing; a successful one is compared with the baseline, if there is
      one, and then becomes the baseline. */
  function Step(cfg: Config, last: Option<Price>, sample: Option<Price>): (r: Cycle)
    ensures sample == None ==> r == Cycle(last, None)
    ensures sample != None ==> r.last == sample
    ensures last == None ==> r.alert == None
    ensures last != None && sample != None ==> r.alert == Detect(cfg, last.value, sample.value)
    ensures r.alert != None ==>
              && sample != None
              && Sound(cfg, r.alert.value)
              && r.alert.value.price == sample.value
  {
    match sample
    case None => Cycle(last, None)
    case Some(current) =>
      var alert := if last == None then None else Detect(cfg, last.value, current);
      Cycle(sample, alert)
  }

  /** The two crossing conditions never hold together, whatever the
      thresholds: both would need low <= last <= high and high < current < low.
      So the priority of the "above" test never decides anything. */
  lemma CrossingsExclusive(cfg: Config, last: Price, current: Price)
    ensures !(CrossesAbove(cfg, last, current) && CrossesBelow(cfg, last, current))
  {
  }

  /** The thresholds are configured the way round their names suggest. */
  predicate Ordered(cfg: Config)
  {
    cfg.low <= cfg.high
  }

  /** Which side of the thresholds a price is on; "over" wins when the
      thresholds are misordered and a price is on both outer sides. */
  datatype Zone = Over | Inside | Under

  function ZoneOf(cfg: Config, p: Price): (z: Zone)
    ensures z == Over <==> p > cfg.high
    ensures Ordered(cfg) ==> (z == Under <==> p < cfg.low)
  {
    if p > cfg.high then Over else if p < cfg.low then Under else Inside
  }

  /** Edge triggering, as an independent description: an alert is emitted
      exactly when the price enters an outer zone it was not in before. */
  lemma DetectIsEdgeTriggered(cfg: Config, last: Price, current: Price)
    requires Ordered(cfg)
    ensures Detect(cfg, last, current) == Some(Alert(Above, cfg.high, current))
            <==> ZoneOf(cfg, current) == Over && ZoneOf(cfg, last) != Over
    ensures Detect(cfg, last, current) == Some(Alert(Below, cfg.low, current))
            <==> ZoneOf(cfg, current) == Under && ZoneOf(cfg, last) != Under
    ensures Detect(cfg, last, current) == None
            <==> ZoneOf(cfg, current) == Inside || ZoneOf(cfg, current) == ZoneOf(cfg, last)
  {
  }

  /** Hysteresis: two consecutive successful samples on the same side of the
      thresholds (both above high, both below low, or both between) emit
      nothing for the second. */
  lemma StepStaysInZone(cfg: Config, p: Price, q: Price)
    requires Ordered(cfg)
    requires ZoneOf(cfg, p) == ZoneOf(cfg, q)
    ensures Step(cfg, Some(p), Some(q)) == Cycle(Some(q), None)
  {
    DetectIsEdgeTriggered(cfg, p, q);
  }

  /** A sample between the thresholds never alerts, whatever the baseline. */
  lemma StepInsideIsSilent(cfg: Config, last: Option<Price>, q: Price)
    requires cfg.low <= q <= cfg.high
    ensures Step(cfg, last, Some(q)) == Cycle(Some(q), None)
  {
  }

  /** Without ordered thresholds hysteresis fails: with high = 10 and
      low = 20, a price moving from 9 to 11 stays below the low threshold
      yet raises an "above" alert. */
  lemma MisorderedThresholdsBreakHysteresis()
    ensures var cfg := Config(10.0, 20.0);
            && 9.0 < cfg.low && 11.0 < cfg.low
            && Step(cfg, Some(9.0), Some(11.0)).alert == Some(Alert(Above, 10.0, 11.0))
  {
  }
}
