# SOL price alert monitor — threshold detector model

The price alert bot polls a price API once a minute. It emails an alert when
the SOL price crosses the configured high threshold upward ("above") or the
low threshold downward ("below"). It uses hysteresis: an alert fires only on
the cycle where the price crosses, not on every cycle while the price stays
past a threshold. The only state is `last_price`, the previous successful
sample (the baseline). A failed fetch skips the cycle.

This project models that detector and the monitoring loop around it:

- `wrappers.dfy`: `Option`, which stands for a fetch that may fail and for a
  baseline that may be unset.
- `detector.dfy` (module `Detector`): the per-cycle decision as pure functions.
  `Detect` is the if/elif crossing test. `Step` is one cycle after the fetch:
  it checks for a failed fetch, checks for a missing baseline, runs the
  crossing test and updates the baseline. An independent zone-based
  description of edge triggering and the hysteresis lemmas go with them.
  Prices are exact `real`s, since the program only compares them.
- `monitor.dfy` (module `Monitor`): `Run` is the state after a finite
  sequence of fetch results. `Watch` is the loop of `main()` as an imperative
  method. It has a mutable baseline and a list of sent alerts that grows, and
  it is proved equal to `Run`. The trace lemmas cover the baseline, the
  silent first sample, failed fetches, hysteresis over many cycles, and the
  low = 20 / high = 30 scenario.

The two crossing conditions are mutually exclusive for every pair of
thresholds, not only when low < high (`Detector.CrossingsExclusive`). So the
precedence of the "above" test never decides anything. The zone description
and the hysteresis guarantees do need low <= high. Nothing in the program
checks that ordering, and `Detector.MisorderedThresholdsBreakHysteresis`
shows what goes wrong without it.

## Model

| member | source | states |
|---|---|---|
| `Detector.Detect` | price_alert_bot.py:58-61 | With a baseline, the result is the "above" alert at the high threshold exactly when the price rises from <= high to > high. It is the "below" alert at the low threshold exactly when that fails and the price falls from >= low to < low. Otherwise there is no alert. Every alert is sound and carries the current price. |
| `Detector.Step` | price_alert_bot.py:54-62 | A failed fetch gives no alert and leaves the baseline unchanged. A successful fetch becomes the new baseline. With no baseline (first sample) there is never an alert. With a baseline and a successful fetch, the alert is exactly the one `Detect` decides for the baseline and the new price. Any alert comes from a successful sample, is sound (its threshold matches its direction and its price is beyond it) and reports that sample's price. |
| `Detector.CrossingsExclusive` | price_alert_bot.py:58-61 | For any thresholds, the above-crossing and below-crossing conditions never hold together, so a cycle has at most one alert to send. |
| `Detector.DetectIsEdgeTriggered` | price_alert_bot.py:57-61 | With low <= high, an alert fires exactly when the price enters an outer zone (above high, below low) it was not in at the previous sample. No alert fires exactly when the price is between the thresholds or stays in its zone. |
| `Detector.StepStaysInZone` | price_alert_bot.py:58-62 | Hysteresis for one cycle: two consecutive successful samples both above high, both below low, or both between the thresholds give no alert for the second, which becomes the baseline. |
| `Detector.StepInsideIsSilent` | price_alert_bot.py:58-62 | A sample between the thresholds never alerts, whatever the baseline. |
| `Detector.MisorderedThresholdsBreakHysteresis` | price_alert_bot.py:58-59 | With high = 10 and low = 20, moving from 9 to 11 stays below low yet raises an "above" alert. The hysteresis guarantees need low <= high. |
| `Monitor.Run` | price_alert_bot.py:52-62 | Starting from an unset baseline, the cycles over a sequence of fetch results send no more alerts in total than there are cycles, and every alert is sound. The per-cycle bound of at most one alert follows from `RunExtend` and `Emitted` (a cycle's alerts form a list of length at most one). |
| `Monitor.RunExtend` | price_alert_bot.py:53-62 | The unfolding lemma for `Run`: one more fetch result runs exactly one more cycle (`Step`) on the state reached so far. |
| `Monitor.RunSendsCrossingAlert` | price_alert_bot.py:57-62 | Once a baseline exists, a successful fetch appends exactly the alert `Detect` decides for the baseline and that price (none, "above" or "below") to the alerts already sent, and becomes the baseline. |
| `Monitor.RunBaseline` | price_alert_bot.py:52-62 | The baseline is unset exactly while every fetch so far has failed. After that it equals the most recent successful fetch, with only failed fetches after it. |
| `Monitor.RunFirstSuccessIsSilent` | price_alert_bot.py:52-62 | With at most one successful fetch, no alert has been sent. Otherwise there are strictly fewer alerts than successful fetches. |
| `Monitor.NoSuccesses` | price_alert_bot.py:55 | A count of zero successful fetches means every fetch failed, and the reverse. With `RunBaseline`, this gives that the baseline is unset exactly when no fetch has succeeded. |
| `Monitor.RunAlertsReportFetchedPrices` | price_alert_bot.py:58-61 | Every alert sent reports a price that was actually fetched. |
| `Monitor.RunSkipsFailedFetch` | price_alert_bot.py:54-55 | Inserting a failed fetch anywhere in the history changes neither the final baseline nor any alert. The run behaves as if the failed cycle had not happened: the next successful fetch is compared with the last successful price. |
| `Monitor.RunStaysInZone` | price_alert_bot.py:58-62 | Hysteresis over many cycles: with low <= high and a baseline set, while every later successful fetch stays in the baseline's zone, no further alert is sent and the baseline stays in that zone. |
| `Monitor.WorkedTrace` | price_alert_bot.py:52-62 | With low = 20 and high = 30, the prices 25, 31, 32, 18, 22 send exactly ("above", 30, 31) and ("below", 20, 18), in that order. |
| `Monitor.Watch` | price_alert_bot.py:52-63 | The loop of `main()`, run over a finite sequence of fetch results, ends with the baseline and the list of sent alerts that `Run` gives. So every property proved about `Run` holds for it. |

## Left out

- The HTTP fetch and the JSON indexing of its response (price_alert_bot.py:12-22) are network I/O. Each fetch enters only as an `Option<Price>`, `None` for a non-200 response. A transport exception inside the request is not modelled.
- Building and sending the email (price_alert_bot.py:24-41) is a foreign SMTP library and network I/O. Sending is modelled as appending an `Alert(direction, threshold, price)`. The subject and body text, which depend on float-to-string conversion, are not modelled. An SMTP failure that ends the process is not modelled either.
- Loading the configuration file (price_alert_bot.py:43-46, 49-51) is file I/O and JSON parsing. The thresholds are the `Config` parameter. A missing or malformed file is not modelled.
- Logging (price_alert_bot.py:10, 21, 41, 56) is a side effect only.
- The endless `while True` and the 60-second sleep (price_alert_bot.py:53, 63): the loop runs over a finite sequence of fetch results, and time is not modelled.
- Floating-point behaviour (NaN, rounding, int/float mixing) is not modelled. Prices and thresholds are exact reals, and only ordered comparisons are made on them.
