/**
  The monitoring loop: each cycle fetches a price (a failed fetch is `None`),
  runs the crossing test against the previous price and records the price as
  the new baseline. The endless loop is modelled over the finite sequence of
  fetch results it sees, and each notification sent is recorded as an alert.
*/
module Monitor {
  import opened Wrappers
  import opened Detector

  /** The loop's state after some cycles: the baseline and the alerts sent. */
  datatype Trace = Trace(last: Option<Price>, sent: seq<Alert>)

  /** The alerts one cycle sends, as a list of zero or one. */
  function Emitted(alert: Option<Alert>): (s: seq<Alert>)
    ensures |s| <= 1
    ensures forall a :: a in s <==> alert == Some(a)
  {
    if alert == None then [] else [alert.value]
  }

  /** The state reached from an unset baseline after the cycles whose fetch
      results are `samples`, oldest first: at most one alert per cycle, and
      every alert is sound and carries one of the fetched prices. */
  function Run(cfg: Config, samples: seq<Option<Price>>): (r: Trace)
    ensures |r.sent| <= |samples|
    ensures forall a :: a in r.sent ==> Sound(cfg, a)
  {
    if samples == [] then Trace(None, [])
    else
      var n := |samples| - 1;
      var prev := Run(cfg, samples[..n]);
      var cycle := Step(cfg, prev.last, samples[n]);
      Trace(cycle.last, prev.sent + Emitted(cycle.alert))
  }

  /** The number of successful fetches among `samples`. */
  function Successes(samples: seq<Option<Price>>): (n: nat)
    ensures n <= |samples|
  {
    if samples == [] then 0
    else Successes(samples[..|samples| - 1]) + (if samples[|samples| - 1] == None then 0 else 1)
  }

  /** The baseline is unset until the first successful fetch, and from then
      on it is the most recent successful fetch: failed fetches never move it. */
  lemma {:induction false} RunBaseline(cfg: Config, samples: seq<Option<Price>>)
    ensures Run(cfg, samples).last == None <==> forall i :: 0 <= i < |samples| ==> samples[i] == None
    ensures Run(cfg, samples).last != None ==>
              exists i :: 0 <= i < |samples| && samples[i] == Run(cfg, samples).last
                          && forall j :: i < j < |samples| ==> samples[j] == None
  {
    if samples != [] {
      var n := |samples| - 1;
      var pre := samples[..n];
      RunBaseline(cfg, pre);
      if samples[n] == None {
        assert Run(cfg, samples).last == Run(cfg, pre).last;
        if Run(cfg, pre).last != None {
          var i :| 0 <= i < |pre| && pre[i] == Run(cfg, pre).last
                   && forall j :: i < j < |pre| ==> pre[j] == None;
          assert samples[i] == Run(cfg, samples).last;
          assert forall j :: i < j < |samples| ==> samples[j] == None by {
            forall j | i < j < |samples| ensures samples[j] == None {
              if j < n { assert pre[j] == samples[j]; }
            }
          }
        } else {
          assert forall i :: 0 <= i < |samples| ==> samples[i] == None by {
            forall i | 0 <= i < |samples| ensures samples[i] == None {
              if i < n { assert pre[i] == samples[i]; }
            }
          }
        }
      } else {
        assert samples[n] == Run(cfg, samples).last;
      }
    }
  }

  /** No successful fetch is the same as every fetch having failed. */
  lemma {:induction false} NoSuccesses(samples: seq<Option<Price>>)
    ensures Successes(samples) == 0 <==> forall i :: 0 <= i < |samples| ==> samples[i] == None
  {
    if samples != [] {
      var n := |samples| - 1;
      var pre := samples[..n];
      NoSuccesses(pre);
      assert forall i :: 0 <= i < n ==> pre[i] == samples[i];
    }
  }

  /** The first successful fetch never alerts, nor does any cycle before it:
      there are fewer alerts than successful fetches, or none at all. */
  lemma {:induction false} RunFirstSuccessIsSilent(cfg: Config, samples: seq<Option<Price>>)
    ensures Successes(samples) <= 1 ==> Run(cfg, samples).sent == []
    ensures Successes(samples) > 0 ==> |Run(cfg, samples).sent| < Successes(samples)
  {
    if samples != [] {
      var pre := samples[..|samples| - 1];
      RunFirstSuccessIsSilent(cfg, pre);
      // the baseline before the last cycle is unset exactly when no earlier fetch succeeded
      RunBaseline(cfg, pre);
      NoSuccesses(pre);
    }
  }

  /** Unfolding `Run` at the end: appending one more fetch result runs one
      more cycle on the state reached so far. */
  lemma RunExtend(cfg: Config, samples: seq<Option<Price>>, sample: Option<Price>)
    ensures var prev := Run(cfg, samples);
            var cycle := Step(cfg, prev.last, sample);
            Run(cfg, samples + [sample]) == Trace(cycle.last, prev.sent + Emitted(cycle.alert))
  {
    assert (samples + [sample])[..|samples|] == samples;
  }

  /** Once a baseline exists, a successful fetch sends exactly the alert the
      crossing test decides for it, after all the alerts sent before. */
  lemma RunSendsCrossingAlert(cfg: Config, samples: seq<Option<Price>>, q: Price)
    requires Run(cfg, samples).last != None
    ensures Run(cfg, samples + [Some(q)]).sent
            == Run(cfg, samples).sent + Emitted(Detect(cfg, Run(cfg, samples).last.value, q))
    ensures Run(cfg, samples + [Some(q)]).last == Some(q)
  {
    RunExtend(cfg, samples, Some(q));
  }

  /** Every alert reports a price that was actually fetched. */
  lemma {:induction false} RunAlertsReportFetchedPrices(cfg: Config, samples: seq<Option<Price>>)
    ensures forall a :: a in Run(cfg, samples).sent ==> Some(a.price) in samples
  {
    if samples != [] {
      var n := |samples| - 1;
      var pre := samples[..n];
      RunAlertsReportFetchedPrices(cfg, pre);
      assert samples == pre + [samples[n]];
      RunExtend(cfg, pre, samples[n]);
    }
  }

  /** A failed fetch anywhere in the history leaves every later state, and
      therefore every later alert, exactly as if that cycle had not happened. */
  lemma {:induction false} RunSkipsFailedFetch(cfg: Config, before: seq<Option<Price>>, after: seq<Option<Price>>)
    ensures Run(cfg, before + [None] + after) == Run(cfg, before + after)
  {
    if after == [] {
      assert before + [None] + after == before + [None];
      assert before + after == before;
      RunExtend(cfg, before, None);
    } else {
      var n := |after| - 1;
      var pre, x := after[..n], after[n];
      assert after == pre + [x];
      RunSkipsFailedFetch(cfg, before, pre);
      assert before + [None] + after == (before + [None] + pre) + [x];
      assert before + after == (before + pre) + [x];
      RunExtend(cfg, before + [None] + pre, x);
      RunExtend(cfg, before + pre, x);
    }
  }

  /** Hysteresis over a run: while every successful fetch stays on the same
      side of the thresholds as the baseline, no further alert is sent and
      the baseline stays on that side. */
  lemma {:induction false} RunStaysInZone(cfg: Config, before: seq<Option<Price>>, after: seq<Option<Price>>)
    requires Ordered(cfg)
    requires Run(cfg, before).last != None
    requires forall i :: 0 <= i < |after| && after[i] != None ==>
               ZoneOf(cfg, after[i].value) == ZoneOf(cfg, Run(cfg, before).last.value)
    ensures Run(cfg, before + after).sent == Run(cfg, before).sent
    ensures Run(cfg, before + after).last != None
    ensures ZoneOf(cfg, Run(cfg, before + after).last.value) == ZoneOf(cfg, Run(cfg, before).last.value)
  {
    if after == [] {
      assert before + after == before;
    } else {
      var n := |after| - 1;
      var pre := after[..n];
      assert forall i :: 0 <= i < |pre| && pre[i] != None ==>
               ZoneOf(cfg, pre[i].value) == ZoneOf(cfg, Run(cfg, before).last.value) by {
        forall i | 0 <= i < |pre| && pre[i] != None
          ensures ZoneOf(cfg, pre[i].value) == ZoneOf(cfg, Run(cfg, before).last.value)
        {
          assert pre[i] == after[i];
        }
      }
      RunStaysInZone(cfg, before, pre);
      assert before + after == (before + pre) + [after[n]];
      RunExtend(cfg, before + pre, after[n]);
      var mid := Run(cfg, before + pre);
      if after[n] != None {
        StepStaysInZone(cfg, mid.last.value, after[n].value);
      }
    }
  }

  /** The scenario with low = 20 and high = 30: the prices 25, 31, 32, 18, 22
      send exactly two alerts, "above 30" at 31 and "below 20" at 18. */
  lemma WorkedTrace()
    ensures Run(Config(30.0, 20.0), [Some(25.0), Some(31.0), Some(32.0), Some(18.0), Some(22.0)]).sent
            == [Alert(Above, 30.0, 31.0), Alert(Below, 20.0, 18.0)]
  {
    var cfg := Config(30.0, 20.0);
    var up, down := Alert(Above, 30.0, 31.0), Alert(Below, 20.0, 18.0);
    RunExtend(cfg, [], Some(25.0));
    assert [] + [Some(25.0)] == [Some(25.0)];
    assert Run(cfg, [Some(25.0)]) == Trace(Some(25.0), []);
    RunExtend(cfg, [Some(25.0)], Some(31.0));
    assert [Some(25.0)] + [Some(31.0)] == [Some(25.0), Some(31.0)];
    assert Run(cfg, [Some(25.0), Some(31.0)]) == Trace(Some(31.0), [up]);
    RunExtend(cfg, [Some(25.0), Some(31.0)], Some(32.0));
    assert [Some(25.0), Some(31.0)] + [Some(32.0)] == [Some(25.0), Some(31.0), Some(32.0)];
    assert Run(cfg, [Some(25.0), Some(31.0), Some(32.0)]) == Trace(Some(32.0), [up]);
    RunExtend(cfg, [Some(25.0), Some(31.0), Some(32.0)], Some(18.0));
    assert [Some(25.0), Some(31.0), Some(32.0)] + [Some(18.0)]
           == [Some(25.0), Some(31.0), Some(32.0), Some(18.0)];
    assert Run(cfg, [Some(25.0), Some(31.0), Some(32.0), Some(18.0)]) == Trace(Some(18.0), [up, down]);
    RunExtend(cfg, [Some(25.0), Some(31.0), Some(32.0), Some(18.0)], Some(22.0));
    assert [Some(25.0), Some(31.0), Some(32.0), Some(18.0)] + [Some(22.0)]
           == [Some(25.0), Some(31.0), Some(32.0), Some(18.0), Some(22.0)];
  }

  /** The monitoring loop over a finite sequence of fetch results: the
      baseline starts unset, a failed fetch skips the cycle, a successful one
      is tested against the baseline (the "above" test first) and then
      replaces it. Returns the final baseline and the alerts sent, in order. */
  method Watch(cfg: Config, samples: seq<Option<Price>>) returns (last: Option<Price>, sent: seq<Alert>)
    ensures Trace(last, sent) == Run(cfg, samples)
  {
    last := None;
    sent := [];
    var i := 0;
    while i < |samples|
      invariant 0 <= i <= |samples|
      invariant Trace(last, sent) == Run(cfg, samples[..i])
    {
      var current := samples[i];
      if current != None {
        if last != None {
          if current.value > cfg.high && last.value <= cfg.high {
            sent := sent + [Alert(Above, cfg.high, current.value)];
          } else if current.value < cfg.low && last.value >= cfg.low {
            sent := sent + [Alert(Below, cfg.low, current.value)];
          }
        }
        last := current;
      }
      assert samples[..i + 1][..i] == samples[..i];
      i := i + 1;
    }
    assert samples[..|samples|] == samples;
  }
}
