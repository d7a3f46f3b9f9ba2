/** What one collection pass produces, stated against the checks it saw. */
module PassProperties {
  import opened Wrappers
  import opened PortMessage
  import opened Exporter

  /** The `check_port` entries, in order. */
  function PortChecks(es: seq<Entry>): (ps: seq<Entry>)
    ensures |ps| <= |es|
    ensures forall k :: 0 <= k < |ps| ==> IsPortCheck(ps[k])
  {
    if es == [] then []
    else
      var last := es[|es| - 1];
      PortChecks(es[..|es| - 1]) + (if IsPortCheck(last) then [last] else [])
  }

  /** A `check_port` entry whose message matches the RX/TX regex. */
  predicate Measures(e: Entry) {
    IsPortCheck(e) && RxTx(e.check.message).Some?
  }

  /** The entries that yield RX and TX samples, in order. */
  function Measured(es: seq<Entry>): (ms: seq<Entry>)
    ensures |ms| <= |es|
    ensures forall k :: 0 <= k < |ms| ==> Measures(ms[k])
  {
    if es == [] then []
    else
      var last := es[|es| - 1];
      Measured(es[..|es| - 1]) + (if Measures(last) then [last] else [])
  }

  /** Records other than `check_port` change nothing: a pass over all
      entries equals a pass over the port checks alone. */
  lemma {:induction false} OnlyPortChecksContribute(es: seq<Entry>)
    ensures Run(es) == Run(PortChecks(es))
  {
    if es != [] {
      var init, last := es[..|es| - 1], es[|es| - 1];
      OnlyPortChecksContribute(init);
      if IsPortCheck(last) {
        RunSnoc(PortChecks(init), last);
      } else {
        assert PortChecks(es) == PortChecks(init);
      }
    }
  }

  /** A pass raises exactly when some `check_port` message has no leading
      token. */
  lemma {:induction false} FailsIffFaultyCheck(es: seq<Entry>)
    ensures Run(es).failed <==> exists k :: 0 <= k < |es| && Faulty(es[k])
  {
    if es != [] {
      var init, last := es[..|es| - 1], es[|es| - 1];
      FailsIffFaultyCheck(init);
      assert forall k :: 0 <= k < |init| ==> init[k] == es[k];
      if Faulty(last) {
        assert Faulty(es[|es| - 1]);
      }
    }
  }

  /** The pass stops at the first faulty check: the samples are those of the
      entries before it, and nothing after it is looked at. */
  lemma StopsAtFirstFault(es: seq<Entry>, k: nat)
    requires k < |es| && Faulty(es[k])
    requires forall i :: 0 <= i < k ==> !Faulty(es[i])
    ensures Run(es) == Run(es[..k]).(failed := true)
  {
    var head, tail := es[..k + 1], es[k + 1..];
    FaultStep(es, k);
    RunAfterFailure(head, tail);
    Rejoin(es, k + 1);
  }

  lemma RunAfterFailure(xs: seq<Entry>, ys: seq<Entry>)
    requires Run(xs).failed
    ensures Run(xs + ys) == Run(xs)
  {
    RunAppend(xs, ys);
  }

  lemma FaultStep(es: seq<Entry>, k: nat)
    requires k < |es| && Faulty(es[k])
    requires forall i :: 0 <= i < k ==> !Faulty(es[i])
    ensures Run(es[..k + 1]) == Run(es[..k]).(failed := true)
  {
    var init := es[..k];
    assert forall i :: 0 <= i < |init| ==> init[i] == es[i];
    FailsIffFaultyCheck(init);
    assert !Run(init).failed;
    assert EffectOf(es[k]).NoPortToken?;
    assert init + [es[k]] == es[..k + 1];
    RunSnoc(init, es[k]);
  }

  /** Some sample of `ss` carries `labels`. */
  ghost predicate LabelledIn(ss: seq<Sample>, labels: seq<string>) {
    exists i :: 0 <= i < |ss| && ss[i].labels == labels
  }

  /** RX and TX samples come in pairs with equal labels, each carrying the
      labels of some status sample. */
  ghost predicate Paired(o: Outcome) {
    && |o.rx| == |o.tx| <= |o.status|
    && (forall k :: 0 <= k < |o.rx| ==> o.rx[k].labels == o.tx[k].labels)
    && (forall k :: 0 <= k < |o.rx| ==> LabelledIn(o.status, o.rx[k].labels))
  }

  lemma StepPaired(o: Outcome, e: Entry)
    requires Paired(o)
    ensures Paired(Step(o, e))
  {
    var o' := Step(o, e);
    if !o.failed && EffectOf(e).Observed? {
      var eff := EffectOf(e);
      var n := |o.status|;
      assert o' == Observe(o, eff.labels, eff.status, eff.utilization);
      assert o'.status == o.status + [Sample(eff.labels, Number(eff.status))];
      assert o'.status[n].labels == eff.labels;
      forall k | 0 <= k < |o'.rx|
        ensures o'.rx[k].labels == o'.tx[k].labels
        ensures LabelledIn(o'.status, o'.rx[k].labels)
      {
        if k < |o.rx| {
          assert o'.rx[k] == o.rx[k] && o'.tx[k] == o.tx[k];
          var i :| 0 <= i < |o.status| && o.status[i].labels == o.rx[k].labels;
          assert o'.status[i] == o.status[i];
        } else {
          assert o'.rx[k].labels == eff.labels == o'.tx[k].labels;
        }
      }
    } else {
      assert o'.status == o.status && o'.rx == o.rx && o'.tx == o.tx;
    }
  }

  /** RX and TX samples are appended together, never without a status
      sample, and always with that status sample's labels. */
  lemma {:induction false} UtilizationPairsWithStatus(es: seq<Entry>)
    ensures Paired(Run(es))
  {
    if es != [] {
      UtilizationPairsWithStatus(es[..|es| - 1]);
      StepPaired(Run(es[..|es| - 1]), es[|es| - 1]);
    }
  }

  /** `s` is the status sample of the `check_port` record `e`: labelled with
      the site, the chassis and the message's leading token, valued 1 exactly
      when `port_status` is "ok". */
  predicate StatusSampleOf(e: Entry, s: Sample) {
    && LeadingToken(e.check.message).Some?
    && s == Sample([e.site, e.chassis, LeadingToken(e.check.message).value],
                   Number(StatusValue(e.check.portStatus)))
  }

  /** `r` and `t` are the RX and TX samples of the matching record `e`,
      carrying its labels and the two captured strings. */
  predicate UtilizationSamplesOf(e: Entry, r: Sample, t: Sample) {
    && LeadingToken(e.check.message).Some?
    && RxTx(e.check.message).Some?
    && var labels := [e.site, e.chassis, LeadingToken(e.check.message).value];
    && r == Sample(labels, Text(RxTx(e.check.message).value.0))
    && t == Sample(labels, Text(RxTx(e.check.message).value.1))
  }

  /** One status sample per `check_port` record, in order. */
  lemma {:induction false} StatusSamplesFollowPortChecks(es: seq<Entry>)
    requires !Run(es).failed
    ensures |Run(es).status| == |PortChecks(es)|
    ensures forall k :: 0 <= k < |PortChecks(es)| ==> StatusSampleOf(PortChecks(es)[k], Run(es).status[k])
  {
    if es != [] {
      var init, last := es[..|es| - 1], es[|es| - 1];
      StatusSamplesFollowPortChecks(init);
      var ps0, ps := PortChecks(init), PortChecks(es);
      var o0, o := Run(init), Run(es);
      if IsPortCheck(last) {
        assert ps == ps0 + [last];
        assert o.status == o0.status + [Sample([last.site, last.chassis, LeadingToken(last.check.message).value],
                                               Number(StatusValue(last.check.portStatus)))];
        forall k | 0 <= k < |ps|
          ensures StatusSampleOf(ps[k], o.status[k])
        {
          if k < |ps0| {
            assert ps[k] == ps0[k] && o.status[k] == o0.status[k];
          }
        }
      } else {
        assert ps == ps0 && o.status == o0.status;
      }
    }
  }

  /** One RX and one TX sample per `check_port` record whose message matches
      the RX/TX regex, in order. */
  lemma {:induction false} UtilizationSamplesFollowMatches(es: seq<Entry>)
    requires !Run(es).failed
    ensures |Run(es).rx| == |Measured(es)| && |Run(es).tx| == |Measured(es)|
    ensures forall k :: 0 <= k < |Measured(es)| ==>
      UtilizationSamplesOf(Measured(es)[k], Run(es).rx[k], Run(es).tx[k])
  {
    if es != [] {
      var init, last := es[..|es| - 1], es[|es| - 1];
      UtilizationSamplesFollowMatches(init);
      var ms0, ms := Measured(init), Measured(es);
      var o0, o := Run(init), Run(es);
      if Measures(last) {
        assert ms == ms0 + [last];
        var labels := [last.site, last.chassis, LeadingToken(last.check.message).value];
        assert o.rx == o0.rx + [Sample(labels, Text(RxTx(last.check.message).value.0))];
        assert o.tx == o0.tx + [Sample(labels, Text(RxTx(last.check.message).value.1))];
        forall k | 0 <= k < |ms|
          ensures UtilizationSamplesOf(ms[k], o.rx[k], o.tx[k])
        {
          if k < |ms0| {
            assert ms[k] == ms0[k] && o.rx[k] == o0.rx[k] && o.tx[k] == o0.tx[k];
          }
        }
      } else {
        assert ms == ms0 && o.rx == o0.rx && o.tx == o0.tx;
      }
    }
  }

  /** A pass over a non-port check followed by the `check_port` record quoted
      in exporter.py:37 with status "ok": one status sample 1 and RX and TX
      samples "0", all labelled with site, chassis and "swp15". */
  lemma SamplePass(site: string, chassis: string, other: Check)
    requires other.checkName != "check_port"
    ensures var labels := [site, chassis, "swp15"];
      Run([Entry(site, chassis, other), Entry(site, chassis, Check("check_port", "ok", SampleMessage()))])
        == Outcome([Sample(labels, Number(1))], [Sample(labels, Text("0"))], [Sample(labels, Text("0"))], false)
  {
    var labels := [site, chassis, "swp15"];
    var e0 := Entry(site, chassis, other);
    var e1 := Entry(site, chassis, Check("check_port", "ok", SampleMessage()));
    SampleEffect(site, chassis);
    RunPair(e0, e1);
    assert Step(Nothing, e0) == Nothing;
  }

  lemma RunPair(e0: Entry, e1: Entry)
    ensures Run([e0, e1]) == Step(Step(Nothing, e0), e1)
  {
    RunSnoc([], e0);
    RunSnoc([e0], e1);
  }

  lemma SampleEffect(site: string, chassis: string)
    ensures EffectOf(Entry(site, chassis, Check("check_port", "ok", SampleMessage())))
      == Observed([site, chassis, "swp15"], 1, Some(("0", "0")))
  {
    SampleMessagePort();
    SampleMessageUtilization();
  }
}
