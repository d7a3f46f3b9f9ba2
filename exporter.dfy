/** The `NetrisExporter` collector of exporter.py: one collection pass walks
    the lookingglass chassis list and fills three gauge families with one
    status sample per `check_port` record and, when the message carries
    utilisation figures, one RX and one TX sample. */
module Exporter {
  import opened Wrappers
  import opened PortMessage

  // ---------------------------------------------------------------------
  // Input: the `data` list returned by the lookingglass endpoint.

  /** One element of a chassis' `hardwareHealth` list. */
  datatype Check = Check(checkName: string, portStatus: string, message: string)

  /** One chassis: its `name`, the `name` of its `site`, and its checks. */
  datatype Chassis = Chassis(name: string, site: string, hardwareHealth: seq<Check>)

  /** A check together with the chassis and site it was reported for. */
  datatype Entry = Entry(site: string, chassis: string, check: Check)

  // ---------------------------------------------------------------------
  // Output: gauge families as `GaugeMetricFamily` keeps them.

  /** A sample value: the status is an int, RX and TX are the captured text. */
  datatype Value = Number(n: int) | Text(s: string)

  datatype Sample = Sample(labels: seq<string>, value: Value)

  datatype Family = Family(name: string, help: string, labelNames: seq<string>, samples: seq<Sample>)
  {
    /** `add_metric`: one more sample at the end. */
    function AddMetric(labels: seq<string>, value: Value): (r: Family)
      ensures r.name == name && r.help == help && r.labelNames == labelNames
      ensures |r.samples| == |samples| + 1 && r.samples[..|samples|] == samples
      ensures r.samples[|samples|] == Sample(labels, value)
    {
      Appended(this, [Sample(labels, value)])
    }
  }

  /** A family with `added` appended to its samples. */
  function Appended(f: Family, added: seq<Sample>): Family {
    f.(samples := f.samples + added)
  }

  lemma AppendedTwice(f: Family, xs: seq<Sample>, ys: seq<Sample>)
    ensures Appended(Appended(f, xs), ys) == Appended(f, xs + ys)
  {
    assert f.samples + xs + ys == f.samples + (xs + ys);
  }

  const PortLabelNames: seq<string> := ["site", "chassis", "port"]

  const StatusFamily: Family :=
    Family("netris_port_status", "Port status for network devices managed by Netris", PortLabelNames, [])
  const RxFamily: Family :=
    Family("netris_port_rx", "Port RX utilization for network devices managed by Netris", PortLabelNames, [])
  const TxFamily: Family :=
    Family("netris_port_tx", "Port TX utilization for network devices managed by Netris", PortLabelNames, [])

  /** Why a pass yields nothing: the lookingglass call raised, or a
      `check_port` message had no leading token (`m[0]` on `None`). */
  datatype Fault = UpstreamError(message: string) | MissingPortToken

  // ---------------------------------------------------------------------
  // Specification of one pass.

  /** The checks of one chassis, in list order. */
  function Tag(site: string, chassis: string, checks: seq<Check>): (es: seq<Entry>)
    ensures |es| == |checks|
    ensures forall k :: 0 <= k < |checks| ==> es[k] == Entry(site, chassis, checks[k])
  {
    seq(|checks|, k requires 0 <= k < |checks| => Entry(site, chassis, checks[k]))
  }

  /** All checks, chassis by chassis, in the order `get_metrics` visits them. */
  function Entries(data: seq<Chassis>): seq<Entry>
  {
    if data == [] then []
    else
      var last := data[|data| - 1];
      Entries(data[..|data| - 1]) + Tag(last.site, last.name, last.hardwareHealth)
  }

  /** What one check contributes. */
  datatype Effect =
    | Ignored
    | NoPortToken
    | Observed(labels: seq<string>, status: int, utilization: Option<(string, string)>)

  predicate IsPortCheck(e: Entry) {
    e.check.checkName == "check_port"
  }

  /** A `check_port` record whose message has no leading token. */
  predicate Faulty(e: Entry) {
    IsPortCheck(e) && LeadingToken(e.check.message).None?
  }

  function EffectOf(e: Entry): (r: Effect)
    ensures r.Ignored? <==> !IsPortCheck(e)
    ensures r.NoPortToken? <==> Faulty(e)
    ensures r.Observed? ==>
      && LeadingToken(e.check.message).Some?
      && r.labels == [e.site, e.chassis, LeadingToken(e.check.message).value]
      && (r.status == 1 <==> e.check.portStatus == "ok")
      && (r.status == 0 <==> e.check.portStatus != "ok")
      && r.utilization == RxTx(e.check.message)
  {
    if !IsPortCheck(e) then Ignored
    else match LeadingToken(e.check.message)
      case None => NoPortToken
      case Some(port) =>
        Observed([e.site, e.chassis, port], StatusValue(e.check.portStatus), RxTx(e.check.message))
  }

  /** The three sample lists appended by a pass so far, and whether the pass
      has raised. */
  datatype Outcome = Outcome(status: seq<Sample>, rx: seq<Sample>, tx: seq<Sample>, failed: bool)

  const Nothing: Outcome := Outcome([], [], [], false)

  /** Append one status sample and, if the message matched, one RX and one
      TX sample, all with the same labels. */
  function Observe(o: Outcome, labels: seq<string>, status: int, utilization: Option<(string, string)>): (r: Outcome)
    ensures r.failed == o.failed
    ensures r.status == o.status + [Sample(labels, Number(status))]
    ensures utilization.None? ==> r.rx == o.rx && r.tx == o.tx
    ensures utilization.Some? ==>
      && r.rx == o.rx + [Sample(labels, Text(utilization.value.0))]
      && r.tx == o.tx + [Sample(labels, Text(utilization.value.1))]
  {
    var o' := o.(status := o.status + [Sample(labels, Number(status))]);
    match utilization
    case None => o'
    case Some((r, t)) => o'.(rx := o.rx + [Sample(labels, Text(r))], tx := o.tx + [Sample(labels, Text(t))])
  }

  function Step(o: Outcome, e: Entry): (r: Outcome)
    ensures o.failed ==> r == o
    ensures r.failed <==> o.failed || Faulty(e)
    ensures o.status <= r.status && o.rx <= r.rx && o.tx <= r.tx
    ensures |r.status| <= |o.status| + 1
    ensures |r.rx| - |o.rx| == |r.tx| - |o.tx| <= |r.status| - |o.status|
  {
    if o.failed then o
    else match EffectOf(e)
      case Ignored => o
      case NoPortToken => o.(failed := true)
      case Observed(labels, status, utilization) => Observe(o, labels, status, utilization)
  }

  /** A pass over the entries, one step per entry; a raised pass stays put. */
  function Run(es: seq<Entry>): (r: Outcome)
    ensures |r.status| <= |es|
    ensures |r.rx| == |r.tx| <= |r.status|
  {
    if es == [] then Nothing else Step(Run(es[..|es| - 1]), es[|es| - 1])
  }

  // ---------------------------------------------------------------------
  // The collector.

  datatype Auth = Auth(user: string, password: string, authSchemeId: int)

  class NetrisExporter {
    const netrisApi: string
    const auth: Auth
    const headers: map<string, string>
    var status: Family
    var rx: Family
    var tx: Family

    constructor (netrisApi: string, user: string, password: string)
      ensures this.netrisApi == netrisApi && auth == Auth(user, password, 1)
      ensures headers == map["Content-Type" := "application/json"]
      ensures status == StatusFamily && rx == RxFamily && tx == TxFamily
    {
      this.netrisApi := netrisApi;
      auth := Auth(user, password, 1);
      headers := map["Content-Type" := "application/json"];
      status, rx, tx := StatusFamily, RxFamily, TxFamily;
    }

    /** The families hold `s0`, `r0`, `t0` followed by what `o` appended. */
    ghost predicate Extends(s0: Family, r0: Family, t0: Family, o: Outcome)
      reads this
    {
      && status == Appended(s0, o.status)
      && rx == Appended(r0, o.rx)
      && tx == Appended(t0, o.tx)
    }

    /** `get_metrics`: append what every check contributes, in order; `ok`
        is false when a `check_port` message had no leading token, in which
        case the families keep what was appended before that record. */
    method GetMetrics(data: seq<Chassis>) returns (ok: bool)
      modifies this
      ensures ok == !Run(Entries(data)).failed
      ensures Extends(old(status), old(rx), old(tx), Run(Entries(data)))
    {
      ghost var s0, r0, t0 := status, rx, tx;
      ghost var acc := Nothing;
      var n := 0;
      while n < |data|
        invariant 0 <= n <= |data|
        invariant acc == Run(Entries(data[..n])) && !acc.failed
        invariant Extends(s0, r0, t0, acc)
      {
        var chassis := data[n];
        var name := chassis.name;
        var site := chassis.site;
        ghost var done := Entries(data[..n]);
        var k := 0;
        assert done + Tag(site, name, chassis.hardwareHealth[..k]) == done;
        while k < |chassis.hardwareHealth|
          invariant 0 <= k <= |chassis.hardwareHealth|
          invariant acc == Run(done + Tag(site, name, chassis.hardwareHealth[..k])) && !acc.failed
          invariant Extends(s0, r0, t0, acc)
        {
          var check := chassis.hardwareHealth[k];
          PassSnoc(done, site, name, chassis.hardwareHealth, k);
          ghost var e := Entry(site, name, check);
          var recorded := AddCheck(site, name, check);
          StepContinues(acc, e);
          AppendedTwice(s0, acc.status, Step(Nothing, e).status);
          AppendedTwice(r0, acc.rx, Step(Nothing, e).rx);
          AppendedTwice(t0, acc.tx, Step(Nothing, e).tx);
          acc := Step(acc, e);
          if !recorded {
            RestAfterFault(data, n, k);
            return false;
          }
          k := k + 1;
        }
        assert chassis.hardwareHealth[..k] == chassis.hardwareHealth;
        EntriesSnoc(data, n);
        n := n + 1;
      }
      assert data[..n] == data;
      return true;
    }

    /** One iteration of the inner loop of `get_metrics`: a check other
        than `check_port` is skipped; otherwise one status sample and, when
        the message matches, one RX and one TX sample are appended. `ok` is
        false when the message has no leading token, and then nothing is
        appended. */
    method AddCheck(site: string, name: string, check: Check) returns (ok: bool)
      modifies this
      ensures ok == !Faulty(Entry(site, name, check))
      ensures Extends(old(status), old(rx), old(tx), Step(Nothing, Entry(site, name, check)))
    {
      if check.checkName != "check_port" {
        return true;
      }
      var value := StatusValue(check.portStatus);
      var token := LeadingToken(check.message);
      if token.None? {
        return false;
      }
      var port := token.value;
      status := status.AddMetric([site, name, port], Number(value));
      var utilization := RxTx(check.message);
      if utilization.Some? {
        rx := rx.AddMetric([site, name, port], Text(utilization.value.0));
        tx := tx.AddMetric([site, name, port], Text(utilization.value.1));
      }
      return true;
    }

    /** `collect`: fetch, start three empty families, fill them and yield
        status, rx and tx in that order. Nothing is yielded when the fetch
        or the pass raises. */
    method Collect(fetched: Result<seq<Chassis>, string>) returns (r: Result<seq<Family>, Fault>)
      modifies this
      ensures fetched.Failure? ==>
        && r == Failure(UpstreamError(fetched.error))
        && status == old(status) && rx == old(rx) && tx == old(tx)
      ensures fetched.Success? ==>
        var o := Run(Entries(fetched.value));
        && status == StatusFamily.(samples := o.status)
        && rx == RxFamily.(samples := o.rx)
        && tx == TxFamily.(samples := o.tx)
        && r == if o.failed then Failure(MissingPortToken) else Success([status, rx, tx])
    {
      if fetched.Failure? {
        return Failure(UpstreamError(fetched.error));
      }
      status := StatusFamily;
      rx := RxFamily;
      tx := TxFamily;
      var ok := GetMetrics(fetched.value);
      if !ok {
        return Failure(MissingPortToken);
      }
      return Success([status, rx, tx]);
    }
  }

  /** Two passes over the same data yield the same families: nothing is
      carried over from one pass to the next. */
  method CollectTwice(exporter: NetrisExporter, data: seq<Chassis>)
    returns (first: Result<seq<Family>, Fault>, second: Result<seq<Family>, Fault>)
    modifies exporter
    ensures first == second
    ensures var o := Run(Entries(data));
      first == if o.failed then Failure(MissingPortToken)
               else Success([StatusFamily.(samples := o.status), RxFamily.(samples := o.rx), TxFamily.(samples := o.tx)])
  {
    first := exporter.Collect(Success(data));
    second := exporter.Collect(Success(data));
  }

  // ---------------------------------------------------------------------
  // Lemmas used by GetMetrics.

  lemma RunSnoc(es: seq<Entry>, e: Entry)
    ensures Run(es + [e]) == Step(Run(es), e)
  {
    assert (es + [e])[..|es|] == es;
  }

  lemma PassSnoc(done: seq<Entry>, site: string, chassis: string, checks: seq<Check>, k: nat)
    requires k < |checks|
    ensures Run(done + Tag(site, chassis, checks[..k + 1]))
      == Step(Run(done + Tag(site, chassis, checks[..k])), Entry(site, chassis, checks[k]))
  {
    TagSnoc(site, chassis, checks, k);
    assert done + Tag(site, chassis, checks[..k + 1])
      == (done + Tag(site, chassis, checks[..k])) + [Entry(site, chassis, checks[k])];
    RunSnoc(done + Tag(site, chassis, checks[..k]), Entry(site, chassis, checks[k]));
  }

  /** One step of a pass that has not raised appends what the check alone
      contributes. */
  lemma StepContinues(o: Outcome, e: Entry)
    requires !o.failed
    ensures Step(o, e) == Join(o, Step(Nothing, e))
  {
    StepJoin(o, Nothing, e);
    assert Join(o, Nothing) == o;
  }

  lemma TagSnoc(site: string, chassis: string, checks: seq<Check>, k: nat)
    requires k < |checks|
    ensures Tag(site, chassis, checks[..k + 1]) == Tag(site, chassis, checks[..k]) + [Entry(site, chassis, checks[k])]
  {
  }

  lemma EntriesSnoc(data: seq<Chassis>, n: nat)
    requires n < |data|
    ensures Entries(data[..n + 1]) == Entries(data[..n]) + Tag(data[n].site, data[n].name, data[n].hardwareHealth)
  {
    assert data[..n + 1][..n] == data[..n];
  }

  /** A pass that has raised at check k of chassis n is the whole pass. */
  lemma RestAfterFault(data: seq<Chassis>, n: nat, k: nat)
    requires n < |data| && k < |data[n].hardwareHealth|
    requires Run(Entries(data[..n]) + Tag(data[n].site, data[n].name, data[n].hardwareHealth[..k + 1])).failed
    ensures Run(Entries(data)) == Run(Entries(data[..n]) + Tag(data[n].site, data[n].name, data[n].hardwareHealth[..k + 1]))
  {
    var hh := data[n].hardwareHealth;
    var head := Entries(data[..n]) + Tag(data[n].site, data[n].name, hh[..k + 1]);
    var tail := Tag(data[n].site, data[n].name, hh[k + 1..]) + Entries(data[n + 1..]);
    EntriesSplit(data, n, k);
    RunAppend(head, tail);
  }

  lemma EntriesSplit(data: seq<Chassis>, n: nat, k: nat)
    requires n < |data| && k < |data[n].hardwareHealth|
    ensures
      var c := data[n];
      Entries(data) ==
        (Entries(data[..n]) + Tag(c.site, c.name, c.hardwareHealth[..k + 1]))
        + (Tag(c.site, c.name, c.hardwareHealth[k + 1..]) + Entries(data[n + 1..]))
  {
    var c := data[n];
    var hh := c.hardwareHealth;
    var before, here, after := Entries(data[..n]), Tag(c.site, c.name, hh[..k + 1]), Tag(c.site, c.name, hh[k + 1..]);
    var rest := Entries(data[n + 1..]);
    Rejoin(hh, k + 1);
    TagAppend(c.site, c.name, hh[..k + 1], hh[k + 1..]);
    EntriesSnoc(data, n);
    Rejoin(data, n + 1);
    EntriesAppend(data[..n + 1], data[n + 1..]);
    assert Entries(data) == (before + (here + after)) + rest;
    assert (before + (here + after)) + rest == (before + here) + (after + rest);
  }

  lemma Rejoin<T>(s: seq<T>, k: nat)
    requires k <= |s|
    ensures s[..k] + s[k..] == s
  {
  }

  lemma TagAppend(site: string, chassis: string, xs: seq<Check>, ys: seq<Check>)
    ensures Tag(site, chassis, xs + ys) == Tag(site, chassis, xs) + Tag(site, chassis, ys)
  {
  }

  lemma {:induction false} EntriesAppend(xs: seq<Chassis>, ys: seq<Chassis>)
    ensures Entries(xs + ys) == Entries(xs) + Entries(ys)
    decreases |ys|
  {
    if ys == [] {
      assert xs + ys == xs;
    } else {
      var init, last := ys[..|ys| - 1], ys[|ys| - 1];
      var t := Tag(last.site, last.name, last.hardwareHealth);
      assert (xs + ys)[..|xs + ys| - 1] == xs + init;
      assert (xs + ys)[|xs + ys| - 1] == last;
      assert Entries(xs + ys) == Entries(xs + init) + t;
      assert Entries(ys) == Entries(init) + t;
      EntriesAppend(xs, init);
    }
  }

  // ---------------------------------------------------------------------
  // Properties of a pass.

  /** Two consecutive runs: the second continues where the first stopped,
      unless the first raised, in which case nothing further happens. */
  function Join(o1: Outcome, o2: Outcome): Outcome {
    if o1.failed then o1 else Outcome(o1.status + o2.status, o1.rx + o2.rx, o1.tx + o2.tx, o2.failed)
  }

  lemma {:induction false} RunAppend(xs: seq<Entry>, ys: seq<Entry>)
    ensures Run(xs + ys) == Join(Run(xs), Run(ys))
    decreases |ys|
  {
    if ys == [] {
      assert xs + ys == xs;
    } else {
      var init, last := ys[..|ys| - 1], ys[|ys| - 1];
      assert xs + ys == (xs + init) + [last];
      RunSnoc(xs + init, last);
      RunSnoc(init, last);
      RunAppend(xs, init);
      StepJoin(Run(xs), Run(init), last);
    }
  }

  lemma StepJoin(o1: Outcome, o2: Outcome, e: Entry)
    ensures Step(Join(o1, o2), e) == Join(o1, Step(o2, e))
  {
    if !o1.failed && !o2.failed && EffectOf(e).Observed? {
      var eff := EffectOf(e);
      var o := Join(o1, o2);
      assert Step(o, e) == Observe(o, eff.labels, eff.status, eff.utilization);
      assert Step(o2, e) == Observe(o2, eff.labels, eff.status, eff.utilization);
      var st := [Sample(eff.labels, Number(eff.status))];
      assert (o1.status + o2.status) + st == o1.status + (o2.status + st);
      if eff.utilization.Some? {
        var rt := [Sample(eff.labels, Text(eff.utilization.value.0))];
        var tt := [Sample(eff.labels, Text(eff.utilization.value.1))];
        assert (o1.rx + o2.rx) + rt == o1.rx + (o2.rx + rt);
        assert (o1.tx + o2.tx) + tt == o1.tx + (o2.tx + tt);
      }
    }
  }
}
