/**
 The request counters of the mesh: counts by tenant, source, destination and status code, and
 durations by the first three, all in dictionaries keyed by the labels joined with colons.
 */
module RequestMetrics {
  import opened Text

  datatype Sample = Sample(tenant: string, source: string, dest: string, code: string, ms: int)

  datatype Telemetry = Telemetry(
    requests: map<string, nat>,
    durationSum: map<string, int>,
    durationCount: map<string, nat>)

  const EMPTY := Telemetry(map[], map[], map[])

  function DurationKey(s: Sample): string {
    s.tenant + ":" + s.source + ":" + s.dest
  }

  function RequestKey(s: Sample): string {
    DurationKey(s) + ":" + s.code
  }

  function Count(m: map<string, nat>, key: string): nat {
    if key in m then m[key] else 0
  }

  function Sum(m: map<string, int>, key: string): int {
    if key in m then m[key] else 0
  }

  function Recorded(t: Telemetry, s: Sample): Telemetry {
    Telemetry(
      t.requests[RequestKey(s) := Count(t.requests, RequestKey(s)) + 1],
      t.durationSum[DurationKey(s) := Sum(t.durationSum, DurationKey(s)) + s.ms],
      t.durationCount[DurationKey(s) := Count(t.durationCount, DurationKey(s)) + 1])
  }

  function Run(samples: seq<Sample>): Telemetry
    decreases |samples|
  {
    if samples == [] then EMPTY else Recorded(Run(samples[..|samples| - 1]), samples[|samples| - 1])
  }

  class RequestTelemetry {
    var requests: map<string, nat>
    var durationSum: map<string, int>
    var durationCount: map<string, nat>

    function View(): Telemetry
      reads this
    {
      Telemetry(requests, durationSum, durationCount)
    }

    constructor ()
      ensures View() == EMPTY
    {
      requests, durationSum, durationCount := map[], map[], map[];
    }

    method RecordRequest(tenant: string, source: string, dest: string, code: string, ms: int)
      modifies this
      ensures View() == Recorded(old(View()), Sample(tenant, source, dest, code, ms))
    {
      var key := tenant + ":" + source + ":" + dest + ":" + code;
      assert key == RequestKey(Sample(tenant, source, dest, code, ms));
      requests := requests[key := (if key in requests then requests[key] else 0) + 1];
      var durKey := tenant + ":" + source + ":" + dest;
      durationSum := durationSum[durKey := (if durKey in durationSum then durationSum[durKey] else 0) + ms];
      durationCount := durationCount[durKey := (if durKey in durationCount then durationCount[durKey] else 0) + 1];
    }
  }

  // ---------------------------------------------------------------- keys and labels

  function Labels(s: Sample): seq<string> {
    [s.tenant, s.source, s.dest, s.code]
  }

  predicate ColonFree(s: Sample) {
    ':' !in s.tenant && ':' !in s.source && ':' !in s.dest && ':' !in s.code
  }

  /** The labels the export writes for a request key: the first four parts, or fewer. */
  function Reported(key: string): seq<string> {
    var parts := Split(key, ':');
    if |parts| <= 4 then parts else parts[..4]
  }

  lemma KeyIsJoin(s: Sample)
    ensures RequestKey(s) == Join(Labels(s), ':')
  {
    var ls := Labels(s);
    assert ls[1..] == [s.source, s.dest, s.code] && ls[1..][1..] == [s.dest, s.code] && ls[1..][1..][1..] == [s.code];
    assert Join(ls[1..][1..], ':') == s.dest + ":" + s.code;
    assert Join(ls[1..], ':') == s.source + ":" + (s.dest + ":" + s.code);
    assert Join(ls, ':') == s.tenant + ":" + (s.source + ":" + (s.dest + ":" + s.code));
    assert RequestKey(s) == s.tenant + ":" + (s.source + ":" + (s.dest + ":" + s.code));
  }

  /** The export gives back the recorded labels exactly when none of them has a colon. */
  lemma ReportedIff(s: Sample)
    ensures Reported(RequestKey(s)) == Labels(s) <==> ColonFree(s)
  {
    KeyIsJoin(s);
    var ls := Labels(s);
    if ColonFree(s) {
      SplitOfJoin(ls, ':');
    }
    if Reported(RequestKey(s)) == ls {
      JoinOfSplit(RequestKey(s), ':');
      var parts := Split(RequestKey(s), ':');
      assert forall i :: 0 <= i < 4 ==> parts[i] == ls[i] && ':' !in parts[i];
      assert ls[0] == s.tenant && ls[1] == s.source && ls[2] == s.dest && ls[3] == s.code;
    }
  }

  function DurationLabels(s: Sample): seq<string> {
    [s.tenant, s.source, s.dest]
  }

  /** The labels the export writes for a duration key: its first three parts, or fewer. */
  function ReportedDuration(key: string): seq<string> {
    var parts := Split(key, ':');
    if |parts| <= 3 then parts else parts[..3]
  }

  lemma DurationKeyIsJoin(s: Sample)
    ensures DurationKey(s) == Join(DurationLabels(s), ':')
  {
    var ls := DurationLabels(s);
    assert ls[1..] == [s.source, s.dest] && ls[1..][1..] == [s.dest];
    assert Join(ls[1..], ':') == s.source + ":" + s.dest;
    assert Join(ls, ':') == s.tenant + ":" + (s.source + ":" + s.dest);
  }

  /** Likewise for durations: tenant, source and destination come back exactly when none has a colon. */
  lemma ReportedDurationIff(s: Sample)
    ensures ReportedDuration(DurationKey(s)) == DurationLabels(s)
       <==> ':' !in s.tenant && ':' !in s.source && ':' !in s.dest
  {
    DurationKeyIsJoin(s);
    var ls := DurationLabels(s);
    if ':' !in s.tenant && ':' !in s.source && ':' !in s.dest {
      SplitOfJoin(ls, ':');
    }
    if ReportedDuration(DurationKey(s)) == ls {
      JoinOfSplit(DurationKey(s), ':');
      var parts := Split(DurationKey(s), ':');
      assert forall i :: 0 <= i < 3 ==> parts[i] == ls[i] && ':' !in parts[i];
      assert ls[0] == s.tenant && ls[1] == s.source && ls[2] == s.dest;
    }
  }

  // ---------------------------------------------------------------- sums

  function Matching(samples: seq<Sample>, p: Sample -> bool): nat
    decreases |samples|
  {
    if samples == [] then 0
    else Matching(samples[..|samples| - 1], p) + if p(samples[|samples| - 1]) then 1 else 0
  }

  function TotalMs(samples: seq<Sample>, durationKey: string): int
    decreases |samples|
  {
    if samples == [] then 0
    else
      var last := samples[|samples| - 1];
      TotalMs(samples[..|samples| - 1], durationKey) + if DurationKey(last) == durationKey then last.ms else 0
  }

  /** Every counter counts the samples with its key, and the durations add up. */
  lemma {:induction false} CountersCount(samples: seq<Sample>, key: string)
    ensures Sum(Run(samples).durationSum, key) == TotalMs(samples, key)
    ensures Count(Run(samples).requests, key) == Matching(samples, s => RequestKey(s) == key)
    ensures Count(Run(samples).durationCount, key) == Matching(samples, s => DurationKey(s) == key)
    decreases |samples|
  {
    if samples == [] {
    } else {
      CountersCount(samples[..|samples| - 1], key);
    }
  }

  /** For colon-free labels the count exported for four labels is that of the samples with these labels. */
  lemma {:induction false} CountOfLabels(samples: seq<Sample>, x: Sample)
    requires ColonFree(x) && forall i :: 0 <= i < |samples| ==> ColonFree(samples[i])
    ensures Count(Run(samples).requests, RequestKey(x)) == Matching(samples, s => Labels(s) == Labels(x))
    decreases |samples|
  {
    if samples == [] {
    } else {
      var last := samples[|samples| - 1];
      CountOfLabels(samples[..|samples| - 1], x);
      KeyIsJoin(x);
      KeyIsJoin(last);
      JoinInjective(Labels(x), Labels(last), ':');
    }
  }

  ghost function SumOverCodes(requests: map<string, nat>, durationKey: string, codes: set<string>): nat
    decreases codes
  {
    if codes == {} then 0
    else
      var c :| c in codes;
      Count(requests, durationKey + ":" + c) + SumOverCodes(requests, durationKey, codes - {c})
  }

  lemma KeyOfCode(s: Sample, key: string, c: string)
    requires ':' !in c && ':' !in s.code
    ensures key + ":" + c == RequestKey(s) <==> key == DurationKey(s) && c == s.code
  {
    if key + ":" + c == RequestKey(s) {
      LastPartUnique(key, c, DurationKey(s), s.code, ':');
    }
  }

  /** One more request under one of the codes raises their sum by one. */
  lemma {:induction false} SumAfterRecord(t: Telemetry, s: Sample, key: string, codes: set<string>)
    requires ':' !in s.code && forall c :: c in codes ==> ':' !in c
    ensures SumOverCodes(Recorded(t, s).requests, key, codes)
         == SumOverCodes(t.requests, key, codes) + (if key == DurationKey(s) && s.code in codes then 1 else 0)
    decreases codes
  {
    if codes == {} {
    } else {
      var c :| c in codes && SumOverCodes(t.requests, key, codes)
                          == Count(t.requests, key + ":" + c) + SumOverCodes(t.requests, key, codes - {c});
      SumAnyOrder(Recorded(t, s).requests, key, codes, c);
      SumAfterRecord(t, s, key, codes - {c});
      KeyOfCode(s, key, c);
      assert Count(Recorded(t, s).requests, key + ":" + c)
          == Count(t.requests, key + ":" + c) + (if key == DurationKey(s) && c == s.code then 1 else 0);
    }
  }

  lemma {:induction false} SumAnyOrder(requests: map<string, nat>, key: string, codes: set<string>, c: string)
    requires c in codes
    ensures SumOverCodes(requests, key, codes)
         == Count(requests, key + ":" + c) + SumOverCodes(requests, key, codes - {c})
    decreases codes
  {
    var d :| d in codes && SumOverCodes(requests, key, codes)
                        == Count(requests, key + ":" + d) + SumOverCodes(requests, key, codes - {d});
    if c != d {
      SumAnyOrder(requests, key, codes - {d}, c);
      SumAnyOrder(requests, key, codes - {c}, d);
      assert codes - {d} - {c} == codes - {c} - {d};
    }
  }

  /**
   After any requests, whatever their labels, each duration count is the sum of the request counts over
   the status codes; codes are written without colons.
   */
  lemma {:induction false} DurationCountIsSumOverCodes(samples: seq<Sample>, key: string, codes: set<string>)
    requires forall i :: 0 <= i < |samples| ==> ':' !in samples[i].code && samples[i].code in codes
    requires forall c :: c in codes ==> ':' !in c
    ensures Count(Run(samples).durationCount, key) == SumOverCodes(Run(samples).requests, key, codes)
    decreases |samples|
  {
    if samples == [] {
      SumOfNothing(key, codes);
    } else {
      var front, last := samples[..|samples| - 1], samples[|samples| - 1];
      DurationCountIsSumOverCodes(front, key, codes);
      SumAfterRecord(Run(front), last, key, codes);
    }
  }

  lemma {:induction false} SumOfNothing(key: string, codes: set<string>)
    ensures SumOverCodes(map[], key, codes) == 0
    decreases codes
  {
    if codes == {} {
    } else {
      var c :| c in codes;
      SumAnyOrder(map[], key, codes, c);
      SumOfNothing(key, codes - {c});
    }
  }

  /** A tenant label with a colon is counted together with another tenant's requests. */
  lemma ColonMergesTenants(dest: string, ms: int)
    ensures var a, b := Sample("acme:web", "api", dest, "200", ms), Sample("acme", "web:api", dest, "200", ms);
            Labels(a) != Labels(b) && Count(Run([a, b]).requests, RequestKey(a)) == 2
  {
    var a, b := Sample("acme:web", "api", dest, "200", ms), Sample("acme", "web:api", dest, "200", ms);
    assert a.tenant + ":" + a.source == b.tenant + ":" + b.source;
    assert a.tenant != b.tenant;
    assert [a, b][..1] == [a] && [a][..0] == [];
    assert Run([a]) == Recorded(EMPTY, a);
    assert Run([a, b]) == Recorded(Run([a]), b);
  }

  /** And it is exported under labels that are shifted by one. */
  lemma ColonShiftsLabels(dest: string, code: string, ms: int)
    requires ':' !in dest && ':' !in code
    ensures var s := Sample("acme:web", "api", dest, code, ms);
            && Reported(RequestKey(s)) == ["acme", "web", "api", dest]
            && ReportedDuration(DurationKey(s)) == ["acme", "web", "api"]
  {
    var s := Sample("acme:web", "api", dest, code, ms);
    var five, four := ["acme", "web", "api", dest, code], ["acme", "web", "api", dest];
    JoinFront(four, code);
    assert four + [code] == five;
    JoinFront(["acme", "web", "api"], dest);
    assert ["acme", "web", "api"] + [dest] == four;
    JoinFront(["acme", "web"], "api");
    assert ["acme", "web"] + ["api"] == ["acme", "web", "api"];
    JoinFront(["acme"], "web");
    assert ["acme"] + ["web"] == ["acme", "web"];
    assert Join(["acme", "web"], ':') == "acme" + ":" + "web" == "acme:web";
    assert Join(four, ':') == DurationKey(s) && Join(five, ':') == RequestKey(s);
    SplitOfJoin(four, ':');
    SplitOfJoin(five, ':');
  }

  lemma {:induction false} JoinFront(parts: seq<string>, last: string)
    requires parts != []
    ensures Join(parts + [last], ':') == Join(parts, ':') + ":" + last
    decreases |parts|
  {
    if |parts| == 1 {
      assert (parts + [last])[1..] == [last];
    } else {
      JoinFront(parts[1..], last);
      assert (parts + [last])[1..] == parts[1..] + [last];
    }
  }
}
